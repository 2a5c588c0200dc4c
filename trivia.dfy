/**
 * The trivia challenge: three questions answered one at a time. A question
 * takes one answer; a correct answer scores a point; "next" moves on or,
 * on the last question, reports the score.
 */
module TriviaQuiz {
  import opened Common

  /** A question with its options and the index of the correct one. */
  datatype Question = Question(id: nat, question: string, options: seq<string>, correct: nat)

  /** `TRIVIA_QUESTIONS`. */
  const QUESTIONS: seq<Question> := [
    Question(1, "Monumen Nasional (Monas) dibangun pada masa pemerintahan presiden siapa?",
             ["Soekarno", "Soeharto", "B.J. Habibie", "Megawati"], 0),
    Question(2, "Tinggi tugu Monas adalah...",
             ["132 meter", "137 meter", "142 meter", "147 meter"], 1),
    Question(3, "Api abadi di puncak Monas melambangkan...",
             ["Semangat perjuangan bangsa", "Kemerdekaan Indonesia",
              "Lidah api perjuangan", "Semua jawaban benar"], 3)
  ]

  /** Every question's correct index names one of its options. */
  lemma QuestionsWellFormed()
    ensures |QUESTIONS| == 3
    ensures forall q :: q in QUESTIONS ==> |q.options| == 4 && q.correct < |q.options|
  {
  }

  /** The points an answer earns on a question. */
  function Points(q: Question, index: int): (p: nat)
    ensures p <= 1
    ensures p == 1 <==> index == q.correct
  {
    if index == q.correct then 1 else 0
  }

  /** One `Trivia` view. `reported` records every score passed to `onComplete`. */
  class Trivia {
    var currentIndex: nat
    var selectedAnswer: Option<int>
    var score: nat
    var showResult: bool
    var reported: seq<nat>
    /** How many questions have been answered so far. */
    ghost var answered: nat

    /**
     * The index stays on a question; the result is shown exactly when an
     * answer is selected; the score counts at most the answers given, and
     * those at most one per question reached.
     */
    ghost predicate Valid()
      reads this
    {
      && currentIndex < |QUESTIONS|
      && (showResult <==> selectedAnswer.Some?)
      && score <= answered
      && answered <= currentIndex + (if selectedAnswer.Some? then 1 else 0)
      && (forall k :: 0 <= k < |reported| ==> reported[k] <= |QUESTIONS|)
    }

    constructor ()
      ensures Valid()
      ensures currentIndex == 0 && selectedAnswer == None && score == 0 && !showResult
      ensures reported == []
    {
      currentIndex := 0;
      selectedAnswer := None;
      score := 0;
      showResult := false;
      reported := [];
      answered := 0;
    }

    /** `isLastQuestion`: the current index names a question and none follows it. */
    predicate IsLastQuestion()
      reads this
      ensures IsLastQuestion() <==> currentIndex < |QUESTIONS| && !(currentIndex + 1 < |QUESTIONS|)
    {
      currentIndex == |QUESTIONS| - 1
    }

    /** The "next" button is rendered only once the result is shown, i.e. after an answer. */
    function NextOffered(): (offered: bool)
      reads this
      requires Valid()
      ensures offered <==> selectedAnswer.Some?
    {
      showResult
    }

    /** `handleSelectAnswer`: the first answer to a question is kept and scored; later ones are ignored. */
    method SelectAnswer(index: int)
      requires Valid()
      modifies this
      ensures Valid()
      ensures old(selectedAnswer).Some? ==>
        selectedAnswer == old(selectedAnswer) && score == old(score) && showResult == old(showResult)
      ensures old(selectedAnswer).None? ==>
        && selectedAnswer == Some(index) && showResult
        && score == old(score) + Points(QUESTIONS[currentIndex], index)
      ensures currentIndex == old(currentIndex) && reported == old(reported)
    {
      if selectedAnswer.Some? {
        return;
      }
      selectedAnswer := Some(index);
      showResult := true;
      answered := answered + 1;
      if index == QUESTIONS[currentIndex].correct {
        score := score + 1;
      }
    }

    /** `handleNext`: on the last question the score is reported; otherwise the next question is shown. */
    method Next()
      requires Valid()
      modifies this
      ensures Valid()
      ensures old(IsLastQuestion()) ==>
        && reported == old(reported) + [old(score)]
        && currentIndex == old(currentIndex) && selectedAnswer == old(selectedAnswer)
        && score == old(score) && showResult == old(showResult)
      ensures !old(IsLastQuestion()) ==>
        && currentIndex == old(currentIndex) + 1
        && selectedAnswer == None && !showResult
        && score == old(score) && reported == old(reported)
    {
      if IsLastQuestion() {
        reported := reported + [score];
      } else {
        currentIndex := currentIndex + 1;
        selectedAnswer := None;
        showResult := false;
      }
    }
  }

  /** Whatever the state, the score never exceeds the number of questions. */
  lemma ScoreBounded(t: Trivia)
    requires t.Valid()
    ensures t.score <= |QUESTIONS|
    ensures t.currentIndex <= 2
  {
  }

  /**
   * A run with answer `answers[i]` to question i, pressing "next" after
   * each: `onComplete` is called once, with the number of correct answers.
   */
  method PlayRun(answers: seq<int>) returns (reported: seq<nat>)
    requires |answers| == |QUESTIONS|
    ensures reported == [Points(QUESTIONS[0], answers[0]) + Points(QUESTIONS[1], answers[1])
                         + Points(QUESTIONS[2], answers[2])]
  {
    var t := new Trivia();
    t.SelectAnswer(answers[0]);
    t.Next();
    t.SelectAnswer(answers[1]);
    t.Next();
    t.SelectAnswer(answers[2]);
    t.Next();
    reported := t.reported;
  }
}
