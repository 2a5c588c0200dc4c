/**
 * Level progression on the map page: the list of unlocked levels starts
 * as [1], and completing level L unlocks L + 1 by inserting it into the
 * list, which is then sorted ascending.
 */
module MapProgress {

  /** The unlocked levels before anything is completed. */
  const INITIAL_UNLOCKED: seq<int> := [1]

  predicate SortedAscending(s: seq<int>) {
    forall i, j :: 0 <= i < j < |s| ==> s[i] <= s[j]
  }

  predicate StrictlyAscending(s: seq<int>) {
    forall i, j :: 0 <= i < j < |s| ==> s[i] < s[j]
  }

  /** `x` inserted into a list before its first element not smaller than `x`. */
  function InsertSorted(x: int, s: seq<int>): seq<int> {
    if s == [] || x <= s[0] then [x] + s
    else [s[0]] + InsertSorted(x, s[1..])
  }

  /** Inserting adds exactly one occurrence of `x`. */
  lemma {:induction false} InsertSortedMultiset(x: int, s: seq<int>)
    ensures multiset(InsertSorted(x, s)) == multiset(s) + multiset{x}
  {
    if s != [] && x > s[0] {
      InsertSortedMultiset(x, s[1..]);
      assert s == [s[0]] + s[1..];
    }
  }

  /** A sorted list stays sorted with an element no larger than any of its own put in front. */
  lemma SortedCons(a: int, t: seq<int>)
    requires SortedAscending(t)
    requires forall k :: 0 <= k < |t| ==> a <= t[k]
    ensures SortedAscending([a] + t)
  {
    var r := [a] + t;
    forall i, j | 0 <= i < j < |r| ensures r[i] <= r[j] {
      assert r[j] == t[j - 1];
      if i > 0 {
        assert r[i] == t[i - 1];
      }
    }
  }

  /** Every element of the insertion is `x` or an element of `s`, so a common lower bound survives. */
  lemma InsertSortedBounded(x: int, s: seq<int>, b: int)
    requires b <= x && forall k :: 0 <= k < |s| ==> b <= s[k]
    ensures forall k :: 0 <= k < |InsertSorted(x, s)| ==> b <= InsertSorted(x, s)[k]
  {
    var r := InsertSorted(x, s);
    InsertSortedMultiset(x, s);
    forall k | 0 <= k < |r| ensures b <= r[k] {
      assert r[k] in multiset(s) + multiset{x};
    }
  }

  /** Inserting into a sorted list keeps it sorted. */
  lemma {:induction false} InsertSortedSorted(x: int, s: seq<int>)
    requires SortedAscending(s)
    ensures SortedAscending(InsertSorted(x, s))
  {
    if s == [] {
      SortedCons(x, s);
    } else if x <= s[0] {
      assert forall k :: 0 <= k < |s| ==> s[0] <= s[k];
      SortedCons(x, s);
    } else {
      var tail := s[1..];
      assert SortedAscending(tail) by {
        forall i, j | 0 <= i < j < |tail| ensures tail[i] <= tail[j] {
          assert tail[i] == s[i + 1] && tail[j] == s[j + 1];
        }
      }
      assert forall k :: 0 <= k < |tail| ==> s[0] <= tail[k] by {
        forall k | 0 <= k < |tail| ensures s[0] <= tail[k] {
          assert tail[k] == s[k + 1];
        }
      }
      InsertSortedSorted(x, tail);
      InsertSortedBounded(x, tail, s[0]);
      SortedCons(s[0], InsertSorted(x, tail));
    }
  }

  /** Inserting an element no smaller than any other appends it. */
  lemma {:induction false} InsertLargest(x: int, s: seq<int>)
    requires SortedAscending(s)
    requires forall k :: 0 <= k < |s| ==> s[k] <= x
    ensures InsertSorted(x, s) == s + [x]
  {
    if s != [] && x > s[0] {
      InsertLargest(x, s[1..]);
      assert s == [s[0]] + s[1..];
    } else if s != [] {
      assert x == s[0];
      assert s[0] <= s[|s| - 1] <= x;
      if |s| > 1 {
        InsertLargest(x, s[1..]);
      }
      assert forall k :: 0 <= k < |s| ==> s[k] == x;
      assert [x] + s == s + [x];
    }
  }

  /** Sorting a list that is already sorted leaves it as it is. */
  lemma {:induction false} SortSortedUnchanged(s: seq<int>)
    requires SortedAscending(s)
    ensures SortAscending(s) == s
  {
    if s != [] {
      var init, last := s[..|s| - 1], s[|s| - 1];
      assert SortedAscending(init) by {
        forall i, j | 0 <= i < j < |init| ensures init[i] <= init[j] {
          assert init[i] == s[i] && init[j] == s[j];
        }
      }
      assert forall k :: 0 <= k < |init| ==> init[k] <= last by {
        forall k | 0 <= k < |init| ensures init[k] <= last {
          assert init[k] == s[k];
        }
      }
      SortSortedUnchanged(init);
      InsertLargest(last, init);
      assert init + [last] == s;
    }
  }

  /** `array.sort((a, b) => a - b)` on integers: the same elements, ascending. */
  function SortAscending(s: seq<int>): (r: seq<int>)
    ensures SortedAscending(r)
    ensures multiset(r) == multiset(s)
  {
    if s == [] then []
    else
      assert s == s[..|s| - 1] + [s[|s| - 1]];
      var init := SortAscending(s[..|s| - 1]);
      InsertSortedSorted(s[|s| - 1], init);
      InsertSortedMultiset(s[|s| - 1], init);
      InsertSorted(s[|s| - 1], init)
  }

  /**
   * The `setUnlockedLevels` updater for completing `levelId`: the list
   * is kept as it is when `levelId + 1` is already unlocked; otherwise
   * `levelId + 1` is appended and the list sorted.
   */
  function UnlockAfter(prev: seq<int>, levelId: int): (updated: seq<int>)
    ensures levelId + 1 in updated
    ensures levelId + 1 in prev ==> updated == prev
    ensures levelId + 1 !in prev ==>
      && SortedAscending(updated)
      && multiset(updated) == multiset(prev) + multiset{levelId + 1}
      && |updated| == |prev| + 1
    ensures forall l :: l in updated <==> l in prev || l == levelId + 1
  {
    var next := levelId + 1;
    if next in prev then prev
    else
      var sorted := SortAscending(prev + [next]);
      assert forall l :: l in sorted <==> l in multiset(prev + [next]);
      sorted
  }

  /** Completing the same level twice is the same as completing it once. */
  lemma UnlockIdempotent(prev: seq<int>, levelId: int)
    ensures UnlockAfter(UnlockAfter(prev, levelId), levelId) == UnlockAfter(prev, levelId)
  {
  }

  /** A list without repeats that is sorted is strictly ascending. */
  lemma {:induction false} SortedDistinctIsStrict(s: seq<int>)
    requires SortedAscending(s)
    requires forall x :: x in multiset(s) ==> multiset(s)[x] == 1
    ensures StrictlyAscending(s)
  {
    forall i, j | 0 <= i < j < |s| ensures s[i] < s[j] {
      EqualPairCountsTwice(s, i, j);
    }
  }

  lemma EqualPairCountsTwice(s: seq<int>, i: nat, j: nat)
    requires i < j < |s|
    ensures s[i] == s[j] ==> multiset(s)[s[i]] >= 2
  {
    assert s == s[..i] + [s[i]] + s[i + 1..j] + [s[j]] + s[j + 1..];
  }

  /** A strictly ascending list holds each level once. */
  lemma {:induction false} StrictHasNoRepeats(s: seq<int>, x: int)
    requires StrictlyAscending(s)
    ensures multiset(s)[x] <= 1
  {
    if s != [] {
      assert s == [s[0]] + s[1..];
      StrictHasNoRepeats(s[1..], x);
      assert s[0] !in s[1..];
    }
  }

  /**
   * Starting from [1], the unlocked list stays strictly ascending: it
   * never holds a level twice, whatever levels are completed.
   */
  lemma {:induction false} UnlockKeepsStrict(prev: seq<int>, levelId: int)
    requires StrictlyAscending(prev)
    ensures StrictlyAscending(UnlockAfter(prev, levelId))
  {
    var next := levelId + 1;
    if next !in prev {
      var updated := UnlockAfter(prev, levelId);
      forall x | x in multiset(updated) ensures multiset(updated)[x] == 1 {
        StrictHasNoRepeats(prev, x);
      }
      SortedDistinctIsStrict(updated);
    }
  }

  /** The map page's `unlockedLevels` state. */
  class Progress {
    var unlockedLevels: seq<int>

    /** `useState([1])`. */
    constructor ()
      ensures unlockedLevels == INITIAL_UNLOCKED
    {
      unlockedLevels := INITIAL_UNLOCKED;
    }

    /** The page is opened with `?completed=levelId`. */
    method CompleteLevel(levelId: int)
      modifies this
      ensures unlockedLevels == UnlockAfter(old(unlockedLevels), levelId)
      ensures levelId + 1 in unlockedLevels
      ensures forall l :: l in old(unlockedLevels) ==> l in unlockedLevels
    {
      unlockedLevels := UnlockAfter(unlockedLevels, levelId);
    }
  }

  /** Completing the highest unlocked level appends the next one. */
  lemma {:induction false} UnlockNextAppends(prev: seq<int>, levelId: int)
    requires SortedAscending(prev)
    requires forall k :: 0 <= k < |prev| ==> prev[k] <= levelId
    ensures UnlockAfter(prev, levelId) == prev + [levelId + 1]
  {
    var s := prev + [levelId + 1];
    assert SortedAscending(s);
    SortSortedUnchanged(s);
  }

  /** The levels 1..n, ascending. */
  function LevelsUpTo(n: nat): (levels: seq<int>)
    ensures |levels| == n
    ensures forall i :: 0 <= i < n ==> levels[i] == i + 1
  {
    seq(n, i => i + 1)
  }

  /** The unlocked list after completing `completed` in turn, one page visit each, starting from `prev`. */
  function CompleteInTurn(prev: seq<int>, completed: seq<int>): seq<int> {
    if completed == [] then prev
    else UnlockAfter(CompleteInTurn(prev, completed[..|completed| - 1]), completed[|completed| - 1])
  }

  /** With levels 1..n unlocked, completing level n unlocks level n + 1 at the end. */
  lemma UnlockNextLevel(n: nat)
    ensures UnlockAfter(LevelsUpTo(n), n) == LevelsUpTo(n + 1)
  {
    UnlockNextAppends(LevelsUpTo(n), n);
    assert LevelsUpTo(n) + [n + 1] == LevelsUpTo(n + 1);
  }

  /** Completing levels 1, 2, ..., n in turn from the start unlocks exactly levels 1..n + 1, in order. */
  lemma {:induction false} PlayThroughUnlocksAll(n: nat)
    ensures CompleteInTurn(INITIAL_UNLOCKED, LevelsUpTo(n)) == LevelsUpTo(n + 1)
  {
    if n == 0 {
      assert LevelsUpTo(1) == [1];
    } else {
      var levels := LevelsUpTo(n);
      assert levels[..n - 1] == LevelsUpTo(n - 1);
      PlayThroughUnlocksAll(n - 1);
      UnlockNextLevel(n);
    }
  }
}
