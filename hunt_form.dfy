/**
 * The "create hunt" form: field edits, the ordered validation chain, the
 * payload sent to the hunt store, and the close guard while a request is
 * in flight.
 *
 * Dates are day numbers (`None` for an empty date field); the participant
 * field is an integer or `None` when the input is empty.
 */
module HuntForm {
  import opened Common
  import opened Text

  /** The form's fields. */
  datatype Form = Form(
    name: string,
    description: string,
    startDate: Option<int>,
    endDate: Option<int>,
    maxParticipants: Option<int>,
    location: string)

  /**
   * The form as it is first shown and after a successful submit; `today` is
   * the clock's date. Only its empty name keeps it from being accepted.
   */
  function InitialForm(today: int): (f: Form)
    ensures FirstFailure(f) == Some(NameCheck)
    ensures forall c :: c != NameCheck ==> Passes(f, c)
  {
    Form("", "", Some(today), Some(today), Some(10), "")
  }

  /** The key passed to `update`. */
  datatype FieldKey = NameKey | DescriptionKey | StartDateKey | EndDateKey | MaxParticipantsKey | LocationKey

  /** A field's value. */
  datatype FieldValue = TextValue(text: string) | Day(day: Option<int>) | Count(count: Option<int>)

  /** The value a key's control produces has the type of that field. */
  predicate FitsKey(key: FieldKey, value: FieldValue) {
    match key
    case NameKey | DescriptionKey | LocationKey => value.TextValue?
    case StartDateKey | EndDateKey => value.Day?
    case MaxParticipantsKey => value.Count?
  }

  /** `form[key]`. */
  function Get(form: Form, key: FieldKey): (v: FieldValue)
    ensures FitsKey(key, v)
  {
    match key
    case NameKey => TextValue(form.name)
    case DescriptionKey => TextValue(form.description)
    case StartDateKey => Day(form.startDate)
    case EndDateKey => Day(form.endDate)
    case MaxParticipantsKey => Count(form.maxParticipants)
    case LocationKey => TextValue(form.location)
  }

  /** `{ ...prev, [key]: value }`: field `key` takes the value; every other field is kept. */
  function WithField(form: Form, key: FieldKey, value: FieldValue): (r: Form)
    requires FitsKey(key, value)
    ensures Get(r, key) == value
    ensures forall k :: k != key ==> Get(r, k) == Get(form, k)
  {
    match key
    case NameKey => form.(name := value.text)
    case DescriptionKey => form.(description := value.text)
    case StartDateKey => form.(startDate := value.day)
    case EndDateKey => form.(endDate := value.day)
    case MaxParticipantsKey => form.(maxParticipants := value.count)
    case LocationKey => form.(location := value.text)
  }

  // ---------------------------------------------------------------------
  // Validation
  // ---------------------------------------------------------------------

  /** The checks of `validate`, in the order they run. */
  datatype Check = NameCheck | DatesPresentCheck | DateOrderCheck | ParticipantsCheck

  function Rank(c: Check): nat {
    match c
    case NameCheck => 0
    case DatesPresentCheck => 1
    case DateOrderCheck => 2
    case ParticipantsCheck => 3
  }

  /** `Number(form.maxParticipants)`: an empty field is 0. */
  function ParticipantNumber(field: Option<int>): int {
    if field.Some? then field.value else 0
  }

  /**
   * Whether a form passes one check on its own. The date order compares
   * missing dates as 0, as `validate` does (CreateHuntModal.jsx:33-34)
   * before it checks presence.
   */
  predicate Passes(form: Form, c: Check)
    ensures c == NameCheck ==>
      (Passes(form, c) <==> exists k :: 0 <= k < |form.name| && !IsWhitespace(form.name[k]))
    ensures c == DateOrderCheck && form.startDate.Some? && form.endDate.Some? ==>
      (Passes(form, c) <==> form.startDate.value <= form.endDate.value)
  {
    TrimEmptyIff(form.name);
    match c
    case NameCheck => Trim(form.name) != ""
    case DatesPresentCheck => form.startDate.Some? && form.endDate.Some?
    case DateOrderCheck =>
      var start := if form.startDate.Some? then form.startDate.value else 0;
      var end := if form.endDate.Some? then form.endDate.value else 0;
      !(end < start)
    case ParticipantsCheck => ParticipantNumber(form.maxParticipants) >= 1
  }

  /** The message shown when a check fails. */
  function Message(c: Check): (msg: string)
    ensures msg != ""
  {
    match c
    case NameCheck => "Nama hunt wajib diisi."
    case DatesPresentCheck => "Tanggal mulai dan selesai wajib diisi."
    case DateOrderCheck => "Tanggal selesai harus setelah tanggal mulai."
    case ParticipantsCheck => "Max peserta harus bilangan bulat minimal 1."
  }

  /** The first check the form fails, if any. */
  function FirstFailure(form: Form): (r: Option<Check>)
    ensures r.Some? ==> !Passes(form, r.value)
  {
    if !Passes(form, NameCheck) then Some(NameCheck)
    else if !Passes(form, DatesPresentCheck) then Some(DatesPresentCheck)
    else if !Passes(form, DateOrderCheck) then Some(DateOrderCheck)
    else if !Passes(form, ParticipantsCheck) then Some(ParticipantsCheck)
    else None
  }

  /** The form is accepted exactly when it passes all four checks. */
  lemma AcceptedIffAllPass(form: Form)
    ensures FirstFailure(form) == None <==> forall c :: Passes(form, c)
  {
    if FirstFailure(form) == None {
      forall c ensures Passes(form, c) {
        match c
        case NameCheck =>
        case DatesPresentCheck =>
        case DateOrderCheck =>
        case ParticipantsCheck =>
      }
    }
  }

  /** The check reported is one the form fails, and every earlier check passes. */
  lemma {:induction false} FirstFailureIsFirst(form: Form, c: Check)
    ensures FirstFailure(form) == Some(c) <==>
      !Passes(form, c) && forall e :: Rank(e) < Rank(c) ==> Passes(form, e)
  {
    if !Passes(form, c) && forall e :: Rank(e) < Rank(c) ==> Passes(form, e) {
      match c
      case NameCheck =>
      case DatesPresentCheck => assert Passes(form, NameCheck);
      case DateOrderCheck =>
        assert Passes(form, NameCheck) && Passes(form, DatesPresentCheck);
      case ParticipantsCheck =>
        assert Passes(form, NameCheck) && Passes(form, DatesPresentCheck);
        assert Passes(form, DateOrderCheck);
    }
  }

  /** Validation in terms of the fields: what each rejection means for the form. */
  lemma ValidationRules(form: Form)
    ensures (forall k :: 0 <= k < |form.name| ==> IsWhitespace(form.name[k])) ==>
      FirstFailure(form) == Some(NameCheck)
    ensures Trim(form.name) != "" && (form.startDate.None? || form.endDate.None?) ==>
      FirstFailure(form) == Some(DatesPresentCheck)
    ensures Trim(form.name) != "" && form.startDate.Some? && form.endDate.Some? ==>
      (FirstFailure(form) == Some(DateOrderCheck) <==> form.endDate.value < form.startDate.value)
    ensures FirstFailure(form) == None <==>
      && Trim(form.name) != ""
      && form.startDate.Some? && form.endDate.Some?
      && form.startDate.value <= form.endDate.value
      && form.maxParticipants.Some? && form.maxParticipants.value >= 1
  {
    TrimEmptyIff(form.name);
  }

  /** A hunt may end on the day it starts. */
  lemma SameDayAccepted(name: string, description: string, day: int, max: int, location: string)
    requires Trim(name) != "" && max >= 1
    ensures FirstFailure(Form(name, description, Some(day), Some(day), Some(max), location)) == None
  {
  }

  // ---------------------------------------------------------------------
  // Payload
  // ---------------------------------------------------------------------

  /** The object handed to the hunt store; optional fields are absent when empty. */
  datatype Payload = Payload(
    name: string,
    startDate: Option<int>,
    endDate: Option<int>,
    maxParticipants: int,
    description: Option<string>,
    location: Option<string>)

  /** A text field as it is sent: trimmed, and absent when nothing is left. */
  function OptionalText(field: string): Option<string> {
    if Trim(field) != "" then Some(Trim(field)) else None
  }

  /**
   * The payload `handleSubmit` sends: trimmed name, the dates as they are,
   * the participant count (10 when it is not a positive integer), and
   * description and location only when non-empty after trimming.
   */
  function PayloadOf(form: Form): (p: Payload)
    ensures p.name == Trim(form.name)
    ensures p.startDate == form.startDate && p.endDate == form.endDate
    ensures p.maxParticipants >= 1
    ensures form.maxParticipants.Some? && form.maxParticipants.value >= 1 ==>
      p.maxParticipants == form.maxParticipants.value
    ensures p.description.Some? <==> Trim(form.description) != ""
    ensures p.description.Some? ==> p.description.value == Trim(form.description)
    ensures p.location.Some? <==> Trim(form.location) != ""
    ensures p.location.Some? ==> p.location.value == Trim(form.location)
  {
    var max := ParticipantNumber(form.maxParticipants);
    Payload(Trim(form.name), form.startDate, form.endDate, if max >= 1 then max else 10,
            OptionalText(form.description), OptionalText(form.location))
  }

  /** The payload built step by step in `handleSubmit`, optional fields added one at a time. */
  method BuildPayload(form: Form) returns (p: Payload)
    ensures p == PayloadOf(form)
  {
    var max := ParticipantNumber(form.maxParticipants);
    p := Payload(Trim(form.name), form.startDate, form.endDate,
                 if max >= 1 then max else 10, None, None);
    if Trim(form.description) != "" {
      p := p.(description := Some(Trim(form.description)));
    }
    if Trim(form.location) != "" {
      p := p.(location := Some(Trim(form.location)));
    }
  }

  /** The status of the form's request. */
  datatype Status = Idle | Loading | Failed

  /** One `CreateHuntModal`: its form, status and message; `closeCalls` counts `onClose` calls. */
  class CreateHuntModal {
    var form: Form
    var status: Status
    var errorMessage: string
    var created: nat
    var closeCalls: nat

    constructor (today: int)
      ensures form == InitialForm(today) && status == Idle && errorMessage == ""
      ensures created == 0 && closeCalls == 0
    {
      form := InitialForm(today);
      status := Idle;
      errorMessage := "";
      created := 0;
      closeCalls := 0;
    }

    /** `update(key, value)`: one field changes and the message is cleared. */
    method Update(key: FieldKey, value: FieldValue)
      requires FitsKey(key, value)
      modifies this`form, this`errorMessage
      ensures form == WithField(old(form), key, value)
      ensures errorMessage == ""
    {
      form := WithField(form, key, value);
      errorMessage := "";
    }

    /** `validate`: the checks run in order and the first failure sets its message. */
    method Validate() returns (ok: bool)
      modifies this`errorMessage
      ensures ok <==> FirstFailure(form) == None
      ensures !ok ==> errorMessage == Message(FirstFailure(form).value)
      ensures ok ==> errorMessage == old(errorMessage)
    {
      var f := form;
      var failure := FirstFailure(f);
      if Trim(f.name) == "" {
        assert failure == Some(NameCheck);
        errorMessage := Message(NameCheck);
        return false;
      }
      var start := if f.startDate.Some? then f.startDate.value else 0;
      var end := if f.endDate.Some? then f.endDate.value else 0;
      if f.startDate.None? || f.endDate.None? {
        assert failure == Some(DatesPresentCheck);
        errorMessage := Message(DatesPresentCheck);
        return false;
      }
      if end < start {
        assert failure == Some(DateOrderCheck);
        errorMessage := Message(DateOrderCheck);
        return false;
      }
      var max := ParticipantNumber(f.maxParticipants);
      if max < 1 {
        assert failure == Some(ParticipantsCheck);
        errorMessage := Message(ParticipantsCheck);
        return false;
      }
      assert failure == None;
      return true;
    }

    /**
     * The synchronous part of `handleSubmit`: a form that fails validation
     * is not sent; otherwise the request starts and the payload is returned.
     */
    method Submit() returns (sent: Option<Payload>)
      modifies this`status, this`errorMessage
      ensures sent.None? <==> FirstFailure(form) != None
      ensures sent.None? ==> status == old(status) && errorMessage == Message(FirstFailure(form).value)
      ensures sent.Some? ==> status == Loading && errorMessage == ""
      ensures sent.Some? ==> sent == Some(PayloadOf(form))
    {
      var ok := Validate();
      if !ok {
        return None;
      }
      status := Loading;
      errorMessage := "";
      var p := BuildPayload(form);
      return Some(p);
    }

    /**
     * The store's answer to the request: an error is shown; success resets
     * the form, reports the hunt and closes the modal. An empty error
     * string is falsy and so counts as success.
     */
    method SubmitSettled(error: Option<string>, today: int)
      modifies this
      ensures error.Some? && error.value != "" ==>
        && status == Failed && errorMessage == error.value
        && form == old(form) && created == old(created) && closeCalls == old(closeCalls)
      ensures error.None? || error.value == "" ==>
        && status == Idle && form == InitialForm(today)
        && errorMessage == old(errorMessage)
        && created == old(created) + 1 && closeCalls == old(closeCalls) + 1
    {
      if error.Some? && error.value != "" {
        status := Failed;
        errorMessage := error.value;
        return;
      }
      status := Idle;
      form := InitialForm(today);
      created := created + 1;
      closeCalls := closeCalls + 1;
    }

    /** `handleClose`: ignored while loading; otherwise reset to idle, clear the message and close. */
    method HandleClose()
      modifies this`status, this`errorMessage, this`closeCalls
      ensures old(status) == Loading ==>
        status == old(status) && errorMessage == old(errorMessage) && closeCalls == old(closeCalls)
      ensures old(status) != Loading ==>
        status == Idle && errorMessage == "" && closeCalls == old(closeCalls) + 1
    {
      if status != Loading {
        status := Idle;
        errorMessage := "";
        closeCalls := closeCalls + 1;
      }
    }
  }
}
