/**
 * The form-validation package: stand-alone checks on submitted values and the
 * `Validator` accumulator that records, per request, at most one message per
 * field and an ordered list of form-level messages.
 *
 * Strings are sequences of Unicode code points, so Go's
 * `utf8.RuneCountInString` is the length of the sequence.
 */
module validator {
  import opened GoTypes
  import opened unicode
  import opened strings
  import opened utf8

  // ---------------------------------------------------------------------------
  // Stand-alone checks
  // ---------------------------------------------------------------------------

  /** True unless the value is empty or consists of whitespace only. */
  function NotBlank(value: string): (r: bool)
    ensures r <==> exists i :: 0 <= i < |value| && !IsSpace(value[i])
  {
    TrimSpace(value) != ""
  }

  /** True if the value has no more than n characters. */
  function MaxChars(value: string, n: Int): (r: bool)
    ensures r <==> |value| <= n
  {
    RuneCount(value) <= n
  }

  /** True if the value has at least n characters. */
  function MinChars(value: string, n: Int): (r: bool)
    ensures r <==> |value| >= n
  {
    RuneCount(value) >= n
  }

  /**
   * The two length checks are complementary. The bound n + 1 must itself be
   * a Go int: at n == MaxInt the sum would wrap around.
   */
  lemma MaxCharsIsNotMinCharsPlusOne(value: string, n: Int)
    requires n < MaxInt
    ensures MaxChars(value, n) == !MinChars(value, n + 1)
  {
  }

  /** True if value is one of the permitted values; a linear scan with early return. */
  method PermittedInt(value: Int, permittedValues: seq<Int>) returns (permitted: bool)
    ensures permitted <==> exists i :: 0 <= i < |permittedValues| && permittedValues[i] == value
    ensures permittedValues == [] ==> !permitted
  {
    for i := 0 to |permittedValues|
      invariant forall j :: 0 <= j < i ==> permittedValues[j] != value
    {
      if value == permittedValues[i] {
        return true;
      }
    }
    return false;
  }

  // ---------------------------------------------------------------------------
  // The accumulated errors, as a value
  // ---------------------------------------------------------------------------

  /** What a `Validator` holds: form-level messages in order, and one message per field. */
  datatype Errors = Errors(nonField: seq<string>, field: map<string, string>)

  /** No form-level and no field message has been recorded. */
  predicate NoErrors(e: Errors)
  {
    e.nonField == [] && e.field == map[]
  }

  /** The effect of `AddNonFieldError(message)`. */
  function AddNonField(e: Errors, message: string): (r: Errors)
    ensures r.field == e.field
    ensures |r.nonField| == |e.nonField| + 1
    ensures r.nonField[..|e.nonField|] == e.nonField && r.nonField[|e.nonField|] == message
    ensures !NoErrors(r)
  {
    e.(nonField := e.nonField + [message])
  }

  /** The effect of `AddFieldError(key, message)`: the first message recorded for a field wins. */
  function AddField(e: Errors, key: string, message: string): (r: Errors)
    ensures r.nonField == e.nonField
    ensures r.field.Keys == e.field.Keys + {key}
    ensures key in e.field ==> r.field[key] == e.field[key]
    ensures key !in e.field ==> r.field[key] == message
    ensures forall k :: k in e.field ==> r.field[k] == e.field[k]
    ensures !NoErrors(r)
  {
    if key in e.field then e else e.(field := e.field[key := message])
  }

  /** The effect of `CheckField(ok, key, message)`. */
  function Check(e: Errors, ok: bool, key: string, message: string): (r: Errors)
    ensures ok ==> r == e
    ensures !ok ==> r == AddField(e, key, message)
    ensures r.nonField == e.nonField
  {
    if ok then e else AddField(e, key, message)
  }

  // ---------------------------------------------------------------------------
  // Sequences of calls on one Validator
  // ---------------------------------------------------------------------------

  /** One call on a `Validator` that may change it. */
  datatype Call =
    | AddNonFieldErrorCall(message: string)
    | AddFieldErrorCall(key: string, message: string)
    | CheckFieldCall(ok: bool, key: string, message: string)

  /** The effect of one call. */
  function Apply(e: Errors, c: Call): Errors
  {
    match c
    case AddNonFieldErrorCall(m) => AddNonField(e, m)
    case AddFieldErrorCall(k, m) => AddField(e, k, m)
    case CheckFieldCall(ok, k, m) => Check(e, ok, k, m)
  }

  /** The effect of a sequence of calls, made in order. */
  function Replay(e: Errors, calls: seq<Call>): Errors
    decreases |calls|
  {
    if calls == [] then e else Replay(Apply(e, calls[0]), calls[1..])
  }

  /** Whether a call records a message (a passing `CheckField` records none). */
  predicate Records(c: Call)
  {
    match c
    case AddNonFieldErrorCall(_) => true
    case AddFieldErrorCall(_, _) => true
    case CheckFieldCall(ok, _, _) => !ok
  }

  /** The field message a call would record for key, if any. */
  function FieldMessage(c: Call, key: string): Option<string>
  {
    match c
    case AddNonFieldErrorCall(_) => None
    case AddFieldErrorCall(k, m) => if k == key then Some(m) else None
    case CheckFieldCall(ok, k, m) => if !ok && k == key then Some(m) else None
  }

  /** The message of the first call in calls that records one for key. */
  function FirstFieldMessage(calls: seq<Call>, key: string): Option<string>
    decreases |calls|
  {
    if calls == [] then None
    else if FieldMessage(calls[0], key).Some? then FieldMessage(calls[0], key)
    else FirstFieldMessage(calls[1..], key)
  }

  /** The form-level messages the calls record, in call order. */
  function NonFieldMessages(calls: seq<Call>): seq<string>
    decreases |calls|
  {
    if calls == [] then []
    else
      (match calls[0]
       case AddNonFieldErrorCall(m) => [m]
       case _ => []) + NonFieldMessages(calls[1..])
  }

  /** The message held for key, if any. */
  function Lookup(m: map<string, string>, key: string): Option<string>
  {
    if key in m then Some(m[key]) else None
  }

  /** Form-level messages are appended in call order and never reordered or dropped. */
  lemma {:induction false} ReplayNonField(e: Errors, calls: seq<Call>)
    ensures Replay(e, calls).nonField == e.nonField + NonFieldMessages(calls)
    decreases |calls|
  {
    if calls != [] {
      ReplayNonField(Apply(e, calls[0]), calls[1..]);
      match calls[0]
      case AddNonFieldErrorCall(m) =>
        assert Apply(e, calls[0]).nonField == e.nonField + [m];
      case AddFieldErrorCall(_, _) =>
      case CheckFieldCall(_, _, _) =>
    }
  }

  /**
   * First failure wins over a whole sequence of calls: a field keeps the
   * message it already had, and otherwise gets the message of the first
   * call that records one for it.
   */
  lemma {:induction false} ReplayField(e: Errors, calls: seq<Call>, key: string)
    ensures Lookup(Replay(e, calls).field, key)
         == if key in e.field then Some(e.field[key]) else FirstFieldMessage(calls, key)
    decreases |calls|
  {
    if calls != [] {
      var e' := Apply(e, calls[0]);
      ReplayField(e', calls[1..], key);
      match calls[0]
      case AddNonFieldErrorCall(_) =>
      case AddFieldErrorCall(k, m) =>
      case CheckFieldCall(ok, k, m) =>
    }
  }

  /** After a sequence of calls the errors are empty iff they were and no call recorded anything. */
  lemma {:induction false} ReplayNoErrors(e: Errors, calls: seq<Call>)
    ensures NoErrors(Replay(e, calls))
        <==> NoErrors(e) && forall i :: 0 <= i < |calls| ==> !Records(calls[i])
    decreases |calls|
  {
    if calls != [] {
      var e' := Apply(e, calls[0]);
      ReplayNoErrors(e', calls[1..]);
      assert forall i :: 1 <= i < |calls| ==> calls[i] == calls[1..][i - 1];
      match calls[0]
      case AddNonFieldErrorCall(_) =>
      case AddFieldErrorCall(_, _) =>
      case CheckFieldCall(ok, _, _) =>
    }
  }

  /** Once a message has been recorded, no further call makes the errors empty again. */
  lemma ReplayStaysInvalid(e: Errors, calls: seq<Call>)
    requires !NoErrors(e)
    ensures !NoErrors(Replay(e, calls))
  {
    ReplayNoErrors(e, calls);
  }

  // ---------------------------------------------------------------------------
  // The accumulator
  // ---------------------------------------------------------------------------

  /**
   * `Validator`: form-level messages, and the first message recorded for
   * each field. The zero value (no messages) is what the constructor gives.
   */
  class Validator {
    var nonFieldErrors: seq<string>
    var fieldErrors: map<string, string>

    /** The errors held, as a value. */
    function State(): Errors
      reads this
    {
      Errors(nonFieldErrors, fieldErrors)
    }

    constructor ()
      ensures nonFieldErrors == [] && fieldErrors == map[]
      ensures Valid()
    {
      nonFieldErrors := [];
      fieldErrors := map[];
    }

    /** True iff no field message and no form-level message has been recorded. */
    function Valid(): (valid: bool)
      reads this
      ensures valid <==> nonFieldErrors == [] && forall k :: k !in fieldErrors
      ensures valid <==> NoErrors(State())
    {
      |fieldErrors| == 0 && |nonFieldErrors| == 0
    }

    /** Appends a form-level message; field messages are untouched. */
    method AddNonFieldError(message: string)
      modifies this
      ensures nonFieldErrors == old(nonFieldErrors) + [message]
      ensures fieldErrors == old(fieldErrors)
      ensures State() == AddNonField(old(State()), message)
      ensures !Valid()
    {
      nonFieldErrors := nonFieldErrors + [message];
    }

    /**
     * Records message for key unless key already has one. Go allocates the
     * map lazily here; a nil map and an empty one read alike.
     */
    method AddFieldError(key: string, message: string)
      modifies this
      ensures key in old(fieldErrors) ==> fieldErrors == old(fieldErrors)
      ensures key !in old(fieldErrors) ==> fieldErrors == old(fieldErrors)[key := message]
      ensures nonFieldErrors == old(nonFieldErrors)
      ensures State() == AddField(old(State()), key, message)
      ensures !Valid()
    {
      if key !in fieldErrors {
        fieldErrors := fieldErrors[key := message];
      }
    }

    /** Records message for key only when the check failed. */
    method CheckField(ok: bool, key: string, message: string)
      modifies this
      ensures ok ==> nonFieldErrors == old(nonFieldErrors) && fieldErrors == old(fieldErrors)
      ensures !ok ==> State() == AddField(old(State()), key, message)
      ensures State() == Check(old(State()), ok, key, message)
      ensures !ok ==> !Valid()
    {
      if !ok {
        AddFieldError(key, message);
      }
    }
  }
}
