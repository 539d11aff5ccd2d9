/**
 * Field-length validation of a submitted listen (listens/entities/listen.py).
 * Every rule is evaluated; the violations are reported together, keyed by
 * field name, in the order the rules run: `note` first, then `listener_name`.
 */
module ListenEntity {
  import opened Wrappers
  import opened Definitions
  import opened Decimal

  const MAX_NOTE_LENGTH: nat := 100
  const MAX_NAME_LENGTH: nat := 30

  /** The note rule fires for a note that is present, non-empty and too long. */
  predicate NoteTooLong(listenInput: ListenInput) {
    listenInput.note.Some? && |listenInput.note.value| > MAX_NOTE_LENGTH
  }

  /** The name rule fires for a listener name that is too long. */
  predicate NameTooLong(listenInput: ListenInput) {
    |listenInput.listenerName| > MAX_NAME_LENGTH
  }

  function NoteMessage(note: string): string {
    "note length " + NatToDecimal(|note|) + " exceeds max: " + NatToDecimal(MAX_NOTE_LENGTH) + "."
  }

  function NameMessage(listenerName: string): string {
    "listener_name length " + NatToDecimal(|listenerName|) + " exceeds max: "
      + NatToDecimal(MAX_NAME_LENGTH) + "."
  }

  /** The keys of the report, in order. */
  function Fields(reason: InvalidReason): (keys: seq<string>)
    ensures |keys| == |reason.errorMessageByField|
    ensures forall i :: 0 <= i < |keys| ==> keys[i] == reason.errorMessageByField[i].0
  {
    seq(|reason.errorMessageByField|, i requires 0 <= i < |reason.errorMessageByField| =>
      reason.errorMessageByField[i].0)
  }

  /** The message the report holds for `field`, if it has that key. */
  function MessageFor(reason: InvalidReason, field: string): Option<string>
    decreases |reason.errorMessageByField|
  {
    var entries := reason.errorMessageByField;
    if entries == [] then None
    else if entries[0].0 == field then Some(entries[0].1)
    else MessageFor(InvalidReason(entries[1..]), field)
  }

  /** The fields whose rule fires for `listenInput`, in checking order. */
  function ExpectedFields(listenInput: ListenInput): seq<string> {
    (if NoteTooLong(listenInput) then ["note"] else [])
      + (if NameTooLong(listenInput) then ["listener_name"] else [])
  }

  /**
   * check_invalid: None when no rule fires; otherwise a non-empty report with
   * exactly one entry per violated field, in checking order, each carrying
   * the message for that field.
   */
  method CheckInvalid(listenInput: ListenInput) returns (r: Option<InvalidReason>)
    ensures r.None? <==> !NoteTooLong(listenInput) && !NameTooLong(listenInput)
    ensures r.Some? ==> |r.value.errorMessageByField| > 0
    ensures r.Some? ==> Fields(r.value) == ExpectedFields(listenInput)
    ensures r.Some? ==>
              MessageFor(r.value, "note")
                == if NoteTooLong(listenInput) then Some(NoteMessage(listenInput.note.value)) else None
    ensures r.Some? ==>
              MessageFor(r.value, "listener_name")
                == if NameTooLong(listenInput) then Some(NameMessage(listenInput.listenerName)) else None
  {
    var errorMessageByField: seq<(string, string)> := [];
    if listenInput.note.Some? && listenInput.note.value != []
      && |listenInput.note.value| > MAX_NOTE_LENGTH
    {
      errorMessageByField := errorMessageByField + [("note", NoteMessage(listenInput.note.value))];
    }
    if |listenInput.listenerName| > MAX_NAME_LENGTH {
      errorMessageByField := errorMessageByField
        + [("listener_name", NameMessage(listenInput.listenerName))];
    }

    if errorMessageByField != [] {
      r := Some(InvalidReason(errorMessageByField));
      assert InvalidReason(errorMessageByField[1..]).errorMessageByField == errorMessageByField[1..];
      return;
    }
    r := None;
  }

  /** The cases of listens/entities/listen_test.py, derived from CheckInvalid's contract alone. */
  method CheckInvalidCases() {
    var base := ListenInput("0aq7ohTG6VDYQvsnAYtA5e", Spotify, "geez", 1542002018, None, "Asia/Tokyo");

    var r := CheckInvalid(base.(listenerName := seq(31, _ => 'a')));
    assert r.Some? && Fields(r.value) == ["listener_name"];
    r := CheckInvalid(base.(listenerName := seq(30, _ => 'a')));
    assert r.None?;
    r := CheckInvalid(base.(listenerName := seq(29, _ => 'a')));
    assert r.None?;

    r := CheckInvalid(base.(note := Some(seq(101, _ => 'a'))));
    assert r.Some? && Fields(r.value) == ["note"];
    r := CheckInvalid(base.(note := Some(seq(100, _ => 'a'))));
    assert r.None?;
    r := CheckInvalid(base.(note := Some(seq(99, _ => 'a'))));
    assert r.None?;

    r := CheckInvalid(base.(note := Some(seq(101, _ => 'a')), listenerName := seq(31, _ => 'a')));
    assert r.Some? && Fields(r.value) == ["note", "listener_name"];
  }
}
