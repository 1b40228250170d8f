/** The immutable error value the client hands from the data layer to the
    presentation layer. */
module ErrorStates {
  import opened Wrappers
  import opened Text
  import opened ErrorTypes

  /** All fields are final and there are no setters: a value type. The
      construction timestamp is a clock reading and is not stored here. */
  datatype ErrorState = ErrorState(
    errorType: ErrorType,
    message: string,
    throwable: Option<Throwable>,
    isCritical: bool)

  /** The four-argument constructor: a null message is replaced by the
      type's default message. */
  function NewErrorState(t: ErrorType, message: Option<string>, throwable: Option<Throwable>, isCritical: bool): (e: ErrorState)
  {
    ErrorState(t, message.GetOr(Message(t)), throwable, isCritical)
  }

  /** The two-argument constructor: no throwable, not critical. */
  function NewErrorStateWithMessage(t: ErrorType, message: Option<string>): (e: ErrorState)
  {
    NewErrorState(t, message, None, false)
  }

  /** The one-argument constructor: the type's own message. */
  function NewErrorStateOfType(t: ErrorType): (e: ErrorState)
  {
    NewErrorState(t, Some(Message(t)), None, false)
  }

  /** The four-argument constructor keeps type, throwable and criticality as
      given and keeps a given message; a null message becomes the type's
      default message, so the message is never absent and, when defaulted,
      never empty. */
  lemma NewErrorStateFields(t: ErrorType, message: Option<string>, throwable: Option<Throwable>, isCritical: bool)
    ensures var e := NewErrorState(t, message, throwable, isCritical);
      && e.errorType == t && e.throwable == throwable && e.isCritical == isCritical
      && (message.Some? ==> e.message == message.value)
      && (message.None? ==> e.message == Message(t) && e.message != "")
  {
    MessagesIdentifyTheType(t, t);
  }

  /** The shorter constructors are the four-argument one with defaults: the
      one-argument form equals the two-argument form with a null message,
      and both have no throwable and are not critical. */
  lemma ShortConstructorsAreDefaults(t: ErrorType, message: Option<string>)
    ensures NewErrorStateOfType(t) == NewErrorStateWithMessage(t, None)
    ensures NewErrorStateWithMessage(t, message).throwable.None?
    ensures !NewErrorStateWithMessage(t, message).isCritical
    ensures NewErrorStateOfType(t).message == Message(t)
  {
  }

  /** `toString()`; `timestamp` is the clock reading taken at construction. */
  function ToString(e: ErrorState, timestamp: int): string {
    "ErrorState{errorType=" + Name(e.errorType)
    + ", message='" + e.message + "'"
    + ", isCritical=" + BoolToString(e.isCritical)
    + ", timestamp=" + IntToString(timestamp)
    + "}"
  }

  /** The rendering opens with the type's name, quotes the message right
      after it, and is closed by a brace. */
  lemma ToStringShape(e: ErrorState, timestamp: int)
    ensures var s := ToString(e, timestamp);
      var head := "ErrorState{errorType=" + Name(e.errorType) + ", message='";
      && |head| <= |s| && s[..|head|] == head
      && s[|head|..|head| + |e.message|] == e.message
      && s[|s| - 1] == '}'
  {
    var head := "ErrorState{errorType=" + Name(e.errorType) + ", message='";
    var quoted := head + e.message;
    var x1 := quoted + "'" + ", isCritical=";
    var x2 := x1 + BoolToString(e.isCritical) + ", timestamp=";
    var x3 := x2 + IntToString(timestamp);
    assert ToString(e, timestamp) == x3 + "}";
    AppendKeepsPrefix(quoted, x1, BoolToString(e.isCritical) + ", timestamp=");
    assert x2 == x1 + (BoolToString(e.isCritical) + ", timestamp=");
    AppendKeepsPrefix(quoted, x2, IntToString(timestamp));
    AppendKeepsPrefix(quoted, x3, "}");
    assert quoted[..|head|] == head;
    assert quoted[|head|..|head| + |e.message|] == e.message;
  }

  /** A prefix of x is a prefix of every extension of x. */
  lemma AppendKeepsPrefix(p: string, x: string, y: string)
    requires |p| <= |x| && x[..|p|] == p
    ensures |p| <= |x + y| && (x + y)[..|p|] == p
  {
    assert (x + y)[..|p|] == x[..|p|];
  }
}
