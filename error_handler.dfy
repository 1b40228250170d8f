/** The client's error handler: it builds ErrorState values, logs every one
    of them, forwards some of them to the server, and answers the
    presentation questions (full error screen? retry possible?). The
    connectivity probe it also offers is a platform oracle and appears in
    this model as a boolean parameter of its callers. */
module ErrorHandling {
  import opened Wrappers
  import opened Text
  import opened ErrorTypes
  import opened ErrorStates

  /** The detailed message for an error built from a throwable: the type's
      message, plus a per-type hint when there is a throwable. */
  function DetailedErrorMessage(t: ErrorType, throwable: Option<Throwable>): string {
    var base := Message(t);
    if throwable.None? then base
    else match t
      case NetworkUnavailable => base + ". Please check your internet connection."
      case NetworkTimeout => base + ". The request took too long."
      case ServerUnavailable => base + ". Please try again later."
      case LocationPermissionDenied => base + ". Go to settings to enable permissions."
      case LocationServicesDisabled => base + ". Please enable GPS."
      case InvalidData =>
        if throwable.value.message.Some? then base + ": " + throwable.value.message.value else base
      case _ => base
  }

  /** Without a throwable the detailed message is the type's message; with one
      it always starts with the type's message, and it is longer than it
      exactly for the five hinted types and for invalid data whose throwable
      carries a message. */
  lemma DetailedErrorMessageExtendsBase(t: ErrorType, throwable: Option<Throwable>)
    ensures var d := DetailedErrorMessage(t, throwable);
      && |Message(t)| <= |d| && d[..|Message(t)|] == Message(t)
      && (throwable.None? ==> d == Message(t))
      && (|d| > |Message(t)| <==>
            throwable.Some? &&
            (t in {NetworkUnavailable, NetworkTimeout, ServerUnavailable, LocationPermissionDenied, LocationServicesDisabled}
             || (t == InvalidData && throwable.value.message.Some?)))
  {
  }

  /** The network hint, and the invalid-data rule: base + ": " + the
      throwable's message, or the base alone when that message is null. */
  lemma DetailedErrorMessageExamples(th: Throwable, m: string)
    ensures DetailedErrorMessage(NetworkUnavailable, Some(th))
      == Message(NetworkUnavailable) + ". Please check your internet connection."
    ensures DetailedErrorMessage(InvalidData, Some(th.(message := Some(m))))
      == Message(InvalidData) + ": " + m
    ensures DetailedErrorMessage(InvalidData, Some(th.(message := None))) == Message(InvalidData)
    ensures DetailedErrorMessage(JsonParsingError, Some(th)) == Message(JsonParsingError)
  {
  }

  /** `shouldShowErrorScreen`: a critical error, or an unreachable server or
      network, replaces the content with the error screen. */
  predicate ShouldShowErrorScreen(e: ErrorState) {
    e.isCritical || e.errorType == ServerUnavailable || e.errorType == NetworkUnavailable
  }

  /** `isRetryPossible`: every type except a denied permission and a missing
      API key can be retried. */
  predicate IsRetryPossible(e: ErrorState) {
    e.errorType != LocationPermissionDenied && e.errorType != ApiKeyMissing
  }

  /** Every logged error is also sent to the server unless it is a
      connectivity problem (no network, timeout). */
  predicate ShouldForward(e: ErrorState) {
    e.errorType != NetworkUnavailable && e.errorType != NetworkTimeout
  }

  /** The errors of `logged` that are forwarded, in order. */
  function Forwardable(logged: seq<ErrorState>): (r: seq<ErrorState>)
    ensures |r| <= |logged|
    ensures forall e :: e in r ==> e in logged && ShouldForward(e)
    ensures forall e :: e in logged && ShouldForward(e) ==> e in r
  {
    if logged == [] then []
    else
      var last := logged[|logged| - 1];
      Forwardable(logged[..|logged| - 1]) + (if ShouldForward(last) then [last] else [])
  }

  /** The retry affordance and the screen decision, type by type: only the
      two types that need the user's action elsewhere lose the retry, and a
      non-critical error gets the full screen exactly for the two
      "unreachable" types. */
  lemma RoutingPredicates(e: ErrorState)
    ensures !IsRetryPossible(e) <==> e.errorType in {LocationPermissionDenied, ApiKeyMissing}
    ensures !e.isCritical ==> (ShouldShowErrorScreen(e) <==> e.errorType in {ServerUnavailable, NetworkUnavailable})
    ensures e.isCritical ==> ShouldShowErrorScreen(e)
    ensures !ShouldForward(e) <==> e.errorType in {NetworkUnavailable, NetworkTimeout}
  {
  }

  /** The handler's observable effects: `logged` is every error handled so
      far (the log file and the system log), `forwarded` the ones sent to the
      server. */
  class ErrorHandler {
    var logged: seq<ErrorState>
    var forwarded: seq<ErrorState>

    /** Forwarding follows logging: exactly the forwardable logged errors,
        in the order they were logged, went to the server. */
    ghost predicate Valid()
      reads this
    {
      forwarded == Forwardable(logged)
    }

    constructor ()
      ensures Valid() && logged == [] && forwarded == []
    {
      logged := [];
      forwarded := [];
    }

    /** `logError`: log, then forward unless it is a connectivity error. */
    method LogError(e: ErrorState)
      requires Valid()
      modifies this
      ensures Valid()
      ensures logged == old(logged) + [e]
      ensures forwarded == old(forwarded) + (if ShouldForward(e) then [e] else [])
    {
      logged := logged + [e];
      if ShouldForward(e) {
        forwarded := forwarded + [e];
      }
      assert logged[..|logged| - 1] == old(logged);
    }

    /** `handleError(throwable, isCritical)`: the type comes from the
        throwable's class, the message is the detailed message, and the
        throwable is kept. */
    method HandleThrowable(th: Throwable, isCritical: bool) returns (e: ErrorState)
      requires Valid()
      modifies this
      ensures Valid()
      ensures e == NewErrorState(FromThrowable(th), Some(DetailedErrorMessage(FromThrowable(th), Some(th))), Some(th), isCritical)
      ensures logged == old(logged) + [e]
      ensures forwarded == old(forwarded) + (if ShouldForward(e) then [e] else [])
    {
      var t := FromThrowable(th);
      var detailed := DetailedErrorMessage(t, Some(th));
      e := NewErrorState(t, Some(detailed), Some(th), isCritical);
      LogError(e);
    }

    /** `handleError(type, message, isCritical)`: no throwable; a null
        message becomes the type's message. */
    method HandleTypeWithMessage(t: ErrorType, message: Option<string>, isCritical: bool) returns (e: ErrorState)
      requires Valid()
      modifies this
      ensures Valid()
      ensures e == NewErrorState(t, message, None, isCritical)
      ensures logged == old(logged) + [e]
      ensures forwarded == old(forwarded) + (if ShouldForward(e) then [e] else [])
    {
      e := NewErrorState(t, message, None, isCritical);
      LogError(e);
    }

    /** `handleError(type, isCritical)`: the three-argument form with a null
        message. */
    method HandleType(t: ErrorType, isCritical: bool) returns (e: ErrorState)
      requires Valid()
      modifies this
      ensures Valid()
      ensures e == ErrorState(t, Message(t), None, isCritical)
      ensures logged == old(logged) + [e]
      ensures forwarded == old(forwarded) + (if ShouldForward(e) then [e] else [])
    {
      e := HandleTypeWithMessage(t, None, isCritical);
    }
  }

  /** What `handleError(throwable, c)` produces, stated per class: only the
      four throwable kinds occur, with their hints, the throwable kept and
      the criticality as given. */
  lemma HandledThrowableState(th: Throwable, c: bool)
    ensures var e := NewErrorState(FromThrowable(th), Some(DetailedErrorMessage(FromThrowable(th), Some(th))), Some(th), c);
      && e.throwable == Some(th) && e.isCritical == c && IsThrowableKind(e.errorType)
      && (th.cls == SocketTimeoutException ==>
            e.message == Message(NetworkTimeout) + ". The request took too long.")
      && (IsIOException(th.cls) && th.cls != SocketTimeoutException ==>
            e.message == Message(NetworkUnavailable) + ". Please check your internet connection.")
      && (th.cls == JsonSyntaxException ==> e.message == Message(JsonParsingError))
      && (th.cls == OtherException ==> e.message == Message(UnknownError))
      && (ShouldForward(e) <==> !IsIOException(th.cls))
  {
    FromThrowableByClass(th);
  }
}
