/** The closed error taxonomy of the Android client and the classification
    of thrown exceptions into it. */
module ErrorTypes {
  import opened Wrappers

  /** The thirteen constants of the enumeration, in declaration order. */
  datatype ErrorType =
    | NetworkUnavailable
    | NetworkTimeout
    | ServerUnavailable
    | ServerError
    | LocationPermissionDenied
    | LocationServicesDisabled
    | LocationUnavailable
    | InvalidData
    | UnknownError
    | ApiKeyMissing
    | JsonParsingError
    | GpsUnavailable
    | CityNotFound

  /** Every constant once, in declaration order (the enumeration's `values()`). */
  const AllErrorTypes: seq<ErrorType> := [
    NetworkUnavailable, NetworkTimeout, ServerUnavailable, ServerError,
    LocationPermissionDenied, LocationServicesDisabled, LocationUnavailable,
    InvalidData, UnknownError, ApiKeyMissing, JsonParsingError, GpsUnavailable,
    CityNotFound
  ]

  /** The default message each constant is declared with (`getMessage`). */
  function Message(t: ErrorType): string {
    match t
    case NetworkUnavailable => "No internet connection"
    case NetworkTimeout => "Network timeout"
    case ServerUnavailable => "Server is not available"
    case ServerError => "Server error"
    case LocationPermissionDenied => "Location permission denied"
    case LocationServicesDisabled => "Location services disabled"
    case LocationUnavailable => "Unable to get location"
    case InvalidData => "Invalid data received"
    case UnknownError => "Unknown error occurred"
    case ApiKeyMissing => "API key is missing"
    case JsonParsingError => "Failed to parse data"
    case GpsUnavailable => "GPS is not available"
    case CityNotFound => "City not found"
  }

  /** The constant's Java name (`name()`, and `toString()` of an enum). */
  function Name(t: ErrorType): string {
    match t
    case NetworkUnavailable => "NETWORK_UNAVAILABLE"
    case NetworkTimeout => "NETWORK_TIMEOUT"
    case ServerUnavailable => "SERVER_UNAVAILABLE"
    case ServerError => "SERVER_ERROR"
    case LocationPermissionDenied => "LOCATION_PERMISSION_DENIED"
    case LocationServicesDisabled => "LOCATION_SERVICES_DISABLED"
    case LocationUnavailable => "LOCATION_UNAVAILABLE"
    case InvalidData => "INVALID_DATA"
    case UnknownError => "UNKNOWN_ERROR"
    case ApiKeyMissing => "API_KEY_MISSING"
    case JsonParsingError => "JSON_PARSING_ERROR"
    case GpsUnavailable => "GPS_UNAVAILABLE"
    case CityNotFound => "CITY_NOT_FOUND"
  }

  /** The enumeration is closed: thirteen distinct constants, and every value
      of the type is one of them. */
  lemma EnumerationIsClosed(t: ErrorType)
    ensures |AllErrorTypes| == 13
    ensures forall i, j :: 0 <= i < j < |AllErrorTypes| ==> AllErrorTypes[i] != AllErrorTypes[j]
    ensures t in AllErrorTypes
    ensures GpsUnavailable in AllErrorTypes
  {
  }

  /** Default messages are never empty and tell the constants apart. */
  lemma MessagesIdentifyTheType(a: ErrorType, b: ErrorType)
    ensures Message(a) != ""
    ensures Message(a) == Message(b) ==> a == b
  {
  }

  /** The names tell the constants apart. */
  lemma NamesIdentifyTheType(a: ErrorType, b: ErrorType)
    ensures Name(a) == Name(b) ==> a == b
  {
  }

  /** The concrete classes of the exceptions a request can fail with. The
      Java hierarchy puts UnknownHostException and SocketTimeoutException
      under IOException; JsonSyntaxException is an unchecked exception. */
  datatype ExceptionClass =
    | UnknownHostException
    | SocketTimeoutException
    | OtherIOException
    | JsonSyntaxException
    | OtherException

  /** `instanceof IOException`. */
  predicate IsIOException(c: ExceptionClass) {
    c.UnknownHostException? || c.SocketTimeoutException? || c.OtherIOException?
  }

  /** A thrown exception: its class and its (possibly null) message. */
  datatype Throwable = Throwable(cls: ExceptionClass, message: Option<string>)

  /** `ErrorType.fromThrowable`: the ordered `instanceof` chain. */
  function FromThrowable(t: Throwable): ErrorType {
    if t.cls.UnknownHostException? then NetworkUnavailable
    else if t.cls.SocketTimeoutException? then NetworkTimeout
    else if IsIOException(t.cls) then NetworkUnavailable
    else if t.cls.JsonSyntaxException? then JsonParsingError
    else UnknownError
  }

  /** The four kinds `fromThrowable` can produce. */
  predicate IsThrowableKind(e: ErrorType) {
    e == NetworkUnavailable || e == NetworkTimeout || e == JsonParsingError || e == UnknownError
  }

  /** The classification, class by class: host resolution and every other
      I/O failure are "no network", a timeout is a timeout although it is an
      I/O failure too, a JSON syntax failure is a parsing error, and anything
      else is unknown. Only the four kinds above ever come out. */
  lemma FromThrowableByClass(t: Throwable)
    ensures t.cls == UnknownHostException ==> FromThrowable(t) == NetworkUnavailable
    ensures t.cls == SocketTimeoutException ==> IsIOException(t.cls) && FromThrowable(t) == NetworkTimeout
    ensures t.cls == OtherIOException ==> FromThrowable(t) == NetworkUnavailable
    ensures t.cls == JsonSyntaxException ==> !IsIOException(t.cls) && FromThrowable(t) == JsonParsingError
    ensures t.cls == OtherException ==> FromThrowable(t) == UnknownError
    ensures IsThrowableKind(FromThrowable(t))
    ensures FromThrowable(t) == NetworkUnavailable <==> IsIOException(t.cls) && !t.cls.SocketTimeoutException?
  {
  }

  /** The classification ignores the exception's message. */
  lemma FromThrowableIgnoresMessage(t: Throwable, m: Option<string>)
    ensures FromThrowable(t.(message := m)) == FromThrowable(t)
  {
  }
}
