/** The client's location provider: the permission and location-services
    predicates, one-shot location queries (last known fix, network fix, and
    the fallback from the first to the second), and the registration of
    continuous location updates. The platform's answers (granted
    permissions, provider switches, the fix a query would return) are
    parameters; the listener's calls are returned as a sequence of events,
    together with the device queries that were issued. */
module Locations {
  import opened Wrappers
  import opened Text

  datatype Permission = FineLocation | CoarseLocation

  /** Which of the two location permissions are granted. */
  datatype Permissions = Permissions(fine: bool, coarse: bool) {
    predicate Granted(p: Permission) {
      match p
      case FineLocation => fine
      case CoarseLocation => coarse
    }
  }

  datatype Location = Location(latitude: real, longitude: real)

  /** What a device query yields: a fix, a null fix, or a failure with the
      exception's message (which may be null). */
  datatype DeviceFix = FixAvailable(location: Location) | NoFix | FixFailed(message: Option<string>)

  /** A call the provider makes on its listener. */
  datatype LocationEvent = OnLocationResult(location: Location) | OnLocationError(error: string)

  /** A query issued to the fused location client. */
  datatype DeviceQuery = LastLocationQuery | CurrentLocationQuery

  /** The location manager's answer: the two provider switches, or an
      exception while asking. */
  datatype ProviderStatus = Providers(gps: bool, network: bool) | ServiceException

  datatype Priority = HighAccuracy | BalancedPowerAccuracy

  datatype UpdateRequest = UpdateRequest(priority: Priority, intervalMillis: nat, minUpdateIntervalMillis: nat, waitForAccurateLocation: bool)

  /** Identity of a registered update callback. */
  type CallbackId = nat

  const LocationPermissionRequestCode: int := 1001
  const LocationUpdateInterval: nat := 10000
  const FastestUpdateInterval: nat := 5000

  /** The request `startLocationUpdates` registers. */
  const TrackingRequest: UpdateRequest := UpdateRequest(HighAccuracy, LocationUpdateInterval, FastestUpdateInterval, true)

  /** `requestLocationPermission`: both permissions, under request code 1001. */
  const RequestedPermissions: seq<Permission> := [FineLocation, CoarseLocation]

  /** `hasLocationPermission()`. */
  predicate HasLocationPermission(perms: Permissions) {
    perms.fine || perms.coarse
  }

  /** `isLocationEnabled()`: an exception while asking counts as disabled. */
  predicate IsLocationEnabled(status: ProviderStatus) {
    match status
    case Providers(gps, network) => gps || network
    case ServiceException => false
  }

  /** `getLastKnownLocation(listener)`: the one call it makes on the listener. */
  function LastKnownOutcome(perms: Permissions, fix: DeviceFix): LocationEvent {
    if !HasLocationPermission(perms) then OnLocationError("Location permission not granted")
    else match fix
      case FixAvailable(l) => OnLocationResult(l)
      case NoFix => OnLocationError("No last known location available")
      case FixFailed(m) => OnLocationError("Failed to get location: " + JavaString(m))
  }

  /** `getNetworkLocation(listener)`: needs the coarse permission itself. */
  function NetworkOutcome(perms: Permissions, fix: DeviceFix): LocationEvent {
    if !perms.coarse then OnLocationError("Coarse location permission not granted")
    else match fix
      case FixAvailable(l) => OnLocationResult(l)
      case NoFix => OnLocationError("Failed to get network location")
      case FixFailed(m) => OnLocationError("Network location error: " + JavaString(m))
  }

  /** `getLocationWithFallback(listener)`: the last known fix, and on any
      error from it the network query, whose outcome is then final. */
  function FallbackOutcome(perms: Permissions, lastFix: DeviceFix, networkFix: DeviceFix): LocationEvent {
    match LastKnownOutcome(perms, lastFix)
    case OnLocationResult(l) => OnLocationResult(l)
    case OnLocationError(_) => NetworkOutcome(perms, networkFix)
  }

  function FallbackQueries(perms: Permissions, lastFix: DeviceFix): seq<DeviceQuery> {
    var first := if HasLocationPermission(perms) then [LastLocationQuery] else [];
    if LastKnownOutcome(perms, lastFix).OnLocationResult? then first
    else first + (if perms.coarse then [CurrentLocationQuery] else [])
  }

  /** The registration state: the callback the provider remembers, and the
      update registrations active on the fused location client. */
  datatype Tracking = Tracking(callback: Option<CallbackId>, active: map<CallbackId, UpdateRequest>)

  /** `startLocationUpdates(cb)`: without permission nothing happens. */
  function StartSpec(t: Tracking, perms: Permissions, cb: CallbackId): Tracking {
    if !HasLocationPermission(perms) then t
    else Tracking(Some(cb), t.active[cb := TrackingRequest])
  }

  /** `stopLocationUpdates()`: the remembered callback, if any, is
      unregistered and forgotten. */
  function StopSpec(t: Tracking): Tracking {
    match t.callback
    case None => t
    case Some(cb) => Tracking(None, t.active - {cb})
  }

  class LocationProvider {
    var locationCallback: Option<CallbackId>
    var activeUpdates: map<CallbackId, UpdateRequest>
    var executorShutdown: bool

    ghost function State(): Tracking
      reads this
    {
      Tracking(locationCallback, activeUpdates)
    }

    constructor ()
      ensures State() == Tracking(None, map[]) && !executorShutdown
    {
      locationCallback := None;
      activeUpdates := map[];
      executorShutdown := false;
    }

    /** `getLastKnownLocation(listener)`. */
    method GetLastKnownLocation(perms: Permissions, fix: DeviceFix) returns (events: seq<LocationEvent>, queries: seq<DeviceQuery>)
      ensures events == [LastKnownOutcome(perms, fix)]
      ensures queries == (if HasLocationPermission(perms) then [LastLocationQuery] else [])
    {
      if !HasLocationPermission(perms) {
        return [OnLocationError("Location permission not granted")], [];
      }
      queries := [LastLocationQuery];
      match fix
      case FixAvailable(l) => events := [OnLocationResult(l)];
      case NoFix => events := [OnLocationError("No last known location available")];
      case FixFailed(m) => events := [OnLocationError("Failed to get location: " + JavaString(m))];
    }

    /** `getNetworkLocation(listener)`. */
    method GetNetworkLocation(perms: Permissions, fix: DeviceFix) returns (events: seq<LocationEvent>, queries: seq<DeviceQuery>)
      ensures events == [NetworkOutcome(perms, fix)]
      ensures queries == (if perms.coarse then [CurrentLocationQuery] else [])
    {
      if !perms.Granted(CoarseLocation) {
        return [OnLocationError("Coarse location permission not granted")], [];
      }
      queries := [CurrentLocationQuery];
      match fix
      case FixAvailable(l) => events := [OnLocationResult(l)];
      case NoFix => events := [OnLocationError("Failed to get network location")];
      case FixFailed(m) => events := [OnLocationError("Network location error: " + JavaString(m))];
    }

    /** `getLocationWithFallback(listener)`: the intermediate listener
        forwards a result and turns an error into the network query. */
    method GetLocationWithFallback(perms: Permissions, lastFix: DeviceFix, networkFix: DeviceFix)
      returns (events: seq<LocationEvent>, queries: seq<DeviceQuery>)
      ensures events == [FallbackOutcome(perms, lastFix, networkFix)]
      ensures queries == FallbackQueries(perms, lastFix)
    {
      var first, q1 := GetLastKnownLocation(perms, lastFix);
      match first[0]
      case OnLocationResult(l) =>
        events, queries := [OnLocationResult(l)], q1;
      case OnLocationError(_) =>
        var second, q2 := GetNetworkLocation(perms, networkFix);
        events, queries := second, q1 + q2;
    }

    /** `startLocationUpdates(cb)`. */
    method StartLocationUpdates(perms: Permissions, cb: CallbackId)
      modifies this
      ensures State() == StartSpec(old(State()), perms, cb)
      ensures executorShutdown == old(executorShutdown)
    {
      if !HasLocationPermission(perms) {
        return;
      }
      locationCallback := Some(cb);
      activeUpdates := activeUpdates[cb := TrackingRequest];
    }

    /** `stopLocationUpdates()`. */
    method StopLocationUpdates()
      modifies this
      ensures State() == StopSpec(old(State()))
      ensures executorShutdown == old(executorShutdown)
    {
      if locationCallback.Some? {
        activeUpdates := activeUpdates - {locationCallback.value};
        locationCallback := None;
      }
    }

    /** `shutdown()`: stop the updates, then shut the executor down. */
    method Shutdown()
      modifies this
      ensures State() == StopSpec(old(State())) && executorShutdown
    {
      StopLocationUpdates();
      executorShutdown := true;
    }
  }

  /** Every query ends in exactly one listener call; a last-known success is
      forwarded and the network is never asked; any last-known error leads to
      exactly one network query (when the coarse permission allows it) whose
      outcome is final. */
  lemma FallbackChain(perms: Permissions, lastFix: DeviceFix, networkFix: DeviceFix)
    ensures LastKnownOutcome(perms, lastFix).OnLocationResult? ==>
      FallbackOutcome(perms, lastFix, networkFix) == LastKnownOutcome(perms, lastFix)
      && CurrentLocationQuery !in FallbackQueries(perms, lastFix)
    ensures LastKnownOutcome(perms, lastFix).OnLocationError? ==>
      FallbackOutcome(perms, lastFix, networkFix) == NetworkOutcome(perms, networkFix)
      && multiset(FallbackQueries(perms, lastFix))[CurrentLocationQuery] == (if perms.coarse then 1 else 0)
    ensures FallbackOutcome(perms, lastFix, networkFix).OnLocationResult? <==>
      (lastFix.FixAvailable? && HasLocationPermission(perms)) || (perms.coarse && networkFix.FixAvailable?)
  {
  }

  /** Without any permission, no device is asked and the listener's only
      call carries the network query's message, not the last-known one. */
  lemma NoPermissionReportsCoarseMessage(lastFix: DeviceFix, networkFix: DeviceFix)
    ensures FallbackOutcome(Permissions(false, false), lastFix, networkFix)
      == OnLocationError("Coarse location permission not granted")
    ensures FallbackQueries(Permissions(false, false), lastFix) == []
  {
  }

  /** Only the fine permission: the last known fix may be used, but the
      network fallback is refused. */
  lemma FineOnlyRefusesNetwork(lastFix: DeviceFix, networkFix: DeviceFix)
    requires !lastFix.FixAvailable?
    ensures HasLocationPermission(Permissions(true, false))
    ensures FallbackOutcome(Permissions(true, false), lastFix, networkFix)
      == OnLocationError("Coarse location permission not granted")
  {
  }

  /** Stopping is idempotent, and starting without permission registers
      nothing and keeps the remembered callback. */
  lemma TrackingRegistration(t: Tracking, perms: Permissions, cb: CallbackId)
    ensures StopSpec(StopSpec(t)) == StopSpec(t)
    ensures StopSpec(t).callback.None?
    ensures !HasLocationPermission(perms) ==> StartSpec(t, perms, cb) == t
    ensures HasLocationPermission(perms) ==>
      StartSpec(t, perms, cb).callback == Some(cb) && StartSpec(t, perms, cb).active[cb] == TrackingRequest
  {
  }

  /** Start then stop undoes a registration made on a fresh callback; a
      second start before a stop replaces the remembered callback, so the
      stop leaves the first registration active. */
  lemma StartStop(t: Tracking, perms: Permissions, a: CallbackId, b: CallbackId)
    requires HasLocationPermission(perms)
    ensures a !in t.active ==> StopSpec(StartSpec(t, perms, a)).active == t.active
    ensures a != b ==> a in StopSpec(StartSpec(StartSpec(t, perms, a), perms, b)).active
  {
  }

  /** The location-services predicate: enabled exactly when a provider is on. */
  lemma LocationEnabledCases(status: ProviderStatus)
    ensures IsLocationEnabled(status) <==> status.Providers? && (status.gps || status.network)
    ensures !IsLocationEnabled(ServiceException)
  {
  }
}
