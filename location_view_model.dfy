/** The location view model: publishes the permission state, the current
    location, a location error text and a loading flag, driven by the
    location provider. The background execution of a fetch is taken as
    completed within the call. */
module LocationViewModels {
  import opened Wrappers
  import opened Locations

  const PermissionRequiredMessage: string := "Location permission required"
  const EnableServicesMessage: string := "Please enable location services"
  const EnableGpsMessage: string := "Please enable GPS"

  /** The view model's observable state. */
  datatype LocationVmState = LocationVmState(
    currentLocation: Option<Location>,
    locationError: Option<string>,
    isLoading: bool,
    hasPermission: bool)

  /** `checkPermissions()`: the permission flag is published; an error is set
      for a missing permission or, with permission, for disabled services,
      and left as it was otherwise. */
  function CheckSpec(s: LocationVmState, perms: Permissions, status: ProviderStatus): LocationVmState {
    var granted := HasLocationPermission(perms);
    var s1 := s.(hasPermission := granted);
    if !granted then s1.(locationError := Some(PermissionRequiredMessage))
    else if !IsLocationEnabled(status) then s1.(locationError := Some(EnableServicesMessage))
    else s1
  }

  /** `fetchCurrentLocation()`: loading on and error cleared, then the
      permission gate, the services gate, and the fallback query. */
  function FetchSpec(s: LocationVmState, perms: Permissions, status: ProviderStatus,
                     lastFix: DeviceFix, networkFix: DeviceFix): LocationVmState {
    var s1 := s.(isLoading := true, locationError := None);
    if !HasLocationPermission(perms) then s1.(locationError := Some(PermissionRequiredMessage), isLoading := false)
    else if !IsLocationEnabled(status) then s1.(locationError := Some(EnableGpsMessage), isLoading := false)
    else Settle(s1, FallbackOutcome(perms, lastFix, networkFix))
  }

  /** The listener of a fetch: a location is taken, an error text shown,
      and either way loading ends. */
  function Settle(s: LocationVmState, e: LocationEvent): LocationVmState {
    match e
    case OnLocationResult(l) => s.(currentLocation := Some(l), locationError := None, isLoading := false)
    case OnLocationError(m) => s.(locationError := Some(m), isLoading := false)
  }

  /** The device queries a fetch issues: none when a gate fails. */
  function FetchQueries(perms: Permissions, status: ProviderStatus, lastFix: DeviceFix): seq<DeviceQuery> {
    if HasLocationPermission(perms) && IsLocationEnabled(status) then FallbackQueries(perms, lastFix) else []
  }

  class LocationViewModel {
    const provider: LocationProvider
    var currentLocation: Option<Location>
    var locationError: Option<string>
    var isLoading: bool
    var hasPermission: bool
    /** The identity the next tracking callback gets. */
    var nextCallback: CallbackId
    var executorShutdown: bool

    ghost function State(): LocationVmState
      reads this
    {
      LocationVmState(currentLocation, locationError, isLoading, hasPermission)
    }

    /** A new view model with its own provider: not loading, then
        `checkPermissions()`. */
    constructor (perms: Permissions, status: ProviderStatus)
      ensures fresh(provider) && provider.State() == Tracking(None, map[])
      ensures State() == CheckSpec(LocationVmState(None, None, false, false), perms, status)
    {
      provider := new LocationProvider();
      currentLocation, locationError := None, None;
      isLoading, hasPermission := false, false;
      nextCallback := 0;
      executorShutdown := false;
      new;
      CheckPermissions(perms, status);
    }

    /** `checkPermissions()`. */
    method CheckPermissions(perms: Permissions, status: ProviderStatus)
      modifies this
      ensures State() == CheckSpec(old(State()), perms, status)
      ensures nextCallback == old(nextCallback) && executorShutdown == old(executorShutdown)
    {
      var granted := HasLocationPermission(perms);
      hasPermission := granted;
      if granted {
        var enabled := IsLocationEnabled(status);
        if !enabled {
          locationError := Some(EnableServicesMessage);
        }
      } else {
        locationError := Some(PermissionRequiredMessage);
      }
    }

    /** `fetchCurrentLocation()`; returns the device queries issued. */
    method FetchCurrentLocation(perms: Permissions, status: ProviderStatus, lastFix: DeviceFix, networkFix: DeviceFix)
      returns (queries: seq<DeviceQuery>)
      modifies this
      ensures State() == FetchSpec(old(State()), perms, status, lastFix, networkFix)
      ensures queries == FetchQueries(perms, status, lastFix)
      ensures nextCallback == old(nextCallback) && executorShutdown == old(executorShutdown)
    {
      isLoading := true;
      locationError := None;
      if !HasLocationPermission(perms) {
        locationError := Some(PermissionRequiredMessage);
        isLoading := false;
        queries := [];
      } else if !IsLocationEnabled(status) {
        locationError := Some(EnableGpsMessage);
        isLoading := false;
        queries := [];
      } else {
        var events;
        events, queries := provider.GetLocationWithFallback(perms, lastFix, networkFix);
        OnFetchOutcome(events[0]);
      }
    }

    /** The fetch listener reacting to the provider's single answer. */
    method OnFetchOutcome(e: LocationEvent)
      modifies this
      ensures State() == Settle(old(State()), e)
      ensures nextCallback == old(nextCallback) && executorShutdown == old(executorShutdown)
    {
      match e
      case OnLocationResult(l) =>
        currentLocation := Some(l);
        locationError := None;
        isLoading := false;
      case OnLocationError(m) =>
        locationError := Some(m);
        isLoading := false;
    }

    /** `startLocationTracking()`: without permission the error is set and
        nothing is registered; with it a new callback is registered. */
    method StartLocationTracking(perms: Permissions)
      modifies this, provider
      ensures !HasLocationPermission(perms) ==>
        State() == old(State()).(locationError := Some(PermissionRequiredMessage))
        && provider.State() == old(provider.State()) && nextCallback == old(nextCallback)
      ensures HasLocationPermission(perms) ==>
        State() == old(State()) && nextCallback == old(nextCallback) + 1
        && provider.State() == StartSpec(old(provider.State()), perms, old(nextCallback))
      ensures provider.executorShutdown == old(provider.executorShutdown) && executorShutdown == old(executorShutdown)
    {
      if !HasLocationPermission(perms) {
        locationError := Some(PermissionRequiredMessage);
        return;
      }
      var cb := nextCallback;
      nextCallback := nextCallback + 1;
      provider.StartLocationUpdates(perms, cb);
    }

    /** A tracking callback's `onLocationResult`: only a non-null last
        location is published. */
    method OnTrackingResult(lastLocation: Option<Location>)
      modifies this
      ensures State() == old(State()).(currentLocation := if lastLocation.Some? then lastLocation else old(currentLocation))
      ensures nextCallback == old(nextCallback) && executorShutdown == old(executorShutdown)
    {
      if lastLocation.Some? {
        currentLocation := lastLocation;
      }
    }

    /** `clearError()`: only the error is reset. */
    method ClearError()
      modifies this
      ensures State() == old(State()).(locationError := None)
      ensures nextCallback == old(nextCallback) && executorShutdown == old(executorShutdown)
    {
      locationError := None;
    }

    /** `updateLocation(l)`: the location channel set as given (possibly
        null). */
    method UpdateLocation(l: Option<Location>)
      modifies this
      ensures State() == old(State()).(currentLocation := l)
      ensures nextCallback == old(nextCallback) && executorShutdown == old(executorShutdown)
    {
      currentLocation := l;
    }

    /** `onCleared()`: the provider shut down, then the own executor. */
    method OnCleared()
      modifies this, provider
      ensures provider.State() == StopSpec(old(provider.State())) && provider.executorShutdown
      ensures executorShutdown && State() == old(State())
    {
      provider.Shutdown();
      executorShutdown := true;
    }
  }

  /** `checkPermissions` publishes exactly the provider's answer, reports a
      missing permission before looking at the services, and touches neither
      the location nor the loading flag. */
  lemma CheckPermissionsOutcomes(s: LocationVmState, perms: Permissions, status: ProviderStatus)
    ensures var s2 := CheckSpec(s, perms, status);
      && s2.hasPermission == HasLocationPermission(perms)
      && s2.currentLocation == s.currentLocation && s2.isLoading == s.isLoading
      && (!HasLocationPermission(perms) ==> s2.locationError == Some(PermissionRequiredMessage))
      && (HasLocationPermission(perms) && !IsLocationEnabled(status) ==> s2.locationError == Some(EnableServicesMessage))
      && (HasLocationPermission(perms) && IsLocationEnabled(status) ==> s2.locationError == s.locationError)
  {
  }

  /** Every completion path of a fetch ends with loading off; a failed gate
      asks no device; a success publishes the location and clears the
      error; an error keeps the previous location. */
  lemma FetchOutcomes(s: LocationVmState, perms: Permissions, status: ProviderStatus, lastFix: DeviceFix, networkFix: DeviceFix)
    ensures var s2 := FetchSpec(s, perms, status, lastFix, networkFix);
      && !s2.isLoading && s2.hasPermission == s.hasPermission
      && (!HasLocationPermission(perms) ==> s2.locationError == Some(PermissionRequiredMessage) && s2.currentLocation == s.currentLocation)
      && (HasLocationPermission(perms) && !IsLocationEnabled(status) ==> s2.locationError == Some(EnableGpsMessage) && s2.currentLocation == s.currentLocation)
      && (!(HasLocationPermission(perms) && IsLocationEnabled(status)) ==> FetchQueries(perms, status, lastFix) == [])
      && (s2.locationError.None? <==> HasLocationPermission(perms) && IsLocationEnabled(status) && FallbackOutcome(perms, lastFix, networkFix).OnLocationResult?)
  {
  }

  /** With both gates open the published outcome is the provider's fallback
      outcome: the location on success, the error text otherwise. */
  lemma FetchFollowsFallback(s: LocationVmState, perms: Permissions, status: ProviderStatus, lastFix: DeviceFix, networkFix: DeviceFix)
    requires HasLocationPermission(perms) && IsLocationEnabled(status)
    ensures var s2 := FetchSpec(s, perms, status, lastFix, networkFix);
      match FallbackOutcome(perms, lastFix, networkFix)
      case OnLocationResult(l) => s2.currentLocation == Some(l) && s2.locationError.None?
      case OnLocationError(m) => s2.currentLocation == s.currentLocation && s2.locationError == Some(m)
  {
  }
}
