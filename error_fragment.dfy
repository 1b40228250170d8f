/** The full-screen error page: the title, icon and button visibility chosen
    from the error type, and what a click on Retry does. The views
    themselves are not modelled; the page is described by the values it
    would display. */
module ErrorScreen {
  import opened Wrappers
  import opened ErrorTypes
  import opened ErrorStates
  import opened ErrorHandling

  /** The drawable groups the page chooses between. */
  datatype Icon = NoWifiIcon | ServerErrorIcon | LocationOffIcon | DataErrorIcon | GenericErrorIcon

  /** `getErrorTitle`. */
  function Title(t: ErrorType): string {
    match t
    case NetworkUnavailable | NetworkTimeout => "No Internet Connection"
    case ServerUnavailable | ServerError => "Server Error"
    case LocationPermissionDenied => "Location Permission Required"
    case LocationServicesDisabled => "Location Services Disabled"
    case InvalidData => "Data Error"
    case _ => "Something Went Wrong"
  }

  /** `getErrorIcon`. */
  function IconFor(t: ErrorType): Icon {
    match t
    case NetworkUnavailable | NetworkTimeout => NoWifiIcon
    case ServerUnavailable | ServerError => ServerErrorIcon
    case LocationPermissionDenied | LocationServicesDisabled => LocationOffIcon
    case InvalidData => DataErrorIcon
    case _ => GenericErrorIcon
  }

  /** `shouldShowRetryButton`. */
  predicate RetryButtonVisible(t: ErrorType) {
    t != LocationPermissionDenied && t != ApiKeyMissing
  }

  /** The settings button is offered only for a denied permission. */
  predicate SettingsButtonVisible(t: ErrorType) {
    t == LocationPermissionDenied
  }

  /** What the page shows. The details text (type name, time, exception) is
      not modelled, only whether it is visible. */
  datatype Page = Page(title: string, message: string, icon: Icon, detailsVisible: bool,
                       retryVisible: bool, settingsVisible: bool)

  /** `setupErrorDisplay` and `setupButtons`: a null error state sets up
      nothing; details are shown only in a debug build and only when there
      is a throwable. */
  function Setup(e: Option<ErrorState>, debugBuild: bool): Option<Page> {
    match e
    case None => None
    case Some(s) =>
      Some(Page(Title(s.errorType), s.message, IconFor(s.errorType),
                debugBuild && s.throwable.Some?,
                RetryButtonVisible(s.errorType), SettingsButtonVisible(s.errorType)))
  }

  datatype ClickEffect = RunRetryAction | NavigateBack

  /** The Retry click: the action runs only when one was given, and the
      page always navigates back afterwards. */
  function RetryClick(hasRetryAction: bool): (r: seq<ClickEffect>)
    ensures |r| >= 1 && r[|r| - 1] == NavigateBack
    ensures RunRetryAction in r <==> hasRetryAction
  {
    (if hasRetryAction then [RunRetryAction] else []) + [NavigateBack]
  }

  /** The Retry button follows the same rule as the handler's
      `isRetryPossible`, and Settings appears only for a denied permission,
      where Retry never does. */
  lemma ButtonsAgreeWithHandler(e: ErrorState)
    ensures RetryButtonVisible(e.errorType) <==> IsRetryPossible(e)
    ensures SettingsButtonVisible(e.errorType) ==> !RetryButtonVisible(e.errorType)
  {
  }

  /** Titles and icons group the types alike, except that the two location
      types have their own titles but share one icon. */
  lemma TitlesAndIconsGroupAlike(a: ErrorType, b: ErrorType)
    ensures Title(a) == Title(b) ==> IconFor(a) == IconFor(b)
    ensures IconFor(a) == IconFor(b) && Title(a) != Title(b) ==>
      {a, b} == {LocationPermissionDenied, LocationServicesDisabled}
  {
  }

  /** The generic title covers exactly the types with no entry of their own. */
  lemma GenericTitle(t: ErrorType)
    ensures Title(t) == "Something Went Wrong" <==>
      t in {LocationUnavailable, UnknownError, ApiKeyMissing, JsonParsingError, GpsUnavailable, CityNotFound}
  {
  }

  /** A null error state sets up nothing; otherwise the page shows the error
      state's own message, the title and icon of its type, the details
      exactly in a debug build for an error that carries a throwable, and
      the two buttons as its type decides. */
  lemma SetupShowsTheError(e: Option<ErrorState>, debugBuild: bool)
    ensures Setup(None, debugBuild).None?
    ensures e.Some? ==>
      && Setup(e, debugBuild).Some?
      && Setup(e, debugBuild).value.message == e.value.message
      && Setup(e, debugBuild).value.title == Title(e.value.errorType)
      && Setup(e, debugBuild).value.icon == IconFor(e.value.errorType)
      && Setup(e, debugBuild).value.detailsVisible == (debugBuild && e.value.throwable.Some?)
      && Setup(e, debugBuild).value.retryVisible == RetryButtonVisible(e.value.errorType)
      && Setup(e, debugBuild).value.settingsVisible == SettingsButtonVisible(e.value.errorType)
  {
  }
}
