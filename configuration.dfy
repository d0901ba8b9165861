/**
 * The options bag the host application supplies once at start-up; every service reads
 * it and none changes it. Optional fields are `Option`s (absent means `undefined`).
 */
module Configuration {
  import opened Wrappers

  /** One tracker: the endpoint URL and the numeric site id. */
  datatype TrackerEntry = TrackerEntry(trackerUrl: string, siteId: int)

  /** The `routeTracking` sub-object. */
  datatype RouteTracking = RouteTracking(enable: bool, contentIds: Option<seq<string>>)

  datatype Config = Config(
    scriptUrl: Option<string>,
    scriptVersion: int,
    trackers: Option<seq<TrackerEntry>>,
    requireConsent: Option<bool>,
    requireCookieConsent: Option<bool>,
    skipTrackingInitialPageView: Option<bool>,
    trackLinks: Option<bool>,
    trackLinkValue: Option<bool>,
    routeTracking: Option<RouteTracking>)

  /** JavaScript's `!!s` for an optional string: present and non-empty. */
  predicate Truthy(s: Option<string>) {
    s.Some? && s.value != ""
  }

  /** `configuration?.routeTracking?.contentIds`, with an absent list read as empty. */
  function ContentIds(config: Config): seq<string> {
    if config.routeTracking.Some? && config.routeTracking.value.contentIds.Some?
    then config.routeTracking.value.contentIds.value
    else []
  }
}
