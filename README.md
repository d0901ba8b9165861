# ngx-pmatomo core, modelled in Dafny

This project models the three services of the Angular Matomo integration that talk to the
Matomo command queue `window['_paq']`:

- **MatomoTracker** (`tracker.dfy`). Every tracking method builds one command `[name, ...args]`
  and pushes it onto the queue inside a `try` whose `catch` swallows a `ReferenceError` (no
  `window`, as under server-side rendering) and re-throws anything else (a `window` without
  `_paq` gives a `TypeError`). Optional trailing arguments are sent only up to the first
  absent one. `setGenerationTimeMs` pushes only for script versions below 4. Five other
  setters push `setDownloadClasses`, as the code does, although their documentation
  describes other commands: `setDownloadExtensions`, `addDownloadExtensions`,
  `removeDownloadExtensions`, `setIgnoreClasses` and `setLinkClasses`.
- **MatomoRouteTracker** (`route_tracker.dfy`). It subscribes to the router's events and keeps
  only navigation starts and ends. `pairwise` pairs each with the previous one, and only a
  start directly followed by an end triggers the handler. The handler pushes one batch in this
  order:
  - the referrer, if a previous URL is recorded;
  - the document title;
  - the URL;
  - `deleteCustomVariables('page')`;
  - the generation time (end minus start);
  - `trackPageView`.

  It then records the URL. After that it is meant to scan the configured content ids for
  impressions and, when configured, enable link tracking. As written, the id lookup throws a
  TypeError at the first content id (see "## Findings"), so with any content id there is no
  scan, no `enableLinkTracking` and no normal return. `RouteTracker.PageViewCommandsAsWritten`
  models the code as written. The class's handler (`Next`, `SendTail`, `SendImpressions`,
  `OnRouterEvent`), `ImpressionCommands`, `BatchExtendsHead` and `HandlerReturnsIffQueue`
  model the corrected lookup, with `document` as its receiver.
- **MatomoInjector** (`injector.dfy`). The constructor bootstraps `_paq`:
  - an existing value is kept;
  - otherwise `[]` when a script URL is configured, or else a do-nothing sink.

  `init()` pushes the following, as bare pushes inside one `try`:
  - consent requirements;
  - the initial page view;
  - the trackers.

  It schedules the deferred `enableLinkTracking`, then inserts the script tag before the
  first script element.

Shared modules:
- `queue.dfy` is the global environment (`Global`, `Paq`).
- `Host` is the mutable `window`.
- `Call`, `Calls`, `Pushes` and `TryBlock` are the two ways the library pushes: a guarded
  call, or bare pushes in one `try`.
- `Guarded` and `Pushed` are their closed forms.
- `configuration.dfy` is the options bag.
- `wrappers.dfy` is `Option`.

Each class method is proved against a specification function:
- A tracker method ties the new queue and its outcome to `Call` of its command.
- The route tracker's handler ties them to `WithLocation` of `PageViewCommands`: the guarded
  calls, behind a read of `window.location.href` that throws a ReferenceError without a window.
- `init()` ties them to `InitRun`.

The properties are lemmas about those functions. They include:
- the append-only queue;
- one try block being equivalent to guarded calls;
- one `trackPageView` per handler run;
- the pairing rule against the start/end state machine and against adjacent pairs of navigations;
- referrer chaining across runs;
- consent exclusivity;
- the site-id string round trip.

RxJS's `pairwise` keeps the end event of a pair as its new buffer. A one-slot buffer that is
emptied after each pair gives the same pairs, because an end never starts a pair.
`RouteTracker.PairsMatchMachine` proves this against the two-state Idle/AwaitingEnd machine.

## Model

| member | source | states |
|---|---|---|
| Queue.Host.Push | esm2022/lib/matomo-injector.service.mjs:32 | a bare `window['_paq'].push(c)`: appends `c` to a real queue, leaves a sink alone, throws ReferenceError without a window and TypeError without `_paq` |
| Queue.PushResult | esm2022/lib/matomo-injector.service.mjs:32 | one bare push appends its command to a real queue and throws exactly what the environment throws: ReferenceError without a window, TypeError without `_paq`, nothing otherwise |
| Queue.Caught | esm2022/lib/matomo-tracker.service.mjs:42-46 | the catch swallows a ReferenceError and re-throws anything else, so only a TypeError escapes a tracker method |
| Queue.Call | esm2022/lib/matomo-tracker.service.mjs:34-47 | one tracker method: its push, then that catch; `CallAfterAppended` and `CallsSpec` show it appends to a real queue and raises only when `_paq` is undefined |
| Queue.Calls | esm2022/lib/matomo-tracker.service.mjs:34-47 | a run of guarded calls never changes what a further push would throw, and raises only a TypeError on a window without `_paq`, leaving it untouched |
| Queue.Pushes | esm2022/lib/matomo-injector.service.mjs:30-54 | bare pushes one after another never change what a further push would throw, and once one throws, nothing was changed and that error is the result |
| Queue.TryBlock | esm2022/lib/matomo-injector.service.mjs:29-70 | one `try` around bare pushes swallows a ReferenceError and lets only a TypeError escape, on a window without `_paq` and with nothing changed |
| Queue.Guarded | esm2022/lib/matomo-tracker.service.mjs:34-47 | the one-step form of a run of guarded calls that `CallsIsGuarded` proves equal to `Calls`: the commands land on a real queue, and a TypeError escapes exactly for a window without `_paq` and a non-empty run |
| Queue.Pushed | esm2022/lib/matomo-injector.service.mjs:30-54 | the one-step form of bare pushes that `PushesSpec` proves equal to `Pushes`: the queue grows by all commands and the first push decides the error |
| Queue.CallsSpec | esm2022/lib/matomo-tracker.service.mjs:34-47 | any run of guarded tracker calls appends exactly its commands, in order, to a real queue, changes nothing otherwise, and lets a TypeError escape exactly when a window exists without `_paq` and the run is non-empty |
| Queue.CallsIsGuarded | esm2022/lib/matomo-tracker.service.mjs:34-47 | the recursive run of guarded calls equals its one-step summary on every environment |
| Queue.PushesSpec | esm2022/lib/matomo-injector.service.mjs:30-54 | bare pushes one after the other: the queue grows by all of them, and the first push decides the error (none for an empty run) |
| Queue.TryBlockIsCalls | esm2022/lib/matomo-injector.service.mjs:29-70 | one try block around bare pushes has the same environment and outcome as the same commands sent through individually guarded tracker calls |
| Queue.CallsOnlyAppend | esm2022/lib/matomo-tracker.service.mjs:40 | the queue is append-only: old entries stay a prefix, and a real queue grows by exactly the number of commands |
| Queue.CallsWithoutWindow | esm2022/lib/matomo-tracker.service.mjs:42-46 | without a window, any run of tracker calls is a silent no-op |
| Queue.CallsOnSink | esm2022/lib/matomo-injector.service.mjs:18 | the do-nothing sink swallows every command and never throws |
| Queue.CallAfterAppended | esm2022/lib/matomo-tracker.service.mjs:34-47 | one more guarded call after appended commands appends its command too, and raises only when `_paq` is missing |
| Queue.PushAfterAppended | esm2022/lib/matomo-injector.service.mjs:32 | one more bare push after appended commands appends too, or throws what the environment throws |
| Queue.CallsSnoc | esm2022/lib/matomo-tracker.service.mjs:42-46 | a further guarded call runs only if the run before it ended normally |
| Queue.CallsConcat | esm2022/lib/matomo-tracker.service.mjs:42-46 | two runs of guarded calls back to back: the second starts only if the first ended normally |
| Queue.GuardedThen | esm2022/lib/matomo-route-tracker.service.mjs:47-76 | two runs of guarded calls in one-step form: a raised first run is the whole result, otherwise the second continues from where the first left the queue |
| Queue.PushedThen | esm2022/lib/matomo-injector.service.mjs:30-54 | two runs of bare pushes, the first throwing nothing, amount to the run of their concatenation |
| Queue.PushedStops | esm2022/lib/matomo-injector.service.mjs:30-54 | once a bare push threw, the rest of the block never happens |
| Tracker.PresentPrefix | esm2022/lib/matomo-tracker.service.mjs:57-73 | the nested-`if` rule for optional arguments: the result is the present prefix of the optional arguments, unwrapped, stopping at the first absent one |
| Tracker.PresentPrefixStep | esm2022/lib/matomo-tracker.service.mjs:57-73 | an absent optional argument cuts off everything after it; a present one is sent before the rest |
| Tracker.TrackPageViewCommand | esm2022/lib/matomo-tracker.service.mjs:34-47 | `trackPageView` carries the custom title only when it is a non-empty string |
| Tracker.TrackEventCommand | esm2022/lib/matomo-tracker.service.mjs:57-73 | category and action always; name only when truthy; value only after a name |
| Tracker.TrackSiteSearchCommand | esm2022/lib/matomo-tracker.service.mjs:82-98 | keyword always; category only when truthy; results count only after a category |
| Tracker.TrackGoalCommand | esm2022/lib/matomo-tracker.service.mjs:105-118 | goal id always; custom revenue only when given |
| Tracker.AddEcommerceItemCommand | esm2022/lib/matomo-tracker.service.mjs:1196-1218 | SKU always, then name, category, price, quantity, each only when it and all before it are present |
| Tracker.TrackEcommerceOrderCommand | esm2022/lib/matomo-tracker.service.mjs:1298-1320 | order id and grand total always, then sub total, tax, shipping, discount, each only when it and all before it are present |
| Tracker.RememberConsentGivenCommand | esm2022/lib/matomo-tracker.service.mjs:1385-1398 | hours to expire sent only when given |
| Tracker.RememberCookieConsentGivenCommand | esm2022/lib/matomo-tracker.service.mjs:1406-1419 | hours to expire sent only when given |
| Tracker.EnableLinkTrackingCommand | esm2022/lib/matomo-tracker.service.mjs:303-312 | the flag is always sent, and it is `true` exactly when `true` was passed (`false` by default) |
| Tracker.GenerationTimeCommands | esm2022/lib/matomo-tracker.service.mjs:684-695 | at most one command, present exactly when the script version is below 4, carrying the generation time |
| Tracker.MatomoTracker.constructor | esm2022/lib/matomo-tracker.service.mjs:13-28 | keeps the configuration and the window; the console warning is not modelled |
| Tracker.MatomoTracker.Send | esm2022/lib/matomo-tracker.service.mjs:34-47 | the guarded push shared by every tracking method: new queue and outcome are those of one guarded call |
| Tracker.MatomoTracker.TrackPageView | esm2022/lib/matomo-tracker.service.mjs:34-47 | appends exactly the `trackPageView` command for the title, with the guarded-call outcome |
| Tracker.MatomoTracker.TrackEvent | esm2022/lib/matomo-tracker.service.mjs:57-73 | appends exactly the `trackEvent` command for its arguments, with the guarded-call outcome |
| Tracker.MatomoTracker.TrackSiteSearch | esm2022/lib/matomo-tracker.service.mjs:82-98 | appends exactly the `trackSiteSearch` command, with the guarded-call outcome |
| Tracker.MatomoTracker.TrackGoal | esm2022/lib/matomo-tracker.service.mjs:105-118 | appends exactly the `trackGoal` command, with the guarded-call outcome |
| Tracker.MatomoTracker.TrackContentImpressionsWithinNode | esm2022/lib/matomo-tracker.service.mjs:175-184 | appends exactly `['trackContentImpressionsWithinNode', node]`, with the guarded-call outcome |
| Tracker.MatomoTracker.EnableLinkTracking | esm2022/lib/matomo-tracker.service.mjs:303-312 | appends exactly `['enableLinkTracking', enable]` with `false` for an omitted flag |
| Tracker.MatomoTracker.SetDocumentTitle | esm2022/lib/matomo-tracker.service.mjs:380-389 | appends exactly `['setDocumentTitle', title]` |
| Tracker.MatomoTracker.SetCustomUrl | esm2022/lib/matomo-tracker.service.mjs:413-422 | appends exactly `['setCustomUrl', url]` |
| Tracker.MatomoTracker.SetReferrerUrl | esm2022/lib/matomo-tracker.service.mjs:428-437 | appends exactly `['setReferrerUrl', url]` |
| Tracker.MatomoTracker.DeleteCustomVariables | esm2022/lib/matomo-tracker.service.mjs:1005-1014 | appends exactly `['deleteCustomVariables', scope]` |
| Tracker.MatomoTracker.SetGenerationTimeMs | esm2022/lib/matomo-tracker.service.mjs:684-695 | below script version 4 appends `['setGenerationTimeMs', time]` as a guarded call; otherwise leaves the queue alone and throws nothing |
| Tracker.MatomoTracker.AddEcommerceItem | esm2022/lib/matomo-tracker.service.mjs:1196-1218 | appends exactly the `addEcommerceItem` command for its arguments |
| Tracker.MatomoTracker.TrackEcommerceOrder | esm2022/lib/matomo-tracker.service.mjs:1298-1320 | appends exactly the `trackEcommerceOrder` command for its arguments |
| Tracker.MatomoTracker.RememberConsentGiven | esm2022/lib/matomo-tracker.service.mjs:1385-1398 | appends exactly the `rememberConsentGiven` command |
| Tracker.MatomoTracker.RememberCookieConsentGiven | esm2022/lib/matomo-tracker.service.mjs:1406-1419 | appends exactly the `rememberCookieConsentGiven` command |
| Tracker.MatomoTracker.SetDownloadClasses | esm2022/lib/matomo-tracker.service.mjs:538-547 | appends exactly `['setDownloadClasses', classes]` |
| Tracker.MatomoTracker.SetDownloadExtensions | esm2022/lib/matomo-tracker.service.mjs:554-563 | appends `['setDownloadClasses', classes]`, the same command as `setDownloadClasses`, as the code is written |
| Tracker.MatomoTracker.AddDownloadExtensions | esm2022/lib/matomo-tracker.service.mjs:570-579 | appends `['setDownloadClasses', classes]`, as the code is written |
| Tracker.MatomoTracker.RemoveDownloadExtensions | esm2022/lib/matomo-tracker.service.mjs:586-595 | appends `['setDownloadClasses', classes]`, as the code is written |
| Tracker.MatomoTracker.SetIgnoreClasses | esm2022/lib/matomo-tracker.service.mjs:601-610 | appends `['setDownloadClasses', classes]`, as the code is written |
| Tracker.MatomoTracker.SetLinkClasses | esm2022/lib/matomo-tracker.service.mjs:616-625 | appends `['setDownloadClasses', classes]`, as the code is written |
| RouteTracker.Deepest | esm2022/lib/matomo-route-tracker.service.mjs:43-46 | the route reached lies on the start's `firstChild` chain and has no child |
| RouteTracker.DeepestIsTheOnlyLeaf | esm2022/lib/matomo-route-tracker.service.mjs:43-46 | a childless route on the `firstChild` chain is the one the loop reaches, so the result is unique |
| RouteTracker.DeepestRoute | esm2022/lib/matomo-route-tracker.service.mjs:43-46 | the `while (currentRoute.firstChild)` loop ends at the deepest route |
| Configuration.Truthy | esm2022/lib/matomo-route-tracker.service.mjs:48 | JavaScript's `!!s` for an optional string: present and non-empty; it decides the referrer and the title |
| Configuration.ContentIds | esm2022/lib/matomo-route-tracker.service.mjs:64 | `configuration?.routeTracking?.contentIds`, an absent list read as empty; `PageViewCommandsAsWritten` shows the empty list does not throw |
| RouteTracker.ReferrerCommands | esm2022/lib/matomo-route-tracker.service.mjs:48-50 | `setReferrerUrl` for the recorded URL exactly when it is truthy; `ReferrerOpensBatch` shows it opens the batch |
| RouteTracker.TitleCommands | esm2022/lib/matomo-route-tracker.service.mjs:52-54 | at most one `setDocumentTitle`; sent exactly when `matomoTitle` or the route title is truthy; `matomoTitle` wins whenever it is set, even when empty |
| RouteTracker.ImpressionCommands | esm2022/lib/matomo-route-tracker.service.mjs:64-73 | one impression scan per content id that resolves to an element, in order; no scans when none resolves; all when all do. Models the corrected lookup of the Findings row; `RouteTracker.PageViewCommandsAsWritten` is the code as written. |
| RouteTracker.ImpressionsDistribute | esm2022/lib/matomo-route-tracker.service.mjs:64-73 | the scans for two lists of ids are the scans for the first list followed by those for the second |
| RouteTracker.GetElementById | esm2022/lib/matomo-route-tracker.service.mjs:65 | the lookup on its receiver: a TypeError without `document`, otherwise the element with that id or null; `UnboundLookupThrows` and `BoundLookupPointwise` lift it over the whole id list |
| RouteTracker.MapLookup | esm2022/lib/matomo-route-tracker.service.mjs:64-65 | `ids.map(getElementById)` on a receiver: the per-id results in order, or the first error thrown |
| RouteTracker.UnboundLookupThrows | esm2022/lib/matomo-route-tracker.service.mjs:65 | without its `document` receiver the lookup throws a TypeError exactly when there is at least one content id |
| RouteTracker.BoundLookupPointwise | esm2022/lib/matomo-route-tracker.service.mjs:64-65 | looked up on `document`, the result never throws, has one entry per id, and each entry is the element with that id or null |
| RouteTracker.NonNull | esm2022/lib/matomo-route-tracker.service.mjs:66 | the `isNonNull` filter keeps exactly the elements found, and never more entries than it was given |
| RouteTracker.ScanCommands | esm2022/lib/matomo-route-tracker.service.mjs:67-73 | one `trackContentImpressionsWithinNode` per element, in order |
| RouteTracker.ImpressionsAreBoundLookups | esm2022/lib/matomo-route-tracker.service.mjs:64-73 | the impression scans are the lookup on `document`, filtered and scanned element by element |
| RouteTracker.LinkTrackingCommands | esm2022/lib/matomo-route-tracker.service.mjs:74-76 | `enableLinkTracking(trackLinkValue)` exactly when `trackLinks` is `true`; `BatchExtendsHead` shows it closes the batch |
| RouteTracker.PageViewHead | esm2022/lib/matomo-route-tracker.service.mjs:47-60 | the handler's pushes up to the page view, in source order; `HeadEndsWithPageView` shows they send the current URL and end with `trackPageView`, and `OnePageViewPerBatch` counts them |
| RouteTracker.PageViewCommands | esm2022/lib/matomo-route-tracker.service.mjs:47-76 | the whole handler batch that every handler contract is stated against: the head, the scans, then link tracking; `BatchExtendsHead`, `OnePageViewPerBatch` and `ReferrerOpensBatch` establish its shape. Models the corrected lookup of the Findings row; `RouteTracker.PageViewCommandsAsWritten` is the code as written. |
| RouteTracker.HeadEndsWithPageView | esm2022/lib/matomo-route-tracker.service.mjs:47-60 | the handler's pushes up to the page view contain `setCustomUrl` for the current URL and end with `trackPageView` |
| RouteTracker.BatchExtendsHead | esm2022/lib/matomo-route-tracker.service.mjs:47-76 | the whole handler batch starts with that head and ends with `enableLinkTracking` exactly when `trackLinks` is `true`. Models the corrected lookup of the Findings row; `RouteTracker.PageViewCommandsAsWritten` is the code as written. |
| RouteTracker.WithLocation | esm2022/lib/matomo-route-tracker.service.mjs:55-76 | reading `window.location.href` outside any `try`: without a window the handler throws a ReferenceError and pushes nothing, otherwise the guarded calls run; it returns normally exactly with a real queue or no commands |
| RouteTracker.WithLocationThen | esm2022/lib/matomo-route-tracker.service.mjs:47-76 | guarded calls after a run behind the URL read: a run that threw is the whole result, otherwise the later calls continue from where it left the environment |
| RouteTracker.HandlerReturnsIffQueue | esm2022/lib/matomo-route-tracker.service.mjs:47-76 | the handler returns normally exactly when there is a window and `_paq` is defined. Models the corrected lookup of the Findings row; `RouteTracker.PageViewCommandsAsWritten` is the code as written. |
| RouteTracker.OnePageViewPerBatch | esm2022/lib/matomo-route-tracker.service.mjs:47-76 | each handler batch holds exactly one `trackPageView` and one `setCustomUrl`, the latter for the current URL |
| RouteTracker.ReferrerOpensBatch | esm2022/lib/matomo-route-tracker.service.mjs:48-50 | with a recorded previous URL the batch opens with `setReferrerUrl` for it; without one the batch has no `setReferrerUrl` |
| RouteTracker.PageViewCommandsAsWritten | esm2022/lib/matomo-route-tracker.service.mjs:42-77 | the handler's batch with the receiver-less lookup: it throws exactly when content ids are configured, and always pushes the head up to `trackPageView`; with no content id it pushes the whole batch, link tracking included, and returns normally |
| RouteTracker.UnboundLookupLosesTail | esm2022/lib/matomo-route-tracker.service.mjs:64-76 | with any content id, the handler as written throws after the page view and lacks exactly the scans and the link tracking that the corrected handler pushes |
| RouteTracker.UnboundLookupExample | esm2022/lib/matomo-route-tracker.service.mjs:64-73 | ids `x, y, z` with `y` missing: the corrected lookup scans `x` and `z`, the lookup as written throws |
| RouteTracker.Pairs | esm2022/lib/matomo-route-tracker.service.mjs:40 | every pair the pipe emits is a navigation start followed by a navigation end |
| RouteTracker.Completes | esm2022/lib/matomo-route-tracker.service.mjs:40 | the last filter: the buffered event is a start and the new one an end; `PairsMatchMachine` and `PairsAreAdjacent` characterise the pairs it lets through |
| RouteTracker.PairsMatchMachine | esm2022/lib/matomo-route-tracker.service.mjs:40 | the `pairwise` + filter pipeline emits exactly the pairs of the two-state Idle/AwaitingEnd machine |
| RouteTracker.Navigations | esm2022/lib/matomo-route-tracker.service.mjs:40 | the first filter keeps only navigation starts and ends |
| RouteTracker.PairsAreAdjacent | esm2022/lib/matomo-route-tracker.service.mjs:40 | the emitted pairs are exactly the adjacent start-then-end pairs of the filtered stream |
| RouteTracker.PairsAreAdjacentAfter | esm2022/lib/matomo-route-tracker.service.mjs:40 | the same, for a subscription whose buffer already holds a navigation event |
| RouteTracker.SecondStartWins | esm2022/lib/matomo-route-tracker.service.mjs:40 | start, start, end emits one pair, with the second start |
| RouteTracker.LoneEndIgnored | esm2022/lib/matomo-route-tracker.service.mjs:40 | an end with nothing before it emits nothing and only fills the buffer |
| RouteTracker.Stamps | esm2022/lib/matomo-route-tracker.service.mjs:40 | the timestamped events of the stream, one per event, in order |
| RouteTracker.React | esm2022/lib/matomo-route-tracker.service.mjs:39-78 | one router event runs the handler exactly when it ends a started navigation; other events leave the buffer alone; a run uses the recorded URL as referrer and records its own URL, and an event that runs nothing keeps the recorded URL |
| RouteTracker.ReactAll | esm2022/lib/matomo-route-tracker.service.mjs:39-78 | the subscription over a whole stream: the final buffer and recorded URL and the handler runs in order; `ReactAllRecordsLastRun`, `RunsFollowPairs`, `ReferrersChain` and `ReactAllConcat` establish what it computes |
| RouteTracker.ReactAllRecordsLastRun | esm2022/lib/matomo-route-tracker.service.mjs:39-78 | a stream never runs the handler more often than it has events, and afterwards the recorded URL is the last run's URL, or the one before if nothing ran |
| RouteTracker.ReferrersChain | esm2022/lib/matomo-route-tracker.service.mjs:48-62 | over any stream, the first run's referrer is the URL recorded before it and every later run's referrer is the previous run's URL |
| RouteTracker.RunsFollowPairs | esm2022/lib/matomo-route-tracker.service.mjs:40-59 | the handler runs once per emitted pair, and each run's generation time is that pair's end minus start |
| RouteTracker.OnePageViewPerRun | esm2022/lib/matomo-route-tracker.service.mjs:39-78 | the pushes of any sequence of handler runs hold exactly one `trackPageView` per run |
| RouteTracker.ReactAllConcat | esm2022/lib/matomo-route-tracker.service.mjs:39-78 | processing two event streams back to back is processing their concatenation |
| RouteTracker.NavigationPair | esm2022/lib/matomo-route-tracker.service.mjs:40-62 | a start then an end gives one run with the recorded URL as referrer and end minus start as time, and records the new URL |
| RouteTracker.ReferrerChaining | esm2022/lib/matomo-route-tracker.service.mjs:47-62 | on a fresh subscription two navigations give two runs: the first without referrer, the second with the first page's URL |
| RouteTracker.MatomoRouteTracker.constructor | esm2022/lib/matomo-route-tracker.service.mjs:14-31 | starts with no recorded URL and no subscription |
| RouteTracker.MatomoRouteTracker.StartTracking | esm2022/lib/matomo-route-tracker.service.mjs:38-79 | installs a fresh subscription with an empty buffer and keeps the recorded URL |
| RouteTracker.MatomoRouteTracker.StopTracking | esm2022/lib/matomo-route-tracker.service.mjs:83-88 | drops the subscription, keeps the recorded URL, and changes nothing when not subscribed |
| RouteTracker.MatomoRouteTracker.NgOnDestroy | esm2022/lib/matomo-route-tracker.service.mjs:92-94 | the same as stopping |
| RouteTracker.MatomoRouteTracker.OnRouterEvent | esm2022/lib/matomo-route-tracker.service.mjs:39-78 | ignored without a subscription; otherwise the buffer moves as `pairwise` does, and a completed pair pushes its whole batch as guarded calls, updating the recorded URL unless an error escaped; without a window the run throws a ReferenceError before pushing anything. Models the corrected lookup of the Findings row; `RouteTracker.PageViewCommandsAsWritten` is the code as written. |
| RouteTracker.MatomoRouteTracker.Next | esm2022/lib/matomo-route-tracker.service.mjs:42-77 | pushes the batch for the deepest route's snapshot, URL, DOM and time as guarded calls after reading `window.location.href` (a ReferenceError without a window), and records the URL once the page view went in. Models the corrected lookup of the Findings row; `RouteTracker.PageViewCommandsAsWritten` is the code as written. |
| RouteTracker.MatomoRouteTracker.SendHead | esm2022/lib/matomo-route-tracker.service.mjs:47-60 | pushes referrer, title, URL, variable reset, generation time and page view as guarded calls, stopping at the first that raises; throws a ReferenceError at `window.location.href` without a window, after the referrer and title calls did nothing |
| RouteTracker.MatomoRouteTracker.SendOpening | esm2022/lib/matomo-route-tracker.service.mjs:47-54 | pushes the referrer and the document title, each only when present, as guarded calls |
| RouteTracker.MatomoRouteTracker.SendPageView | esm2022/lib/matomo-route-tracker.service.mjs:55-60 | reads `window.location.href` (a ReferenceError without a window, nothing pushed), then pushes URL, variable reset, generation time and page view as guarded calls |
| RouteTracker.MatomoRouteTracker.SendTail | esm2022/lib/matomo-route-tracker.service.mjs:63-76 | pushes the impression scans and then, when configured, `enableLinkTracking` as guarded calls, stopping at the first that raises. Models the corrected lookup of the Findings row; `RouteTracker.PageViewCommandsAsWritten` is the code as written. |
| RouteTracker.MatomoRouteTracker.SendImpressions | esm2022/lib/matomo-route-tracker.service.mjs:64-73 | pushes one scan per resolved content id as guarded calls. Models the corrected lookup of the Findings row; `RouteTracker.PageViewCommandsAsWritten` is the code as written. |
| Injector.Bootstrap | esm2022/lib/matomo-injector.service.mjs:17-24 | no window stays none; a window always ends with a defined `_paq`; an existing `_paq` is kept; a missing one becomes `[]` exactly when the script URL is truthy (else the sink) |
| Injector.BootstrapIdempotent | esm2022/lib/matomo-injector.service.mjs:18 | a second bootstrap, with any script URL, changes nothing |
| Injector.BootstrapMakesCallsSafe | esm2022/lib/matomo-injector.service.mjs:12-25 | after the bootstrap no tracker call raises, and on a fresh window with a script URL the queue holds exactly the commands sent |
| Injector.NatToString | esm2022/lib/matomo-injector.service.mjs:52-53 | `toString` of a natural number is a non-empty digit string without leading zero |
| Injector.IntToString | esm2022/lib/matomo-injector.service.mjs:52-53 | `toString` of a site id is non-empty and starts with `-` exactly for a negative id |
| Injector.NatToStringRoundTrip | esm2022/lib/matomo-injector.service.mjs:52-53 | the decimal string reads back as the number |
| Injector.IntToStringRoundTrip | esm2022/lib/matomo-injector.service.mjs:52-53 | the site id string is well formed and reads back as the site id |
| Injector.ConsentCommands | esm2022/lib/matomo-injector.service.mjs:31-36 | at most one command; `requireConsent` exactly when that option is `true`; `requireCookieConsent` exactly when that option is `true` and the first is not |
| Injector.InitialPageViewCommands | esm2022/lib/matomo-injector.service.mjs:37-38 | one bare `trackPageView` exactly when `skipTrackingInitialPageView` is `false` (not merely absent) |
| Injector.AddTrackerCommands | esm2022/lib/matomo-injector.service.mjs:53 | one `addTracker` per further tracker, in order, with URL and site id string |
| Injector.AddTrackerSnoc | esm2022/lib/matomo-injector.service.mjs:53 | one more tracker at the end adds its command at the end |
| Injector.TrackerCommands | esm2022/lib/matomo-injector.service.mjs:49-54 | nothing for no trackers; otherwise `setTrackerUrl` and `setSiteId` for the first tracker followed by the `addTracker`s of the rest |
| Injector.InitCommands | esm2022/lib/matomo-injector.service.mjs:30-54 | `init()` pushes only consent, page-view and tracker commands; never `enableLinkTracking` |
| Injector.SchedulesLinkTracking | esm2022/lib/matomo-injector.service.mjs:37-47 | the deferred link tracking is scheduled only together with the initial `trackPageView` |
| Injector.DeferredLinkTrackingCommand | esm2022/lib/matomo-injector.service.mjs:41-46 | the command the timer pushes is the one the tracker's `enableLinkTracking(trackLinkValue)` pushes |
| Injector.ConsentExclusive | esm2022/lib/matomo-injector.service.mjs:31-36 | `init()` queues at most one consent requirement, `requireConsent` exactly when configured `true` |
| Injector.InitPageViewsAndLinks | esm2022/lib/matomo-injector.service.mjs:37-48 | `init()` queues one page view exactly when the initial page view is not skipped, and never queues link tracking itself |
| Injector.InitCounts | esm2022/lib/matomo-injector.service.mjs:30-54 | the number of each consent, page-view and link-tracking command `init()` queues, by configuration |
| Injector.InitRun | esm2022/lib/matomo-injector.service.mjs:29-70 | the queue grows by the init commands; the timer is scheduled exactly when configured and the pushes did not throw; the tag goes in only with a script URL, a window, a first script element with a parent, and pushes that did not throw |
| Injector.InitRunIsTryBlock | esm2022/lib/matomo-injector.service.mjs:29-70 | `init()` behaves as one try block around its pushes, except for the TypeError a page without script elements raises |
| Injector.InitAfterBootstrap | esm2022/lib/matomo-injector.service.mjs:12-70 | after the bootstrap with a script URL, `init()` queues exactly its commands on a fresh queue, raises nothing and inserts the tag |
| Injector.MatomoInjector.constructor | esm2022/lib/matomo-injector.service.mjs:12-25 | the window after construction is the bootstrap of the window before |
| Injector.MatomoInjector.Init | esm2022/lib/matomo-injector.service.mjs:29-70 | environment, outcome, deferred command and tag insertion are those of `InitRun` |
| Injector.MatomoInjector.PushConsent | esm2022/lib/matomo-injector.service.mjs:31-36 | bare pushes of the consent commands |
| Injector.MatomoInjector.PushInitialPageView | esm2022/lib/matomo-injector.service.mjs:37-48 | bare push of the initial page view, and the deferred link-tracking command exactly when configured and the push did not throw |
| Injector.MatomoInjector.PushTrackers | esm2022/lib/matomo-injector.service.mjs:49-54 | bare pushes of the tracker commands, in order |
| Tracker.MatomoTracker.TrackLink | esm2022/lib/matomo-tracker.service.mjs:125-134 | appends exactly `['trackLink', url, linkType]` to a real queue and changes nothing else; silent without a window, TypeError escapes without a queue |
| Tracker.MatomoTracker.TrackAllContentImpressions | esm2022/lib/matomo-tracker.service.mjs:140-149 | appends exactly `['trackAllContentImpressions']` to a real queue and changes nothing else; silent without a window, TypeError escapes without a queue |
| Tracker.MatomoTracker.TrackVisibleContentImpressions | esm2022/lib/matomo-tracker.service.mjs:158-167 | appends exactly `['trackVisibleContentImpressions', checkOnScroll, timeInterval]` to a real queue and changes nothing else; silent without a window, TypeError escapes without a queue |
| Tracker.MatomoTracker.TrackContentInteractionNode | esm2022/lib/matomo-tracker.service.mjs:192-201 | appends exactly `['trackContentInteractionNode', node, contentInteraction]` to a real queue and changes nothing else; silent without a window, TypeError escapes without a queue |
| Tracker.MatomoTracker.TrackContentImpression | esm2022/lib/matomo-tracker.service.mjs:210-219 | appends exactly `['trackContentImpression', contentName, contentPiece, contentTarget]` to a real queue and changes nothing else; silent without a window, TypeError escapes without a queue |
| Tracker.MatomoTracker.TrackContentInteraction | esm2022/lib/matomo-tracker.service.mjs:229-244 | appends exactly `['trackContentInteraction', contentInteraction, contentName, contentPiece, contentTarget]` to a real queue and changes nothing else; silent without a window, TypeError escapes without a queue |
| Tracker.MatomoTracker.LogAllContentBlocksOnPage | esm2022/lib/matomo-tracker.service.mjs:249-258 | appends exactly `['logAllContentBlocksOnPage']` to a real queue and changes nothing else; silent without a window, TypeError escapes without a queue |
| Tracker.MatomoTracker.Ping | esm2022/lib/matomo-tracker.service.mjs:266-275 | appends exactly `['ping']` to a real queue and changes nothing else; silent without a window, TypeError escapes without a queue |
| Tracker.MatomoTracker.EnableHeartBeatTimer | esm2022/lib/matomo-tracker.service.mjs:284-293 | appends exactly `['enableHeartBeatTimer', delay]` to a real queue and changes nothing else; silent without a window, TypeError escapes without a queue |
| Tracker.MatomoTracker.EnableCrossDomainLinking | esm2022/lib/matomo-tracker.service.mjs:324-333 | appends exactly `['enableCrossDomainLinking']` to a real queue and changes nothing else; silent without a window, TypeError escapes without a queue |
| Tracker.MatomoTracker.SetCrossDomainLinkingTimeout | esm2022/lib/matomo-tracker.service.mjs:342-351 | appends exactly `['setCrossDomainLinkingTimeout', timeout]` to a real queue and changes nothing else; silent without a window, TypeError escapes without a queue |
| Tracker.MatomoTracker.SetDomains | esm2022/lib/matomo-tracker.service.mjs:398-407 | appends exactly `['setDomains', domains]` to a real queue and changes nothing else; silent without a window, TypeError escapes without a queue |
| Tracker.MatomoTracker.SetSiteId | esm2022/lib/matomo-tracker.service.mjs:445-454 | appends exactly `['setSiteId', siteId]` to a real queue and changes nothing else; silent without a window, TypeError escapes without a queue |
| Tracker.MatomoTracker.SetApiUrl | esm2022/lib/matomo-tracker.service.mjs:463-472 | appends exactly `['setApiUrl', url]` to a real queue and changes nothing else; silent without a window, TypeError escapes without a queue |
| Tracker.MatomoTracker.SetTrackerUrl | esm2022/lib/matomo-tracker.service.mjs:480-489 | appends exactly `['setTrackerUrl', url]` to a real queue and changes nothing else; silent without a window, TypeError escapes without a queue |
| Tracker.MatomoTracker.SetLinkTrackingTimer | esm2022/lib/matomo-tracker.service.mjs:631-640 | appends exactly `['setLinkTrackingTimer', delay]` to a real queue and changes nothing else; silent without a window, TypeError escapes without a queue |
| Tracker.MatomoTracker.DiscardHashTag | esm2022/lib/matomo-tracker.service.mjs:667-676 | appends exactly `['discardHashTag', value]` to a real queue and changes nothing else; silent without a window, TypeError escapes without a queue |
| Tracker.MatomoTracker.AppendToTrackingUrl | esm2022/lib/matomo-tracker.service.mjs:701-710 | appends exactly `['appendToTrackingUrl', appendToUrl]` to a real queue and changes nothing else; silent without a window, TypeError escapes without a queue |
| Tracker.MatomoTracker.KillFrame | esm2022/lib/matomo-tracker.service.mjs:714-723 | appends exactly `['killFrame']` to a real queue and changes nothing else; silent without a window, TypeError escapes without a queue |
| Tracker.MatomoTracker.RedirectFile | esm2022/lib/matomo-tracker.service.mjs:730-739 | appends exactly `['redirectFile', url]` to a real queue and changes nothing else; silent without a window, TypeError escapes without a queue |
| Tracker.MatomoTracker.SetHeartBeatTimer | esm2022/lib/matomo-tracker.service.mjs:748-757 | appends exactly `['setHeartBeatTimer', minimumVisitLength, heartBeatDelay]` to a real queue and changes nothing else; silent without a window, TypeError escapes without a queue |
| Tracker.MatomoTracker.SetUserId | esm2022/lib/matomo-tracker.service.mjs:935-944 | appends exactly `['setUserId', userId]` to a real queue and changes nothing else; silent without a window, TypeError escapes without a queue |
| Tracker.MatomoTracker.ResetUserId | esm2022/lib/matomo-tracker.service.mjs:950-959 | appends exactly `['resetUserId']` to a real queue and changes nothing else; silent without a window, TypeError escapes without a queue |
| Tracker.MatomoTracker.SetCustomVariable | esm2022/lib/matomo-tracker.service.mjs:972-981 | appends exactly `['setCustomVariable', index, name, value, scope]` to a real queue and changes nothing else; silent without a window, TypeError escapes without a queue |
| Tracker.MatomoTracker.DeleteCustomVariable | esm2022/lib/matomo-tracker.service.mjs:989-998 | appends exactly `['deleteCustomVariable', index, scope]` to a real queue and changes nothing else; silent without a window, TypeError escapes without a queue |
| Tracker.MatomoTracker.StoreCustomVariablesInCookie | esm2022/lib/matomo-tracker.service.mjs:1047-1056 | appends exactly `['storeCustomVariablesInCookie']` to a real queue and changes nothing else; silent without a window, TypeError escapes without a queue |
| Tracker.MatomoTracker.SetCustomDimension | esm2022/lib/matomo-tracker.service.mjs:1065-1074 | appends exactly `['setCustomDimension', customDimensionId, customDimensionValue]` to a real queue and changes nothing else; silent without a window, TypeError escapes without a queue |
| Tracker.MatomoTracker.DeleteCustomDimension | esm2022/lib/matomo-tracker.service.mjs:1082-1091 | appends exactly `['deleteCustomDimension', customDimensionId]` to a real queue and changes nothing else; silent without a window, TypeError escapes without a queue |
| Tracker.MatomoTracker.SetCampaignNameKey | esm2022/lib/matomo-tracker.service.mjs:1122-1131 | appends exactly `['setCampaignNameKey', name]` to a real queue and changes nothing else; silent without a window, TypeError escapes without a queue |
| Tracker.MatomoTracker.SetCampaignKeywordKey | esm2022/lib/matomo-tracker.service.mjs:1138-1147 | appends exactly `['setCampaignKeywordKey', keyword]` to a real queue and changes nothing else; silent without a window, TypeError escapes without a queue |
| Tracker.MatomoTracker.SetConversionAttributionFirstReferrer | esm2022/lib/matomo-tracker.service.mjs:1157-1166 | appends exactly `['setConversionAttributionFirstReferrer', conversionToFirstReferrer]` to a real queue and changes nothing else; silent without a window, TypeError escapes without a queue |
| Tracker.MatomoTracker.SetEcommerceView | esm2022/lib/matomo-tracker.service.mjs:1176-1185 | appends exactly `['setEcommerceView', productSKU, productName, productCategory, price]` to a real queue and changes nothing else; silent without a window, TypeError escapes without a queue |
| Tracker.MatomoTracker.RemoveEcommerceItem | esm2022/lib/matomo-tracker.service.mjs:1224-1234 | appends exactly `['removeEcommerceItem', productSKU]` to a real queue and changes nothing else; silent without a window, TypeError escapes without a queue |
| Tracker.MatomoTracker.ClearEcommerceCart | esm2022/lib/matomo-tracker.service.mjs:1239-1248 | appends exactly `['clearEcommerceCart']` to a real queue and changes nothing else; silent without a window, TypeError escapes without a queue |
| Tracker.MatomoTracker.TrackEcommerceCartUpdate | esm2022/lib/matomo-tracker.service.mjs:1277-1286 | appends exactly `['trackEcommerceCartUpdate', grandTotal]` to a real queue and changes nothing else; silent without a window, TypeError escapes without a queue |
| Tracker.MatomoTracker.RequireConsent | esm2022/lib/matomo-tracker.service.mjs:1325-1334 | appends exactly `['requireConsent']` to a real queue and changes nothing else; silent without a window, TypeError escapes without a queue |
| Tracker.MatomoTracker.RequireCookieConsent | esm2022/lib/matomo-tracker.service.mjs:1338-1347 | appends exactly `['requireCookieConsent']` to a real queue and changes nothing else; silent without a window, TypeError escapes without a queue |
| Tracker.MatomoTracker.SetConsentGiven | esm2022/lib/matomo-tracker.service.mjs:1353-1362 | appends exactly `['setConsentGiven']` to a real queue and changes nothing else; silent without a window, TypeError escapes without a queue |
| Tracker.MatomoTracker.SetCookieConsentGiven | esm2022/lib/matomo-tracker.service.mjs:1368-1377 | appends exactly `['setCookieConsentGiven']` to a real queue and changes nothing else; silent without a window, TypeError escapes without a queue |
| Tracker.MatomoTracker.ForgetConsentGiven | esm2022/lib/matomo-tracker.service.mjs:1425-1434 | appends exactly `['forgetConsentGiven']` to a real queue and changes nothing else; silent without a window, TypeError escapes without a queue |
| Tracker.MatomoTracker.ForgetCookieConsentGiven | esm2022/lib/matomo-tracker.service.mjs:1440-1449 | appends exactly `['forgetCookieConsentGiven']` to a real queue and changes nothing else; silent without a window, TypeError escapes without a queue |
| Tracker.MatomoTracker.SetDoNotTrack | esm2022/lib/matomo-tracker.service.mjs:1456-1465 | appends exactly `['setDoNotTrack', doNotTrack]` to a real queue and changes nothing else; silent without a window, TypeError escapes without a queue |
| Tracker.MatomoTracker.DisableCookies | esm2022/lib/matomo-tracker.service.mjs:1470-1479 | appends exactly `['disableCookies']` to a real queue and changes nothing else; silent without a window, TypeError escapes without a queue |
| Tracker.MatomoTracker.DeleteCookies | esm2022/lib/matomo-tracker.service.mjs:1483-1492 | appends exactly `['deleteCookies']` to a real queue and changes nothing else; silent without a window, TypeError escapes without a queue |
| Tracker.MatomoTracker.SetCookieNamePrefix | esm2022/lib/matomo-tracker.service.mjs:1520-1529 | appends exactly `['setCookieNamePrefix', prefix]` to a real queue and changes nothing else; silent without a window, TypeError escapes without a queue |
| Tracker.MatomoTracker.SetCookieDomain | esm2022/lib/matomo-tracker.service.mjs:1537-1546 | appends exactly `['setCookieDomain', domain]` to a real queue and changes nothing else; silent without a window, TypeError escapes without a queue |
| Tracker.MatomoTracker.SetCookiePath | esm2022/lib/matomo-tracker.service.mjs:1553-1562 | appends exactly `['setCookiePath', path]` to a real queue and changes nothing else; silent without a window, TypeError escapes without a queue |
| Tracker.MatomoTracker.SetSecureCookie | esm2022/lib/matomo-tracker.service.mjs:1570-1579 | appends exactly `['setSecureCookie', secure]` to a real queue and changes nothing else; silent without a window, TypeError escapes without a queue |
| Tracker.MatomoTracker.SetVisitorCookieTimeout | esm2022/lib/matomo-tracker.service.mjs:1586-1595 | appends exactly `['setVisitorCookieTimeout', timeout]` to a real queue and changes nothing else; silent without a window, TypeError escapes without a queue |
| Tracker.MatomoTracker.SetReferralCookieTimeout | esm2022/lib/matomo-tracker.service.mjs:1602-1611 | appends exactly `['setReferralCookieTimeout', timeout]` to a real queue and changes nothing else; silent without a window, TypeError escapes without a queue |
| Tracker.MatomoTracker.SetSessionCookieTimeout | esm2022/lib/matomo-tracker.service.mjs:1618-1627 | appends exactly `['setSessionCookieTimeout', timeout]` to a real queue and changes nothing else; silent without a window, TypeError escapes without a queue |
| Tracker.MatomoTracker.AddListener | esm2022/lib/matomo-tracker.service.mjs:1634-1643 | appends exactly `['addListener', element]` to a real queue and changes nothing else; silent without a window, TypeError escapes without a queue |
| Tracker.MatomoTracker.SetRequestMethod | esm2022/lib/matomo-tracker.service.mjs:1652-1661 | appends exactly `['setRequestMethod', requestMethod]` to a real queue and changes nothing else; silent without a window, TypeError escapes without a queue |
| Tracker.MatomoTracker.SetCustomRequestProcessing | esm2022/lib/matomo-tracker.service.mjs:1668-1677 | appends exactly `['setCustomRequestProcessing', callback]` to a real queue and changes nothing else; silent without a window, TypeError escapes without a queue |
| Tracker.MatomoTracker.SetRequestContentType | esm2022/lib/matomo-tracker.service.mjs:1684-1693 | appends exactly `['setRequestContentType', contentType]` to a real queue and changes nothing else; silent without a window, TypeError escapes without a queue |
| Tracker.MatomoTracker.DisableQueueRequest | esm2022/lib/matomo-tracker.service.mjs:1700-1709 | appends exactly `['disableQueueRequest']` to a real queue and changes nothing else; silent without a window, TypeError escapes without a queue |

## Left out

- The tracker's getters return Promises that resolve through a function pushed onto the queue, for example `getVisitorId`, `getCurrentUrl` and `hasCookies`. They depend on the external script running that function later, so they are not modelled.
- Tracker.MatomoTracker.constructor: the `console.warn` printed when `_paq` is undefined is console output and is not modelled.
- Numbers are modelled as mathematical integers. Prices, revenues, timeouts and other fractional or `NaN` values that JavaScript allows are not modelled, and neither is the clock value's range.
- Injector.IntToString renders integer site ids only, always as plain digits. A fractional site id's `toString`, and the exponent form (`1e+21`) JavaScript uses for integers of magnitude 10^21 or more, are not modelled.
- The configuration's `scriptVersion` is always a number. An absent version makes `undefined < 4` false, so `setGenerationTimeMs` never pushes; any version of 4 or more gives the same behaviour in the model.
- The router, dependency injection, RxJS operators and the DOM are inputs:
  - the router's events arrive as timestamped values;
  - `new Date().getTime()` is the timestamp carried by each event;
  - `window.location.href`, the activated route tree and the elements found by id arrive together as a `PageState` for each event.
- RouteTracker.TitleCommands treats `matomoTitle` and the route title as strings. Other values a route's `data` may hold (numbers, objects) are not modelled.
- RouteTracker.MatomoRouteTracker.StartTracking: a second call in the source leaves the first subscription running without a reference to it. The model keeps only the newest subscription, so the events the leaked one would still handle are not modelled.
- An error thrown inside the subscriber's handler is reported by RxJS rather than returned. The model returns it as the handler's outcome and keeps the subscription.
- Injector.MatomoInjector.Init: the attributes set on the script element (`type`, `async`, `defer`, `src`) and the script's later download are not modelled. Only whether the element is inserted is modelled.
- The timer callback is not run. `init()` returns the command the callback would push. When the callback runs, and what its push then does, are not modelled.
- RouteTracker.React and RouteTracker.ReactAll record `page.href` after every run, as a handler run that returns normally does. So RouteTracker.NavigationPair, RouteTracker.ReferrerChaining and RouteTracker.ReferrersChain describe only runs that return normally. RouteTracker.MatomoRouteTracker.OnRouterEvent covers the run that throws, which keeps the recorded URL.
- The external Matomo script draining or replacing `_paq` is not modelled. The queue only grows.
- `MatomoModule`'s wiring of the services (`esm2022/lib/matomo.module.mjs`) is not part of this model.

## Findings

| source | as written | input that shows it | evidently intended | confidence | as-written member | corrected member |
|---|---|---|---|---|---|---|
| esm2022/lib/matomo-route-tracker.service.mjs:65 | `contentIds?.map(document.getElementById)` passes `getElementById` without its `document` receiver, so the first call throws a TypeError ("Illegal invocation") that escapes the handler after `trackPageView`. No impression is scanned and link tracking is never enabled. | `routeTracking.contentIds = ['x', 'y', 'z']` with elements `x` and `z` on the page | look each id up on `document` and scan every element found: `x` and `z` here, followed by `enableLinkTracking` when configured | not executed | RouteTracker.PageViewCommandsAsWritten, RouteTracker.UnboundLookupExample | RouteTracker.ImpressionCommands |
