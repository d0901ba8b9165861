/**
 * `MatomoRouteTracker`: turns the router's navigation events into page views.
 *
 * The subscription keeps only NavigationStart and NavigationEnd events, stamps each with
 * the clock, pairs every event with the one before it (`pairwise`) and keeps the pairs
 * whose first event is a start and whose second is an end. For each such pair it pushes,
 * through the tracker, a fixed batch: the referrer (the URL of the previous page view),
 * the title of the deepest active route, the current URL, the deletion of page-scoped
 * custom variables, the generation time, the page view, one content-impression scan per
 * configured element id that resolves, and link tracking when configured.
 *
 * The scans and link tracking are the intended behaviour. As written, the ids are looked up
 * with `getElementById` detached from `document`, which throws a TypeError at the first id
 * (`PageViewCommandsAsWritten`). The class below runs the corrected lookup
 * (`ImpressionCommands`).
 *
 * The router, the clock, `window.location.href`, the active route tree and
 * `document.getElementById` are inputs: each event arrives with its clock reading and a
 * `PageState` holding the URL, the route tree and the elements by id.
 */
module RouteTracker {
  import opened Wrappers
  import opened Queue
  import opened Configuration
  import opened Tracker

  /** The router events; every kind other than start and end is `OtherEvent`. */
  datatype RouterEvent = NavigationStart | NavigationEnd | OtherEvent

  /** `{ timestamp: new Date().getTime(), event }`. */
  datatype Stamped = Stamped(event: RouterEvent, timestamp: int)

  /** What the tracker reads of a route snapshot: `data['matomoTitle']` and `title`. */
  datatype Snapshot = Snapshot(matomoTitle: Option<string>, title: Option<string>)

  /** An active route and its first active child. */
  datatype ActivatedRoute = ActivatedRoute(snapshot: Snapshot, firstChild: Option<ActivatedRoute>)

  /** The browser as the handler sees it: the URL, the active route tree, and the elements by id. */
  datatype PageState = PageState(href: string, root: ActivatedRoute, dom: map<string, nat>)

  /** `leaf` is `route` itself or is reached from it by following `firstChild` links. */
  predicate OnFirstChildChain(leaf: ActivatedRoute, route: ActivatedRoute)
    decreases route
  {
    leaf == route || (route.firstChild.Some? && OnFirstChildChain(leaf, route.firstChild.value))
  }

  /** The route reached from `route` by following `firstChild` while there is one. */
  function Deepest(route: ActivatedRoute): (leaf: ActivatedRoute)
    ensures leaf.firstChild.None?
    ensures OnFirstChildChain(leaf, route)
  {
    match route.firstChild
    case None => route
    case Some(child) => Deepest(child)
  }

  /** The chain of first children has exactly one childless route: the one `Deepest` finds. */
  lemma {:induction false} DeepestIsTheOnlyLeaf(leaf: ActivatedRoute, route: ActivatedRoute)
    requires OnFirstChildChain(leaf, route) && leaf.firstChild.None?
    ensures leaf == Deepest(route)
    decreases route
  {
    if leaf != route {
      DeepestIsTheOnlyLeaf(leaf, route.firstChild.value);
    }
  }

  /** How many `firstChild` links lead down from `route`. */
  function Depth(route: ActivatedRoute): nat {
    match route.firstChild
    case None => 0
    case Some(child) => 1 + Depth(child)
  }

  /** `while (currentRoute.firstChild) { currentRoute = currentRoute.firstChild; }` */
  method DeepestRoute(root: ActivatedRoute) returns (current: ActivatedRoute)
    ensures current == Deepest(root)
    ensures current.firstChild.None?
  {
    current := root;
    while current.firstChild.Some?
      invariant Deepest(current) == Deepest(root)
      decreases Depth(current)
    {
      current := current.firstChild.value;
    }
  }

  // ---------------------------------------------------------------------------
  // The batch pushed for one completed navigation

  /** `if (this.previousPageUrl) setReferrerUrl(this.previousPageUrl)`. */
  function ReferrerCommands(previousPageUrl: Option<string>): seq<Command> {
    if Truthy(previousPageUrl) then [SetReferrerUrlCommand(previousPageUrl.value)] else []
  }

  /**
   * `if (!!matomoTitle || !!title) setDocumentTitle(matomoTitle ?? title)`: the annotation
   * is preferred whenever it is defined, even when it is the empty string.
   */
  function TitleCommands(s: Snapshot): (cs: seq<Command>)
    ensures |cs| <= 1
    ensures cs != [] <==> Truthy(s.matomoTitle) || Truthy(s.title)
    ensures s.matomoTitle.Some? && cs != [] ==> cs == [SetDocumentTitleCommand(s.matomoTitle.value)]
    ensures s.matomoTitle.None? && cs != [] ==> cs == [SetDocumentTitleCommand(s.title.value)]
  {
    if Truthy(s.matomoTitle) || Truthy(s.title) then
      [SetDocumentTitleCommand(if s.matomoTitle.Some? then s.matomoTitle.value else s.title.value)]
    else []
  }

  /** What `getElementById` is called on: `document`, or nothing when the method is passed on its own. */
  datatype Receiver = Unbound | Document(dom: map<string, nat>)

  /** The result of a call that may throw. */
  datatype Lookup<T> = Threw(error: JsError) | Looked(value: T)

  /**
   * `getElementById(id)` called on `receiver`: the element with that id, or `null`. A DOM
   * operation invoked without a `document` as its receiver throws a TypeError.
   */
  function GetElementById(receiver: Receiver, id: string): Lookup<Option<nat>> {
    match receiver
    case Unbound => Threw(TypeError)
    case Document(dom) => Looked(if id in dom then Some(dom[id]) else None)
  }

  /** `ids.map(lookup)`: the lookup on each id in order; the first exception ends the map. */
  function MapLookup(receiver: Receiver, ids: seq<string>): Lookup<seq<Option<nat>>>
    decreases |ids|
  {
    if ids == [] then Looked([])
    else
      match GetElementById(receiver, ids[0])
      case Threw(e) => Threw(e)
      case Looked(x) =>
        match MapLookup(receiver, ids[1..])
        case Threw(e) => Threw(e)
        case Looked(xs) => Looked([x] + xs)
  }

  /** `.filter(isNonNull)`: the elements found, in order. */
  function NonNull(xs: seq<Option<nat>>): (r: seq<nat>)
    ensures |r| <= |xs|
    ensures forall n :: n in r <==> Some(n) in xs
  {
    if xs == [] then []
    else
      assert forall x :: x in xs <==> x == xs[0] || x in xs[1..];
      (if xs[0].Some? then [xs[0].value] else []) + NonNull(xs[1..])
  }

  /** `.forEach(content => trackContentImpressionsWithinNode(content))`: one scan per element, in order. */
  function ScanCommands(nodes: seq<nat>): (cs: seq<Command>)
    ensures |cs| == |nodes|
    ensures forall i :: 0 <= i < |nodes| ==> cs[i] == ContentImpressionsWithinNodeCommand(nodes[i])
  {
    if nodes == [] then []
    else
      var rest := ScanCommands(nodes[1..]);
      assert forall i :: 1 <= i < |nodes| ==> nodes[1..][i - 1] == nodes[i];
      [ContentImpressionsWithinNodeCommand(nodes[0])] + rest
  }

  /** The lookup passed without its receiver throws a TypeError at the first id, and only when there is one. */
  lemma UnboundLookupThrows(ids: seq<string>)
    ensures MapLookup(Unbound, ids) == if ids == [] then Looked([]) else Threw(TypeError)
  {
  }

  /** The lookup called on `document` never throws and finds, id by id, the element the page holds. */
  lemma {:induction false} BoundLookupPointwise(dom: map<string, nat>, ids: seq<string>)
    ensures MapLookup(Document(dom), ids).Looked?
    ensures |MapLookup(Document(dom), ids).value| == |ids|
    ensures forall i :: 0 <= i < |ids| ==>
      MapLookup(Document(dom), ids).value[i] == if ids[i] in dom then Some(dom[ids[i]]) else None
    decreases |ids|
  {
    if ids != [] {
      BoundLookupPointwise(dom, ids[1..]);
      var xs := MapLookup(Document(dom), ids[1..]).value;
      var x := if ids[0] in dom then Some(dom[ids[0]]) else None;
      assert MapLookup(Document(dom), ids) == Looked([x] + xs);
      forall i | 1 <= i < |ids|
        ensures ([x] + xs)[i] == if ids[i] in dom then Some(dom[ids[i]]) else None
      {
        assert ([x] + xs)[i] == xs[i - 1];
        assert ids[1..][i - 1] == ids[i];
      }
    }
  }

  /**
   * One content-impression scan per configured id that resolves to an element, in the
   * configured order; ids without an element are skipped. This is the lookup with `document`
   * as its receiver (see `ImpressionsAreBoundLookups`).
   */
  function ImpressionCommands(ids: seq<string>, dom: map<string, nat>): (cs: seq<Command>)
    ensures |cs| <= |ids|
    ensures forall c :: c in cs ==> c.name == "trackContentImpressionsWithinNode"
    ensures (forall i :: 0 <= i < |ids| ==> ids[i] !in dom) ==> cs == []
    ensures (forall i :: 0 <= i < |ids| ==> ids[i] in dom) ==>
      |cs| == |ids| && forall i :: 0 <= i < |ids| ==> cs[i] == ContentImpressionsWithinNodeCommand(dom[ids[i]])
  {
    if ids == [] then []
    else
      var rest := ImpressionCommands(ids[1..], dom);
      assert forall i :: 0 <= i < |ids[1..]| ==> ids[1..][i] == ids[i + 1];
      if ids[0] in dom then [ContentImpressionsWithinNodeCommand(dom[ids[0]])] + rest else rest
  }

  /** The scans for two lists of ids are the scans for the first, then those for the second. */
  lemma {:induction false} ImpressionsDistribute(a: seq<string>, b: seq<string>, dom: map<string, nat>)
    ensures ImpressionCommands(a + b, dom) == ImpressionCommands(a, dom) + ImpressionCommands(b, dom)
  {
    if a == [] {
      assert a + b == b;
    } else {
      assert (a + b)[1..] == a[1..] + b;
      ImpressionsDistribute(a[1..], b, dom);
    }
  }

  /** The scans are exactly the map, filter and forEach pipeline run with the lookup bound to `document`. */
  lemma {:induction false} ImpressionsAreBoundLookups(ids: seq<string>, dom: map<string, nat>)
    ensures MapLookup(Document(dom), ids).Looked?
    ensures ImpressionCommands(ids, dom) == ScanCommands(NonNull(MapLookup(Document(dom), ids).value))
    decreases |ids|
  {
    BoundLookupPointwise(dom, ids);
    if ids != [] {
      ImpressionsAreBoundLookups(ids[1..], dom);
      var xs := MapLookup(Document(dom), ids[1..]).value;
      var x := if ids[0] in dom then Some(dom[ids[0]]) else None;
      assert MapLookup(Document(dom), ids).value == [x] + xs;
      assert ([x] + xs)[1..] == xs;
      var found := NonNull(xs);
      assert NonNull([x] + xs) == (if x.Some? then [x.value] else []) + found;
      if x.Some? {
        assert ([x.value] + found)[1..] == found;
      } else {
        assert [] + found == found;
      }
    }
  }

  /** `if (configuration.trackLinks === true) enableLinkTracking(configuration.trackLinkValue)`. */
  function LinkTrackingCommands(config: Config): seq<Command> {
    if config.trackLinks == Some(true) then [EnableLinkTrackingCommand(config.trackLinkValue)] else []
  }

  /** The commands pushed up to and including the page view. */
  function PageViewHead(config: Config, previousPageUrl: Option<string>, leaf: Snapshot,
                        page: PageState, generationTime: int): seq<Command>
  {
    ReferrerCommands(previousPageUrl) + TitleCommands(leaf)
      + [SetCustomUrlCommand(page.href), DeleteCustomVariablesCommand(Page)]
      + GenerationTimeCommands(config.scriptVersion, generationTime)
      + [TrackPageViewCommand(None)]
  }

  /** The head sends the current URL and ends with the page view. */
  lemma HeadEndsWithPageView(config: Config, previousPageUrl: Option<string>, leaf: Snapshot,
                             page: PageState, generationTime: int)
    ensures var cs := PageViewHead(config, previousPageUrl, leaf, page, generationTime);
      |cs| >= 3 && cs[|cs| - 1] == TrackPageViewCommand(None) && SetCustomUrlCommand(page.href) in cs
  {
    var opening := ReferrerCommands(previousPageUrl) + TitleCommands(leaf);
    var cs := PageViewHead(config, previousPageUrl, leaf, page, generationTime);
    assert cs[|opening|] == SetCustomUrlCommand(page.href);
  }

  /**
   * The whole batch for one completed navigation, in the order it is pushed: the head first,
   * and `enableLinkTracking` last exactly when link tracking is configured.
   */
  function PageViewCommands(config: Config, previousPageUrl: Option<string>, leaf: Snapshot,
                            page: PageState, generationTime: int): seq<Command>
  {
    PageViewHead(config, previousPageUrl, leaf, page, generationTime)
      + ImpressionCommands(ContentIds(config), page.dom)
      + LinkTrackingCommands(config)
  }

  /** The batch starts with the head and ends with `enableLinkTracking` exactly when it is configured. */
  lemma BatchExtendsHead(config: Config, previousPageUrl: Option<string>, leaf: Snapshot,
                         page: PageState, generationTime: int)
    ensures var cs := PageViewCommands(config, previousPageUrl, leaf, page, generationTime);
      && PageViewHead(config, previousPageUrl, leaf, page, generationTime) <= cs
      && (cs[|cs| - 1] == EnableLinkTrackingCommand(config.trackLinkValue) <==> config.trackLinks == Some(true))
  {
    var head := PageViewHead(config, previousPageUrl, leaf, page, generationTime);
    HeadEndsWithPageView(config, previousPageUrl, leaf, page, generationTime);
    var scans := ImpressionCommands(ContentIds(config), page.dom);
    assert scans != [] ==> scans[|scans| - 1] in scans;
  }

  /**
   * The handler's guarded calls `cs`, around a read of `window.location.href` that no try
   * protects: without a window the read throws a ReferenceError that escapes, and the calls
   * made before it were silent no-ops; otherwise the calls behave as guarded calls.
   */
  function WithLocation(g: Global, cs: seq<Command>): (r: Step)
    ensures r.global == Appended(g, cs)
    ensures r.outcome == Raised(ReferenceError) <==> g == NoWindow
    ensures r.outcome.Returned? <==> g.Window? && (!g.paq.Undefined? || cs == [])
  {
    if g == NoWindow then Step(g, Raised(ReferenceError)) else Guarded(g, cs)
  }

  /** The batch is the head followed by what the handler pushes after recording the URL. */
  lemma BatchIsHeadThenTail(config: Config, previousPageUrl: Option<string>, leaf: Snapshot,
                            page: PageState, generationTime: int)
    ensures PageViewCommands(config, previousPageUrl, leaf, page, generationTime)
         == PageViewHead(config, previousPageUrl, leaf, page, generationTime)
            + (ImpressionCommands(ContentIds(config), page.dom) + LinkTrackingCommands(config))
  {
    var head := PageViewHead(config, previousPageUrl, leaf, page, generationTime);
    var scans := ImpressionCommands(ContentIds(config), page.dom);
    assert head + scans + LinkTrackingCommands(config) == head + (scans + LinkTrackingCommands(config));
  }

  /**
   * Guarded calls after a run behind the URL read: a run that threw is the whole result,
   * otherwise the later calls continue from where it left the environment.
   */
  lemma WithLocationThen(g: Global, a: seq<Command>, b: seq<Command>)
    ensures WithLocation(g, a).outcome.Raised? ==> WithLocation(g, a + b) == WithLocation(g, a)
    ensures WithLocation(g, a).outcome.Returned? ==> Guarded(WithLocation(g, a).global, b) == WithLocation(g, a + b)
  {
    if g != NoWindow {
      GuardedThen(g, a, b);
    }
  }

  /**
   * A handler run ends normally exactly when the window has a defined `_paq`: without a window
   * the URL read throws, and without `_paq` the first push throws.
   */
  lemma HandlerReturnsIffQueue(g: Global, config: Config, previousPageUrl: Option<string>, leaf: Snapshot,
                               page: PageState, generationTime: int)
    ensures WithLocation(g, PageViewCommands(config, previousPageUrl, leaf, page, generationTime)).outcome.Returned?
        <==> g.Window? && !g.paq.Undefined?
  {
    var head := PageViewHead(config, previousPageUrl, leaf, page, generationTime);
    assert head <= PageViewCommands(config, previousPageUrl, leaf, page, generationTime);
  }

  /** Every batch holds exactly one page view, and exactly one `setCustomUrl` carrying the current URL. */
  lemma OnePageViewPerBatch(config: Config, previousPageUrl: Option<string>, leaf: Snapshot,
                            page: PageState, generationTime: int)
    ensures CountNamed(PageViewCommands(config, previousPageUrl, leaf, page, generationTime), "trackPageView") == 1
    ensures CountNamed(PageViewCommands(config, previousPageUrl, leaf, page, generationTime), "setCustomUrl") == 1
    ensures SetCustomUrlCommand(page.href) in PageViewCommands(config, previousPageUrl, leaf, page, generationTime)
  {
    var r, t := ReferrerCommands(previousPageUrl), TitleCommands(leaf);
    var u := [SetCustomUrlCommand(page.href), DeleteCustomVariablesCommand(Page)];
    var g := GenerationTimeCommands(config.scriptVersion, generationTime);
    var p := [TrackPageViewCommand(None)];
    var i := ImpressionCommands(ContentIds(config), page.dom);
    var l := LinkTrackingCommands(config);
    forall name | name == "trackPageView" || name == "setCustomUrl"
      ensures CountNamed(r + t + u + g + p + i + l, name) == CountNamed(u, name) + CountNamed(p, name)
    {
      CountNamedConcat(r + t + u + g + p + i, l, name);
      CountNamedConcat(r + t + u + g + p, i, name);
      CountNamedConcat(r + t + u + g, p, name);
      CountNamedConcat(r + t + u, g, name);
      CountNamedConcat(r + t, u, name);
      CountNamedConcat(r, t, name);
      CountNamedAbsent(r, name);
      CountNamedAbsent(t, name);
      CountNamedAbsent(g, name);
      CountNamedAbsent(i, name);
      CountNamedAbsent(l, name);
    }
    assert u[1..][1..] == [] && p[1..] == [];
    assert CountNamed(u, "trackPageView") == 0 && CountNamed(p, "trackPageView") == 1;
    assert CountNamed(u, "setCustomUrl") == 1 && CountNamed(p, "setCustomUrl") == 0;
    assert (r + t + u + g + p + i + l)[|r + t|] == SetCustomUrlCommand(page.href);
  }

  /**
   * Referrer handling within a batch: it opens with `setReferrerUrl(previous)` when a
   * previous URL was recorded, and holds no `setReferrerUrl` at all otherwise.
   */
  lemma ReferrerOpensBatch(config: Config, previousPageUrl: Option<string>, leaf: Snapshot,
                           page: PageState, generationTime: int)
    ensures var cs := PageViewCommands(config, previousPageUrl, leaf, page, generationTime);
      Truthy(previousPageUrl) ==> cs[0] == SetReferrerUrlCommand(previousPageUrl.value)
    ensures !Truthy(previousPageUrl) ==>
      CountNamed(PageViewCommands(config, previousPageUrl, leaf, page, generationTime), "setReferrerUrl") == 0
  {
    var opening := ReferrerCommands(previousPageUrl) + TitleCommands(leaf);
    var rest := [SetCustomUrlCommand(page.href), DeleteCustomVariablesCommand(Page)]
      + GenerationTimeCommands(config.scriptVersion, generationTime) + [TrackPageViewCommand(None)]
      + ImpressionCommands(ContentIds(config), page.dom) + LinkTrackingCommands(config);
    var cs := PageViewCommands(config, previousPageUrl, leaf, page, generationTime);
    assert cs == opening + rest;
    if Truthy(previousPageUrl) {
      assert opening[0] == SetReferrerUrlCommand(previousPageUrl.value);
    } else {
      assert forall c :: c in rest ==> c.name != "setReferrerUrl";
      assert forall c :: c in opening ==> c.name != "setReferrerUrl";
      CountNamedAbsent(opening + rest, "setReferrerUrl");
    }
  }

  // ---------------------------------------------------------------------------
  // Finding: the element lookup as written

  /**
   * The handler as written: `contentIds?.map(document.getElementById)` hands the lookup to
   * `map` without its `document`, so the lookup runs unbound. When it throws, the error
   * escapes the handler after the page view, and neither a scan nor `enableLinkTracking` is
   * pushed. The result is what was pushed and the error that escaped.
   */
  function PageViewCommandsAsWritten(config: Config, previousPageUrl: Option<string>, leaf: Snapshot,
                                     page: PageState, generationTime: int): (r: (seq<Command>, Option<JsError>))
    ensures r.1.Some? <==> ContentIds(config) != []
    ensures PageViewHead(config, previousPageUrl, leaf, page, generationTime) <= r.0
    ensures ContentIds(config) == [] ==>
      r == (PageViewCommands(config, previousPageUrl, leaf, page, generationTime), None)
  {
    UnboundLookupThrows(ContentIds(config));
    var head := PageViewHead(config, previousPageUrl, leaf, page, generationTime);
    assert ContentIds(config) == [] ==>
      NonNull([]) == [] && ScanCommands([]) == [] && ImpressionCommands(ContentIds(config), page.dom) == [];
    match MapLookup(Unbound, ContentIds(config))
    case Threw(e) => (head, Some(e))
    case Looked(found) => (head + ScanCommands(NonNull(found)) + LinkTrackingCommands(config), None)
  }

  /**
   * With any configured content id, the handler as written throws and loses the scans and
   * link tracking that the intended handler pushes.
   */
  lemma UnboundLookupLosesTail(config: Config, previousPageUrl: Option<string>, leaf: Snapshot,
                               page: PageState, generationTime: int)
    requires ContentIds(config) != []
    ensures PageViewCommandsAsWritten(config, previousPageUrl, leaf, page, generationTime).1 == Some(TypeError)
    ensures PageViewCommands(config, previousPageUrl, leaf, page, generationTime)
         == PageViewCommandsAsWritten(config, previousPageUrl, leaf, page, generationTime).0
          + ImpressionCommands(ContentIds(config), page.dom) + LinkTrackingCommands(config)
  {
  }

  /** The ids `[x, y, z]` where only `x` and `z` resolve: two scans intended, none as written. */
  lemma UnboundLookupExample(dom: map<string, nat>)
    requires "x" in dom && "y" !in dom && "z" in dom
    ensures MapLookup(Unbound, ["x", "y", "z"]) == Threw(TypeError)
    ensures MapLookup(Document(dom), ["x", "y", "z"]) == Looked([Some(dom["x"]), None, Some(dom["z"])])
    ensures ImpressionCommands(["x", "y", "z"], dom)
         == [ContentImpressionsWithinNodeCommand(dom["x"]), ContentImpressionsWithinNodeCommand(dom["z"])]
  {
    var ids := ["x", "y", "z"];
    BoundLookupPointwise(dom, ids);
    var found := MapLookup(Document(dom), ids).value;
    assert found[0] == Some(dom["x"]) && found[1] == None && found[2] == Some(dom["z"]) by {
      assert ids[0] == "x" && ids[1] == "y" && ids[2] == "z";
    }
    assert found == [Some(dom["x"]), None, Some(dom["z"])];
    assert ["x", "y", "z"][1..] == ["y", "z"];
    assert ["y", "z"][1..] == ["z"];
    assert ["z"][1..] == [];
  }

  // ---------------------------------------------------------------------------
  // Pairing

  /** The last operator of the pipe: keep a (previous, current) pair only when it is (start, end). */
  predicate Completes(last: Option<Stamped>, cur: Stamped) {
    last.Some? && last.value.event.NavigationStart? && cur.event.NavigationEnd?
  }

  /** The (start, end) pairs the pipe passes to the handler for `evs`, given `pairwise`'s buffer `last`. */
  function Pairs(last: Option<Stamped>, evs: seq<Stamped>): (r: seq<(Stamped, Stamped)>)
    ensures forall i :: 0 <= i < |r| ==> r[i].0.event.NavigationStart? && r[i].1.event.NavigationEnd?
    decreases |evs|
  {
    if evs == [] then []
    else if evs[0].event.OtherEvent? then Pairs(last, evs[1..])
    else (if Completes(last, evs[0]) then [(last.value, evs[0])] else []) + Pairs(Some(evs[0]), evs[1..])
  }

  /**
   * The reference state machine: idle, or waiting for the end of a started navigation.
   * A start always (re)starts the wait; an end completes it and returns to idle.
   */
  datatype Machine = Idle | AwaitingEnd(start: Stamped)

  function MachinePairs(m: Machine, evs: seq<Stamped>): seq<(Stamped, Stamped)>
    decreases |evs|
  {
    if evs == [] then []
    else
      match evs[0].event
      case OtherEvent => MachinePairs(m, evs[1..])
      case NavigationStart => MachinePairs(AwaitingEnd(evs[0]), evs[1..])
      case NavigationEnd =>
        match m
        case Idle => MachinePairs(Idle, evs[1..])
        case AwaitingEnd(start) => [(start, evs[0])] + MachinePairs(Idle, evs[1..])
  }

  /** The machine state that `pairwise`'s buffer stands for. */
  function MachineOf(last: Option<Stamped>): Machine {
    if last.Some? && last.value.event.NavigationStart? then AwaitingEnd(last.value) else Idle
  }

  /** The pipe pairs events exactly as the reference machine does. */
  lemma {:induction false} PairsMatchMachine(last: Option<Stamped>, evs: seq<Stamped>)
    ensures Pairs(last, evs) == MachinePairs(MachineOf(last), evs)
    decreases |evs|
  {
    if evs != [] {
      if evs[0].event.OtherEvent? {
        PairsMatchMachine(last, evs[1..]);
      } else {
        PairsMatchMachine(Some(evs[0]), evs[1..]);
      }
    }
  }

  /** Only the router events that are starts or ends: the pipe's first `filter`. */
  function Navigations(evs: seq<Stamped>): (r: seq<Stamped>)
    ensures forall e :: e in r ==> !e.event.OtherEvent?
  {
    if evs == [] then []
    else if evs[0].event.OtherEvent? then Navigations(evs[1..])
    else [evs[0]] + Navigations(evs[1..])
  }

  /** The (start, end) pairs of adjacent elements of a stream of starts and ends. */
  function AdjacentPairs(s: seq<Stamped>): seq<(Stamped, Stamped)>
    decreases |s|
  {
    if |s| < 2 then []
    else
      (if s[0].event.NavigationStart? && s[1].event.NavigationEnd? then [(s[0], s[1])] else [])
      + AdjacentPairs(s[1..])
  }

  /**
   * A page view is triggered exactly for each start that is immediately followed, among
   * the starts and ends, by an end.
   */
  lemma {:induction false} PairsAreAdjacent(evs: seq<Stamped>)
    ensures Pairs(None, evs) == AdjacentPairs(Navigations(evs))
  {
    if evs != [] {
      if evs[0].event.OtherEvent? {
        PairsAreAdjacent(evs[1..]);
      } else {
        PairsAreAdjacentAfter(evs[0], evs[1..]);
      }
    }
  }

  lemma {:induction false} PairsAreAdjacentAfter(x: Stamped, evs: seq<Stamped>)
    requires !x.event.OtherEvent?
    ensures Pairs(Some(x), evs) == AdjacentPairs([x] + Navigations(evs))
    decreases |evs|
  {
    var s := [x] + Navigations(evs);
    if evs == [] {
    } else if evs[0].event.OtherEvent? {
      PairsAreAdjacentAfter(x, evs[1..]);
    } else {
      PairsAreAdjacentAfter(evs[0], evs[1..]);
      assert s[1..] == [evs[0]] + Navigations(evs[1..]);
    }
  }

  /** Start, start, end: one page view, timed from the second start. */
  lemma SecondStartWins(a: Stamped, b: Stamped, c: Stamped)
    requires a.event.NavigationStart? && b.event.NavigationStart? && c.event.NavigationEnd?
    ensures Pairs(None, [a, b, c]) == [(b, c)]
  {
    assert [a, b, c][1..] == [b, c];
    assert [b, c][1..] == [c];
    assert [c][1..] == [];
    assert Pairs(Some(b), [c]) == [(b, c)];
    assert Pairs(Some(a), [b, c]) == [(b, c)];
  }

  /** An end with no start before it triggers nothing. */
  lemma LoneEndIgnored(c: Stamped, evs: seq<Stamped>)
    requires c.event.NavigationEnd?
    ensures Pairs(None, [c] + evs) == Pairs(Some(c), evs)
  {
    assert ([c] + evs)[1..] == evs;
  }

  // ---------------------------------------------------------------------------
  // The correlator as a function of the event stream

  /** The state of one subscription: `pairwise`'s buffer and the field `previousPageUrl`. */
  datatype Correlator = Correlator(last: Option<Stamped>, previousPageUrl: Option<string>)

  /** One run of the handler: the referrer it sends, the page it sees, and the generation time. */
  datatype PageView = PageView(previousPageUrl: Option<string>, page: PageState, generationTime: int)

  /** The commands one run of the handler pushes. */
  function BatchCommands(config: Config, v: PageView): seq<Command> {
    PageViewCommands(config, v.previousPageUrl, Deepest(v.page.root).snapshot, v.page, v.generationTime)
  }

  /** One router event reaching the subscription: the new state and the handler run it triggers, if any. */
  function React(s: Correlator, cur: Stamped, page: PageState): (r: (Correlator, Option<PageView>))
    ensures r.1.Some? <==> Completes(s.last, cur)
    ensures r.0.last == if cur.event.OtherEvent? then s.last else Some(cur)
    ensures r.1.Some? ==> r.1.value.previousPageUrl == s.previousPageUrl && r.0.previousPageUrl == Some(r.1.value.page.href)
    ensures r.1.None? ==> r.0.previousPageUrl == s.previousPageUrl
  {
    if cur.event.OtherEvent? then (s, None)
    else if Completes(s.last, cur) then
      (Correlator(Some(cur), Some(page.href)),
       Some(PageView(s.previousPageUrl, page, cur.timestamp - s.last.value.timestamp)))
    else (Correlator(Some(cur), s.previousPageUrl), None)
  }

  /** One router event with the page state it was observed in. */
  datatype Tick = Tick(stamped: Stamped, page: PageState)

  function Stamps(ticks: seq<Tick>): (r: seq<Stamped>)
    ensures |r| == |ticks| && forall i :: 0 <= i < |ticks| ==> r[i] == ticks[i].stamped
  {
    if ticks == [] then [] else [ticks[0].stamped] + Stamps(ticks[1..])
  }

  /** A whole stream of router events: the final state and the handler runs, in order. */
  function ReactAll(s: Correlator, ticks: seq<Tick>): (r: (Correlator, seq<PageView>))
    decreases |ticks|
  {
    if ticks == [] then (s, [])
    else
      var now := React(s, ticks[0].stamped, ticks[0].page);
      var later := ReactAll(now.0, ticks[1..]);
      (later.0, (if now.1.Some? then [now.1.value] else []) + later.1)
  }

  /**
   * A stream runs the handler at most once per event, and leaves recorded the URL of its
   * last run, or the URL recorded before it when nothing ran.
   */
  lemma {:induction false} ReactAllRecordsLastRun(s: Correlator, ticks: seq<Tick>)
    ensures var r := ReactAll(s, ticks);
      && |r.1| <= |ticks|
      && r.0.previousPageUrl == if r.1 == [] then s.previousPageUrl else Some(r.1[|r.1| - 1].page.href)
    decreases |ticks|
  {
    if ticks != [] {
      var now := React(s, ticks[0].stamped, ticks[0].page);
      ReactAllRecordsLastRun(now.0, ticks[1..]);
    }
  }

  /** Everything a sequence of handler runs pushes, in order. */
  function AllCommands(config: Config, vs: seq<PageView>): seq<Command> {
    if vs == [] then [] else BatchCommands(config, vs[0]) + AllCommands(config, vs[1..])
  }

  /**
   * The handler runs once per pair the pipe passes on, with that pair's page and
   * end-minus-start time, and the buffer ends as the last start or end seen.
   */
  lemma {:induction false} RunsFollowPairs(s: Correlator, ticks: seq<Tick>)
    ensures |ReactAll(s, ticks).1| == |Pairs(s.last, Stamps(ticks))|
    ensures forall i :: 0 <= i < |ReactAll(s, ticks).1| ==>
      ReactAll(s, ticks).1[i].generationTime
        == Pairs(s.last, Stamps(ticks))[i].1.timestamp - Pairs(s.last, Stamps(ticks))[i].0.timestamp
    decreases |ticks|
  {
    if ticks != [] {
      var t := ticks[0];
      var now := React(s, t.stamped, t.page);
      RunsFollowPairs(now.0, ticks[1..]);
      var evs := Stamps(ticks);
      assert evs[0] == t.stamped;
      assert evs[1..] == Stamps(ticks[1..]);
      var later := ReactAll(now.0, ticks[1..]).1;
      var laterPairs := Pairs(now.0.last, evs[1..]);
      var emitted: seq<PageView> := if now.1.Some? then [now.1.value] else [];
      var paired: seq<(Stamped, Stamped)> := if !t.stamped.event.OtherEvent? && Completes(s.last, t.stamped) then [(s.last.value, t.stamped)] else [];
      assert ReactAll(s, ticks).1 == emitted + later;
      assert Pairs(s.last, evs) == paired + laterPairs;
      assert |emitted| == |paired|;
      forall i | 0 <= i < |emitted + later|
        ensures (emitted + later)[i].generationTime == (paired + laterPairs)[i].1.timestamp - (paired + laterPairs)[i].0.timestamp
      {
        if i >= |emitted| {
          assert (emitted + later)[i] == later[i - |emitted|];
          assert (paired + laterPairs)[i] == laterPairs[i - |emitted|];
        }
      }
    }
  }

  /**
   * Referrer chaining over any stream: the first run sends the URL recorded before the stream,
   * and every later run sends the URL of the run before it.
   */
  lemma {:induction false} ReferrersChain(s: Correlator, ticks: seq<Tick>)
    ensures var runs := ReactAll(s, ticks).1;
      && (runs != [] ==> runs[0].previousPageUrl == s.previousPageUrl)
      && forall i :: 0 < i < |runs| ==> runs[i].previousPageUrl == Some(runs[i - 1].page.href)
    decreases |ticks|
  {
    if ticks != [] {
      var now := React(s, ticks[0].stamped, ticks[0].page);
      ReferrersChain(now.0, ticks[1..]);
      var later := ReactAll(now.0, ticks[1..]).1;
      if now.1.Some? {
        var runs := [now.1.value] + later;
        assert ReactAll(s, ticks).1 == runs;
        forall i | 0 < i < |runs|
          ensures runs[i].previousPageUrl == Some(runs[i - 1].page.href)
        {
          assert runs[i] == later[i - 1];
          if i > 1 {
            assert runs[i - 1] == later[i - 2];
          }
        }
      } else {
        assert ReactAll(s, ticks).1 == [] + later == later;
      }
    }
  }

  /** The pushes of the runs hold one page view per run. */
  lemma {:induction false} OnePageViewPerRun(config: Config, vs: seq<PageView>)
    ensures CountNamed(AllCommands(config, vs), "trackPageView") == |vs|
  {
    if vs != [] {
      var v := vs[0];
      OnePageViewPerRun(config, vs[1..]);
      OnePageViewPerBatch(config, v.previousPageUrl, Deepest(v.page.root).snapshot, v.page, v.generationTime);
      CountNamedConcat(BatchCommands(config, v), AllCommands(config, vs[1..]), "trackPageView");
    }
  }

  /** Feeding two streams one after the other is feeding their concatenation. */
  lemma {:induction false} ReactAllConcat(s: Correlator, a: seq<Tick>, b: seq<Tick>)
    ensures var first := ReactAll(s, a);
            var second := ReactAll(first.0, b);
            ReactAll(s, a + b) == (second.0, first.1 + second.1)
    decreases |a|
  {
    if a == [] {
      assert a + b == b;
      assert [] + ReactAll(s, b).1 == ReactAll(s, b).1;
    } else {
      assert (a + b)[0] == a[0];
      assert (a + b)[1..] == a[1..] + b;
      var now := React(s, a[0].stamped, a[0].page);
      ReactAllConcat(now.0, a[1..], b);
      var first := ReactAll(now.0, a[1..]);
      var second := ReactAll(first.0, b);
      var emitted := if now.1.Some? then [now.1.value] else [];
      assert ReactAll(s, a) == (first.0, emitted + first.1);
      var rest := ReactAll(now.0, a[1..] + b);
      assert rest == (second.0, first.1 + second.1);
      assert ReactAll(s, a + b) == (rest.0, emitted + rest.1);
      assert emitted + (first.1 + second.1) == (emitted + first.1) + second.1;
    }
  }

  /**
   * A start followed by an end, whatever came before: one handler run, with the previously
   * recorded URL as referrer and end minus start as generation time; the end's URL is
   * recorded for the next run.
   */
  lemma NavigationPair(s: Correlator, start: Stamped, end: Stamped, before: PageState, after: PageState)
    requires start.event.NavigationStart? && end.event.NavigationEnd?
    ensures ReactAll(s, [Tick(start, before), Tick(end, after)])
         == (Correlator(Some(end), Some(after.href)),
             [PageView(s.previousPageUrl, after, end.timestamp - start.timestamp)])
  {
    var ticks := [Tick(start, before), Tick(end, after)];
    var mid := Correlator(Some(start), s.previousPageUrl);
    var run := PageView(s.previousPageUrl, after, end.timestamp - start.timestamp);
    assert ticks[1..] == [Tick(end, after)];
    assert ticks[1..][1..] == [];
    assert React(s, start, before) == (mid, None);
    assert React(mid, end, after) == (Correlator(Some(end), Some(after.href)), Some(run));
    assert ReactAll(mid, ticks[1..]) == (Correlator(Some(end), Some(after.href)), [run] + []);
    assert [] + ([run] + []) == [run];
  }

  /**
   * Two navigations, to `p1` and then `p3`, on a fresh subscription: the first run has no
   * referrer, the second has the first page's URL as referrer (so its batch opens with
   * `setReferrerUrl`, by `ReferrerOpensBatch`), and each carries its own end-minus-start
   * generation time.
   */
  lemma ReferrerChaining(s1: Stamped, e1: Stamped, s2: Stamped, e2: Stamped,
                         p0: PageState, p1: PageState, p2: PageState, p3: PageState)
    requires s1.event.NavigationStart? && e1.event.NavigationEnd?
    requires s2.event.NavigationStart? && e2.event.NavigationEnd?
    requires p1.href != ""
    ensures var runs := [PageView(None, p1, e1.timestamp - s1.timestamp),
                         PageView(Some(p1.href), p3, e2.timestamp - s2.timestamp)];
            ReactAll(Correlator(None, None), [Tick(s1, p0), Tick(e1, p1), Tick(s2, p2), Tick(e2, p3)])
              == (Correlator(Some(e2), Some(p3.href)), runs)
  {
    var a, b := [Tick(s1, p0), Tick(e1, p1)], [Tick(s2, p2), Tick(e2, p3)];
    assert a + b == [Tick(s1, p0), Tick(e1, p1), Tick(s2, p2), Tick(e2, p3)];
    ReactAllConcat(Correlator(None, None), a, b);
    NavigationPair(Correlator(None, None), s1, e1, p0, p1);
    NavigationPair(Correlator(Some(e1), Some(p1.href)), s2, e2, p2, p3);
    assert [PageView(None, p1, e1.timestamp - s1.timestamp)] + [PageView(Some(p1.href), p3, e2.timestamp - s2.timestamp)]
        == [PageView(None, p1, e1.timestamp - s1.timestamp), PageView(Some(p1.href), p3, e2.timestamp - s2.timestamp)];
  }

  // ---------------------------------------------------------------------------
  // The service

  /** A live subscription to the router's events, holding `pairwise`'s buffer. */
  datatype Subscription = Subscription(last: Option<Stamped>)

  class MatomoRouteTracker {
    /** The injected tracker that the batch is pushed through. */
    const tracker: MatomoTracker
    /** The URL recorded by the last page view, sent as the next one's referrer. */
    var previousPageUrl: Option<string>
    /** The subscription to the router's events, while tracking. */
    var subscription: Option<Subscription>

    constructor (tracker: MatomoTracker)
      ensures this.tracker == tracker
      ensures previousPageUrl == None && subscription == None
    {
      this.tracker := tracker;
      previousPageUrl := None;
      subscription := None;
    }

    /** `startTracking()`: subscribes afresh; the new `pairwise` has seen nothing yet. */
    method StartTracking()
      modifies this
      ensures subscription == Some(Subscription(None))
      ensures previousPageUrl == old(previousPageUrl)
    {
      subscription := Some(Subscription(None));
    }

    /** `stopTracking()`: unsubscribes and clears the field, only if there is a subscription. */
    method StopTracking()
      modifies this
      ensures subscription == None
      ensures previousPageUrl == old(previousPageUrl)
      ensures old(subscription).None? ==> unchanged(this)
    {
      if subscription.Some? {
        subscription := None;
      }
    }

    /** `ngOnDestroy()`: exactly `stopTracking()`. */
    method NgOnDestroy()
      modifies this
      ensures subscription == None
      ensures previousPageUrl == old(previousPageUrl)
      ensures old(subscription).None? ==> unchanged(this)
    {
      StopTracking();
    }

    /**
     * The router emits `event` at clock reading `event.timestamp`, observed in `page`. While
     * subscribed, the pipe updates `pairwise`'s buffer and, for a (start, end) pair, runs the
     * handler; an exception escaping the handler leaves `previousPageUrl` as it was.
     */
    method OnRouterEvent(event: Stamped, page: PageState) returns (outcome: Outcome)
      modifies this, tracker.host
      ensures old(subscription).None? ==>
        unchanged(this) && tracker.host.global == old(tracker.host.global) && outcome == Returned
      ensures old(subscription).Some? ==>
        var (s', run) := React(Correlator(old(subscription).value.last, old(previousPageUrl)), event, page);
        && subscription == Some(Subscription(s'.last))
        && (run.None? ==> tracker.host.global == old(tracker.host.global) && outcome == Returned
                          && previousPageUrl == old(previousPageUrl))
        && (run.Some? ==>
              && Step(tracker.host.global, outcome)
                 == WithLocation(old(tracker.host.global), BatchCommands(tracker.configuration, run.value))
              && previousPageUrl == if outcome.Returned? then s'.previousPageUrl else old(previousPageUrl))
    {
      outcome := Returned;
      if subscription.None? || event.event.OtherEvent? {
        return;
      }
      var last := subscription.value.last;
      ghost var reacted := React(Correlator(last, previousPageUrl), event, page);
      subscription := Some(Subscription(Some(event)));
      if Completes(last, event) {
        ghost var run := PageView(previousPageUrl, page, event.timestamp - last.value.timestamp);
        assert reacted == (Correlator(Some(event), Some(page.href)), Some(run));
        outcome := Next(last.value, event, page);
        assert BatchCommands(tracker.configuration, run)
            == PageViewCommands(tracker.configuration, run.previousPageUrl, Deepest(page.root).snapshot, page,
                                event.timestamp - last.value.timestamp);
      } else {
        assert reacted == (Correlator(Some(event), previousPageUrl), None);
      }
    }

    /** The subscriber's `next` handler for one (start, end) pair. */
    method Next(start: Stamped, end: Stamped, page: PageState) returns (outcome: Outcome)
      modifies this`previousPageUrl, tracker.host
      ensures Step(tracker.host.global, outcome) == WithLocation(old(tracker.host.global),
        PageViewCommands(tracker.configuration, old(previousPageUrl), Deepest(page.root).snapshot, page,
                         end.timestamp - start.timestamp))
      ensures previousPageUrl == if outcome.Returned? then Some(page.href) else old(previousPageUrl)
    {
      var currentRoute := DeepestRoute(page.root);
      ghost var g0 := tracker.host.global;
      ghost var head := PageViewHead(tracker.configuration, previousPageUrl, currentRoute.snapshot, page,
                                     end.timestamp - start.timestamp);
      ghost var tail := ImpressionCommands(ContentIds(tracker.configuration), page.dom)
        + LinkTrackingCommands(tracker.configuration);
      BatchIsHeadThenTail(tracker.configuration, previousPageUrl, currentRoute.snapshot, page,
                          end.timestamp - start.timestamp);
      WithLocationThen(g0, head, tail);
      outcome := SendHead(previousPageUrl, currentRoute.snapshot, page, end.timestamp - start.timestamp);
      if outcome.Raised? {
        return;
      }
      previousPageUrl := Some(page.href);
      outcome := SendTail(page.dom);
    }

    /** After the URL is recorded: the impression scans, then `enableLinkTracking` when configured. */
    method SendTail(dom: map<string, nat>) returns (outcome: Outcome)
      modifies tracker.host
      ensures Step(tracker.host.global, outcome)
           == Guarded(old(tracker.host.global),
                      ImpressionCommands(ContentIds(tracker.configuration), dom) + LinkTrackingCommands(tracker.configuration))
    {
      ghost var g0 := tracker.host.global;
      ghost var impressions := ImpressionCommands(ContentIds(tracker.configuration), dom);
      GuardedThen(g0, impressions, LinkTrackingCommands(tracker.configuration));
      outcome := SendImpressions(ContentIds(tracker.configuration), dom);
      if outcome.Raised? {
        return;
      }
      if tracker.configuration.trackLinks == Some(true) {
        outcome := tracker.EnableLinkTracking(tracker.configuration.trackLinkValue);
        CallAfterAppended(g0, impressions, EnableLinkTrackingCommand(tracker.configuration.trackLinkValue));
      } else {
        assert impressions + [] == impressions;
      }
    }

    /** The handler's pushes up to and including `trackPageView()`, with the URL read in between. */
    method SendHead(previous: Option<string>, snapshot: Snapshot, page: PageState, generationTime: int)
      returns (outcome: Outcome)
      modifies tracker.host
      ensures Step(tracker.host.global, outcome)
           == WithLocation(old(tracker.host.global), PageViewHead(tracker.configuration, previous, snapshot, page, generationTime))
    {
      ghost var g0 := tracker.host.global;
      ghost var opening := ReferrerCommands(previous) + TitleCommands(snapshot);
      ghost var core := [SetCustomUrlCommand(page.href), DeleteCustomVariablesCommand(Page)]
        + GenerationTimeCommands(tracker.configuration.scriptVersion, generationTime) + [TrackPageViewCommand(None)];
      assert opening + core == PageViewHead(tracker.configuration, previous, snapshot, page, generationTime);
      GuardedThen(g0, opening, core);
      outcome := SendOpening(previous, snapshot);
      if outcome.Raised? {
        return;
      }
      outcome := SendPageView(page, generationTime);
      assert Appended(g0, opening) == NoWindow <==> g0 == NoWindow;
    }

    /** The referrer and the document title, each sent only when there is one. */
    method SendOpening(previous: Option<string>, snapshot: Snapshot) returns (outcome: Outcome)
      modifies tracker.host
      ensures Step(tracker.host.global, outcome)
           == Guarded(old(tracker.host.global), ReferrerCommands(previous) + TitleCommands(snapshot))
    {
      ghost var g0 := tracker.host.global;
      assert Appended(g0, []) == g0 by {
        if g0.Window? && g0.paq.Queue? {
          assert g0.paq.entries + [] == g0.paq.entries;
        }
      }
      outcome := Returned;
      if Truthy(previous) {
        outcome := tracker.SetReferrerUrl(previous.value);
        CallAfterAppended(g0, [], SetReferrerUrlCommand(previous.value));
        if outcome.Raised? {
          return;
        }
      }
      ghost var done := ReferrerCommands(previous);
      if Truthy(snapshot.matomoTitle) || Truthy(snapshot.title) {
        var title := if snapshot.matomoTitle.Some? then snapshot.matomoTitle.value else snapshot.title.value;
        outcome := tracker.SetDocumentTitle(title);
        CallAfterAppended(g0, done, SetDocumentTitleCommand(title));
      } else {
        assert done + [] == done;
      }
    }

    /**
     * The URL, the reset of page-scope variables, the generation time and the page view. The
     * URL is read from `window.location` before the first call, outside any try.
     */
    method SendPageView(page: PageState, generationTime: int) returns (outcome: Outcome)
      modifies tracker.host
      ensures Step(tracker.host.global, outcome)
           == WithLocation(old(tracker.host.global), [SetCustomUrlCommand(page.href), DeleteCustomVariablesCommand(Page)]
                + GenerationTimeCommands(tracker.configuration.scriptVersion, generationTime) + [TrackPageViewCommand(None)])
    {
      ghost var g0 := tracker.host.global;
      if tracker.host.global.NoWindow? {
        outcome := Raised(ReferenceError);
        return;
      }
      assert Appended(g0, []) == g0 by {
        if g0.Window? && g0.paq.Queue? {
          assert g0.paq.entries + [] == g0.paq.entries;
        }
      }
      outcome := tracker.SetCustomUrl(page.href);
      CallAfterAppended(g0, [], SetCustomUrlCommand(page.href));
      if outcome.Raised? {
        return;
      }
      outcome := tracker.DeleteCustomVariables(Page);
      ghost var done := [SetCustomUrlCommand(page.href)];
      CallAfterAppended(g0, done, DeleteCustomVariablesCommand(Page));
      done := done + [DeleteCustomVariablesCommand(Page)];
      if outcome.Raised? {
        return;
      }
      ghost var generation := GenerationTimeCommands(tracker.configuration.scriptVersion, generationTime);
      CallsSpec(Appended(g0, done), generation);
      AppendedTwice(g0, done, generation);
      outcome := tracker.SetGenerationTimeMs(generationTime);
      done := done + generation;
      if outcome.Raised? {
        return;
      }
      outcome := tracker.TrackPageView(None);
      CallAfterAppended(g0, done, TrackPageViewCommand(None));
      assert done + [TrackPageViewCommand(None)]
          == [SetCustomUrlCommand(page.href), DeleteCustomVariablesCommand(Page)] + generation + [TrackPageViewCommand(None)];
    }

    /** `contentIds.map(id => document.getElementById(id)).forEach(...)`: one scan per element found. */
    method SendImpressions(ids: seq<string>, dom: map<string, nat>) returns (outcome: Outcome)
      modifies tracker.host
      ensures Step(tracker.host.global, outcome) == Guarded(old(tracker.host.global), ImpressionCommands(ids, dom))
    {
      ghost var g0 := tracker.host.global;
      assert Appended(g0, []) == g0 by {
        if g0.Window? && g0.paq.Queue? {
          assert g0.paq.entries + [] == g0.paq.entries;
        }
      }
      outcome := Returned;
      var i := 0;
      while i < |ids|
        invariant 0 <= i <= |ids|
        invariant tracker.host.global == Appended(g0, ImpressionCommands(ids[..i], dom))
        invariant outcome == Returned
        invariant ImpressionCommands(ids[..i], dom) != [] ==> g0 != Window(Undefined)
      {
        ghost var before := ImpressionCommands(ids[..i], dom);
        ImpressionsDistribute(ids[..i], [ids[i]], dom);
        assert ids[..i + 1] == ids[..i] + [ids[i]];
        assert [ids[i]][1..] == [];
        if ids[i] in dom {
          assert ImpressionCommands([ids[i]], dom) == [ContentImpressionsWithinNodeCommand(dom[ids[i]])];
          outcome := tracker.TrackContentImpressionsWithinNode(dom[ids[i]]);
          CallAfterAppended(g0, before, ContentImpressionsWithinNodeCommand(dom[ids[i]]));
          if outcome.Raised? {
            ImpressionsDistribute(ids[..i + 1], ids[i + 1..], dom);
            assert ids[..i + 1] + ids[i + 1..] == ids;
            return;
          }
        } else {
          assert ImpressionCommands([ids[i]], dom) == [];
          assert before + [] == before;
        }
        i := i + 1;
      }
      assert ids[..i] == ids;
    }
  }
}
