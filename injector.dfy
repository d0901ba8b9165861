/**
 * `MatomoInjector`: installs the command queue when the service is created, and on `init()`
 * queues the consent mode, the initial page view and the trackers, schedules the deferred
 * link tracking, and inserts the Matomo script tag.
 *
 * The document is an input: `ScriptSlot` says what `getElementsByTagName('script')[0]` finds.
 * The timer is not run; `init()` returns the command its callback would push.
 */
module Injector {
  import opened Wrappers
  import opened Queue
  import opened Configuration
  import opened Tracker

  // ---------------------------------------------------------------------------
  // The queue bootstrap

  /**
   * `window['_paq'] = window['_paq'] || (!!scriptUrl ? [] : { push: () => {} })`, inside a try
   * that swallows the ReferenceError thrown where there is no `window`.
   */
  function Bootstrap(g: Global, scriptUrl: Option<string>): (g': Global)
    ensures g == NoWindow ==> g' == NoWindow
    ensures g.Window? ==> g'.Window? && !g'.paq.Undefined?
    ensures g.Window? && !g.paq.Undefined? ==> g' == g
    ensures g == Window(Undefined) ==> (g' == Window(Queue([])) <==> Truthy(scriptUrl))
  {
    match g
    case NoWindow => g
    case Window(Undefined) => if Truthy(scriptUrl) then Window(Queue([])) else Window(Sink)
    case Window(_) => g
  }

  /** Creating the service a second time changes nothing. */
  lemma BootstrapIdempotent(g: Global, scriptUrl: Option<string>, other: Option<string>)
    ensures Bootstrap(Bootstrap(g, scriptUrl), other) == Bootstrap(g, scriptUrl)
  {
  }

  /**
   * Once the queue is installed no tracker call lets an error escape, and with a script URL
   * every command a run of calls makes lands on the queue in order.
   */
  lemma BootstrapMakesCallsSafe(g: Global, scriptUrl: Option<string>, cs: seq<Command>)
    ensures Calls(Bootstrap(g, scriptUrl), cs).outcome == Returned
    ensures g == Window(Undefined) && Truthy(scriptUrl) ==> Entries(Calls(Bootstrap(g, scriptUrl), cs).global) == cs
  {
    CallsSpec(Bootstrap(g, scriptUrl), cs);
  }

  // ---------------------------------------------------------------------------
  // Number to string

  function DigitChar(d: nat): (c: char)
    requires d < 10
    ensures '0' <= c <= '9' && (c as int) - ('0' as int) == d
  {
    (('0' as int) + d) as char
  }

  predicate IsDigits(s: string) {
    forall i :: 0 <= i < |s| ==> '0' <= s[i] <= '9'
  }

  /** The decimal digits of `n`, most significant first, without leading zeros. */
  function NatToString(n: nat): (s: string)
    ensures |s| >= 1 && IsDigits(s)
    ensures s[0] == '0' ==> n == 0 && s == "0"
    decreases n
  {
    if n < 10 then [DigitChar(n)] else NatToString(n / 10) + [DigitChar(n % 10)]
  }

  /** `Number.prototype.toString()` for an integer below 10^21 in magnitude: a minus sign, then the digits. */
  function IntToString(i: int): (s: string)
    ensures |s| >= 1
    ensures i < 0 <==> s[0] == '-'
  {
    if i < 0 then "-" + NatToString(-i) else NatToString(i)
  }

  /** The value of a string of decimal digits. */
  function ParseNat(s: string): nat
    requires IsDigits(s)
    decreases |s|
  {
    if s == [] then 0 else 10 * ParseNat(s[..|s| - 1]) + ((s[|s| - 1] as int) - ('0' as int))
  }

  /** The value of an optionally negated string of decimal digits. */
  function ParseInt(s: string): int
    requires |s| >= 1
    requires if s[0] == '-' then IsDigits(s[1..]) else IsDigits(s)
  {
    if s[0] == '-' then 0 - ParseNat(s[1..]) else ParseNat(s)
  }

  lemma {:induction false} NatToStringRoundTrip(n: nat)
    ensures ParseNat(NatToString(n)) == n
    decreases n
  {
    if n >= 10 {
      NatToStringRoundTrip(n / 10);
      var s := NatToString(n);
      assert s[..|s| - 1] == NatToString(n / 10);
    }
  }

  /** The site id string reads back as the site id. */
  lemma IntToStringRoundTrip(i: int)
    ensures var s := IntToString(i);
      (if s[0] == '-' then IsDigits(s[1..]) else IsDigits(s)) && ParseInt(s) == i
  {
    if i < 0 {
      NatToStringRoundTrip(-i);
      assert IntToString(i)[1..] == NatToString(-i);
    } else {
      NatToStringRoundTrip(i);
    }
  }

  // ---------------------------------------------------------------------------
  // The commands `init()` queues

  /** `requireConsent` takes precedence over `requireCookieConsent`; each counts only when exactly `true`. */
  function ConsentCommands(config: Config): (cs: seq<Command>)
    ensures |cs| <= 1
    ensures cs == [Command("requireConsent", [])] <==> config.requireConsent == Some(true)
    ensures cs == [Command("requireCookieConsent", [])]
        <==> config.requireConsent != Some(true) && config.requireCookieConsent == Some(true)
  {
    if config.requireConsent == Some(true) then [Command("requireConsent", [])]
    else if config.requireCookieConsent == Some(true) then [Command("requireCookieConsent", [])]
    else []
  }

  /** The initial page view, queued only when skipping it is explicitly `false`. */
  function InitialPageViewCommands(config: Config): (cs: seq<Command>)
    ensures cs != [] <==> config.skipTrackingInitialPageView == Some(false)
    ensures cs != [] ==> cs == [TrackPageViewCommand(None)]
  {
    if config.skipTrackingInitialPageView == Some(false) then [Command("trackPageView", [])] else []
  }

  /** `['addTracker', trackerUrl, siteId.toString()]` for each further tracker, in order. */
  function AddTrackerCommands(others: seq<TrackerEntry>): (cs: seq<Command>)
    ensures |cs| == |others|
    ensures forall i :: 0 <= i < |others| ==>
      cs[i] == Command("addTracker", [Str(others[i].trackerUrl), Str(IntToString(others[i].siteId))])
  {
    if others == [] then []
    else
      [Command("addTracker", [Str(others[0].trackerUrl), Str(IntToString(others[0].siteId))])]
      + AddTrackerCommands(others[1..])
  }

  /** Adding one more tracker at the end adds its command at the end. */
  lemma {:induction false} AddTrackerSnoc(others: seq<TrackerEntry>, t: TrackerEntry)
    ensures AddTrackerCommands(others + [t])
         == AddTrackerCommands(others) + [Command("addTracker", [Str(t.trackerUrl), Str(IntToString(t.siteId))])]
  {
    if others == [] {
      assert others + [t] == [t];
      assert [t][1..] == [];
    } else {
      assert (others + [t])[1..] == others[1..] + [t];
      AddTrackerSnoc(others[1..], t);
    }
  }

  /** The first tracker sets the URL and the site id; every other one is added. */
  function TrackerCommands(trackers: Option<seq<TrackerEntry>>): (cs: seq<Command>)
    ensures trackers.None? || trackers.value == [] ==> cs == []
    ensures trackers.Some? && trackers.value != [] ==>
      && |cs| == |trackers.value| + 1
      && cs[0] == Command("setTrackerUrl", [Str(trackers.value[0].trackerUrl)])
      && cs[1] == Command("setSiteId", [Str(IntToString(trackers.value[0].siteId))])
      && cs[2..] == AddTrackerCommands(trackers.value[1..])
  {
    if trackers.None? || trackers.value == [] then []
    else
      var main := trackers.value[0];
      [Command("setTrackerUrl", [Str(main.trackerUrl)]), Command("setSiteId", [Str(IntToString(main.siteId))])]
      + AddTrackerCommands(trackers.value[1..])
  }

  /**
   * Everything `init()` pushes inside its try block, in order: consent, page view and tracker
   * commands only, so never `enableLinkTracking`.
   */
  function InitCommands(config: Config): (cs: seq<Command>)
    ensures forall c :: c in cs ==>
      c.name in {"requireConsent", "requireCookieConsent", "trackPageView", "setTrackerUrl", "setSiteId", "addTracker"}
  {
    var trackers := TrackerCommands(config.trackers);
    assert forall c :: c in trackers ==> c.name in {"setTrackerUrl", "setSiteId", "addTracker"} by {
      if config.trackers.Some? && config.trackers.value != [] {
        forall c | c in trackers ensures c.name in {"setTrackerUrl", "setSiteId", "addTracker"} {
          var k :| 0 <= k < |trackers| && trackers[k] == c;
          if k >= 2 {
            assert trackers[k] == trackers[2..][k - 2];
          }
        }
      }
    }
    ConsentCommands(config) + InitialPageViewCommands(config) + trackers
  }

  /**
   * Whether `init()` schedules the deferred `enableLinkTracking` (once its earlier pushes
   * succeeded): only together with the initial page view.
   */
  predicate SchedulesLinkTracking(config: Config)
    ensures SchedulesLinkTracking(config) ==> InitialPageViewCommands(config) == [TrackPageViewCommand(None)]
  {
    && config.skipTrackingInitialPageView == Some(false)
    && config.trackLinks == Some(true)
    && config.routeTracking.Some? && !config.routeTracking.value.enable
  }

  /** `['enableLinkTracking', trackLinkValue ?? false]`: the tracker's `enableLinkTracking(trackLinkValue)`. */
  function DeferredLinkTrackingCommand(config: Config): (c: Command)
    ensures c == EnableLinkTrackingCommand(config.trackLinkValue)
  {
    Command("enableLinkTracking", [Bool(config.trackLinkValue.GetOr(false))])
  }

  /** At most one consent mode is requested. */
  lemma ConsentExclusive(config: Config)
    ensures CountNamed(InitCommands(config), "requireConsent") + CountNamed(InitCommands(config), "requireCookieConsent") <= 1
    ensures CountNamed(InitCommands(config), "requireConsent") == 1 <==> config.requireConsent == Some(true)
  {
    InitCounts(config, "requireConsent");
    InitCounts(config, "requireCookieConsent");
  }

  /** At most one page view, exactly when skipping it is explicitly `false`; never link tracking. */
  lemma InitPageViewsAndLinks(config: Config)
    ensures CountNamed(InitCommands(config), "trackPageView") == if config.skipTrackingInitialPageView == Some(false) then 1 else 0
    ensures CountNamed(InitCommands(config), "enableLinkTracking") == 0
  {
    InitCounts(config, "trackPageView");
    InitCounts(config, "enableLinkTracking");
  }

  /** Counting names in `InitCommands`: the tracker commands are never consent, page view or link tracking. */
  lemma InitCounts(config: Config, name: string)
    requires name in {"requireConsent", "requireCookieConsent", "trackPageView", "enableLinkTracking"}
    ensures CountNamed(InitCommands(config), name)
         == CountNamed(ConsentCommands(config), name) + CountNamed(InitialPageViewCommands(config), name)
  {
    var c, p, t := ConsentCommands(config), InitialPageViewCommands(config), TrackerCommands(config.trackers);
    CountNamedConcat(c + p, t, name);
    CountNamedConcat(c, p, name);
    assert forall x :: x in t ==> x.name != name by {
      if config.trackers.Some? && config.trackers.value != [] {
        forall x | x in t ensures x.name != name {
          var k :| 0 <= k < |t| && t[k] == x;
          if k >= 2 {
            assert t[k] == t[2..][k - 2];
          }
        }
      }
    }
    CountNamedAbsent(t, name);
  }

  /** What `getElementsByTagName('script')[0]` finds in the document. */
  datatype ScriptSlot = NoScriptElement | ParentlessScript | ScriptInDocument

  /** How `init()` ends: the environment and outcome, the command its timer will push, and whether the script tag went in. */
  datatype InitEffect = InitEffect(step: Step, deferred: Option<Command>, inserted: bool)

  /**
   * `init()`: the pushes run in one try block; the timer is scheduled once the page view
   * went in; the script tag is inserted only when every push went in. Reaching for
   * `document` without a `window` throws a ReferenceError, which is swallowed; a page without
   * a script element makes `firstScript.parentNode` throw a TypeError, which escapes.
   */
  function InitRun(config: Config, g: Global, slot: ScriptSlot): (e: InitEffect)
    ensures e.step.global == Appended(g, InitCommands(config))
    ensures e.deferred.Some? <==> SchedulesLinkTracking(config) && PushError(g).None?
    ensures e.inserted ==> Truthy(config.scriptUrl) && slot == ScriptInDocument && g.Window?
    ensures e.inserted ==> PushError(g).None? || InitCommands(config) == []
  {
    var (g', err) := Pushed(g, InitCommands(config));
    var pushes := Step(g', Caught(err));
    var deferred := if SchedulesLinkTracking(config) && PushError(g).None?
                    then Some(DeferredLinkTrackingCommand(config)) else None;
    if InitCommands(config) != [] && PushError(g).Some? then
      InitEffect(pushes, deferred, false)
    else if !Truthy(config.scriptUrl) || g == NoWindow then
      InitEffect(pushes, deferred, false)
    else match slot
      case NoScriptElement => InitEffect(Step(pushes.global, Raised(TypeError)), deferred, false)
      case ParentlessScript => InitEffect(pushes, deferred, false)
      case ScriptInDocument => InitEffect(pushes, deferred, true)
  }

  /**
   * The pushes of `init()` behave as one try block around bare pushes: the environment is the
   * block's, an error escaping the block escapes `init()`, and the only other error that
   * escapes is the missing script element.
   */
  lemma InitRunIsTryBlock(config: Config, g: Global, slot: ScriptSlot)
    ensures InitRun(config, g, slot).step.global == TryBlock(g, InitCommands(config)).global
    ensures TryBlock(g, InitCommands(config)).outcome.Raised? ==>
      InitRun(config, g, slot).step.outcome == TryBlock(g, InitCommands(config)).outcome
    ensures InitRun(config, g, slot).step.outcome != TryBlock(g, InitCommands(config)).outcome <==>
      && TryBlock(g, InitCommands(config)).outcome == Returned
      && Truthy(config.scriptUrl) && g.Window? && slot == NoScriptElement
  {
    PushesSpec(g, InitCommands(config));
  }

  /**
   * After the bootstrap with a script URL, `init()` queues exactly its commands on a fresh
   * queue and lets no error escape when the page has its script element.
   */
  lemma InitAfterBootstrap(config: Config, slot: ScriptSlot)
    requires Truthy(config.scriptUrl) && slot == ScriptInDocument
    ensures var e := InitRun(config, Bootstrap(Window(Undefined), config.scriptUrl), slot);
      && Entries(e.step.global) == InitCommands(config)
      && e.step.outcome == Returned
      && e.inserted
      && (e.deferred.Some? <==> SchedulesLinkTracking(config))
  {
    PushesSpec(Window(Queue([])), InitCommands(config));
  }

  // ---------------------------------------------------------------------------
  // The service

  class MatomoInjector {
    /** The injected configuration. */
    const configuration: Config
    /** `window`, shared with the tracker. */
    const host: Host

    /** The constructor: reads the configuration and installs the queue. */
    constructor (configuration: Config, host: Host)
      modifies host
      ensures this.configuration == configuration && this.host == host
      ensures host.global == Bootstrap(old(host.global), configuration.scriptUrl)
    {
      this.configuration := configuration;
      this.host := host;
      new;
      match host.global
      case NoWindow =>
      case Window(Undefined) =>
        host.global := if Truthy(configuration.scriptUrl) then Window(Queue([])) else Window(Sink);
      case Window(_) =>
    }

    /** `init()`, with the document's first script element as `slot`. */
    method Init(slot: ScriptSlot) returns (outcome: Outcome, deferred: Option<Command>, inserted: bool)
      modifies host
      ensures InitEffect(Step(host.global, outcome), deferred, inserted) == InitRun(configuration, old(host.global), slot)
    {
      ghost var g0 := host.global;
      outcome, deferred, inserted := Returned, None, false;
      ghost var consent := ConsentCommands(configuration);
      ghost var pageView := InitialPageViewCommands(configuration);
      ghost var trackers := TrackerCommands(configuration.trackers);

      var err := PushConsent();
      if err.Some? {
        PushedStops(g0, consent, pageView + trackers);
        assert consent + (pageView + trackers) == InitCommands(configuration);
        outcome := Caught(err);
        return;
      }
      err, deferred := PushInitialPageView();
      PushedThen(g0, consent, pageView);
      if err.Some? {
        PushedStops(g0, consent + pageView, trackers);
        outcome := Caught(err);
        return;
      }
      err := PushTrackers();
      PushedThen(g0, consent + pageView, trackers);
      if err.Some? {
        outcome := Caught(err);
        return;
      }

      if Truthy(configuration.scriptUrl) {
        if host.global == NoWindow {
          return;
        }
        match slot
        case NoScriptElement =>
          outcome := Raised(TypeError);
        case ParentlessScript =>
        case ScriptInDocument =>
          inserted := true;
      }
    }

    /** The consent push of `init()`. */
    method PushConsent() returns (err: Option<JsError>)
      modifies host
      ensures (host.global, err) == Pushed(old(host.global), ConsentCommands(configuration))
    {
      err := None;
      if configuration.requireConsent == Some(true) {
        err := host.Push(Command("requireConsent", []));
        PushAfterAppended(old(host.global), [], Command("requireConsent", []));
      } else if configuration.requireCookieConsent == Some(true) {
        err := host.Push(Command("requireCookieConsent", []));
        PushAfterAppended(old(host.global), [], Command("requireCookieConsent", []));
      } else {
        AppendedTwice(host.global, [], []);
        assert Appended(host.global, []) == host.global by {
          if host.global.Window? && host.global.paq.Queue? {
            assert host.global.paq.entries + [] == host.global.paq.entries;
          }
        }
      }
    }

    /** The initial page view of `init()` and, once it went in, the scheduling of link tracking. */
    method PushInitialPageView() returns (err: Option<JsError>, deferred: Option<Command>)
      modifies host
      ensures (host.global, err) == Pushed(old(host.global), InitialPageViewCommands(configuration))
      ensures deferred.Some? <==> SchedulesLinkTracking(configuration) && err.None?
      ensures deferred.Some? ==> deferred.value == DeferredLinkTrackingCommand(configuration)
    {
      err, deferred := None, None;
      if configuration.skipTrackingInitialPageView == Some(false) {
        err := host.Push(Command("trackPageView", []));
        PushAfterAppended(old(host.global), [], Command("trackPageView", []));
        if err.Some? {
          return;
        }
        if configuration.trackLinks == Some(true)
           && configuration.routeTracking.Some? && configuration.routeTracking.value.enable == false {
          deferred := Some(DeferredLinkTrackingCommand(configuration));
        }
      } else {
        assert Appended(host.global, []) == host.global by {
          if host.global.Window? && host.global.paq.Queue? {
            assert host.global.paq.entries + [] == host.global.paq.entries;
          }
        }
      }
    }

    /** The tracker pushes of `init()`: the main tracker, then `forEach` over the others. */
    method PushTrackers() returns (err: Option<JsError>)
      modifies host
      ensures (host.global, err) == Pushed(old(host.global), TrackerCommands(configuration.trackers))
    {
      ghost var g0 := host.global;
      err := None;
      if configuration.trackers.None? || |configuration.trackers.value| == 0 {
        assert Appended(g0, []) == g0 by {
          if g0.Window? && g0.paq.Queue? {
            assert g0.paq.entries + [] == g0.paq.entries;
          }
        }
        return;
      }
      var main := configuration.trackers.value[0];
      var others := configuration.trackers.value[1..];
      var setUrl := Command("setTrackerUrl", [Str(main.trackerUrl)]);
      var setSite := Command("setSiteId", [Str(IntToString(main.siteId))]);
      err := host.Push(setUrl);
      PushAfterAppended(g0, [], setUrl);
      assert [] + [setUrl] == [setUrl];
      if err.Some? {
        return;
      }
      err := host.Push(setSite);
      PushAfterAppended(g0, [setUrl], setSite);
      ghost var done := [setUrl, setSite];
      assert [setUrl] + [setSite] == done;
      assert done + AddTrackerCommands(others[..0]) == done;
      var i := 0;
      while i < |others|
        invariant 0 <= i <= |others|
        invariant host.global == Appended(g0, done + AddTrackerCommands(others[..i]))
        invariant err == PushError(g0)
      {
        var tracker := others[i];
        var c := Command("addTracker", [Str(tracker.trackerUrl), Str(IntToString(tracker.siteId))]);
        PushAfterAppended(g0, done + AddTrackerCommands(others[..i]), c);
        err := host.Push(c);
        assert others[..i + 1] == others[..i] + [others[i]];
        AddTrackerSnoc(others[..i], others[i]);
        assert done + AddTrackerCommands(others[..i]) + [c] == done + AddTrackerCommands(others[..i + 1]);
        i := i + 1;
      }
      assert others[..i] == others;
      assert TrackerCommands(configuration.trackers) == done + AddTrackerCommands(others);
    }
  }
}
