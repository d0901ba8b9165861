/**
 * The browser global `window['_paq']`: the command queue that every service of the
 * library appends to and that the external Matomo script drains later.
 *
 * A command is an array whose first element is the command name; the queue is
 * append-only from the library's side. Three situations matter to the library:
 *  - there is no `window` at all (server-side rendering): touching it throws a
 *    ReferenceError, which every caller catches and ignores;
 *  - there is a `window` but no `_paq`: `window['_paq'].push(...)` throws a
 *    TypeError, which every caller re-throws;
 *  - `_paq` is a real array, or the do-nothing sink `{ push: () => {} }`.
 */
module Queue {
  import opened Wrappers

  /** One argument of a queued command, as the external script receives it. */
  datatype Value =
    | Str(s: string)
    | Num(n: int)
    | Bool(b: bool)
    | Strs(items: seq<string>)
    | Node(node: nat)          // a DOM node or element, by identity
    | Callback(callback: nat)  // a JavaScript function, by identity

  /** One entry of `_paq`: `[name, ...args]`. */
  datatype Command = Command(name: string, args: seq<Value>)

  /** The two kinds of error the library distinguishes. */
  datatype JsError = ReferenceError | TypeError

  /** What `window['_paq']` holds. */
  datatype Paq = Undefined | Queue(entries: seq<Command>) | Sink

  /** The global environment. */
  datatype Global = NoWindow | Window(paq: Paq)

  /** How a call into the library ends: normally, or with an exception that escapes it. */
  datatype Outcome = Returned | Raised(error: JsError)

  /** The global environment after a call, and how the call ended. */
  datatype Step = Step(global: Global, outcome: Outcome)

  /** The commands the queue holds, or none when there is no real queue. */
  function Entries(g: Global): seq<Command> {
    if g.Window? && g.paq.Queue? then g.paq.entries else []
  }

  /** The bare statement `window['_paq'].push(c)`: the new environment and what it throws. */
  function PushResult(g: Global, c: Command): (r: (Global, Option<JsError>))
    ensures r == (Appended(g, [c]), PushError(g))
  {
    match g
    case NoWindow => (g, Some(ReferenceError))
    case Window(Undefined) => (g, Some(TypeError))
    case Window(Queue(q)) => (Window(Queue(q + [c])), None)
    case Window(Sink) => (g, None)
  }

  /** `catch (e) { if (!(e instanceof ReferenceError)) throw e; }` */
  function Caught(err: Option<JsError>): Outcome {
    if err == Some(TypeError) then Raised(TypeError) else Returned
  }

  /** One tracker method: a push wrapped in the try/catch above. */
  function Call(g: Global, c: Command): Step {
    var (g', err) := PushResult(g, c);
    Step(g', Caught(err))
  }

  /**
   * Tracker methods called one after the other by a caller that catches nothing:
   * the first exception that escapes one of them ends the sequence.
   */
  function Calls(g: Global, cs: seq<Command>): (r: Step)
    ensures PushError(r.global) == PushError(g)
    ensures r.outcome.Raised? ==> g == Window(Undefined) && r == Step(g, Raised(TypeError))
    decreases |cs|
  {
    if cs == [] then Step(g, Returned)
    else
      var before := Calls(g, cs[..|cs| - 1]);
      if before.outcome.Raised? then before else Call(before.global, cs[|cs| - 1])
  }

  /** Bare pushes one after the other: the first one that throws ends the sequence. */
  function Pushes(g: Global, cs: seq<Command>): (r: (Global, Option<JsError>))
    ensures PushError(r.0) == PushError(g)
    ensures r.1.Some? ==> r == (g, PushError(g))
    decreases |cs|
  {
    if cs == [] then (g, None)
    else
      var before := Pushes(g, cs[..|cs| - 1]);
      if before.1.Some? then before else PushResult(before.0, cs[|cs| - 1])
  }

  /** Bare pushes inside one try block whose catch swallows ReferenceError only. */
  function TryBlock(g: Global, cs: seq<Command>): (r: Step)
    ensures r.outcome.Raised? ==> g == Window(Undefined) && r == Step(g, Raised(TypeError))
  {
    var (g', err) := Pushes(g, cs);
    Step(g', Caught(err))
  }

  /** The environment once `cs` has been appended to whatever real queue there is. */
  function Appended(g: Global, cs: seq<Command>): Global {
    match g
    case Window(Queue(q)) => Window(Queue(q + cs))
    case _ => g
  }

  /** The error a bare push throws in `g`, whatever the command. */
  function PushError(g: Global): Option<JsError> {
    match g
    case NoWindow => Some(ReferenceError)
    case Window(Undefined) => Some(TypeError)
    case _ => None
  }

  /**
   * What a run of guarded calls amounts to, stated in one step: the commands land on a real
   * queue, and an error escapes exactly when `window` exists without a `_paq`.
   */
  function Guarded(g: Global, cs: seq<Command>): Step {
    Step(Appended(g, cs), if g == Window(Undefined) && cs != [] then Raised(TypeError) else Returned)
  }

  /** What a run of bare pushes amounts to, stated in one step: the first push decides the error. */
  function Pushed(g: Global, cs: seq<Command>): (Global, Option<JsError>) {
    (Appended(g, cs), if cs == [] then None else PushError(g))
  }

  /**
   * Any run of tracker calls appends exactly its commands, in order, to a real queue;
   * changes nothing otherwise; and lets an exception escape exactly when `window` exists
   * without a `_paq` (and there was something to push).
   */
  lemma {:induction false} CallsSpec(g: Global, cs: seq<Command>)
    ensures Calls(g, cs).global == Appended(g, cs)
    ensures Calls(g, cs).outcome
         == if g == Window(Undefined) && cs != [] then Raised(TypeError) else Returned
    decreases |cs|
  {
    if cs != [] {
      var init := cs[..|cs| - 1];
      CallsSpec(g, init);
      assert cs == init + [cs[|cs| - 1]];
      if g.Window? && g.paq.Queue? {
        assert g.paq.entries + init + [cs[|cs| - 1]] == g.paq.entries + cs;
      }
    }
  }

  /** `Calls` and its one-step summary `Guarded` agree on every environment and every run. */
  lemma CallsIsGuarded(g: Global, cs: seq<Command>)
    ensures Calls(g, cs) == Guarded(g, cs)
  {
    CallsSpec(g, cs);
  }

  /** The same for bare pushes: the first push decides the error, the queue grows by all of them. */
  lemma {:induction false} PushesSpec(g: Global, cs: seq<Command>)
    ensures Pushes(g, cs).0 == Appended(g, cs)
    ensures Pushes(g, cs).1 == if cs == [] then None else PushError(g)
    decreases |cs|
  {
    if cs != [] {
      var init, last := cs[..|cs| - 1], cs[|cs| - 1];
      PushesSpec(g, init);
      var before := Pushes(g, init);
      assert cs == init + [last];
      assert Pushes(g, cs) == if before.1.Some? then before else PushResult(before.0, last);
      if g.Window? && g.paq.Queue? {
        assert g.paq.entries + init + [last] == g.paq.entries + cs;
      }
    }
  }

  /**
   * One try block around several pushes has the same effect as the same pushes made
   * through individually guarded tracker calls.
   */
  lemma TryBlockIsCalls(g: Global, cs: seq<Command>)
    ensures TryBlock(g, cs) == Calls(g, cs)
  {
    PushesSpec(g, cs);
    CallsSpec(g, cs);
  }

  /**
   * The queue is append-only: after any run of tracker calls the old entries are a prefix
   * of the new ones, and a real queue grows by exactly the number of commands.
   */
  lemma CallsOnlyAppend(g: Global, cs: seq<Command>)
    ensures Entries(g) <= Entries(Calls(g, cs).global)
    ensures |Entries(Calls(g, cs).global)|
         == |Entries(g)| + if g.Window? && g.paq.Queue? then |cs| else 0
  {
    CallsSpec(g, cs);
  }

  /** Without a `window`, tracker calls are silent no-ops. */
  lemma CallsWithoutWindow(cs: seq<Command>)
    ensures Calls(NoWindow, cs) == Step(NoWindow, Returned)
  {
    CallsSpec(NoWindow, cs);
  }

  /** The sink swallows every command and never throws. */
  lemma CallsOnSink(cs: seq<Command>)
    ensures Calls(Window(Sink), cs) == Step(Window(Sink), Returned)
  {
    CallsSpec(Window(Sink), cs);
  }

  /** One more guarded call after some commands were appended: it appends too, unless there is no queue. */
  lemma CallAfterAppended(g: Global, done: seq<Command>, c: Command)
    ensures Call(Appended(g, done), c)
         == Step(Appended(g, done + [c]), if g == Window(Undefined) then Raised(TypeError) else Returned)
  {
    if g.Window? && g.paq.Queue? {
      assert g.paq.entries + done + [c] == g.paq.entries + (done + [c]);
    }
  }

  /** One more bare push after some commands were appended: it appends too, or throws what the environment throws. */
  lemma PushAfterAppended(g: Global, done: seq<Command>, c: Command)
    ensures PushResult(Appended(g, done), c) == (Appended(g, done + [c]), PushError(g))
  {
    if g.Window? && g.paq.Queue? {
      assert g.paq.entries + done + [c] == g.paq.entries + (done + [c]);
    }
  }

  /** Two runs of bare pushes back to back, the first of which threw nothing. */
  lemma PushedThen(g: Global, a: seq<Command>, b: seq<Command>)
    requires Pushed(g, a).1.None?
    ensures Pushed(Pushed(g, a).0, b) == Pushed(g, a + b)
  {
    AppendedTwice(g, a, b);
  }

  /** A run of bare pushes whose first part threw: the rest never happens. */
  lemma PushedStops(g: Global, a: seq<Command>, b: seq<Command>)
    requires Pushed(g, a).1.Some?
    ensures Pushed(g, a + b) == Pushed(g, a)
  {
  }

  /** Two runs of guarded calls back to back, in their one-step form: the second runs only if the first ended normally. */
  lemma GuardedThen(g: Global, a: seq<Command>, b: seq<Command>)
    ensures Guarded(g, a).outcome.Raised? ==> Guarded(g, a + b) == Guarded(g, a)
    ensures Guarded(g, a).outcome.Returned? ==> Guarded(Guarded(g, a).global, b) == Guarded(g, a + b)
  {
    AppendedTwice(g, a, b);
    if a == [] {
      assert a + b == b;
    }
  }

  /** Appending twice is appending the concatenation. */
  lemma AppendedTwice(g: Global, a: seq<Command>, b: seq<Command>)
    ensures Appended(Appended(g, a), b) == Appended(g, a + b)
  {
    if g.Window? && g.paq.Queue? {
      assert g.paq.entries + a + b == g.paq.entries + (a + b);
    }
  }

  /** One more guarded call after a run of them: it happens only if the run ended normally. */
  lemma CallsSnoc(g: Global, done: seq<Command>, c: Command)
    ensures Calls(g, done + [c])
         == if Calls(g, done).outcome.Raised? then Calls(g, done) else Call(Calls(g, done).global, c)
  {
    assert (done + [c])[..|done|] == done;
  }

  /** Two runs of guarded calls back to back: the second starts only if the first ended normally. */
  lemma CallsConcat(g: Global, a: seq<Command>, b: seq<Command>)
    ensures Calls(g, a + b)
         == if Calls(g, a).outcome.Raised? then Calls(g, a) else Calls(Calls(g, a).global, b)
  {
    CallsSpec(g, a);
    CallsSpec(g, a + b);
    CallsSpec(Calls(g, a).global, b);
    AppendedTwice(g, a, b);
  }

  /** How many of `cs` are named `name`. */
  function CountNamed(cs: seq<Command>, name: string): nat {
    if cs == [] then 0 else (if cs[0].name == name then 1 else 0) + CountNamed(cs[1..], name)
  }

  lemma {:induction false} CountNamedConcat(a: seq<Command>, b: seq<Command>, name: string)
    ensures CountNamed(a + b, name) == CountNamed(a, name) + CountNamed(b, name)
  {
    if a == [] {
      assert a + b == b;
    } else {
      assert (a + b)[1..] == a[1..] + b;
      CountNamedConcat(a[1..], b, name);
    }
  }

  lemma {:induction false} CountNamedAbsent(cs: seq<Command>, name: string)
    requires forall c :: c in cs ==> c.name != name
    ensures CountNamed(cs, name) == 0
  {
    if cs != [] {
      assert cs[0] in cs;
      assert forall c :: c in cs[1..] ==> c in cs;
      CountNamedAbsent(cs[1..], name);
    }
  }

  /**
   * `window['_paq']`. The library only ever reads the global through `Push`, and the
   * injector's bootstrap through `global` directly.
   */
  class Host {
    var global: Global

    constructor (initial: Global)
      ensures global == initial
    {
      global := initial;
    }

    /** `window['_paq'].push(c)`, with nothing caught. */
    method Push(c: Command) returns (err: Option<JsError>)
      modifies this
      ensures (global, err) == PushResult(old(global), c)
    {
      match global
      case NoWindow =>
        err := Some(ReferenceError);
      case Window(Undefined) =>
        err := Some(TypeError);
      case Window(Queue(q)) =>
        global := Window(Queue(q + [c]));
        err := None;
      case Window(Sink) =>
        err := None;
    }
  }
}
