/**
  The worker's cooperative pump loop in process mode (`main` of servo_runner/runner.rs).
  Each iteration forwards every queued log record to stdout, takes at most one action
  from the stdin reader's channel, applies it to the engine, and then spins the engine
  once; `Shutdown` deinitialises the engine and ends the loop, and so does a spin that
  returns false.

  What the rest of the process does during an iteration is an input (`Tick`): the actions
  the reader thread hands over, the records other threads log, the events the engine's
  delegate writes while it spins, and the spin's result.
*/
module ProcessRunner {
  import opened Base
  import opened Engine
  import P = ProtoIpc
  import opened Conversions
  import Framing

  /** What happens around the loop during one iteration. */
  datatype Tick = Tick(
    arrivals: seq<P.ServoAction>,
    logs: seq<P.LogMessage>,
    painted: seq<P.ServoEvent>,
    spin: bool)

  /** Library calls the loop makes and the model leaves abstract: `Url::parse`,
      `NamedKey::from_str` and the text of each action's log record. */
  datatype Env = Env(parse: string -> Option<Url>, namedKey: string -> Option<string>, describe: P.Action -> string)

  /** The loop's state: the action channel, the log channel, the engine's trace and what
      has been written to stdout. `taken` and `arrived` record the action channel's
      history. */
  datatype Pump = Pump(
    pending: seq<P.ServoAction>,
    logs: seq<P.LogMessage>,
    taken: seq<P.ServoAction>,
    arrived: seq<P.ServoAction>,
    trace: seq<Op>,
    events: seq<P.ServoEvent>,
    running: bool)

  /** The record logged at startup (runner.rs:234), queued before the loop starts. */
  const StartRecord: P.LogMessage := P.LogMessage(P.LevelNumber(WireLevel(Info)), "Starting servo runner")

  function Start(): Pump
  {
    Pump([], [StartRecord], [], [], [], [], true)
  }

  /** The engine calls one action makes (runner.rs:263-408). */
  function Ops(action: P.Action, env: Env): (r: seq<Op>)
    ensures Deinit in r <==> action.Shutdown?
    ensures action.LoadUrl? ==> (r == [] <==> env.parse(action.url).None?)
    ensures !action.LoadUrl? ==> r != []
  {
    match action
    case LoadUrl(url) => if env.parse(url).Some? then [Load(env.parse(url).value)] else []
    case Reload => [Op.Reload]
    case GoBack => [GoBack(1)]
    case GoForward => [GoForward(1)]
    case Resize(w, h) => [MoveResize(w, h), Op.Resize(w, h)]
    case Motion(x, y) => [Input(MouseMove(x, y))]
    case ButtonPress(b, x, y) => [Input(MouseButtonEvent(Press, MouseButtonOf(b), x, y))]
    case ButtonRelease(b, x, y) => [Input(MouseButtonEvent(Release, MouseButtonOf(b), x, y))]
    case KeyPress(k) =>
      [Input(Keyboard(ConvertKeyEvent(k.key, k.keyType, k.location, k.keyCode, k.modifiers, KeyState.Down, env.namedKey)))]
    case KeyRelease(k) =>
      [Input(Keyboard(ConvertKeyEvent(k.key, k.keyType, k.location, k.keyCode, k.modifiers, KeyState.Up, env.namedKey)))]
    case TouchBegin(x, y) => [Input(Touch(TouchDown, 0, x, y))]
    case TouchUpdate(x, y) => [Input(Touch(TouchMove, 0, x, y))]
    case TouchEnd(x, y) => [Input(Touch(TouchUp, 0, x, y))]
    case TouchCancel(x, y) => [Input(Touch(TouchCancel, 0, x, y))]
    case Scroll(dx, dy) => [Op.Scroll(20.0 * dx, 20.0 * dy, 10, 10)]
    case Shutdown => [Deinit]
  }

  /** The level an action's record is logged at: `info!` for navigation and shutdown,
      `debug!` for everything else. */
  function ActionLevel(action: P.Action): RecordLevel
  {
    match action
    case LoadUrl(_) => Info
    case Reload => Info
    case GoBack => Info
    case GoForward => Info
    case Shutdown => Info
    case _ => Debug
  }

  /** The record an action logs through `EventLogger`; both levels pass the installed
      filter. */
  function Record(action: P.Action, env: Env): (r: P.LogMessage)
    ensures P.LevelOf(r.level) == Some(if ActionLevel(action) == Info then P.LevelInfo else P.LevelDebug)
  {
    P.LogMessage(P.LevelNumber(WireLevel(ActionLevel(action))), env.describe(action))
  }

  /** A record forwarded as a `LogMessage` event (runner.rs:254-257). */
  function LogEvent(m: P.LogMessage): P.ServoEvent
  {
    P.ServoEvent(Some(P.LogEvent(m)))
  }

  function LogEvents(logs: seq<P.LogMessage>): (r: seq<P.ServoEvent>)
    ensures |r| == |logs|
    ensures forall i :: 0 <= i < |logs| ==> r[i] == LogEvent(logs[i])
  {
    if logs == [] then [] else [LogEvent(logs[0])] + LogEvents(logs[1..])
  }

  /** The start of an iteration: the channels have received what the tick brings, and
      the inner loop forwards every queued record to stdout (runner.rs:253-258). */
  function Drain(s: Pump, t: Tick): Pump
  {
    Pump(s.pending + t.arrivals, [], s.taken, s.arrived + t.arrivals, s.trace,
         s.events + LogEvents(s.logs + t.logs), s.running)
  }

  /** `try_recv` takes at most one action; one with a variant is logged and applied, and
      `Shutdown` ends the loop (runner.rs:260-409). */
  function Poll(s: Pump, env: Env): Pump
  {
    if s.pending == [] then s
    else
      var polled := s.pending[0];
      var s' := s.(pending := s.pending[1..], taken := s.taken + [polled]);
      match polled.action
      case None => s'
      case Some(action) =>
        s'.(logs := s.logs + [Record(action, env)], trace := s.trace + Ops(action, env),
            running := s.running && !action.Shutdown?)
  }

  /** The engine spins once: the delegate writes its events and the spin's result decides
      whether the loop goes on (runner.rs:412-414). */
  function Spin(s: Pump, t: Tick): Pump
  {
    s.(events := s.events + t.painted, running := t.spin)
  }

  /** One iteration of the loop (runner.rs:251-417), from a running state. */
  function Iteration(s: Pump, t: Tick, env: Env): Pump
    requires s.running
  {
    var polled := Poll(Drain(s, t), env);
    if polled.running then Spin(polled, t) else polled
  }

  /** The loop over a schedule of iterations, until it stops or the schedule ends. */
  function Run(s: Pump, ticks: seq<Tick>, env: Env): Pump
    decreases |ticks|
  {
    if !s.running || ticks == [] then s else Run(Iteration(s, ticks[0], env), ticks[1..], env)
  }

  /** The action channel is a FIFO: what has been polled followed by what is pending is
      everything that arrived, in arrival order. */
  ghost predicate Fifo(s: Pump)
  {
    s.taken + s.pending == s.arrived
  }

  /** The engine calls of the taken actions, in the order they were taken; an action
      without a variant makes none. */
  function TakenOps(taken: seq<P.ServoAction>, env: Env): seq<Op>
  {
    if taken == [] then []
    else
      var last := taken[|taken| - 1];
      TakenOps(taken[..|taken| - 1], env) + (if last.action.Some? then Ops(last.action.value, env) else [])
  }

  /** The engine has seen exactly the calls of the taken actions, in order. */
  ghost predicate Applied(s: Pump, env: Env)
  {
    s.trace == TakenOps(s.taken, env)
  }

  ghost predicate ShutdownTaken(s: Pump)
  {
    exists i :: 0 <= i < |s.taken| && s.taken[i].action == Some(P.Shutdown)
  }

  /** `deinit` is called exactly when a `Shutdown` has been taken, and it is then the
      last engine call and the loop has ended. */
  ghost predicate DeinitOnShutdown(s: Pump)
  {
    && (Deinit in s.trace <==> ShutdownTaken(s))
    && (ShutdownTaken(s) ==> !s.running && s.trace[|s.trace| - 1] == Deinit)
  }

  /** A poll takes the oldest pending action when there is one, and nothing otherwise,
      and keeps the channel a FIFO. */
  lemma PollTakesOldest(d: Pump, env: Env)
    requires Fifo(d)
    ensures var n := Poll(d, env);
      && Fifo(n) && n.arrived == d.arrived
      && n.taken == d.taken + (if d.pending == [] then [] else [d.pending[0]])
  {
    if d.pending != [] {
      AppendAssoc(d.taken, [d.pending[0]], d.pending[1..]);
      assert [d.pending[0]] + d.pending[1..] == d.pending;
    }
  }

  /** An iteration takes the oldest pending action when there is one, and nothing
      otherwise, and keeps the channel a FIFO. */
  lemma IterationTakesOldest(s: Pump, t: Tick, env: Env)
    requires s.running && Fifo(s)
    ensures var n := Iteration(s, t, env);
      var queued := s.pending + t.arrivals;
      && Fifo(n)
      && n.arrived == s.arrived + t.arrivals
      && n.taken == s.taken + (if queued == [] then [] else [queued[0]])
  {
    AppendAssoc(s.taken, s.pending, t.arrivals);
    PollTakesOldest(Drain(s, t), env);
  }

  /** Over any number of iterations the actions are taken in arrival order, each once. */
  lemma {:induction false} RunIsFifo(s: Pump, ticks: seq<Tick>, env: Env)
    requires Fifo(s)
    ensures Fifo(Run(s, ticks, env))
    ensures s.taken <= Run(s, ticks, env).taken
    decreases |ticks|
  {
    if s.running && ticks != [] {
      var n := Iteration(s, ticks[0], env);
      IterationTakesOldest(s, ticks[0], env);
      RunIsFifo(n, ticks[1..], env);
    }
  }

  /** An iteration applies the action it takes, after those taken before it. */
  lemma IterationApplied(s: Pump, t: Tick, env: Env)
    requires s.running && Applied(s, env)
    ensures Applied(Iteration(s, t, env), env)
  {
    var d := Drain(s, t);
    if d.pending != [] {
      var taken := d.taken + [d.pending[0]];
      assert taken[..|taken| - 1] == d.taken;
    }
  }

  /** Over any number of iterations the engine sees exactly the calls of the taken
      actions, in the order they were taken. */
  lemma {:induction false} RunApplied(s: Pump, ticks: seq<Tick>, env: Env)
    requires Applied(s, env)
    ensures Applied(Run(s, ticks, env), env)
    decreases |ticks|
  {
    if s.running && ticks != [] {
      IterationApplied(s, ticks[0], env);
      RunApplied(Iteration(s, ticks[0], env), ticks[1..], env);
    }
  }

  lemma PollDeinitOnShutdown(d: Pump, env: Env)
    requires d.running && DeinitOnShutdown(d)
    ensures DeinitOnShutdown(Poll(d, env))
  {
    assert !ShutdownTaken(d);
    var n := Poll(d, env);
    if d.pending != [] {
      var polled := d.pending[0];
      assert n.taken == d.taken + [polled];
      if ShutdownTaken(n) {
        var i :| 0 <= i < |n.taken| && n.taken[i].action == Some(P.Shutdown);
        assert i == |d.taken|;
      }
      if polled.action == Some(P.Shutdown) {
        assert n.taken[|d.taken|].action == Some(P.Shutdown);
      }
    }
  }

  lemma IterationDeinitOnShutdown(s: Pump, t: Tick, env: Env)
    requires s.running && DeinitOnShutdown(s)
    ensures DeinitOnShutdown(Iteration(s, t, env))
  {
    PollDeinitOnShutdown(Drain(s, t), env);
  }

  /** From the start, `deinit` is on the trace exactly when a `Shutdown` was taken, and
      then it is the last call and the loop has stopped. */
  lemma {:induction false} RunDeinitOnShutdown(s: Pump, ticks: seq<Tick>, env: Env)
    requires DeinitOnShutdown(s)
    ensures DeinitOnShutdown(Run(s, ticks, env))
    decreases |ticks|
  {
    if s.running && ticks != [] {
      IterationDeinitOnShutdown(s, ticks[0], env);
      RunDeinitOnShutdown(Iteration(s, ticks[0], env), ticks[1..], env);
    }
  }

  lemma StartDeinitOnShutdown(env: Env)
    ensures DeinitOnShutdown(Start()) && Fifo(Start()) && Applied(Start(), env)
  {
  }

  /** Every record queued before an iteration is forwarded first, in order, before any
      event the engine writes. */
  lemma LogsForwardedFirst(s: Pump, t: Tick, env: Env)
    requires s.running
    ensures var n := Iteration(s, t, env);
      n.events[..|s.events| + |s.logs| + |t.logs|] == s.events + LogEvents(s.logs + t.logs)
  {
    var n := Iteration(s, t, env);
    var events := s.events + LogEvents(s.logs + t.logs);
    assert n.events == events || n.events == events + t.painted;
    assert |events| == |s.events| + |s.logs| + |t.logs|;
  }

  /** An action that arrives without a variant is taken off the channel and otherwise
      ignored. */
  lemma EmptyActionIgnored(s: Pump, t: Tick, env: Env)
    requires s.running && s.pending + t.arrivals != [] && (s.pending + t.arrivals)[0].action.None?
    ensures var n := Iteration(s, t, env);
      var queued := s.pending + t.arrivals;
      && n.taken == s.taken + [queued[0]] && n.pending == queued[1..]
      && n.trace == s.trace && n.logs == [] && n.running == t.spin
  {
  }

  /** Without a `Shutdown`, the loop stops exactly when the spin returns false. */
  lemma SpinDecides(s: Pump, t: Tick, env: Env)
    requires s.running
    requires s.pending + t.arrivals == [] || (s.pending + t.arrivals)[0].action != Some(P.Shutdown)
    ensures Iteration(s, t, env).running == t.spin
  {
  }

  /** `Shutdown` ends the loop before the spin: nothing the engine would write during
      it reaches stdout, and the shutdown's own record stays queued, never forwarded. */
  lemma ShutdownSkipsSpin(s: Pump, t: Tick, env: Env)
    requires s.running && s.pending + t.arrivals != [] && (s.pending + t.arrivals)[0].action == Some(P.Shutdown)
    ensures var n := Iteration(s, t, env);
      && !n.running
      && n.events == s.events + LogEvents(s.logs + t.logs)
      && n.logs == [Record(P.Shutdown, env)]
      && n.trace == s.trace + [Deinit]
  {
  }

  /** A load, a resize and a shutdown, one per iteration, reach the engine as a load, a
      move-resize and a resize with the same size, and a final `deinit`. */
  lemma ExampleSession(env: Env)
    requires env.parse("https://example.com") == Some("https://example.com/")
    ensures var ticks := [
        Tick([P.ServoAction(Some(P.LoadUrl("https://example.com")))], [], [], true),
        Tick([P.ServoAction(Some(P.Resize(1024, 768)))], [], [], true),
        Tick([P.ServoAction(Some(P.Shutdown))], [], [], true),
        Tick([P.ServoAction(Some(P.Reload))], [], [], true)];
      var f := Run(Start(), ticks, env);
      f.trace == [Load("https://example.com/"), MoveResize(1024, 768), Op.Resize(1024, 768), Deinit]
      && !f.running
  {
    var ticks := [
        Tick([P.ServoAction(Some(P.LoadUrl("https://example.com")))], [], [], true),
        Tick([P.ServoAction(Some(P.Resize(1024, 768)))], [], [], true),
        Tick([P.ServoAction(Some(P.Shutdown))], [], [], true),
        Tick([P.ServoAction(Some(P.Reload))], [], [], true)];
    var s1 := Iteration(Start(), ticks[0], env);
    assert s1.trace == [Load("https://example.com/")] && s1.running;
    var s2 := Iteration(s1, ticks[1], env);
    assert s2.trace == [Load("https://example.com/"), MoveResize(1024, 768), Op.Resize(1024, 768)] && s2.running;
    var s3 := Iteration(s2, ticks[2], env);
    assert !s3.running;
    assert Run(s3, ticks[3..], env) == s3;
    assert Run(s2, ticks[2..], env) == s3;
    assert Run(s1, ticks[1..], env) == s3;
  }

  /** Writes the events in order with `send_event`. */
  method SendAll(out: Framing.Stdout, events: seq<P.ServoEvent>, encode: P.ServoEvent -> seq<u8>,
                 ghost written: seq<P.ServoEvent>)
    requires out.written == Framing.Written(written, encode)
    modifies out
    ensures out.written == Framing.Written(written + events, encode)
  {
    var i := 0;
    assert written + events[..i] == written;
    while i < |events|
      invariant 0 <= i <= |events|
      invariant out.written == Framing.Written(written + events[..i], encode)
    {
      Framing.WrittenSnoc(written + events[..i], events[i], encode);
      assert written + events[..i + 1] == (written + events[..i]) + [events[i]];
      out.SendEvent(events[i], encode);
      i := i + 1;
    }
    assert events[..i] == events;
  }

  /** The loop itself (runner.rs:251-418), run over a schedule: the inner loop drains the
      log channel, `try_recv` polls the action channel once, and the engine's effects are
      recorded in `trace`. It ends as `Run` does, and stdout then holds the frames of
      exactly the events `Run` lists. */
  method MainLoop(ticks: seq<Tick>, env: Env, encode: P.ServoEvent -> seq<u8>, out: Framing.Stdout)
    returns (trace: seq<Op>, running: bool)
    requires out.written == []
    modifies out
    ensures trace == Run(Start(), ticks, env).trace && running == Run(Start(), ticks, env).running
    ensures out.written == Framing.Written(Run(Start(), ticks, env).events, encode)
  {
    var actions: seq<P.ServoAction> := [];
    var logs := [StartRecord];
    ghost var taken: seq<P.ServoAction> := [];
    ghost var arrived: seq<P.ServoAction> := [];
    ghost var events: seq<P.ServoEvent> := [];
    trace := [];
    running := true;
    var i := 0;
    while i < |ticks|
      invariant 0 <= i <= |ticks|
      invariant running
      invariant Run(Pump(actions, logs, taken, arrived, trace, events, true), ticks[i..], env) == Run(Start(), ticks, env)
      invariant out.written == Framing.Written(events, encode)
    {
      ghost var s := Pump(actions, logs, taken, arrived, trace, events, true);
      assert Run(s, ticks[i..], env) == Run(Iteration(s, ticks[i], env), ticks[i + 1..], env);
      actions, logs, taken, arrived, trace, events, running :=
        Iterate(actions, logs, taken, arrived, trace, events, ticks[i], env, encode, out);
      if !running {
        return;
      }
      i := i + 1;
    }
  }

  /** One pass of the loop body (runner.rs:252-417) on the loop's state. */
  method Iterate(actions: seq<P.ServoAction>, logs: seq<P.LogMessage>, ghost taken: seq<P.ServoAction>,
                 ghost arrived: seq<P.ServoAction>, trace: seq<Op>, ghost events: seq<P.ServoEvent>,
                 tick: Tick, env: Env, encode: P.ServoEvent -> seq<u8>, out: Framing.Stdout)
    returns (actions': seq<P.ServoAction>, logs': seq<P.LogMessage>, ghost taken': seq<P.ServoAction>,
             ghost arrived': seq<P.ServoAction>, trace': seq<Op>, ghost events': seq<P.ServoEvent>, running: bool)
    requires out.written == Framing.Written(events, encode)
    modifies out
    ensures Pump(actions', logs', taken', arrived', trace', events', running)
         == Iteration(Pump(actions, logs, taken, arrived, trace, events, true), tick, env)
    ensures out.written == Framing.Written(events', encode)
  {
    ghost var s := Pump(actions, logs, taken, arrived, trace, events, true);
    actions' := actions + tick.arrivals;
    arrived' := arrived + tick.arrivals;
    taken' := taken;
    trace' := trace;
    events' := DrainLogs(out, logs + tick.logs, encode, events);
    logs' := [];
    running := true;
    assert Pump(actions', logs', taken', arrived', trace', events', running) == Drain(s, tick);
    if actions' != [] {
      var polled := actions'[0];
      actions' := actions'[1..];
      taken' := taken' + [polled];
      if polled.action.Some? {
        var action := polled.action.value;
        logs' := logs' + [Record(action, env)];
        trace' := trace' + Ops(action, env);
        if action.Shutdown? {
          running := false;
          return;
        }
      }
    }
    assert Pump(actions', logs', taken', arrived', trace', events', running) == Poll(Drain(s, tick), env);
    SendAll(out, tick.painted, encode, events');
    events' := events' + tick.painted;
    running := tick.spin;
  }

  /** The inner loop of runner.rs:253-258: every queued record is sent as a
      `LogMessage` event, oldest first, until the channel is empty. */
  method DrainLogs(out: Framing.Stdout, queued: seq<P.LogMessage>, encode: P.ServoEvent -> seq<u8>,
                   ghost written: seq<P.ServoEvent>) returns (ghost events: seq<P.ServoEvent>)
    requires out.written == Framing.Written(written, encode)
    modifies out
    ensures events == written + LogEvents(queued)
    ensures out.written == Framing.Written(events, encode)
  {
    var logs := queued;
    events := written;
    while logs != []
      invariant out.written == Framing.Written(events, encode)
      invariant events + LogEvents(logs) == written + LogEvents(queued)
      decreases |logs|
    {
      var record := logs[0];
      Framing.WrittenSnoc(events, LogEvent(record), encode);
      out.SendEvent(LogEvent(record), encode);
      AppendAssoc(events, [LogEvent(record)], LogEvents(logs[1..]));
      events := events + [LogEvent(record)];
      logs := logs[1..];
    }
    assert events + LogEvents(logs) == events;
  }
}
