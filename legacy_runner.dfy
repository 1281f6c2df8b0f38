/**
  The first runner of the project (src/servo_runner.rs): the same channel-and-worker
  design as the thread-mode runner, with three actions only. Its worker loads URLs and
  resizes; it forwards no input.
*/
module LegacyRunner {
  import opened Base
  import opened Engine
  import ThreadRunner

  /** `ServoAction` of src/servo_runner.rs:20-24. */
  datatype Action = LoadUrl(url: string) | Resize(width: u32, height: u32) | Shutdown

  /** `ServoEvent` of src/servo_runner.rs:26-29. */
  datatype Event = FrameReady(image: RgbaImage) | LoadComplete

  /** The engine calls the worker makes for one action (src/servo_runner.rs:130-145). */
  function Ops(action: Action, parse: string -> Option<Url>): (r: seq<Op>)
    ensures Deinit !in r
    ensures action.LoadUrl? ==> (r == [] <==> parse(action.url).None?)
    ensures action.Resize? ==> r == [Op.Resize(action.width, action.height)]
    ensures action.Shutdown? ==> r == []
  {
    match action
    case LoadUrl(url) => if parse(url).Some? then [Load(parse(url).value)] else []
    case Resize(w, h) => [Op.Resize(w, h)]
    case Shutdown => []
  }

  /** The thread-mode action with the same meaning. */
  function Widen(action: Action): ThreadRunner.Action
  {
    match action
    case LoadUrl(url) => ThreadRunner.LoadUrl(url)
    case Resize(w, h) => ThreadRunner.Resize(w, h)
    case Shutdown => ThreadRunner.Shutdown
  }

  /** The thread-mode runner extends this one without changing it: on the three shared
      actions both workers make the same engine calls. */
  lemma ThreadRunnerExtends(action: Action, parse: string -> Option<Url>)
    ensures Ops(action, parse) == ThreadRunner.Ops(Widen(action), parse)
  {
  }

  /** The engine calls for a sequence of applied actions, in order. */
  function AllOps(actions: seq<Action>, parse: string -> Option<Url>): (r: seq<Op>)
    ensures Deinit !in r
  {
    if actions == [] then [] else AllOps(actions[..|actions| - 1], parse) + Ops(actions[|actions| - 1], parse)
  }

  /** The command channel, the engine and the event channel, as in the thread-mode
      runner. */
  datatype Worker = Worker(
    commands: seq<Action>,
    sent: seq<Action>,
    applied: seq<Action>,
    trace: seq<Op>,
    events: seq<Event>,
    alive: bool)

  /** `sender.send(action)` with its result ignored. */
  function Send(w: Worker, action: Action): Worker
  {
    if w.alive then w.(commands := w.commands + [action], sent := w.sent + [action]) else w
  }

  /** One iteration of `run_servo` (src/servo_runner.rs:128-151). */
  function Step(w: Worker, spin: bool, painted: seq<Event>, parse: string -> Option<Url>): Worker
  {
    if w.commands == [] then
      w.(events := w.events + painted, alive := spin)
    else
      var command := w.commands[0];
      var taken := w.(commands := w.commands[1..], applied := w.applied + [command]);
      if command.Shutdown? then taken.(alive := false)
      else taken.(trace := w.trace + Ops(command, parse), events := w.events + painted, alive := spin)
  }

  ghost predicate Valid(w: Worker, parse: string -> Option<Url>)
  {
    w.sent == w.applied + w.commands && w.trace == AllOps(w.applied, parse)
  }

  lemma SendKeepsValid(w: Worker, action: Action, parse: string -> Option<Url>)
    requires Valid(w, parse)
    ensures Valid(Send(w, action), parse)
  {
    AppendAssoc(w.applied, w.commands, [action]);
  }

  lemma StepKeepsValid(w: Worker, spin: bool, painted: seq<Event>, parse: string -> Option<Url>)
    requires Valid(w, parse)
    ensures Valid(Step(w, spin, painted, parse), parse)
    ensures w.trace <= Step(w, spin, painted, parse).trace && w.events <= Step(w, spin, painted, parse).events
  {
    if w.commands != [] {
      var command := w.commands[0];
      AppendAssoc(w.applied, [command], w.commands[1..]);
      assert [command] + w.commands[1..] == w.commands;
      assert (w.applied + [command])[..|w.applied|] == w.applied;
    }
  }

  /** A `Shutdown` at the head of the channel ends the loop with no engine call and no
      `deinit`; anything queued behind it is never applied. */
  lemma ShutdownEndsLoop(w: Worker, spin: bool, painted: seq<Event>, parse: string -> Option<Url>)
    requires w.commands != [] && w.commands[0].Shutdown?
    ensures var n := Step(w, spin, painted, parse);
      !n.alive && n.trace == w.trace && n.events == w.events && n.commands == w.commands[1..]
  {
  }

  /** Dispatcher calls made between two iterations, and the spin's outcome. */
  datatype Tick = Tick(calls: seq<Action>, spin: bool, painted: seq<Event>)

  function SendAll(w: Worker, calls: seq<Action>): Worker
    decreases |calls|
  {
    if calls == [] then w else SendAll(Send(w, calls[0]), calls[1..])
  }

  lemma {:induction false} SendAllKeepsValid(w: Worker, calls: seq<Action>, parse: string -> Option<Url>)
    requires Valid(w, parse)
    ensures Valid(SendAll(w, calls), parse)
    ensures var n := SendAll(w, calls); n.trace == w.trace && n.events == w.events && n.alive == w.alive
    decreases |calls|
  {
    if calls != [] {
      SendKeepsValid(w, calls[0], parse);
      SendAllKeepsValid(Send(w, calls[0]), calls[1..], parse);
    }
  }

  function Run(w: Worker, ticks: seq<Tick>, parse: string -> Option<Url>): Worker
    decreases |ticks|
  {
    if !w.alive || ticks == [] then w
    else Run(Step(SendAll(w, ticks[0].calls), ticks[0].spin, ticks[0].painted, parse), ticks[1..], parse)
  }

  /** Over a whole run the engine sees the calls of a prefix of the sent actions, in
      order, and never `deinit`. */
  lemma {:induction false} RunKeepsValid(w: Worker, ticks: seq<Tick>, parse: string -> Option<Url>)
    requires Valid(w, parse)
    ensures var f := Run(w, ticks, parse);
      Valid(f, parse) && f.applied <= f.sent && Deinit !in f.trace
      && w.trace <= f.trace && w.events <= f.events
    decreases |ticks|
  {
    if w.alive && ticks != [] {
      var t := ticks[0];
      SendAllKeepsValid(w, t.calls, parse);
      StepKeepsValid(SendAll(w, t.calls), t.spin, t.painted, parse);
      RunKeepsValid(Step(SendAll(w, t.calls), t.spin, t.painted, parse), ticks[1..], parse);
    }
  }

  /** The thread-mode actions with the same meaning, in order. */
  function WidenAll(actions: seq<Action>): (r: seq<ThreadRunner.Action>)
    ensures |r| == |actions|
    ensures forall i :: 0 <= i < |actions| ==> r[i] == Widen(actions[i])
  {
    seq(|actions|, i requires 0 <= i < |actions| => Widen(actions[i]))
  }

  /** Applying actions here makes the engine calls the thread-mode runner makes for them. */
  lemma {:induction false} AllOpsAgree(actions: seq<Action>, parse: string -> Option<Url>)
    ensures AllOps(actions, parse) == ThreadRunner.AllOps(WidenAll(actions), parse)
    decreases |actions|
  {
    if actions != [] {
      var n := |actions| - 1;
      assert WidenAll(actions)[..n] == WidenAll(actions[..n]);
      AllOpsAgree(actions[..n], parse);
      ThreadRunnerExtends(actions[n], parse);
    }
  }

  /** The thread-mode event with the same meaning. */
  function WidenEvent(event: Event): ThreadRunner.Event
  {
    match event
    case FrameReady(image) => ThreadRunner.FrameReady(image)
    case LoadComplete => ThreadRunner.LoadComplete
  }

  function WidenEvents(events: seq<Event>): (r: seq<ThreadRunner.Event>)
    ensures |r| == |events|
    ensures forall i :: 0 <= i < |events| ==> r[i] == WidenEvent(events[i])
  {
    seq(|events|, i requires 0 <= i < |events| => WidenEvent(events[i]))
  }

  /** This worker's state as a thread-mode worker's. */
  function WidenWorker(w: Worker): ThreadRunner.Worker
  {
    ThreadRunner.Worker(WidenAll(w.commands), WidenAll(w.sent), WidenAll(w.applied), w.trace,
                        WidenEvents(w.events), w.alive)
  }

  function WidenTicks(ticks: seq<Tick>): (r: seq<ThreadRunner.Tick>)
    ensures |r| == |ticks|
    ensures forall i :: 0 <= i < |ticks| ==>
      r[i] == ThreadRunner.Tick(WidenAll(ticks[i].calls), ticks[i].spin, WidenEvents(ticks[i].painted))
  {
    seq(|ticks|, i requires 0 <= i < |ticks| =>
      ThreadRunner.Tick(WidenAll(ticks[i].calls), ticks[i].spin, WidenEvents(ticks[i].painted)))
  }

  /** A dispatcher call here is the same call on the thread-mode runner. */
  lemma SendAgrees(w: Worker, action: Action)
    ensures WidenWorker(Send(w, action)) == ThreadRunner.Send(WidenWorker(w), Widen(action))
  {
  }

  /** Any run of dispatcher calls here is the same run on the thread-mode runner. */
  lemma {:induction false} SendAllAgrees(w: Worker, calls: seq<Action>)
    ensures WidenWorker(SendAll(w, calls)) == ThreadRunner.SendAll(WidenWorker(w), WidenAll(calls))
    decreases |calls|
  {
    if calls != [] {
      SendAgrees(w, calls[0]);
      assert WidenAll(calls)[1..] == WidenAll(calls[1..]);
      SendAllAgrees(Send(w, calls[0]), calls[1..]);
    }
  }

  /** An iteration of this worker is an iteration of the thread-mode worker on the same
      actions: the older loop is the newer one restricted to three actions. */
  lemma StepAgrees(w: Worker, spin: bool, painted: seq<Event>, parse: string -> Option<Url>)
    ensures WidenWorker(Step(w, spin, painted, parse))
         == ThreadRunner.Step(WidenWorker(w), spin, WidenEvents(painted), parse)
  {
  }

  /** A whole run of this worker is the thread-mode worker's run on the same schedule. */
  lemma {:induction false} RunAgrees(w: Worker, ticks: seq<Tick>, parse: string -> Option<Url>)
    ensures WidenWorker(Run(w, ticks, parse)) == ThreadRunner.Run(WidenWorker(w), WidenTicks(ticks), parse)
    decreases |ticks|
  {
    if w.alive && ticks != [] {
      var t := ticks[0];
      SendAllAgrees(w, t.calls);
      StepAgrees(SendAll(w, t.calls), t.spin, t.painted, parse);
      assert WidenTicks(ticks)[1..] == WidenTicks(ticks[1..]);
      RunAgrees(Step(SendAll(w, t.calls), t.spin, t.painted, parse), ticks[1..], parse);
    }
  }

  /** `ServoRunner` of src/servo_runner.rs together with the worker it spawned. */
  class ServoRunner {
    var commands: seq<Action>
    ghost var sent: seq<Action>
    ghost var applied: seq<Action>
    var trace: seq<Op>
    var events: seq<Event>
    var alive: bool
    const parse: string -> Option<Url>

    ghost function State(): Worker
      reads this
    {
      Worker(commands, sent, applied, trace, events, alive)
    }

    /** `ServoRunner::new` (src/servo_runner.rs:71-83). */
    constructor (parse: string -> Option<Url>)
      ensures State() == Worker([], [], [], [], [], true) && this.parse == parse
      ensures Valid(State(), parse)
    {
      commands, sent, applied, trace, events, alive := [], [], [], [], [], true;
      this.parse := parse;
    }

    method SendAction(action: Action)
      modifies this
      ensures State() == Send(old(State()), action)
    {
      if alive {
        commands := commands + [action];
        sent := sent + [action];
      }
    }

    /** `load_url` (src/servo_runner.rs:89-91). */
    method LoadUrl(url: string)
      modifies this
      ensures State() == Send(old(State()), Action.LoadUrl(url))
    {
      SendAction(Action.LoadUrl(url));
    }

    /** `resize` (src/servo_runner.rs:93-95). */
    method Resize(width: u32, height: u32)
      modifies this
      ensures State() == Send(old(State()), Action.Resize(width, height))
    {
      SendAction(Action.Resize(width, height));
    }

    /** `shutdown` (src/servo_runner.rs:97-99). */
    method Shutdown()
      modifies this
      ensures State() == Send(old(State()), Action.Shutdown)
    {
      SendAction(Action.Shutdown);
    }

    /** One iteration of the worker's loop. */
    method WorkerStep(spin: bool, painted: seq<Event>)
      requires alive
      modifies this
      ensures State() == Step(old(State()), spin, painted, parse)
    {
      if commands != [] {
        var command := commands[0];
        commands := commands[1..];
        applied := applied + [command];
        match command {
          case LoadUrl(url) =>
            var parsed := parse(url);
            if parsed.Some? {
              trace := trace + [Load(parsed.value)];
            }
          case Resize(w, h) =>
            trace := trace + [Op.Resize(w, h)];
          case Shutdown =>
            alive := false;
            return;
        }
      }
      events := events + painted;
      alive := spin;
    }

    /** The worker's loop (src/servo_runner.rs:128-151) interleaved with the widget's
        dispatcher calls, over a schedule. */
    method RunServo(ticks: seq<Tick>)
      modifies this
      ensures State() == Run(old(State()), ticks, parse)
    {
      var i := 0;
      while i < |ticks| && alive
        invariant 0 <= i <= |ticks|
        invariant Run(State(), ticks[i..], parse) == Run(old(State()), ticks, parse)
      {
        assert Run(State(), ticks[i..], parse)
            == Run(Step(SendAll(State(), ticks[i].calls), ticks[i].spin, ticks[i].painted, parse), ticks[i + 1..], parse);
        var calls := ticks[i].calls;
        ghost var before := State();
        var j := 0;
        while j < |calls|
          invariant 0 <= j <= |calls|
          invariant alive
          invariant SendAll(State(), calls[j..]) == SendAll(before, calls)
        {
          SendAction(calls[j]);
          assert calls[j..][1..] == calls[j + 1..];
          j := j + 1;
        }
        assert calls[j..] == [];
        WorkerStep(ticks[i].spin, ticks[i].painted);
        assert ticks[i..][1..] == ticks[i + 1..];
        i := i + 1;
      }
    }
  }
}
