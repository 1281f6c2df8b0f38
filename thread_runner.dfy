/**
  The thread-mode runner of servo_gtk/servo_runner.rs. The widget's `ServoRunner` sends
  actions over a channel to a worker thread, which polls it once per iteration of its
  `run_servo` loop and pushes frames and cursor changes onto an unbounded event channel.

  `Worker` is the state of both channels and of the engine, as a value; the class
  `ServoRunner` holds the same state in fields and its methods are specified by the
  functions on `Worker`.
*/
module ThreadRunner {
  import opened Base
  import opened Engine
  import Conversions

  /** `ServoAction` of servo_gtk/servo_runner.rs:27-36. */
  datatype Action =
    | LoadUrl(url: string)
    | Resize(width: u32, height: u32)
    | Motion(x: real, y: real)
    | ButtonPress(button: u32, x: real, y: real)
    | ButtonRelease(button: u32, x: real, y: real)
    | KeyPress(keyval: char)
    | KeyRelease(keyval: char)
    | Shutdown

  /** `ServoEvent` of servo_gtk/servo_runner.rs:38-42. */
  datatype Event = FrameReady(image: RgbaImage) | LoadComplete | CursorChanged(cursor: Cursor)

  /** `KeyboardEvent::from_state_and_key`: the given state and key, every other field at
      its default. */
  function KeyEventOf(state: KeyState, c: char): KeyboardEvent
  {
    KeyboardEvent(state, Character([c]), "Unidentified", Standard, 0, false, false)
  }

  /** The engine calls the worker makes for one action (servo_runner.rs:169-229); `parse`
      is `Url::parse`. `Shutdown` makes none. */
  function Ops(action: Action, parse: string -> Option<Url>): (r: seq<Op>)
    ensures Deinit !in r
    ensures action.LoadUrl? ==> (r == [] <==> parse(action.url).None?)
    ensures action.Shutdown? <==> r == [] && !action.LoadUrl?
  {
    match action
    case LoadUrl(url) => if parse(url).Some? then [Load(parse(url).value)] else []
    case Resize(w, h) => [Op.Resize(w, h)]
    case Motion(x, y) => [Input(MouseMove(x, y))]
    case ButtonPress(b, x, y) => [Input(MouseButtonEvent(Press, Conversions.MouseButtonOf(b), x, y))]
    case ButtonRelease(b, x, y) => [Input(MouseButtonEvent(Release, Conversions.MouseButtonOf(b), x, y))]
    case KeyPress(c) => [Input(Keyboard(KeyEventOf(KeyState.Down, c)))]
    case KeyRelease(c) => [Input(Keyboard(KeyEventOf(KeyState.Up, c)))]
    case Shutdown => []
  }

  /** The engine calls for a sequence of applied actions, in order. */
  function AllOps(actions: seq<Action>, parse: string -> Option<Url>): (r: seq<Op>)
    ensures Deinit !in r
  {
    if actions == [] then [] else AllOps(actions[..|actions| - 1], parse) + Ops(actions[|actions| - 1], parse)
  }

  /** The two channels and the engine. `sent` is every action the command channel
      accepted and `applied` every action the worker took from it; `alive` says whether
      the worker thread, which owns the receiving end, is still running. */
  datatype Worker = Worker(
    commands: seq<Action>,
    sent: seq<Action>,
    applied: seq<Action>,
    trace: seq<Op>,
    events: seq<Event>,
    alive: bool)

  /** `sender.send(action)` with its result ignored: the action is queued while the
      worker runs, and dropped once the receiver is gone. */
  function Send(w: Worker, action: Action): Worker
  {
    if w.alive then w.(commands := w.commands + [action], sent := w.sent + [action]) else w
  }

  /** One iteration of `run_servo` (servo_runner.rs:167-235): at most one command by
      `try_recv`, applied; `Shutdown` leaves the loop at once, without `deinit`; otherwise
      the engine spins, its delegate pushes `painted`, and the spin's result decides
      whether the loop goes on. */
  function Step(w: Worker, spin: bool, painted: seq<Event>, parse: string -> Option<Url>): Worker
  {
    if w.commands == [] then
      w.(events := w.events + painted, alive := spin)
    else
      var command := w.commands[0];
      var taken := w.(commands := w.commands[1..], applied := w.applied + [command]);
      if command.Shutdown? then taken.(alive := false)
      else taken.(trace := w.trace + Ops(command, parse), events := w.events + painted, alive := spin)
  }

  /** The channel is a FIFO and the engine has seen exactly the calls of the actions taken
      from it, in order. */
  ghost predicate Valid(w: Worker, parse: string -> Option<Url>)
  {
    w.sent == w.applied + w.commands && w.trace == AllOps(w.applied, parse)
  }

  lemma SendKeepsValid(w: Worker, action: Action, parse: string -> Option<Url>)
    requires Valid(w, parse)
    ensures Valid(Send(w, action), parse)
  {
    AppendAssoc(w.applied, w.commands, [action]);
  }

  lemma StepKeepsValid(w: Worker, spin: bool, painted: seq<Event>, parse: string -> Option<Url>)
    requires Valid(w, parse)
    ensures Valid(Step(w, spin, painted, parse), parse)
    ensures w.trace <= Step(w, spin, painted, parse).trace && w.events <= Step(w, spin, painted, parse).events
  {
    if w.commands != [] {
      var command := w.commands[0];
      AppendAssoc(w.applied, [command], w.commands[1..]);
      assert [command] + w.commands[1..] == w.commands;
      assert (w.applied + [command])[..|w.applied|] == w.applied;
    }
  }

  /** Every send lands while the worker runs, one action of its own kind with its
      arguments unchanged; repeats are not suppressed, so two shutdowns queue two
      `Shutdown` actions. */
  lemma ShutdownNotDeduplicated(w: Worker)
    requires w.alive
    ensures Send(Send(w, Shutdown), Shutdown).commands == w.commands + [Shutdown, Shutdown]
  {
  }

  /** The worker never calls `deinit`: `Shutdown` only ends its loop. */
  lemma ShutdownWithoutDeinit(w: Worker, spin: bool, painted: seq<Event>, parse: string -> Option<Url>)
    requires Valid(w, parse) && w.commands != [] && w.commands[0].Shutdown?
    ensures var n := Step(w, spin, painted, parse);
      !n.alive && n.trace == w.trace && n.events == w.events && Deinit !in n.trace
  {
  }

  /** Without a `Shutdown`, the loop ends exactly when the spin returns false. */
  lemma SpinDecides(w: Worker, spin: bool, painted: seq<Event>, parse: string -> Option<Url>)
    requires w.commands == [] || !w.commands[0].Shutdown?
    ensures Step(w, spin, painted, parse).alive == spin
    ensures Step(w, spin, painted, parse).events == w.events + painted
  {
  }

  /** Press and release of the same button number reach the engine as the same button,
      down and then up. */
  lemma ButtonsSymmetric(b: u32, x: real, y: real, parse: string -> Option<Url>)
    ensures var press := Ops(ButtonPress(b, x, y), parse)[0].event;
      var release := Ops(ButtonRelease(b, x, y), parse)[0].event;
      press.button == release.button && press.action == Press && release.action == Release
      && press.button == Conversions.MouseButtonOf(b)
  {
  }

  /** A key press and its release carry the same character key, down then up. */
  lemma KeysSymmetric(c: char, parse: string -> Option<Url>)
    ensures var press := Ops(KeyPress(c), parse)[0].event.event;
      var release := Ops(KeyRelease(c), parse)[0].event.event;
      press.key == release.key == Character([c]) && press.state == KeyState.Down && release.state == KeyState.Up
  {
  }

  /** What the widget side does between two iterations (the dispatcher calls it makes),
      and what the engine does while spinning. */
  datatype Tick = Tick(calls: seq<Action>, spin: bool, painted: seq<Event>)

  function SendAll(w: Worker, calls: seq<Action>): Worker
    decreases |calls|
  {
    if calls == [] then w else SendAll(Send(w, calls[0]), calls[1..])
  }

  lemma {:induction false} SendAllKeepsValid(w: Worker, calls: seq<Action>, parse: string -> Option<Url>)
    requires Valid(w, parse)
    ensures Valid(SendAll(w, calls), parse)
    ensures var n := SendAll(w, calls); n.trace == w.trace && n.events == w.events && n.alive == w.alive
    decreases |calls|
  {
    if calls != [] {
      SendKeepsValid(w, calls[0], parse);
      SendAllKeepsValid(Send(w, calls[0]), calls[1..], parse);
    }
  }

  /** The worker's loop over a schedule, until it ends or the schedule does. */
  function Run(w: Worker, ticks: seq<Tick>, parse: string -> Option<Url>): Worker
    decreases |ticks|
  {
    if !w.alive || ticks == [] then w
    else Run(Step(SendAll(w, ticks[0].calls), ticks[0].spin, ticks[0].painted, parse), ticks[1..], parse)
  }

  /** Over a whole run the engine sees exactly the calls of a prefix of the sent actions,
      in the order they were sent, and never `deinit`. */
  lemma {:induction false} RunKeepsValid(w: Worker, ticks: seq<Tick>, parse: string -> Option<Url>)
    requires Valid(w, parse)
    ensures var f := Run(w, ticks, parse);
      Valid(f, parse) && f.applied <= f.sent && Deinit !in f.trace
      && w.trace <= f.trace && w.events <= f.events
    decreases |ticks|
  {
    if w.alive && ticks != [] {
      var t := ticks[0];
      SendAllKeepsValid(w, t.calls, parse);
      StepKeepsValid(SendAll(w, t.calls), t.spin, t.painted, parse);
      RunKeepsValid(Step(SendAll(w, t.calls), t.spin, t.painted, parse), ticks[1..], parse);
    }
  }

  /** `ServoRunner` together with the worker it spawned. */
  class ServoRunner {
    var commands: seq<Action>
    ghost var sent: seq<Action>
    ghost var applied: seq<Action>
    var trace: seq<Op>
    var events: seq<Event>
    var alive: bool
    const parse: string -> Option<Url>

    ghost function State(): Worker
      reads this
    {
      Worker(commands, sent, applied, trace, events, alive)
    }

    /** `ServoRunner::new` (servo_runner.rs:90-102): both channels empty, the worker
        started. */
    constructor (parse: string -> Option<Url>)
      ensures State() == Worker([], [], [], [], [], true) && this.parse == parse
      ensures Valid(State(), parse)
    {
      commands, sent, applied, trace, events, alive := [], [], [], [], [], true;
      this.parse := parse;
    }

    method SendAction(action: Action)
      modifies this
      ensures State() == Send(old(State()), action)
    {
      if alive {
        commands := commands + [action];
        sent := sent + [action];
      }
    }

    /** `load_url` (servo_runner.rs:108-110). */
    method LoadUrl(url: string)
      modifies this
      ensures State() == Send(old(State()), Action.LoadUrl(url))
    {
      SendAction(Action.LoadUrl(url));
    }

    /** `resize` (servo_runner.rs:112-114). */
    method Resize(width: u32, height: u32)
      modifies this
      ensures State() == Send(old(State()), Action.Resize(width, height))
    {
      SendAction(Action.Resize(width, height));
    }

    /** `motion` (servo_runner.rs:116-118). */
    method Motion(x: real, y: real)
      modifies this
      ensures State() == Send(old(State()), Action.Motion(x, y))
    {
      SendAction(Action.Motion(x, y));
    }

    /** `button_press` (servo_runner.rs:120-122). */
    method ButtonPress(button: u32, x: real, y: real)
      modifies this
      ensures State() == Send(old(State()), Action.ButtonPress(button, x, y))
    {
      SendAction(Action.ButtonPress(button, x, y));
    }

    /** `button_release` (servo_runner.rs:124-126). */
    method ButtonRelease(button: u32, x: real, y: real)
      modifies this
      ensures State() == Send(old(State()), Action.ButtonRelease(button, x, y))
    {
      SendAction(Action.ButtonRelease(button, x, y));
    }

    /** `key_press` (servo_runner.rs:128-130). */
    method KeyPress(keyval: char)
      modifies this
      ensures State() == Send(old(State()), Action.KeyPress(keyval))
    {
      SendAction(Action.KeyPress(keyval));
    }

    /** `key_release` (servo_runner.rs:132-134). */
    method KeyRelease(keyval: char)
      modifies this
      ensures State() == Send(old(State()), Action.KeyRelease(keyval))
    {
      SendAction(Action.KeyRelease(keyval));
    }

    /** `shutdown` (servo_runner.rs:136-138). */
    method Shutdown()
      modifies this
      ensures State() == Send(old(State()), Action.Shutdown)
    {
      SendAction(Action.Shutdown);
    }

    /** One iteration of the worker's loop. */
    method WorkerStep(spin: bool, painted: seq<Event>)
      requires alive
      modifies this
      ensures State() == Step(old(State()), spin, painted, parse)
    {
      if commands != [] {
        var command := commands[0];
        commands := commands[1..];
        applied := applied + [command];
        match command {
          case LoadUrl(url) =>
            var parsed := parse(url);
            if parsed.Some? {
              trace := trace + [Load(parsed.value)];
            }
          case Resize(w, h) =>
            trace := trace + [Op.Resize(w, h)];
          case Motion(x, y) =>
            trace := trace + [Input(MouseMove(x, y))];
          case ButtonPress(b, x, y) =>
            trace := trace + [Input(MouseButtonEvent(Press, Conversions.MouseButtonOf(b), x, y))];
          case ButtonRelease(b, x, y) =>
            trace := trace + [Input(MouseButtonEvent(Release, Conversions.MouseButtonOf(b), x, y))];
          case KeyPress(c) =>
            trace := trace + [Input(Keyboard(KeyEventOf(KeyState.Down, c)))];
          case KeyRelease(c) =>
            trace := trace + [Input(Keyboard(KeyEventOf(KeyState.Up, c)))];
          case Shutdown =>
            alive := false;
            return;
        }
      }
      events := events + painted;
      alive := spin;
    }

    /** The worker's loop (servo_runner.rs:167-235) interleaved with the widget's
        dispatcher calls, over a schedule. */
    method RunServo(ticks: seq<Tick>)
      modifies this
      ensures State() == Run(old(State()), ticks, parse)
    {
      var i := 0;
      while i < |ticks| && alive
        invariant 0 <= i <= |ticks|
        invariant Run(State(), ticks[i..], parse) == Run(old(State()), ticks, parse)
      {
        assert Run(State(), ticks[i..], parse)
            == Run(Step(SendAll(State(), ticks[i].calls), ticks[i].spin, ticks[i].painted, parse), ticks[i + 1..], parse);
        var calls := ticks[i].calls;
        ghost var before := State();
        var j := 0;
        while j < |calls|
          invariant 0 <= j <= |calls|
          invariant alive
          invariant SendAll(State(), calls[j..]) == SendAll(before, calls)
        {
          SendAction(calls[j]);
          assert calls[j..][1..] == calls[j + 1..];
          j := j + 1;
        }
        assert calls[j..] == [];
        WorkerStep(ticks[i].spin, ticks[i].painted);
        assert ticks[i..][1..] == ticks[i + 1..];
        i := i + 1;
      }
    }
  }
}
