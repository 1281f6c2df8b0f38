/**
  The thread-mode widget of servo_gtk/webview.rs: it keeps the latest frame in a single
  `last_image` slot for its GL area to draw, sets the cursor by name, forwards key
  presses and releases to its `ServoRunner` (the thread-mode runner) when the keyval has
  a character, and shuts the runner down on `dispose`.

  `gdk::Cursor::from_name` is the parameter `resolves` and `gdk::Key::to_unicode` the
  parameter `toUnicode`.
*/
module GlWebView {
  import opened Base
  import opened Engine
  import Conversions
  import TR = ThreadRunner

  /** The cursor name the widget asks GDK for (servo_gtk/webview.rs:462-474): ten kinds
      have their own name and every other kind falls back to "default". */
  function CursorName(cursor: Cursor): (r: string)
    ensures r != "default" ==> r == Conversions.CursorName(cursor)
  {
    match cursor
    case Default => "default"
    case Pointer => "pointer"
    case Text => "text"
    case Wait => "wait"
    case Help => "help"
    case Crosshair => "crosshair"
    case Move => "move"
    case NotAllowed => "not-allowed"
    case Grab => "grab"
    case Grabbing => "grabbing"
    case _ => "default"
  }

  /** The kinds the widget names itself. */
  predicate Listed(cursor: Cursor)
  {
    cursor == Default || cursor == Pointer || cursor == Text || cursor == Wait || cursor == Help
    || cursor == Crosshair || cursor == Move || cursor == NotAllowed || cursor == Grab || cursor == Grabbing
  }

  /** On the ten listed kinds the widget uses the same names as the process-mode worker;
      every other kind becomes "default", where the worker has a name of its own for all
      of them but `None`. */
  lemma CursorNameAgreesWithWorker(cursor: Cursor)
    ensures Listed(cursor) ==> CursorName(cursor) == Conversions.CursorName(cursor)
    ensures !Listed(cursor) ==> CursorName(cursor) == "default"
    ensures !Listed(cursor) && cursor != NoCursor ==> Conversions.CursorName(cursor) != "default"
  {
  }

  /** What `process_servo_event` changes: `last_image`, the redraws queued on the GL
      area, and the cursor set by name. */
  datatype View = View(lastImage: Option<RgbaImage>, draws: nat, cursor: Option<string>)

  /** `process_servo_event` (servo_gtk/webview.rs:444-481). */
  function Handle(v: View, hasGlArea: bool, event: TR.Event, resolves: string -> bool): View
  {
    match event
    case FrameReady(image) => v.(lastImage := Some(image), draws := if hasGlArea then v.draws + 1 else v.draws)
    case LoadComplete => v
    case CursorChanged(c) => if resolves(CursorName(c)) then v.(cursor := Some(CursorName(c))) else v
  }

  /** The events handled one after another, in arrival order. */
  function HandleAll(v: View, hasGlArea: bool, events: seq<TR.Event>, resolves: string -> bool): View
  {
    if events == [] then v
    else Handle(HandleAll(v, hasGlArea, events[..|events| - 1], resolves), hasGlArea, events[|events| - 1], resolves)
  }

  /** A frame replaces the slot; a redraw is queued exactly when there is a GL area. */
  lemma FrameReplacesImage(v: View, hasGlArea: bool, image: RgbaImage, resolves: string -> bool)
    ensures var after := Handle(v, hasGlArea, TR.FrameReady(image), resolves);
      after.lastImage == Some(image) && after.cursor == v.cursor
      && (after.draws == v.draws + 1 <==> hasGlArea) && (after.draws == v.draws <==> !hasGlArea)
  {
  }

  /** `LoadComplete` only logs. */
  lemma LoadCompleteIgnored(v: View, hasGlArea: bool, resolves: string -> bool)
    ensures Handle(v, hasGlArea, TR.LoadComplete, resolves) == v
  {
  }

  /** The cursor is set to the kind's name exactly when that name resolves. */
  lemma CursorOnlyIfResolves(v: View, hasGlArea: bool, c: Cursor, resolves: string -> bool)
    ensures var after := Handle(v, hasGlArea, TR.CursorChanged(c), resolves);
      after.cursor == (if resolves(CursorName(c)) then Some(CursorName(c)) else v.cursor)
      && after.lastImage == v.lastImage && after.draws == v.draws
  {
  }

  /** The slot holds the last frame of a batch, whatever came before it. */
  lemma {:induction false} LastFrameDecides(v: View, hasGlArea: bool, events: seq<TR.Event>, i: nat,
                                            resolves: string -> bool)
    requires i < |events| && events[i].FrameReady?
    requires forall j :: i < j < |events| ==> !events[j].FrameReady?
    ensures HandleAll(v, hasGlArea, events, resolves).lastImage == Some(events[i].image)
    decreases |events|
  {
    if i < |events| - 1 {
      var init := events[..|events| - 1];
      assert init[i] == events[i];
      LastFrameDecides(v, hasGlArea, init, i, resolves);
    }
  }

  /** The `WebView` widget of servo_gtk/webview.rs:21-28, without its GL objects. */
  class WebView {
    var lastImage: Option<RgbaImage>
    var draws: nat
    var cursor: Option<string>
    const hasGlArea: bool
    const runner: TR.ServoRunner?
    const resolves: string -> bool

    ghost function State(): View
      reads this
    {
      View(lastImage, draws, cursor)
    }

    constructor (hasGlArea: bool, runner: TR.ServoRunner?, resolves: string -> bool)
      ensures State() == View(None, 0, None)
      ensures this.hasGlArea == hasGlArea && this.runner == runner && this.resolves == resolves
    {
      lastImage, draws, cursor := None, 0, None;
      this.hasGlArea := hasGlArea;
      this.runner := runner;
      this.resolves := resolves;
    }

    /** `process_servo_event` (servo_gtk/webview.rs:444-481). */
    method ProcessServoEvent(event: TR.Event)
      modifies this
      ensures State() == Handle(old(State()), hasGlArea, event, resolves)
    {
      match event {
        case FrameReady(image) =>
          lastImage := Some(image);
          if hasGlArea {
            draws := draws + 1;
          }
        case LoadComplete =>
        case CursorChanged(c) =>
          var name := CursorName(c);
          if resolves(name) {
            cursor := Some(name);
          }
      }
    }

    /** The reader task of servo_gtk/webview.rs:383-391: the widget is alive for the
        first `aliveFor` received events; the first one received after that is dropped
        unhandled and ends the task. Returns how many events were received. */
    method ReadEvents(queue: seq<TR.Event>, aliveFor: nat) returns (received: nat)
      modifies this
      ensures received == if aliveFor < |queue| then aliveFor + 1 else |queue|
      ensures State() == HandleAll(old(State()), hasGlArea, queue[..if aliveFor < |queue| then aliveFor else |queue|], resolves)
    {
      var i := 0;
      while i < |queue|
        invariant i <= |queue| && i <= aliveFor
        invariant State() == HandleAll(old(State()), hasGlArea, queue[..i], resolves)
      {
        var event := queue[i];
        if i == aliveFor {
          return i + 1;
        }
        ProcessServoEvent(event);
        assert queue[..i + 1][..i] == queue[..i];
        i := i + 1;
      }
      assert queue[..i] == queue[..|queue|];
      return i;
    }

    /** The key-pressed handler (servo_gtk/webview.rs:335-344): the character of the
        keyval is sent as a key press, and a keyval without one is dropped. */
    method KeyPressed(keyval: u32, toUnicode: u32 -> Option<char>)
      modifies runner
      ensures runner != null ==>
                runner.State() == if toUnicode(keyval).Some? then TR.Send(old(runner.State()), TR.KeyPress(toUnicode(keyval).value))
                                  else old(runner.State())
    {
      if runner != null {
        var unicode := toUnicode(keyval);
        if unicode.Some? {
          runner.KeyPress(unicode.value);
        }
      }
    }

    /** The key-released handler (servo_gtk/webview.rs:345-356). */
    method KeyReleased(keyval: u32, toUnicode: u32 -> Option<char>)
      modifies runner
      ensures runner != null ==>
                runner.State() == if toUnicode(keyval).Some? then TR.Send(old(runner.State()), TR.KeyRelease(toUnicode(keyval).value))
                                  else old(runner.State())
    {
      if runner != null {
        var unicode := toUnicode(keyval);
        if unicode.Some? {
          runner.KeyRelease(unicode.value);
        }
      }
    }

    /** `load_url` (servo_gtk/webview.rs:419-424): passed on when there is a runner. */
    method LoadUrl(url: string)
      modifies runner
      ensures runner != null ==> runner.State() == TR.Send(old(runner.State()), TR.LoadUrl(url))
    {
      if runner != null {
        runner.LoadUrl(url);
      }
    }

    /** `dispose` (servo_gtk/webview.rs:398-402): a shutdown when there is a runner. */
    method Dispose()
      modifies runner
      ensures runner != null ==> runner.State() == TR.Send(old(runner.State()), TR.Shutdown)
    {
      if runner != null {
        runner.Shutdown();
      }
    }
  }
}
