/**
  The first widget of the project (src/webview.rs): it keeps the latest frame in a single
  `last_image` slot, routes mouse button presses and releases that carry a position to
  its runner, and shuts the runner down on `dispose`.

  The runner of src/servo_runner.rs has no button methods, so the button calls the
  widget makes are recorded on the widget itself.
*/
module LegacyWebView {
  import opened Base
  import opened Engine
  import LR = LegacyRunner

  /** The `gdk::EventType`s the button routing tells apart. */
  datatype EventKind = ButtonPressKind | ButtonReleaseKind | OtherKind

  /** A GDK event as the legacy controller sees it: its type, the button number of a
      button event, and `ButtonEvent::position`. */
  datatype GdkEvent = GdkEvent(kind: EventKind, button: u32, position: Option<(real, real)>)

  /** A button call made on the runner. */
  datatype ButtonCall = ButtonPress(button: u32, x: real, y: real) | ButtonRelease(button: u32, x: real, y: real)

  /** The calls the legacy controller makes for one event (src/webview.rs:246-274). */
  function Route(event: GdkEvent): (r: seq<ButtonCall>)
    ensures |r| <= 1
    ensures r != [] <==> event.kind != OtherKind && event.position.Some?
    ensures r != [] ==> r[0].button == event.button && (r[0].x, r[0].y) == event.position.value
    ensures r != [] ==> (r[0].ButtonPress? <==> event.kind == ButtonPressKind)
  {
    match event.kind
    case ButtonPressKind =>
      if event.position.Some? then [ButtonPress(event.button, event.position.value.0, event.position.value.1)] else []
    case ButtonReleaseKind =>
      if event.position.Some? then [ButtonRelease(event.button, event.position.value.0, event.position.value.1)] else []
    case OtherKind => []
  }

  /** The calls for a sequence of events, in order. */
  function RouteAll(events: seq<GdkEvent>): (r: seq<ButtonCall>)
    ensures |r| <= |events|
  {
    if events == [] then [] else RouteAll(events[..|events| - 1]) + Route(events[|events| - 1])
  }

  /** Routing makes one call for each press or release that has a position and none for
      any other event. */
  lemma {:induction false} RouteAllCounts(events: seq<GdkEvent>)
    ensures |RouteAll(events)| == |set i | 0 <= i < |events| && events[i].kind != OtherKind && events[i].position.Some?|
  {
    if events != [] {
      var init := events[..|events| - 1];
      var n := |events| - 1;
      RouteAllCounts(init);
      var before := set i | 0 <= i < n && init[i].kind != OtherKind && init[i].position.Some?;
      var now := set i | 0 <= i < |events| && events[i].kind != OtherKind && events[i].position.Some?;
      if events[n].kind != OtherKind && events[n].position.Some? {
        assert now == before + {n};
      } else {
        assert now == before;
      }
    }
  }

  /** What `process_servo_event` changes: `last_image` and the redraws queued. */
  datatype View = View(lastImage: Option<RgbaImage>, draws: nat)

  /** `process_servo_event` (src/webview.rs:356-371). */
  function Handle(v: View, hasGlArea: bool, event: LR.Event): View
  {
    match event
    case FrameReady(image) => View(Some(image), if hasGlArea then v.draws + 1 else v.draws)
    case LoadComplete => v
  }

  /** The events handled one after another, in arrival order. */
  function HandleAll(v: View, hasGlArea: bool, events: seq<LR.Event>): View
  {
    if events == [] then v else Handle(HandleAll(v, hasGlArea, events[..|events| - 1]), hasGlArea, events[|events| - 1])
  }

  /** A frame replaces the slot and queues a redraw exactly when there is a GL area;
      `LoadComplete` changes nothing. */
  lemma HandleEffects(v: View, hasGlArea: bool, image: RgbaImage)
    ensures Handle(v, hasGlArea, LR.FrameReady(image)).lastImage == Some(image)
    ensures Handle(v, hasGlArea, LR.FrameReady(image)).draws == v.draws + (if hasGlArea then 1 else 0)
    ensures Handle(v, hasGlArea, LR.LoadComplete) == v
  {
  }

  /** The slot holds the last frame of a batch, and a batch of `LoadComplete` events
      leaves the state as it was. */
  lemma {:induction false} LastFrameDecides(v: View, hasGlArea: bool, events: seq<LR.Event>, i: nat)
    requires i < |events| && events[i].FrameReady?
    requires forall j :: i < j < |events| ==> events[j].LoadComplete?
    ensures HandleAll(v, hasGlArea, events).lastImage == Some(events[i].image)
    decreases |events|
  {
    if i < |events| - 1 {
      var init := events[..|events| - 1];
      assert init[i] == events[i];
      LastFrameDecides(v, hasGlArea, init, i);
    }
  }

  /** The `WebView` widget of src/webview.rs:17-24, without its GL objects. */
  class WebView {
    var lastImage: Option<RgbaImage>
    var draws: nat
    var forwarded: seq<ButtonCall>
    const hasGlArea: bool
    const runner: LR.ServoRunner?

    ghost function State(): View
      reads this
    {
      View(lastImage, draws)
    }

    constructor (hasGlArea: bool, runner: LR.ServoRunner?)
      ensures State() == View(None, 0) && forwarded == []
      ensures this.hasGlArea == hasGlArea && this.runner == runner
    {
      lastImage, draws, forwarded := None, 0, [];
      this.hasGlArea := hasGlArea;
      this.runner := runner;
    }

    /** `process_servo_event` (src/webview.rs:356-371). */
    method ProcessServoEvent(event: LR.Event)
      modifies this
      ensures State() == Handle(old(State()), hasGlArea, event) && forwarded == old(forwarded)
    {
      match event {
        case FrameReady(image) =>
          lastImage := Some(image);
          if hasGlArea {
            draws := draws + 1;
          }
        case LoadComplete =>
      }
    }

    /** The reader task of src/webview.rs:313-321: the widget is alive for the first
        `aliveFor` received events; the first one received after that is dropped
        unhandled and ends the task. Returns how many events were received. */
    method ReadEvents(queue: seq<LR.Event>, aliveFor: nat) returns (received: nat)
      modifies this
      ensures received == if aliveFor < |queue| then aliveFor + 1 else |queue|
      ensures State() == HandleAll(old(State()), hasGlArea, queue[..if aliveFor < |queue| then aliveFor else |queue|])
      ensures forwarded == old(forwarded)
    {
      var i := 0;
      while i < |queue|
        invariant i <= |queue| && i <= aliveFor
        invariant State() == HandleAll(old(State()), hasGlArea, queue[..i])
        invariant forwarded == old(forwarded)
      {
        var event := queue[i];
        if i == aliveFor {
          return i + 1;
        }
        ProcessServoEvent(event);
        assert queue[..i + 1][..i] == queue[..i];
        i := i + 1;
      }
      assert queue[..i] == queue[..|queue|];
      return i;
    }

    /** The legacy controller's handler (src/webview.rs:246-274): with a runner, a
        button press or release that has a position is forwarded; everything else is
        ignored. */
    method LegacyEvent(event: GdkEvent)
      modifies this
      ensures forwarded == old(forwarded) + (if runner != null then Route(event) else [])
      ensures State() == old(State())
    {
      if runner != null {
        match event.kind {
          case ButtonPressKind =>
            if event.position.Some? {
              var (x, y) := event.position.value;
              forwarded := forwarded + [ButtonPress(event.button, x, y)];
            }
          case ButtonReleaseKind =>
            if event.position.Some? {
              var (x, y) := event.position.value;
              forwarded := forwarded + [ButtonRelease(event.button, x, y)];
            }
          case OtherKind =>
        }
      }
    }

    /** `load_url` (src/webview.rs:349-354): passed on when there is a runner. */
    method LoadUrl(url: string)
      modifies runner
      ensures runner != null ==> runner.State() == LR.Send(old(runner.State()), LR.LoadUrl(url))
    {
      if runner != null {
        runner.LoadUrl(url);
      }
    }

    /** `dispose` (src/webview.rs:328-332): a shutdown when there is a runner. */
    method Dispose()
      modifies runner
      ensures runner != null ==> runner.State() == LR.Send(old(runner.State()), LR.Shutdown)
    {
      if runner != null {
        runner.Shutdown();
      }
    }
  }
}
