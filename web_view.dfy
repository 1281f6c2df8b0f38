/**
  The process-mode widget of servo_gtk/web_view.rs, on the receiving side: how it turns
  the worker's `ServoEvent` messages into its own state. The widget holds a single
  texture slot, the cursor it last set, and a handle on the UI-side runner, whose calls
  are recorded (that runner is not part of this model).

  `gdk::Cursor::from_name` is the parameter `resolves`: whether the cursor theme knows
  a name. A redraw request (`queue_draw`) is counted.
*/
module ProcessWebView {
  import opened Base
  import P = ProtoIpc

  /** `gdk::MemoryFormat`, restricted to the one format the widget uses. */
  datatype MemoryFormat = R8g8b8a8

  /** `gdk::MemoryTexture::new(width, height, format, bytes, stride)`. */
  datatype MemoryTexture = MemoryTexture(width: i32, height: i32, format: MemoryFormat, bytes: seq<u8>, stride: nat)

  /** A call the widget makes on its UI-side runner. */
  datatype RunnerCall = HandleLogMessage(level: i32, message: string) | Shutdown

  /** What the widget holds: `memory_texture`, the cursor set on it by name, the number
      of redraws it requested, and the calls it made on its runner. */
  datatype View = View(texture: Option<MemoryTexture>, cursor: Option<string>, draws: nat, calls: seq<RunnerCall>)

  const I32_MODULUS: int := 0x1_0000_0000

  /** Rust's `as i32` on a `u32`: the same bits read as two's complement. */
  function AsI32(x: u32): (r: i32)
    ensures x < 0x8000_0000 ==> r == x
    ensures x >= 0x8000_0000 ==> r < 0
    ensures (x - r) % I32_MODULUS == 0
  {
    if x < 0x8000_0000 then x else x - I32_MODULUS
  }

  /** `width * 4` in `u32` arithmetic as the release build does it, wrapping at 2^32. */
  function TimesFour(width: u32): (r: u32)
    ensures width < 0x4000_0000 ==> r == 4 * width
    ensures (4 * width - r) % U32_MODULUS == 0
  {
    (4 * width) % U32_MODULUS
  }

  /** Whether `RgbaImage::from_raw(width, height, data)` succeeds: four bytes per pixel
      must be present (more are allowed and kept). Otherwise the `unwrap` panics. */
  predicate FrameFits(data: seq<u8>, width: u32, height: u32)
  {
    width * height * 4 <= |data|
  }

  /** Whether handling the event does not panic. */
  predicate Handleable(event: P.ServoEvent)
  {
    event.event.Some? && event.event.value.FrameReady? ==>
      FrameFits(event.event.value.rgbaData, event.event.value.width, event.event.value.height)
  }

  /** The texture built from a frame (servo_gtk/web_view.rs:244-260). */
  function TextureOf(data: seq<u8>, width: u32, height: u32): (r: MemoryTexture)
    requires FrameFits(data, width, height)
    ensures r.format == R8g8b8a8 && r.bytes == data
    ensures (r.width - width) % I32_MODULUS == 0 && (r.height - height) % I32_MODULUS == 0
    ensures width < 0x4000_0000 ==> r.stride == 4 * width
  {
    MemoryTexture(AsI32(width), AsI32(height), R8g8b8a8, data, TimesFour(width))
  }

  /** `process_servo_event` (servo_gtk/web_view.rs:237-281). */
  function Handle(v: View, hasRunner: bool, event: P.ServoEvent, resolves: string -> bool): View
    requires Handleable(event)
  {
    if event.event.None? then v
    else
      match event.event.value
      case FrameReady(data, w, h) => v.(texture := Some(TextureOf(data, w, h)), draws := v.draws + 1)
      case CursorChanged(name) => if resolves(name) then v.(cursor := Some(name)) else v
      case LogEvent(log) => if hasRunner then v.(calls := v.calls + [HandleLogMessage(log.level, log.message)]) else v
      case LoadComplete => v
  }

  /** The events handled one after another, in arrival order. */
  function HandleAll(v: View, hasRunner: bool, events: seq<P.ServoEvent>, resolves: string -> bool): View
    requires forall i :: 0 <= i < |events| ==> Handleable(events[i])
  {
    if events == [] then v
    else Handle(HandleAll(v, hasRunner, events[..|events| - 1], resolves), hasRunner, events[|events| - 1], resolves)
  }

  /** A message with no variant changes nothing. */
  lemma EmptyEventIgnored(v: View, hasRunner: bool, resolves: string -> bool)
    ensures Handle(v, hasRunner, P.ServoEvent(None), resolves) == v
  {
  }

  /** The texture slot is overwritten, not queued: after two frames only the second
      one's texture remains, and the cursor and the runner calls are untouched. */
  lemma LatestFrameWins(v: View, hasRunner: bool, a: P.Event, b: P.Event, resolves: string -> bool)
    requires a.FrameReady? && FrameFits(a.rgbaData, a.width, a.height)
    requires b.FrameReady? && FrameFits(b.rgbaData, b.width, b.height)
    ensures var after := Handle(Handle(v, hasRunner, P.ServoEvent(Some(a)), resolves), hasRunner, P.ServoEvent(Some(b)), resolves);
      after.texture == Some(TextureOf(b.rgbaData, b.width, b.height))
      && after.cursor == v.cursor && after.calls == v.calls && after.draws == v.draws + 2
  {
  }

  /** A cursor name is applied exactly when it resolves; nothing else changes. */
  lemma CursorOnlyIfResolves(v: View, hasRunner: bool, name: string, resolves: string -> bool)
    ensures var after := Handle(v, hasRunner, P.ServoEvent(Some(P.CursorChanged(name))), resolves);
      after.cursor == (if resolves(name) then Some(name) else v.cursor)
      && after.texture == v.texture && after.draws == v.draws && after.calls == v.calls
  {
  }

  /** A log message reaches the runner, with its level and text, exactly when there is
      a runner; it leaves texture and cursor alone. */
  lemma LogForwardedOnlyWithRunner(v: View, hasRunner: bool, log: P.LogMessage, resolves: string -> bool)
    ensures var after := Handle(v, hasRunner, P.ServoEvent(Some(P.LogEvent(log))), resolves);
      after.calls == (if hasRunner then v.calls + [HandleLogMessage(log.level, log.message)] else v.calls)
      && after.texture == v.texture && after.cursor == v.cursor && after.draws == v.draws
  {
  }

  /** `LoadComplete` only logs. */
  lemma LoadCompleteIgnored(v: View, hasRunner: bool, resolves: string -> bool)
    ensures Handle(v, hasRunner, P.ServoEvent(Some(P.LoadComplete)), resolves) == v
  {
  }

  /** Handling two batches one after the other is handling their concatenation. */
  lemma {:induction false} HandleAllAppend(v: View, hasRunner: bool, a: seq<P.ServoEvent>, b: seq<P.ServoEvent>,
                                           resolves: string -> bool)
    requires forall i :: 0 <= i < |a| ==> Handleable(a[i])
    requires forall i :: 0 <= i < |b| ==> Handleable(b[i])
    ensures forall i :: 0 <= i < |a + b| ==> Handleable((a + b)[i])
    ensures HandleAll(v, hasRunner, a + b, resolves) == HandleAll(HandleAll(v, hasRunner, a, resolves), hasRunner, b, resolves)
    decreases |b|
  {
    assert forall i :: 0 <= i < |a + b| ==> Handleable((a + b)[i]) by {
      forall i | 0 <= i < |a + b|
        ensures Handleable((a + b)[i])
      {
        if i < |a| {
          assert (a + b)[i] == a[i];
        } else {
          assert (a + b)[i] == b[i - |a|];
        }
      }
    }
    if b == [] {
      assert a + b == a;
    } else {
      var init := b[..|b| - 1];
      assert (a + b)[..|a + b| - 1] == a + init;
      assert (a + b)[|a + b| - 1] == b[|b| - 1];
      HandleAllAppend(v, hasRunner, a, init, resolves);
    }
  }

  /** The last frame of a batch decides the texture, whatever came before it, as long
      as no frame follows it. */
  lemma {:induction false} LastFrameDecides(v: View, hasRunner: bool, events: seq<P.ServoEvent>, i: nat,
                                            resolves: string -> bool)
    requires forall j :: 0 <= j < |events| ==> Handleable(events[j])
    requires i < |events| && events[i].event.Some? && events[i].event.value.FrameReady?
    requires forall j :: i < j < |events| ==> events[j].event.None? || !events[j].event.value.FrameReady?
    ensures var f := events[i].event.value;
      HandleAll(v, hasRunner, events, resolves).texture == Some(TextureOf(f.rgbaData, f.width, f.height))
    decreases |events|
  {
    if i < |events| - 1 {
      var init := events[..|events| - 1];
      assert init[i] == events[i];
      LastFrameDecides(v, hasRunner, init, i, resolves);
    } else {
      assert events[..|events| - 1][..] == events[..|events| - 1];
    }
  }

  /** The `WebView` widget of servo_gtk/web_view.rs:21-24 with the state above. */
  class WebView {
    var texture: Option<MemoryTexture>
    var cursor: Option<string>
    var draws: nat
    var calls: seq<RunnerCall>
    const hasRunner: bool
    const resolves: string -> bool

    ghost function State(): View
      reads this
    {
      View(texture, cursor, draws, calls)
    }

    constructor (hasRunner: bool, resolves: string -> bool)
      ensures State() == View(None, None, 0, []) && this.hasRunner == hasRunner && this.resolves == resolves
    {
      texture, cursor, draws, calls := None, None, 0, [];
      this.hasRunner := hasRunner;
      this.resolves := resolves;
    }

    /** `process_servo_event` (servo_gtk/web_view.rs:237-281). */
    method ProcessServoEvent(event: P.ServoEvent)
      requires Handleable(event)
      modifies this
      ensures State() == Handle(old(State()), hasRunner, event, resolves)
    {
      if event.event.None? {
        return;
      }
      match event.event.value {
        case FrameReady(data, w, h) =>
          texture := Some(MemoryTexture(AsI32(w), AsI32(h), R8g8b8a8, data, TimesFour(w)));
          draws := draws + 1;
        case CursorChanged(name) =>
          if resolves(name) {
            cursor := Some(name);
          }
        case LogEvent(log) =>
          if hasRunner {
            calls := calls + [HandleLogMessage(log.level, log.message)];
          }
        case LoadComplete =>
      }
    }

    /** The reader task of servo_gtk/web_view.rs:43-51. It receives the queued events in
        order; the widget is alive for the first `aliveFor` of them, and the first one
        received after that is dropped unhandled and ends the task. Returns how many
        events were received. */
    method ReadEvents(queue: seq<P.ServoEvent>, aliveFor: nat) returns (received: nat)
      requires forall i :: 0 <= i < |queue| && i < aliveFor ==> Handleable(queue[i])
      modifies this
      ensures received == if aliveFor < |queue| then aliveFor + 1 else |queue|
      ensures State() == HandleAll(old(State()), hasRunner, queue[..if aliveFor < |queue| then aliveFor else |queue|], resolves)
    {
      var i := 0;
      while i < |queue|
        invariant i <= |queue| && i <= aliveFor
        invariant State() == HandleAll(old(State()), hasRunner, queue[..i], resolves)
      {
        var event := queue[i];
        if i == aliveFor {
          return i + 1;
        }
        ProcessServoEvent(event);
        assert queue[..i + 1][..i] == queue[..i];
        i := i + 1;
      }
      assert queue[..i] == queue[..|queue|];
      return i;
    }

    /** `dispose` (servo_gtk/web_view.rs:154-158): one shutdown per call when there is a
        runner. */
    method Dispose()
      modifies this
      ensures State() == old(State()).(calls := old(calls) + (if hasRunner then [Shutdown] else []))
    {
      if hasRunner {
        calls := calls + [Shutdown];
      }
    }
  }
}
