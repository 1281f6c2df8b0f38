/** The process-mode wire messages (`ServoAction` and `ServoEvent` of the protobuf schema
    wrapped by servo_gtk/proto_ipc.rs). Every message wraps an optional variant, as
    protobuf `oneof` fields do: a message can arrive with no variant at all. */
module ProtoIpc {
  import opened Base

  /** The fields of a key press or release. `keyType` and `location` are the raw protobuf
      enum numbers, which may be out of range on the wire. */
  datatype KeyInput = KeyInput(key: string, keyType: i32, location: i32, keyCode: u32, modifiers: u32)

  datatype Action =
    | LoadUrl(url: string)
    | Reload
    | GoBack
    | GoForward
    | Resize(width: u32, height: u32)
    | Motion(x: real, y: real)
    | ButtonPress(button: u32, x: real, y: real)
    | ButtonRelease(button: u32, x: real, y: real)
    | KeyPress(input: KeyInput)
    | KeyRelease(input: KeyInput)
    | TouchBegin(x: real, y: real)
    | TouchUpdate(x: real, y: real)
    | TouchEnd(x: real, y: real)
    | TouchCancel(x: real, y: real)
    | Scroll(dx: real, dy: real)
    | Shutdown

  /** `ServoAction { action: Option<servo_action::Action> }`. */
  datatype ServoAction = ServoAction(action: Option<Action>)

  /** The protobuf `LogLevel` enum. */
  datatype LogLevel = LevelError | LevelWarn | LevelInfo | LevelDebug

  /** The protobuf number of a `LogLevel`, in declaration order. */
  function LevelNumber(level: LogLevel): (r: i32)
    ensures 0 <= r < 4
  {
    match level
    case LevelError => 0
    case LevelWarn => 1
    case LevelInfo => 2
    case LevelDebug => 3
  }

  /** Decoding a raw number back into a `LogLevel` (`LogLevel::try_from`). */
  function LevelOf(n: i32): (r: Option<LogLevel>)
    ensures r.Some? <==> 0 <= n < 4
    ensures r.Some? ==> LevelNumber(r.value) == n
  {
    if n == 0 then Some(LevelError)
    else if n == 1 then Some(LevelWarn)
    else if n == 2 then Some(LevelInfo)
    else if n == 3 then Some(LevelDebug)
    else None
  }

  /** Every level survives the trip through its wire number. */
  lemma LevelRoundTrip(level: LogLevel)
    ensures LevelOf(LevelNumber(level)) == Some(level)
  {
  }

  /** The protobuf `LogMessage`: the level travels as its raw number. */
  datatype LogMessage = LogMessage(level: i32, message: string)

  datatype Event =
    | FrameReady(rgbaData: seq<u8>, width: u32, height: u32)
    | CursorChanged(cursor: string)
    | LogEvent(log: LogMessage)
    | LoadComplete

  /** `ServoEvent { event: Option<servo_event::Event> }`. */
  datatype ServoEvent = ServoEvent(event: Option<Event>)
}
