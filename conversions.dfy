/** The pure tables of the worker binary (servo_runner/runner.rs): log levels, cursor
    names, mouse buttons and the conversion of a wire key event into an engine one. */
module Conversions {
  import opened Base
  import opened Engine
  import ProtoIpc

  /** `log::Level`. */
  datatype RecordLevel = Error | Warn | Info | Debug | Trace

  /** The record level a wire `LogLevel` stands for. */
  function RecordLevelOf(level: ProtoIpc.LogLevel): RecordLevel
  {
    match level
    case LevelError => Error
    case LevelWarn => Warn
    case LevelInfo => Info
    case LevelDebug => Debug
  }

  /** The level `EventLogger::log` puts on the wire (runner.rs:51-57): the four levels the
      wire knows travel unchanged and `Trace` is sent as `Debug`. */
  function WireLevel(level: RecordLevel): (r: ProtoIpc.LogLevel)
    ensures level != Trace ==> RecordLevelOf(r) == level
    ensures level == Trace ==> r == ProtoIpc.LevelDebug
  {
    match level
    case Error => ProtoIpc.LevelError
    case Warn => ProtoIpc.LevelWarn
    case Info => ProtoIpc.LevelInfo
    case Debug => ProtoIpc.LevelDebug
    case Trace => ProtoIpc.LevelDebug
  }

  /** Whether the maximum level the worker installs, `LevelFilter::Debug` (runner.rs:229),
      lets a record through. */
  predicate Admitted(level: RecordLevel)
  {
    level != Trace
  }

  /** Under the installed filter no record is sent at a level other than its own: the
      `Trace` arm of the level map is never taken. */
  lemma AdmittedKeepLevel(level: RecordLevel)
    requires Admitted(level)
    ensures RecordLevelOf(WireLevel(level)) == level
  {
  }

  /** The CSS cursor name the worker sends for a cursor kind (runner.rs:111-147). */
  function CursorName(cursor: Cursor): (r: string)
    ensures r == "default" <==> cursor == Default || cursor == NoCursor
  {
    match cursor
    case Default => "default"
    case Pointer => "pointer"
    case Text => "text"
    case Wait => "wait"
    case Help => "help"
    case Crosshair => "crosshair"
    case Move => "move"
    case EResize => "e-resize"
    case NeResize => "ne-resize"
    case NwResize => "nw-resize"
    case NResize => "n-resize"
    case SeResize => "se-resize"
    case SwResize => "sw-resize"
    case SResize => "s-resize"
    case WResize => "w-resize"
    case EwResize => "ew-resize"
    case NsResize => "ns-resize"
    case NeswResize => "nesw-resize"
    case NwseResize => "nwse-resize"
    case ColResize => "col-resize"
    case RowResize => "row-resize"
    case AllScroll => "all-scroll"
    case ZoomIn => "zoom-in"
    case ZoomOut => "zoom-out"
    case Alias => "alias"
    case Cell => "cell"
    case Copy => "copy"
    case ContextMenu => "context-menu"
    case NoDrop => "no-drop"
    case NotAllowed => "not-allowed"
    case Grab => "grab"
    case Grabbing => "grabbing"
    case VerticalText => "vertical-text"
    case Progress => "progress"
    case NoCursor => "default"
  }

  /** Every kind but `Default` and `None` has a name of its own: two kinds that are sent
      under the same name other than "default" are the same kind. */
  lemma CursorNamesDistinct(a: Cursor, b: Cursor)
    requires CursorName(a) == CursorName(b) && CursorName(a) != "default"
    ensures a == b
  {
  }

  /** The mouse button for a button number (runner.rs:303-308 and 322-327). */
  function MouseButtonOf(button: u32): (r: MouseButton)
    ensures r == MiddleButton <==> button == 2
    ensures r == RightButton <==> button == 3
    ensures r == LeftButton <==> button != 2 && button != 3
  {
    if button == 1 then LeftButton
    else if button == 2 then MiddleButton
    else if button == 3 then RightButton
    else LeftButton
  }

  /** The button number GDK reports for a mouse button. */
  function ButtonNumber(button: MouseButton): u32
  {
    match button
    case LeftButton => 1
    case MiddleButton => 2
    case RightButton => 3
  }

  /** The three buttons survive the trip through their numbers. */
  lemma ButtonRoundTrip(button: MouseButton)
    ensures MouseButtonOf(ButtonNumber(button)) == button
  {
  }

  /** The protobuf `KeyType` enum. */
  datatype KeyType = CharacterKey | NamedKey

  /** The protobuf `Location` enum. */
  datatype ProtoLocation = ProtoStandard | ProtoLeft | ProtoRight | ProtoNumpad

  /** `KeyType::try_from` on a raw wire number. */
  function KeyTypeOf(n: i32): (r: Option<KeyType>)
    ensures r.Some? <==> 0 <= n < 2
  {
    if n == 0 then Some(CharacterKey) else if n == 1 then Some(NamedKey) else None
  }

  /** `Location::try_from` on a raw wire number. */
  function ProtoLocationOf(n: i32): (r: Option<ProtoLocation>)
    ensures r.Some? <==> 0 <= n < 4
  {
    if n == 0 then Some(ProtoStandard)
    else if n == 1 then Some(ProtoLeft)
    else if n == 2 then Some(ProtoRight)
    else if n == 3 then Some(ProtoNumpad)
    else None
  }

  /** The wire number of a protobuf location. */
  function LocationNumber(location: ProtoLocation): i32
  {
    match location
    case ProtoStandard => 0
    case ProtoLeft => 1
    case ProtoRight => 2
    case ProtoNumpad => 3
  }

  /** `convert_location` (runner.rs:189-196): one engine location per wire location. */
  function ConvertLocation(location: ProtoLocation): Location
  {
    match location
    case ProtoStandard => Standard
    case ProtoLeft => Left
    case ProtoRight => Right
    case ProtoNumpad => Numpad
  }

  /** One past the highest bit of the flags `keyboard_types::Modifiers` defines (ALT is
      bit 0, SUPER bit 13). */
  const MODIFIER_LIMIT: int := 0x4000

  /** `Modifiers::from_bits_truncate`: the defined flags are kept and every other bit
      is dropped. */
  function FromBitsTruncate(bits: u32): (r: u32)
    ensures r < MODIFIER_LIMIT
    ensures bits < MODIFIER_LIMIT ==> r == bits
    ensures (bits - r) % MODIFIER_LIMIT == 0
  {
    bits % MODIFIER_LIMIT
  }

  /** `convert_key_event` (runner.rs:198-223). `namedKey` is `NamedKey::from_str`,
      giving the name of a known named key. */
  function ConvertKeyEvent(keyStr: string, keyType: i32, location: i32, keyCode: u32, modifiers: u32,
                           state: KeyState, namedKey: string -> Option<string>): (r: KeyboardEvent)
    ensures r.state == state && r.code == "Unidentified"
    ensures r.key.Named? <==> keyType == 1
    ensures r.key.Character? ==> r.key.text == keyStr
    ensures r.key.Named? && namedKey(keyStr).Some? ==> r.key.name == namedKey(keyStr).value
    ensures r.key.Named? && namedKey(keyStr).None? ==> r.key.name == "Unidentified"
    ensures ProtoLocationOf(location).None? ==> r.location == Standard
    ensures r.modifiers == FromBitsTruncate(modifiers)
    ensures !r.repeat && !r.isComposing
  {
    var key := match KeyTypeOf(keyType).GetOr(CharacterKey)
      case CharacterKey => Character(keyStr)
      case NamedKey => Named(namedKey(keyStr).GetOr("Unidentified"));
    var loc := ConvertLocation(ProtoLocationOf(location).GetOr(ProtoStandard));
    KeyboardEvent(state, key, "Unidentified", loc, FromBitsTruncate(modifiers), false, false)
  }

  /** The key code on the wire is ignored: two events that differ only in it convert to
      the same engine event. */
  lemma KeyCodeIgnored(keyStr: string, keyType: i32, location: i32, code1: u32, code2: u32,
                       modifiers: u32, state: KeyState, namedKey: string -> Option<string>)
    ensures ConvertKeyEvent(keyStr, keyType, location, code1, modifiers, state, namedKey)
         == ConvertKeyEvent(keyStr, keyType, location, code2, modifiers, state, namedKey)
  {
  }

  /** Distinct wire locations become distinct engine locations. */
  lemma ConvertLocationInjective(a: ProtoLocation, b: ProtoLocation)
    ensures ConvertLocation(a) == ConvertLocation(b) ==> a == b
  {
  }

  /** A location sent with its protobuf number arrives as the matching engine location. */
  lemma LocationRoundTrip(keyStr: string, keyType: i32, l: ProtoLocation, keyCode: u32, modifiers: u32,
                          state: KeyState, namedKey: string -> Option<string>)
    ensures ConvertKeyEvent(keyStr, keyType, LocationNumber(l), keyCode, modifiers, state, namedKey).location
         == ConvertLocation(l)
  {
  }
}
