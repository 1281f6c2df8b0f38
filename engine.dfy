/** The embedded engine as the transport sees it: the input events it is handed, the
    cursor kinds it reports, and the operations applied to it, recorded as a trace.
    Coordinates are `real`; the `f32` casts of the source are not modelled. */
module Engine {
  import opened Base

  /** `keyboard_types::KeyState`. */
  datatype KeyState = Down | Up

  /** `keyboard_types::Location`. */
  datatype Location = Standard | Left | Right | Numpad

  /** `keyboard_types::Key`: a character string, or a named key given by its name in the
      W3C "UI Events KeyboardEvent key Values" list ("Unidentified" for an unknown one). */
  datatype Key = Character(text: string) | Named(name: string)

  /** The fields of a keyboard event that the transport fills in. `code` is the name of a
      `keyboard_types::Code`; `modifiers` holds the bits of `keyboard_types::Modifiers`. */
  datatype KeyboardEvent = KeyboardEvent(
    state: KeyState, key: Key, code: string, location: Location,
    modifiers: u32, repeat: bool, isComposing: bool)

  /** `servo::MouseButton`, restricted to the three buttons the transport produces. */
  datatype MouseButton = LeftButton | MiddleButton | RightButton

  /** `servo::MouseButtonAction`. */
  datatype ButtonAction = Press | Release

  /** `servo::TouchEventType`. */
  datatype TouchEventType = TouchDown | TouchMove | TouchUp | TouchCancel

  /** `servo::InputEvent`, restricted to the variants the transport produces. */
  datatype InputEvent =
    | MouseMove(x: real, y: real)
    | MouseButtonEvent(action: ButtonAction, button: MouseButton, x: real, y: real)
    | Keyboard(event: KeyboardEvent)
    | Touch(kind: TouchEventType, id: int, x: real, y: real)

  /** `servo::Cursor`; `NoCursor` is the variant `None` of the source. */
  datatype Cursor =
    | NoCursor | Default | Pointer | ContextMenu | Help | Progress | Wait | Cell
    | Crosshair | Text | VerticalText | Alias | Copy | Move | NoDrop | NotAllowed
    | Grab | Grabbing | EResize | NResize | NeResize | NwResize | SResize | SeResize
    | SwResize | WResize | EwResize | NsResize | NeswResize | NwseResize | ColResize
    | RowResize | AllScroll | ZoomIn | ZoomOut

  /** `image::RgbaImage`: a width, a height and the pixel bytes, four per pixel. */
  datatype RgbaImage = RgbaImage(width: u32, height: u32, pixels: seq<u8>)

  /** A parsed URL, in the serialised form `Url::parse` returns. */
  type Url = string

  /** One call on the engine (`WebView` or `Servo` handle). */
  datatype Op =
    | Load(url: Url)
    | Reload
    | GoBack(steps: nat)
    | GoForward(steps: nat)
    | MoveResize(width: u32, height: u32)
    | Resize(width: u32, height: u32)
    | Input(event: InputEvent)
    | Scroll(dx: real, dy: real, anchorX: int, anchorY: int)
    | Deinit
}
