/**
 * Backend-neutral value types shared by every backend: the `Key` enumeration,
 * the `WindowFlags` bit set and the `BackendType` kinds.
 */
module Common {
  /**
   * Physical keys. `Unlisted` stands for every enumerator that the SDL key
   * table does not name (it falls into that table's default branch).
   */
  datatype Key =
    | KeyNull | Apostrophe | Comma | Minus | Period | Slash
    | Zero | One | Two | Three | Four | Five | Six | Seven | Eight | Nine
    | Semicolon | Equal
    | A | B | C | D | E | F | G | H | I | J | K | L | M
    | N | O | P | Q | R | S | T | U | V | W | X | Y | Z
    | LeftBracket | Backslash | RightBracket | Grave
    | Space | Escape | Enter | Tab | Backspace | Insert | Delete
    | Right | Left | Down | Up | PageUp | PageDown | Home | End
    | CapsLock | ScrollLock | NumLock | PrintScreen | Pause
    | F1 | F2 | F3 | F4 | F5 | F6 | F7 | F8 | F9 | F10 | F11 | F12
    | LeftShift | LeftControl | LeftAlt | LeftSuper
    | RightShift | RightControl | RightAlt | RightSuper
    | Kp0 | Kp1 | Kp2 | Kp3 | Kp4 | Kp5 | Kp6 | Kp7 | Kp8 | Kp9
    | KpDecimal | KpDivide | KpMultiply | KpSubtract | KpAdd | KpEnter | KpEqual
    | Back | VolumeUp | VolumeDown
    | Unlisted

  /** The six orthogonal window options of the `WindowFlags` bit mask. */
  datatype WindowFlags = WindowFlags(
    fullscreen: bool,
    borderless: bool,
    resizable: bool,
    vsync: bool,
    hidden: bool,
    alwaysOnTop: bool)

  const NoFlags := WindowFlags(false, false, false, false, false, false)

  /** `flags | other` on the bit mask: each option is set when it is set in either operand. */
  function Union(f: WindowFlags, g: WindowFlags): WindowFlags
  {
    WindowFlags(f.fullscreen || g.fullscreen, f.borderless || g.borderless,
                f.resizable || g.resizable, f.vsync || g.vsync,
                f.hidden || g.hidden, f.alwaysOnTop || g.alwaysOnTop)
  }

  datatype BackendType = SDL | Raylib | OpenGL | Software

  /**
   * A 32-bit float, kept as its bit pattern: the layer above the native
   * libraries only copies coordinates, it never computes with them here.
   */
  type Float = bv32

  type Byte = bv8

  datatype Vector2 = Vector2(x: Float, y: Float)
  datatype Vector3 = Vector3(x: Float, y: Float, z: Float)
  datatype Color = Color(r: Byte, g: Byte, b: Byte, a: Byte)
  datatype Rectangle = Rectangle(x: Float, y: Float, width: Float, height: Float)

  /** The value handles the renderer hands out: a manager handle plus cached size. */
  datatype Texture = Texture(id: int, width: int, height: int)
  datatype Font = Font(id: int)
}
