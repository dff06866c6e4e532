/**
 * The SDL keyboard edge tracker `SDLInput` (src/UniGraphics/backends/sdl/SDLInput.cpp):
 * three scancode bit sets, `currentDown`, `pressedThisFrame` and
 * `releasedThisFrame`, updated one SDL event at a time, and the total key
 * table `MapKey`.
 */
module SdlInput {
  import opened Common
  import opened Wrappers

  /** SDL_NUM_SCANCODES: the size of the three bit sets. */
  const SDL_NUM_SCANCODES: int := 512

  /** An index into the bit sets; the values are SDL2's `SDL_Scancode` numbers. */
  newtype Scancode = x: int | 0 <= x < SDL_NUM_SCANCODES

  const SDL_SCANCODE_UNKNOWN: Scancode := 0

  /**
   * The scancode table of `SDLInput::MapKey`: total, with `UNKNOWN` as the
   * fallback for `key_null` and for every key the table does not list.
   */
  function MapKey(key: Key): (sc: Scancode)
    ensures key == KeyNull || key == Unlisted ==> sc == SDL_SCANCODE_UNKNOWN
  {
    match key
    case KeyNull => 0  // SDL_SCANCODE_UNKNOWN
    case Apostrophe => 52  // SDL_SCANCODE_APOSTROPHE
    case Comma => 54  // SDL_SCANCODE_COMMA
    case Minus => 45  // SDL_SCANCODE_MINUS
    case Period => 55  // SDL_SCANCODE_PERIOD
    case Slash => 56  // SDL_SCANCODE_SLASH
    case Zero => 39  // SDL_SCANCODE_0
    case One => 30  // SDL_SCANCODE_1
    case Two => 31  // SDL_SCANCODE_2
    case Three => 32  // SDL_SCANCODE_3
    case Four => 33  // SDL_SCANCODE_4
    case Five => 34  // SDL_SCANCODE_5
    case Six => 35  // SDL_SCANCODE_6
    case Seven => 36  // SDL_SCANCODE_7
    case Eight => 37  // SDL_SCANCODE_8
    case Nine => 38  // SDL_SCANCODE_9
    case Semicolon => 51  // SDL_SCANCODE_SEMICOLON
    case Equal => 46  // SDL_SCANCODE_EQUALS
    case A => 4  // SDL_SCANCODE_A
    case B => 5  // SDL_SCANCODE_B
    case C => 6  // SDL_SCANCODE_C
    case D => 7  // SDL_SCANCODE_D
    case E => 8  // SDL_SCANCODE_E
    case F => 9  // SDL_SCANCODE_F
    case G => 10  // SDL_SCANCODE_G
    case H => 11  // SDL_SCANCODE_H
    case I => 12  // SDL_SCANCODE_I
    case J => 13  // SDL_SCANCODE_J
    case K => 14  // SDL_SCANCODE_K
    case L => 15  // SDL_SCANCODE_L
    case M => 16  // SDL_SCANCODE_M
    case N => 17  // SDL_SCANCODE_N
    case O => 18  // SDL_SCANCODE_O
    case P => 19  // SDL_SCANCODE_P
    case Q => 20  // SDL_SCANCODE_Q
    case R => 21  // SDL_SCANCODE_R
    case S => 22  // SDL_SCANCODE_S
    case T => 23  // SDL_SCANCODE_T
    case U => 24  // SDL_SCANCODE_U
    case V => 25  // SDL_SCANCODE_V
    case W => 26  // SDL_SCANCODE_W
    case X => 27  // SDL_SCANCODE_X
    case Y => 28  // SDL_SCANCODE_Y
    case Z => 29  // SDL_SCANCODE_Z
    case LeftBracket => 47  // SDL_SCANCODE_LEFTBRACKET
    case Backslash => 49  // SDL_SCANCODE_BACKSLASH
    case RightBracket => 48  // SDL_SCANCODE_RIGHTBRACKET
    case Grave => 53  // SDL_SCANCODE_GRAVE
    case Space => 44  // SDL_SCANCODE_SPACE
    case Escape => 41  // SDL_SCANCODE_ESCAPE
    case Enter => 40  // SDL_SCANCODE_RETURN
    case Tab => 43  // SDL_SCANCODE_TAB
    case Backspace => 42  // SDL_SCANCODE_BACKSPACE
    case Insert => 73  // SDL_SCANCODE_INSERT
    case Delete => 76  // SDL_SCANCODE_DELETE
    case Right => 79  // SDL_SCANCODE_RIGHT
    case Left => 80  // SDL_SCANCODE_LEFT
    case Down => 81  // SDL_SCANCODE_DOWN
    case Up => 82  // SDL_SCANCODE_UP
    case PageUp => 75  // SDL_SCANCODE_PAGEUP
    case PageDown => 78  // SDL_SCANCODE_PAGEDOWN
    case Home => 74  // SDL_SCANCODE_HOME
    case End => 77  // SDL_SCANCODE_END
    case CapsLock => 57  // SDL_SCANCODE_CAPSLOCK
    case ScrollLock => 71  // SDL_SCANCODE_SCROLLLOCK
    case NumLock => 83  // SDL_SCANCODE_NUMLOCKCLEAR
    case PrintScreen => 70  // SDL_SCANCODE_PRINTSCREEN
    case Pause => 72  // SDL_SCANCODE_PAUSE
    case F1 => 58  // SDL_SCANCODE_F1
    case F2 => 59  // SDL_SCANCODE_F2
    case F3 => 60  // SDL_SCANCODE_F3
    case F4 => 61  // SDL_SCANCODE_F4
    case F5 => 62  // SDL_SCANCODE_F5
    case F6 => 63  // SDL_SCANCODE_F6
    case F7 => 64  // SDL_SCANCODE_F7
    case F8 => 65  // SDL_SCANCODE_F8
    case F9 => 66  // SDL_SCANCODE_F9
    case F10 => 67  // SDL_SCANCODE_F10
    case F11 => 68  // SDL_SCANCODE_F11
    case F12 => 69  // SDL_SCANCODE_F12
    case LeftShift => 225  // SDL_SCANCODE_LSHIFT
    case LeftControl => 224  // SDL_SCANCODE_LCTRL
    case LeftAlt => 226  // SDL_SCANCODE_LALT
    case LeftSuper => 227  // SDL_SCANCODE_LGUI
    case RightShift => 229  // SDL_SCANCODE_RSHIFT
    case RightControl => 228  // SDL_SCANCODE_RCTRL
    case RightAlt => 230  // SDL_SCANCODE_RALT
    case RightSuper => 231  // SDL_SCANCODE_RGUI
    case Kp0 => 98  // SDL_SCANCODE_KP_0
    case Kp1 => 89  // SDL_SCANCODE_KP_1
    case Kp2 => 90  // SDL_SCANCODE_KP_2
    case Kp3 => 91  // SDL_SCANCODE_KP_3
    case Kp4 => 92  // SDL_SCANCODE_KP_4
    case Kp5 => 93  // SDL_SCANCODE_KP_5
    case Kp6 => 94  // SDL_SCANCODE_KP_6
    case Kp7 => 95  // SDL_SCANCODE_KP_7
    case Kp8 => 96  // SDL_SCANCODE_KP_8
    case Kp9 => 97  // SDL_SCANCODE_KP_9
    case KpDecimal => 99  // SDL_SCANCODE_KP_PERIOD
    case KpDivide => 84  // SDL_SCANCODE_KP_DIVIDE
    case KpMultiply => 85  // SDL_SCANCODE_KP_MULTIPLY
    case KpSubtract => 86  // SDL_SCANCODE_KP_MINUS
    case KpAdd => 87  // SDL_SCANCODE_KP_PLUS
    case KpEnter => 88  // SDL_SCANCODE_KP_ENTER
    case KpEqual => 103  // SDL_SCANCODE_KP_EQUALS
    case Back => 270  // SDL_SCANCODE_AC_BACK
    case VolumeUp => 128  // SDL_SCANCODE_VOLUMEUP
    case VolumeDown => 129  // SDL_SCANCODE_VOLUMEDOWN
    case Unlisted => 0  // SDL_SCANCODE_UNKNOWN
  }

  /** Keys that the table names explicitly (every key except `key_null` and the default branch). */
  predicate Listed(key: Key)
  {
    key != KeyNull && key != Unlisted
  }

  /** The key a listed scancode comes from; the inverse of `MapKey` on listed keys. */
  function KeyOf(sc: Scancode): Key
  {
    if sc == SDL_SCANCODE_UNKNOWN then KeyNull
    else if sc < 17 then KeyOfLettersAToM(sc)
    else if sc < 30 then KeyOfLettersNToZ(sc)
    else if sc < 44 then KeyOfDigitRow(sc)
    else if sc < 58 then KeyOfPunctuation(sc)
    else if sc < 70 then KeyOfFunctionKeys(sc)
    else if sc < 84 then KeyOfNavigation(sc)
    else if sc < 89 then KeyOfKeypadOperators(sc)
    else if sc < 94 then KeyOfKeypadLowDigits(sc)
    else if sc < 104 then KeyOfKeypadHighDigits(sc)
    else KeyOfOthers(sc)
  }

  function KeyOfLettersAToM(sc: Scancode): Key
  {
    if sc == 4 then A
    else if sc == 5 then B
    else if sc == 6 then C
    else if sc == 7 then D
    else if sc == 8 then E
    else if sc == 9 then F
    else if sc == 10 then G
    else if sc == 11 then H
    else if sc == 12 then I
    else if sc == 13 then J
    else if sc == 14 then K
    else if sc == 15 then L
    else if sc == 16 then M
    else Unlisted
  }

  function KeyOfLettersNToZ(sc: Scancode): Key
  {
    if sc == 17 then N
    else if sc == 18 then O
    else if sc == 19 then P
    else if sc == 20 then Q
    else if sc == 21 then R
    else if sc == 22 then S
    else if sc == 23 then T
    else if sc == 24 then U
    else if sc == 25 then V
    else if sc == 26 then W
    else if sc == 27 then X
    else if sc == 28 then Y
    else if sc == 29 then Z
    else Unlisted
  }

  function KeyOfDigitRow(sc: Scancode): Key
  {
    if sc == 30 then One
    else if sc == 31 then Two
    else if sc == 32 then Three
    else if sc == 33 then Four
    else if sc == 34 then Five
    else if sc == 35 then Six
    else if sc == 36 then Seven
    else if sc == 37 then Eight
    else if sc == 38 then Nine
    else if sc == 39 then Zero
    else if sc == 40 then Enter
    else if sc == 41 then Escape
    else if sc == 42 then Backspace
    else if sc == 43 then Tab
    else Unlisted
  }

  function KeyOfPunctuation(sc: Scancode): Key
  {
    if sc == 44 then Space
    else if sc == 45 then Minus
    else if sc == 46 then Equal
    else if sc == 47 then LeftBracket
    else if sc == 48 then RightBracket
    else if sc == 49 then Backslash
    else if sc == 51 then Semicolon
    else if sc == 52 then Apostrophe
    else if sc == 53 then Grave
    else if sc == 54 then Comma
    else if sc == 55 then Period
    else if sc == 56 then Slash
    else if sc == 57 then CapsLock
    else Unlisted
  }

  function KeyOfFunctionKeys(sc: Scancode): Key
  {
    if sc == 58 then F1
    else if sc == 59 then F2
    else if sc == 60 then F3
    else if sc == 61 then F4
    else if sc == 62 then F5
    else if sc == 63 then F6
    else if sc == 64 then F7
    else if sc == 65 then F8
    else if sc == 66 then F9
    else if sc == 67 then F10
    else if sc == 68 then F11
    else if sc == 69 then F12
    else Unlisted
  }

  function KeyOfNavigation(sc: Scancode): Key
  {
    if sc == 70 then PrintScreen
    else if sc == 71 then ScrollLock
    else if sc == 72 then Pause
    else if sc == 73 then Insert
    else if sc == 74 then Home
    else if sc == 75 then PageUp
    else if sc == 76 then Delete
    else if sc == 77 then End
    else if sc == 78 then PageDown
    else if sc == 79 then Right
    else if sc == 80 then Left
    else if sc == 81 then Down
    else if sc == 82 then Up
    else if sc == 83 then NumLock
    else Unlisted
  }

  function KeyOfKeypadOperators(sc: Scancode): Key
  {
    if sc == 84 then KpDivide
    else if sc == 85 then KpMultiply
    else if sc == 86 then KpSubtract
    else if sc == 87 then KpAdd
    else if sc == 88 then KpEnter
    else Unlisted
  }

  function KeyOfKeypadLowDigits(sc: Scancode): Key
  {
    if sc == 89 then Kp1
    else if sc == 90 then Kp2
    else if sc == 91 then Kp3
    else if sc == 92 then Kp4
    else if sc == 93 then Kp5
    else Unlisted
  }

  function KeyOfKeypadHighDigits(sc: Scancode): Key
  {
    if sc == 94 then Kp6
    else if sc == 95 then Kp7
    else if sc == 96 then Kp8
    else if sc == 97 then Kp9
    else if sc == 98 then Kp0
    else if sc == 99 then KpDecimal
    else if sc == 103 then KpEqual
    else Unlisted
  }

  function KeyOfOthers(sc: Scancode): Key
  {
    if sc == 128 then VolumeUp
    else if sc == 129 then VolumeDown
    else if sc == 224 then LeftControl
    else if sc == 225 then LeftShift
    else if sc == 226 then LeftAlt
    else if sc == 227 then LeftSuper
    else if sc == 228 then RightControl
    else if sc == 229 then RightShift
    else if sc == 230 then RightAlt
    else if sc == 231 then RightSuper
    else if sc == 270 then Back
    else Unlisted
  }

  /** `MapKey` followed by `KeyOf` gives back every listed key. */
  lemma KeyOfMapKey(key: Key)
    requires Listed(key)
    ensures KeyOf(MapKey(key)) == key
  {
    if IsLettersAToM(key) {
      LettersAToMRoundTrip(key);
    } else if IsLettersNToZ(key) {
      LettersNToZRoundTrip(key);
    } else if IsDigitRow(key) {
      DigitRowRoundTrip(key);
    } else if IsPunctuation(key) {
      PunctuationRoundTrip(key);
    } else if IsFunctionKeys(key) {
      FunctionKeysRoundTrip(key);
    } else if IsNavigation(key) {
      NavigationRoundTrip(key);
    } else if IsKeypadOperators(key) {
      KeypadOperatorsRoundTrip(key);
    } else if IsKeypadLowDigits(key) {
      KeypadLowDigitsRoundTrip(key);
    } else if IsKeypadHighDigits(key) {
      KeypadHighDigitsRoundTrip(key);
    } else if IsKeypadMarks(key) {
      KeypadMarksRoundTrip(key);
    } else if IsOthers(key) {
      OthersRoundTrip(key);
    } else {
      assert false;
    }
  }

  /** The letter keys A to M. */
  predicate IsLettersAToM(key: Key)
  {
    key.A? || key.B? || key.C? || key.D? || key.E? || key.F? || key.G? || key.H? || key.I? || key.J? || key.K? || key.L? || key.M?
  }

  lemma LettersAToMRoundTrip(key: Key)
    requires IsLettersAToM(key)
    ensures KeyOf(MapKey(key)) == key
  {
    match key
    case A =>
    case B =>
    case C =>
    case D =>
    case E =>
    case F =>
    case G =>
    case H =>
    case I =>
    case J =>
    case K =>
    case L =>
    case M =>
    case _ => assert false;
  }

  /** The letter keys N to Z. */
  predicate IsLettersNToZ(key: Key)
  {
    key.N? || key.O? || key.P? || key.Q? || key.R? || key.S? || key.T? || key.U? || key.V? || key.W? || key.X? || key.Y? || key.Z?
  }

  lemma LettersNToZRoundTrip(key: Key)
    requires IsLettersNToZ(key)
    ensures KeyOf(MapKey(key)) == key
  {
    match key
    case N =>
    case O =>
    case P =>
    case Q =>
    case R =>
    case S =>
    case T =>
    case U =>
    case V =>
    case W =>
    case X =>
    case Y =>
    case Z =>
    case _ => assert false;
  }

  /** The digit-row keys with Enter, Escape, Backspace and Tab. */
  predicate IsDigitRow(key: Key)
  {
    key.Zero? || key.One? || key.Two? || key.Three? || key.Four? || key.Five? || key.Six? || key.Seven? || key.Eight? || key.Nine? || key.Escape? || key.Enter? || key.Tab? || key.Backspace?
  }

  lemma DigitRowRoundTrip(key: Key)
    requires IsDigitRow(key)
    ensures KeyOf(MapKey(key)) == key
  {
    match key
    case Zero =>
    case One =>
    case Two =>
    case Three =>
    case Four =>
    case Five =>
    case Six =>
    case Seven =>
    case Eight =>
    case Nine =>
    case Escape =>
    case Enter =>
    case Tab =>
    case Backspace =>
    case _ => assert false;
  }

  /** The punctuation keys with Space and Caps Lock. */
  predicate IsPunctuation(key: Key)
  {
    key.Apostrophe? || key.Comma? || key.Minus? || key.Period? || key.Slash? || key.Semicolon? || key.Equal? || key.LeftBracket? || key.Backslash? || key.RightBracket? || key.Grave? || key.Space? || key.CapsLock?
  }

  lemma PunctuationRoundTrip(key: Key)
    requires IsPunctuation(key)
    ensures KeyOf(MapKey(key)) == key
  {
    match key
    case Apostrophe =>
    case Comma =>
    case Minus =>
    case Period =>
    case Slash =>
    case Semicolon =>
    case Equal =>
    case LeftBracket =>
    case Backslash =>
    case RightBracket =>
    case Grave =>
    case Space =>
    case CapsLock =>
    case _ => assert false;
  }

  /** The function keys F1 to F12. */
  predicate IsFunctionKeys(key: Key)
  {
    key.F1? || key.F2? || key.F3? || key.F4? || key.F5? || key.F6? || key.F7? || key.F8? || key.F9? || key.F10? || key.F11? || key.F12?
  }

  lemma FunctionKeysRoundTrip(key: Key)
    requires IsFunctionKeys(key)
    ensures KeyOf(MapKey(key)) == key
  {
    match key
    case F1 =>
    case F2 =>
    case F3 =>
    case F4 =>
    case F5 =>
    case F6 =>
    case F7 =>
    case F8 =>
    case F9 =>
    case F10 =>
    case F11 =>
    case F12 =>
    case _ => assert false;
  }

  /** The editing and navigation keys. */
  predicate IsNavigation(key: Key)
  {
    key.Insert? || key.Delete? || key.Right? || key.Left? || key.Down? || key.Up? || key.PageUp? || key.PageDown? || key.Home? || key.End? || key.ScrollLock? || key.NumLock? || key.PrintScreen? || key.Pause?
  }

  lemma NavigationRoundTrip(key: Key)
    requires IsNavigation(key)
    ensures KeyOf(MapKey(key)) == key
  {
    match key
    case Insert =>
    case Delete =>
    case Right =>
    case Left =>
    case Down =>
    case Up =>
    case PageUp =>
    case PageDown =>
    case Home =>
    case End =>
    case ScrollLock =>
    case NumLock =>
    case PrintScreen =>
    case Pause =>
    case _ => assert false;
  }

  /** The keypad operator keys. */
  predicate IsKeypadOperators(key: Key)
  {
    key.KpDivide? || key.KpMultiply? || key.KpSubtract? || key.KpAdd? || key.KpEnter?
  }

  lemma KeypadOperatorsRoundTrip(key: Key)
    requires IsKeypadOperators(key)
    ensures KeyOf(MapKey(key)) == key
  {
    match key
    case KpDivide =>
    case KpMultiply =>
    case KpSubtract =>
    case KpAdd =>
    case KpEnter =>
    case _ => assert false;
  }

  /** The keypad digits 1 to 5. */
  predicate IsKeypadLowDigits(key: Key)
  {
    key.Kp1? || key.Kp2? || key.Kp3? || key.Kp4? || key.Kp5?
  }

  lemma KeypadLowDigitsRoundTrip(key: Key)
    requires IsKeypadLowDigits(key)
    ensures KeyOf(MapKey(key)) == key
  {
    match key
    case Kp1 =>
    case Kp2 =>
    case Kp3 =>
    case Kp4 =>
    case Kp5 =>
    case _ => assert false;
  }

  /** The keypad digits 6 to 9 and 0. */
  predicate IsKeypadHighDigits(key: Key)
  {
    key.Kp0? || key.Kp6? || key.Kp7? || key.Kp8? || key.Kp9?
  }

  lemma KeypadHighDigitsRoundTrip(key: Key)
    requires IsKeypadHighDigits(key)
    ensures KeyOf(MapKey(key)) == key
  {
    match key
    case Kp0 =>
    case Kp6 =>
    case Kp7 =>
    case Kp8 =>
    case Kp9 =>
    case _ => assert false;
  }

  /** The keypad decimal point and equals sign. */
  predicate IsKeypadMarks(key: Key)
  {
    key.KpDecimal? || key.KpEqual?
  }

  lemma KeypadMarksRoundTrip(key: Key)
    requires IsKeypadMarks(key)
    ensures KeyOf(MapKey(key)) == key
  {
    match key
    case KpDecimal =>
    case KpEqual =>
    case _ => assert false;
  }

  /** The modifier and media keys. */
  predicate IsOthers(key: Key)
  {
    key.LeftShift? || key.LeftControl? || key.LeftAlt? || key.LeftSuper? || key.RightShift? || key.RightControl? || key.RightAlt? || key.RightSuper? || key.Back? || key.VolumeUp? || key.VolumeDown?
  }

  lemma OthersRoundTrip(key: Key)
    requires IsOthers(key)
    ensures KeyOf(MapKey(key)) == key
  {
    match key
    case LeftShift =>
    case LeftControl =>
    case LeftAlt =>
    case LeftSuper =>
    case RightShift =>
    case RightControl =>
    case RightAlt =>
    case RightSuper =>
    case Back =>
    case VolumeUp =>
    case VolumeDown =>
    case _ => assert false;
  }

  /**
   * Exactly the keys outside the table map to `SDL_SCANCODE_UNKNOWN`: the
   * fallback of `MapKey`, and no listed key shares its value.
   */
  lemma MapKeyUnknownIffUnlisted(key: Key)
    ensures MapKey(key) == SDL_SCANCODE_UNKNOWN <==> !Listed(key)
  {
    if Listed(key) {
      KeyOfMapKey(key);
    }
  }

  /** Listed keys map to pairwise distinct scancodes. */
  lemma MapKeyInjective(k1: Key, k2: Key)
    requires Listed(k1) && Listed(k2) && MapKey(k1) == MapKey(k2)
    ensures k1 == k2
  {
    KeyOfMapKey(k1);
    KeyOfMapKey(k2);
  }

  /** An SDL event, as far as the tracker and the window look at it. */
  datatype Event =
    | KeyDown(scancode: Scancode, repeat: bool)
    | KeyUp(scancode: Scancode)
    | Quit
    | OtherEvent

  /** The three bit sets as sets of scancodes. */
  datatype KeyState = KeyState(down: set<Scancode>, pressed: set<Scancode>, released: set<Scancode>)

  const Initial := KeyState({}, {}, {})

  /**
   * The tracker's invariant: a key just pressed is down, a key just released
   * is up, and at most one edge is recorded at a time.
   */
  predicate Consistent(s: KeyState)
  {
    s.pressed <= s.down && s.released !! s.down && |s.pressed + s.released| <= 1
  }

  /** The scancodes an event carries (none for QUIT and other events). */
  function EventKeys(e: Event): set<Scancode>
  {
    if e.KeyDown? || e.KeyUp? then {e.scancode} else {}
  }

  /**
   * One `ProcessEvents` call: both edge sets are emptied first, then the event
   * is applied. A repeat KEYDOWN or a KEYDOWN for a key already down leaves no
   * edge; KEYUP always records a release, whether or not the key was down.
   */
  function Step(s: KeyState, e: Event): (r: KeyState)
    ensures Consistent(r)
    ensures r.pressed + r.released <= EventKeys(e)
    ensures forall sc :: sc !in EventKeys(e) ==> (sc in r.down <==> sc in s.down)
    ensures r.pressed != {} <==> e.KeyDown? && !e.repeat && e.scancode !in s.down
    ensures r.released != {} <==> e.KeyUp?
  {
    match e
    case KeyDown(sc, repeat) =>
      if !repeat && sc !in s.down then KeyState(s.down + {sc}, {sc}, {})
      else KeyState(s.down, {}, {})
    case KeyUp(sc) => KeyState(s.down - {sc}, {}, {sc})
    case _ => KeyState(s.down, {}, {})
  }

  /** The tracker after a sequence of `ProcessEvents` calls, in order. */
  function Run(s: KeyState, events: seq<Event>): (r: KeyState)
    ensures events == [] ==> r == s
    ensures events != [] ==> Consistent(r) && r.pressed + r.released <= EventKeys(events[|events| - 1])
    decreases |events|
  {
    if events == [] then s
    else Step(Run(s, events[..|events| - 1]), events[|events| - 1])
  }

  /** Running one more event of `events` is one more `Step`. */
  lemma RunExtend(s: KeyState, events: seq<Event>, i: nat)
    requires i < |events|
    ensures Run(s, events[..i + 1]) == Step(Run(s, events[..i]), events[i])
  {
    assert events[..i + 1][..i] == events[..i];
  }

  /**
   * The last down/up transition of `sc` in `events`: `Some(true)` for a
   * non-repeat KEYDOWN, `Some(false)` for a KEYUP, `None` when there is none.
   */
  function LastTransition(sc: Scancode, events: seq<Event>): Option<bool>
    decreases |events|
  {
    if events == [] then None
    else
      var e := events[|events| - 1];
      if e == KeyUp(sc) then Some(false)
      else if e == KeyDown(sc, false) then Some(true)
      else LastTransition(sc, events[..|events| - 1])
  }

  /** A key is down after a run iff its last transition was a press, or it was down before and had none. */
  lemma {:induction false} DownAfterRun(s: KeyState, events: seq<Event>, sc: Scancode)
    ensures sc in Run(s, events).down <==>
              match LastTransition(sc, events)
              case None => sc in s.down
              case Some(isDown) => isDown
    decreases |events|
  {
    if events != [] {
      DownAfterRun(s, events[..|events| - 1], sc);
    }
  }

  /**
   * Only the last event of a run leaves an edge: a key is pressed after the run
   * iff the last event is its non-repeat KEYDOWN and it was up before that event.
   */
  lemma {:induction false} PressedAfterRun(s: KeyState, events: seq<Event>, sc: Scancode)
    requires events != []
    ensures sc in Run(s, events).pressed <==>
              events[|events| - 1] == KeyDown(sc, false) && sc !in Run(s, events[..|events| - 1]).down
  {
  }

  /** A press is lost from `pressed` as soon as any further event is processed in the same poll. */
  lemma {:induction false} PressLostByLaterEvent(s: KeyState, events: seq<Event>, sc: Scancode, e: Event)
    ensures sc !in Run(s, events + [KeyDown(sc, false), e]).pressed
  {
    var before := events + [KeyDown(sc, false)];
    assert (events + [KeyDown(sc, false), e])[..|before|] == before;
    assert before[..|events|] == events;
    assert sc in Run(s, before).down;
  }

  /**
   * A press, two repeats and a release, one event per frame: pressed only in
   * the frame of the first KEYDOWN, down through the repeats, released only in
   * the frame of the KEYUP.
   */
  lemma EdgeScenario(sc: Scancode)
    ensures var f1 := Step(Initial, KeyDown(sc, false));
            var f2 := Step(f1, KeyDown(sc, true));
            var f3 := Step(f2, KeyDown(sc, true));
            var f4 := Step(f3, KeyUp(sc));
            sc in f1.pressed && sc in f1.down && sc !in f1.released &&
            sc !in f2.pressed && sc in f2.down && sc !in f2.released &&
            sc !in f3.pressed && sc in f3.down && sc !in f3.released &&
            sc !in f4.pressed && sc !in f4.down && sc in f4.released
  {
  }

  /** The input object: the three bit sets and the last event seen (`m_LastEvent`). */
  class SDLInput {
    var currentDown: set<Scancode>
    var pressedThisFrame: set<Scancode>
    var releasedThisFrame: set<Scancode>
    var lastEvent: Option<Event>

    function State(): KeyState
      reads this
    {
      KeyState(currentDown, pressedThisFrame, releasedThisFrame)
    }

    ghost predicate Valid()
      reads this
    {
      Consistent(State())
    }

    /** All three bit sets start cleared. */
    constructor ()
      ensures Valid() && State() == Initial && lastEvent == None
    {
      currentDown, pressedThisFrame, releasedThisFrame := {}, {}, {};
      lastEvent := None;
    }

    /** `ProcessEvents` handles a single event: reset the edges, record the event, apply it. */
    method ProcessEvents(e: Event)
      modifies this
      ensures Valid()
      ensures State() == Step(old(State()), e)
      ensures lastEvent == Some(e)
    {
      pressedThisFrame := {};
      releasedThisFrame := {};
      lastEvent := Some(e);
      match e {
        case KeyDown(sc, repeat) =>
          if !repeat {
            if sc !in currentDown {
              currentDown := currentDown + {sc};
              pressedThisFrame := pressedThisFrame + {sc};
            }
          }
        case KeyUp(sc) =>
          currentDown := currentDown - {sc};
          releasedThisFrame := releasedThisFrame + {sc};
        case _ =>
      }
    }

    /** `GetHandle` exposes the last event processed. */
    function GetHandle(): Option<Event>
      reads this
    {
      lastEvent
    }

    /** A key read as down is never read as released in the same frame. */
    function IsKeyDown(key: Key): (r: bool)
      reads this
      ensures Valid() && r ==> MapKey(key) !in releasedThisFrame
    {
      MapKey(key) in currentDown
    }

    /** A key reported as pressed is also reported as down. */
    function IsKeyPressed(key: Key): (r: bool)
      reads this
      requires Valid()
      ensures r ==> IsKeyDown(key)
    {
      MapKey(key) in pressedThisFrame
    }

    /** A key reported as released is reported as up. */
    function IsKeyReleased(key: Key): (r: bool)
      reads this
      requires Valid()
      ensures r ==> IsKeyUp(key)
    {
      MapKey(key) in releasedThisFrame
    }

    function IsKeyUp(key: Key): (r: bool)
      reads this
      ensures r == !IsKeyDown(key)
    {
      MapKey(key) !in currentDown
    }
  }

  /**
   * `key_null` and every unlisted key share the `UNKNOWN` bit, so they all read
   * as down once an event with scancode `UNKNOWN` has been pressed.
   */
  lemma UnlistedKeysShareUnknownBit(input: SDLInput, key: Key)
    requires !Listed(key)
    ensures input.IsKeyDown(key) <==> SDL_SCANCODE_UNKNOWN in input.currentDown
  {
  }
}
