/** Output events and the static configuration of the translator.
    The keyboard and mouse controllers of the program are replaced by a trace:
    every call the program would make on them is appended as one `Output`. */
module Events {

  /** A keyboard key as the program names it ("a", "d", ...). */
  type Key = string

  /** The mouse buttons the configuration can name. */
  datatype MouseButton = Left | Middle | Right

  /** One call on the keyboard or mouse controller. */
  datatype Output =
    | KeyPress(key: Key)
    | KeyRelease(key: Key)
    | MouseMove(x: int, y: int)
    | MousePress(button: MouseButton)
    | MouseRelease(button: MouseButton)

  /** The two keys of an axis: `negative` for values below zero, `positive` otherwise. */
  datatype KeyPair = KeyPair(negative: Key, positive: Key)

  /** An axis driven as a PWM key channel. */
  datatype PwmMapping = PwmMapping(axis: string, keys: KeyPair)

  /** An axis added, times `gain`, into the mouse accumulator named by `target`
      ("mouse_x" or "mouse_y"; any other target is ignored). */
  datatype MouseMapping = MouseMapping(axis: string, target: string, gain: real)

  /** A joystick button passed through to a mouse button. */
  datatype ButtonMapping = ButtonMapping(button: string, mouseButton: MouseButton)

  const MouseX: string := "mouse_x"
  const MouseY: string := "mouse_y"

  /** Frequency of key pressing (Hz), deadzone and the three mapping tables,
      each in the iteration order of the program's dictionaries. */
  datatype Config = Config(
    freq: real,
    deadzone: real,
    pwm: seq<PwmMapping>,
    mouse: seq<MouseMapping>,
    buttons: seq<ButtonMapping>)

  /** The configuration the program ships with. */
  const Default: Config := Config(
    10.0,
    0.150,
    [PwmMapping("x", KeyPair("a", "d")), PwmMapping("y", KeyPair("w", "s"))],
    [MouseMapping("rx", MouseX, 0.5), MouseMapping("ry", MouseY, 0.5)],
    [ButtonMapping("tr2", Left), ButtonMapping("tl2", Right)])

  function Abs(r: real): (a: real)
    ensures a >= 0.0 && (a == r || a == -r)
  {
    if r < 0.0 then -r else r
  }

  /** The PWM period: one over the frequency. */
  function Period(cfg: Config): (t: real)
    requires cfg.freq > 0.0
    ensures t > 0.0 && t * cfg.freq == 1.0
  {
    1.0 / cfg.freq
  }
}
