/** The Win32 input vocabulary shared by the keyboard and the mouse halves of
    the Windows back end: the flag constants it passes to keybd_event and
    mouse_event, the events those two calls inject, and the Python errors
    the back end can raise. */
module Win32Input {

  // Flags for mouse_event.
  const MOUSEEVENTF_MOVE := 0x0001
  const MOUSEEVENTF_LEFTDOWN := 0x0002
  const MOUSEEVENTF_LEFTUP := 0x0004
  const MOUSEEVENTF_LEFTCLICK := MOUSEEVENTF_LEFTDOWN + MOUSEEVENTF_LEFTUP
  const MOUSEEVENTF_RIGHTDOWN := 0x0008
  const MOUSEEVENTF_RIGHTUP := 0x0010
  const MOUSEEVENTF_RIGHTCLICK := MOUSEEVENTF_RIGHTDOWN + MOUSEEVENTF_RIGHTUP
  const MOUSEEVENTF_MIDDLEDOWN := 0x0020
  const MOUSEEVENTF_MIDDLEUP := 0x0040
  const MOUSEEVENTF_MIDDLECLICK := MOUSEEVENTF_MIDDLEDOWN + MOUSEEVENTF_MIDDLEUP
  const MOUSEEVENTF_ABSOLUTE := 0x8000
  const MOUSEEVENTF_WHEEL := 0x0800
  const MOUSEEVENTF_HWHEEL := 0x01000

  // Flags for keybd_event: the absence of KEYEVENTF_KEYUP means "key down".
  const KEYEVENTF_KEYDOWN := 0x0000
  const KEYEVENTF_KEYUP := 0x0002

  // Virtual-key codes of the three modifiers the composer presses.
  const VK_SHIFT := 0x10
  const VK_CONTROL := 0x11
  const VK_MENU := 0x12

  /** One call into the operating system's input queue. A keyboard event
      is keybd_event(bVk, 0, dwFlags, 0); a mouse event is
      mouse_event(dwFlags, dx, dy, dwData, 0). */
  datatype Input =
    | KeybdEvent(bVk: int, dwFlags: int)
    | MouseEvent(dwFlags: int, dx: int, dy: int, dwData: int)

  /** A Python value that may be `None`. */
  datatype Option<+T> = None | Some(value: T)

  /** The Python exceptions the back end lets escape to its caller. */
  datatype PyError = ValueError | AssertionError | ZeroDivisionError

  /** A value or the exception that took its place. */
  datatype Result<+T> = Ok(value: T) | Err(error: PyError)

  /** The events a call injects when its outcome is `r`: the event itself,
      or nothing when an exception was raised before the injection. */
  function Emitted(r: Result<Input>): (es: seq<Input>)
    ensures |es| <= 1 && (es == [] <==> r.Err?)
  {
    if r.Ok? then [r.value] else []
  }

  /** The exception a call with outcome `r` raises, if any. */
  function Raised<T>(r: Result<T>): (e: Option<PyError>)
    ensures e.Some? <==> r.Err?
  {
    if r.Err? then Some(r.error) else None
  }

  /** Python's `value & bit` for a one-bit mask `bit`, read as a truth
      value: the remainder below the next bit up reaches `bit`. Python's
      `&` treats a negative number as its infinite two's complement, which
      for a positive mask is this Euclidean reading; the contract is the
      other reading of a bit, the parity of the quotient by `bit`. */
  function HasBit(value: int, bit: int): (on: bool)
    requires bit > 0
    ensures on <==> (value / bit) % 2 == 1
  {
    MaskReading(value, bit);
    value % (2 * bit) >= bit
  }

  /** The quotient by `bit` is odd exactly when the remainder by `2 * bit`
      is at least `bit`. */
  lemma MaskReading(value: int, bit: int)
    requires bit > 0
    ensures (value / bit) % 2 == 1 <==> value % (2 * bit) >= bit
  {
    var q, r := value / (2 * bit), value % (2 * bit);
    assert value == (2 * q) * bit + r;
    if r >= bit {
      QuotientOf(value, 2 * q + 1, r - bit, bit);
    } else {
      QuotientOf(value, 2 * q, r, bit);
    }
  }

  /** Division is determined by any quotient and remainder that fit. */
  lemma QuotientOf(value: int, a: int, s: int, bit: int)
    requires bit > 0 && 0 <= s < bit && value == a * bit + s
    ensures value / bit == a
  {
    var d, m := value / bit, value % bit;
    assert (d - a) * bit == s - m;
    // Each case where the two quotients differ is refuted by |s - m| < bit.
    if d - a >= 1 {
    } else if d - a <= -1 {
    }
  }

  /** A key-down event for `vk`. */
  function Press(vk: int): Input {
    KeybdEvent(vk, KEYEVENTF_KEYDOWN)
  }

  /** A key-up event for `vk`. */
  function Release(vk: int): Input {
    KeybdEvent(vk, KEYEVENTF_KEYUP)
  }
}
