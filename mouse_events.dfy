/** The integer rules of the Windows back end's mouse half: which
    mouse_event flag a button and an action select, how a screen coordinate
    is scaled into the absolute range, and how `_scroll` pulls its
    coordinates onto the screen. */
module MouseEvents {
  import opened Win32Input

  // The three button names the package accepts.
  const LEFT := "left"
  const MIDDLE := "middle"
  const RIGHT := "right"

  /** The flag `_mouseDown` sends for `button`; any other name raises
      ValueError. */
  function ButtonDownFlag(button: string): (r: Result<int>)
    ensures r.Ok? <==> button in {LEFT, MIDDLE, RIGHT}
    ensures r.Err? ==> r.error == ValueError
  {
    if button !in {LEFT, MIDDLE, RIGHT} then Err(ValueError)
    else if button == LEFT then Ok(MOUSEEVENTF_LEFTDOWN)
    else if button == MIDDLE then Ok(MOUSEEVENTF_MIDDLEDOWN)
    else Ok(MOUSEEVENTF_RIGHTDOWN)
  }

  /** The flag `_mouseUp` sends for `button`; any other name raises
      ValueError. */
  function ButtonUpFlag(button: string): (r: Result<int>)
    ensures r.Ok? <==> button in {LEFT, MIDDLE, RIGHT}
    ensures r.Err? ==> r.error == ValueError
  {
    if button !in {LEFT, MIDDLE, RIGHT} then Err(ValueError)
    else if button == LEFT then Ok(MOUSEEVENTF_LEFTUP)
    else if button == MIDDLE then Ok(MOUSEEVENTF_MIDDLEUP)
    else Ok(MOUSEEVENTF_RIGHTUP)
  }

  /** The flag `_click` sends for `button`; any other name raises
      ValueError. */
  function ButtonClickFlag(button: string): (r: Result<int>)
    ensures r.Ok? <==> button in {LEFT, MIDDLE, RIGHT}
    ensures r.Err? ==> r.error == ValueError
  {
    if button !in {LEFT, MIDDLE, RIGHT} then Err(ValueError)
    else if button == LEFT then Ok(MOUSEEVENTF_LEFTCLICK)
    else if button == MIDDLE then Ok(MOUSEEVENTF_MIDDLECLICK)
    else Ok(MOUSEEVENTF_RIGHTCLICK)
  }

  /** A click is a press and a release in one call: its flag is the sum of
      the button's down and up flags, two different single bits, so the sum
      sets both and nothing else of the six button bits. */
  lemma ClickIsDownPlusUp(button: string)
    requires button in {LEFT, MIDDLE, RIGHT}
    ensures ButtonClickFlag(button).value == ButtonDownFlag(button).value + ButtonUpFlag(button).value
    ensures forall bit :: bit in {0x02, 0x04, 0x08, 0x10, 0x20, 0x40} ==>
      (HasBit(ButtonClickFlag(button).value, bit) <==>
        bit == ButtonDownFlag(button).value || bit == ButtonUpFlag(button).value)
  {
  }

  /** The nine flags the three button functions select: LEFT, MIDDLE and
      RIGHT take the left, middle and right flag of each action. */
  lemma ButtonFlagValues()
    ensures ButtonDownFlag(LEFT) == Ok(0x02) && ButtonUpFlag(LEFT) == Ok(0x04) && ButtonClickFlag(LEFT) == Ok(0x06)
    ensures ButtonDownFlag(MIDDLE) == Ok(0x20) && ButtonUpFlag(MIDDLE) == Ok(0x40) && ButtonClickFlag(MIDDLE) == Ok(0x60)
    ensures ButtonDownFlag(RIGHT) == Ok(0x08) && ButtonUpFlag(RIGHT) == Ok(0x10) && ButtonClickFlag(RIGHT) == Ok(0x18)
  {
    assert LEFT != MIDDLE && LEFT != RIGHT && MIDDLE != RIGHT;
  }

  /** No two buttons share a flag, and no down flag is an up flag. */
  lemma FlagsTellButtonsApart(b1: string, b2: string)
    requires b1 in {LEFT, MIDDLE, RIGHT} && b2 in {LEFT, MIDDLE, RIGHT}
    ensures ButtonDownFlag(b1) == ButtonDownFlag(b2) ==> b1 == b2
    ensures ButtonUpFlag(b1) == ButtonUpFlag(b2) ==> b1 == b2
    ensures ButtonClickFlag(b1) == ButtonClickFlag(b2) ==> b1 == b2
    ensures ButtonDownFlag(b1) != ButtonUpFlag(b2)
  {
  }

  /** Python's `a // b`: the floor of the quotient, for either sign of `b`. */
  function FloorDiv(a: int, b: int): (q: int)
    requires b != 0
    ensures b > 0 ==> q * b <= a < q * b + b
    ensures b < 0 ==> q * b >= a > q * b + b
  {
    if b > 0 then a / b else (-a) / (-b)
  }

  /** `65536 * c // extent + 1`, the scaling `_sendMouseEvent` applies to a
      coordinate; a zero extent raises ZeroDivisionError. */
  function Normalized(c: int, extent: int): (r: Result<int>)
    ensures r.Err? <==> extent == 0
    ensures r.Err? ==> r.error == ZeroDivisionError
    ensures extent > 0 ==> (r.value - 1) * extent <= 0x10000 * c < r.value * extent
  {
    if extent == 0 then Err(ZeroDivisionError) else Ok(FloorDiv(0x10000 * c, extent) + 1)
  }

  /** For a positive extent, a coordinate further right (or down) never
      scales to a smaller value. */
  lemma NormalizedMonotonic(c1: int, c2: int, extent: int)
    requires extent > 0 && c1 <= c2
    ensures Normalized(c1, extent).value <= Normalized(c2, extent).value
  {
  }

  /** A coordinate on the screen scales into [1, 65536]; the left (top)
      edge scales to exactly 1. */
  lemma NormalizedOnScreen(c: int, extent: int)
    requires 0 <= c < extent
    ensures 1 <= Normalized(c, extent).value <= 0x10000
    ensures c == 0 ==> Normalized(c, extent).value == 1
  {
  }

  /** ctypes.c_long on Windows: the value reduced to a signed 32-bit
      integer, wrapping silently. */
  function CLong(v: int): (r: int)
    ensures -0x8000_0000 <= r < 0x8000_0000
    ensures (v - r) % 0x1_0000_0000 == 0
  {
    (v + 0x8000_0000) % 0x1_0000_0000 - 0x8000_0000
  }

  /** A value that fits in a signed 32-bit integer passes c_long unchanged. */
  lemma CLongKeepsSmallValues(v: int)
    requires -0x8000_0000 <= v < 0x8000_0000
    ensures CLong(v) == v
  {
  }

  /** The event `_sendMouseEvent(ev, x, y, dwData)` injects on a screen of
      `width` by `height`: a missing coordinate fails its assertion, a zero
      extent divides by zero, otherwise both coordinates are scaled and
      passed through c_long. */
  function MouseEventFor(ev: int, x: Option<int>, y: Option<int>, dwData: int, width: int, height: int): (r: Result<Input>)
    ensures r.Ok? <==> x.Some? && y.Some? && width != 0 && height != 0
    ensures (x.None? || y.None?) ==> r == Err(AssertionError)
    ensures x.Some? && y.Some? && (width == 0 || height == 0) ==> r == Err(ZeroDivisionError)
    ensures r.Ok? ==> r.value.MouseEvent? && r.value.dwFlags == ev && r.value.dwData == dwData
    ensures r.Ok? ==>
      && r.value.dx == CLong(Normalized(x.value, width).value)
      && r.value.dy == CLong(Normalized(y.value, height).value)
  {
    if x.None? || y.None? then Err(AssertionError)
    else
      match (Normalized(x.value, width), Normalized(y.value, height))
      case (Ok(convertedX), Ok(convertedY)) => Ok(MouseEvent(ev, CLong(convertedX), CLong(convertedY), dwData))
      case _ => Err(ZeroDivisionError)
  }

  /** A point on the screen reaches mouse_event scaled into [1, 65536] on
      both axes, untouched by c_long. */
  lemma OnScreenEvent(ev: int, x: int, y: int, dwData: int, width: int, height: int)
    requires 0 <= x < width && 0 <= y < height
    ensures var r := MouseEventFor(ev, Some(x), Some(y), dwData, width, height);
      && r.Ok?
      && r.value == MouseEvent(ev, Normalized(x, width).value, Normalized(y, height).value, dwData)
      && 1 <= r.value.dx <= 0x10000 && 1 <= r.value.dy <= 0x10000
  {
    NormalizedOnScreen(x, width);
    NormalizedOnScreen(y, height);
  }

  /** `_mouseDown(x, y, button)`: the button is checked before anything else. */
  function MouseDownOutcome(x: Option<int>, y: Option<int>, button: string, width: int, height: int): (r: Result<Input>)
    ensures button !in {LEFT, MIDDLE, RIGHT} ==> r == Err(ValueError)
    ensures button in {LEFT, MIDDLE, RIGHT} && (x.None? || y.None?) ==> r == Err(AssertionError)
    ensures button in {LEFT, MIDDLE, RIGHT} && x.Some? && y.Some? && (width == 0 || height == 0) ==>
      r == Err(ZeroDivisionError)
    ensures button in {LEFT, MIDDLE, RIGHT} ==> (r.Ok? <==> x.Some? && y.Some? && width != 0 && height != 0)
    ensures r.Ok? ==> r.value.MouseEvent? && ButtonDownFlag(button) == Ok(r.value.dwFlags) && r.value.dwData == 0
  {
    match ButtonDownFlag(button)
    case Err(e) => Err(e)
    case Ok(ev) => MouseEventFor(ev, x, y, 0, width, height)
  }

  /** `_mouseUp(x, y, button)`. */
  function MouseUpOutcome(x: Option<int>, y: Option<int>, button: string, width: int, height: int): (r: Result<Input>)
    ensures button !in {LEFT, MIDDLE, RIGHT} ==> r == Err(ValueError)
    ensures button in {LEFT, MIDDLE, RIGHT} && (x.None? || y.None?) ==> r == Err(AssertionError)
    ensures button in {LEFT, MIDDLE, RIGHT} && x.Some? && y.Some? && (width == 0 || height == 0) ==>
      r == Err(ZeroDivisionError)
    ensures button in {LEFT, MIDDLE, RIGHT} ==> (r.Ok? <==> x.Some? && y.Some? && width != 0 && height != 0)
    ensures r.Ok? ==> r.value.MouseEvent? && ButtonUpFlag(button) == Ok(r.value.dwFlags) && r.value.dwData == 0
  {
    match ButtonUpFlag(button)
    case Err(e) => Err(e)
    case Ok(ev) => MouseEventFor(ev, x, y, 0, width, height)
  }

  /** `_click(x, y, button)`. */
  function ClickOutcome(x: Option<int>, y: Option<int>, button: string, width: int, height: int): (r: Result<Input>)
    ensures button !in {LEFT, MIDDLE, RIGHT} ==> r == Err(ValueError)
    ensures button in {LEFT, MIDDLE, RIGHT} && (x.None? || y.None?) ==> r == Err(AssertionError)
    ensures button in {LEFT, MIDDLE, RIGHT} && x.Some? && y.Some? && (width == 0 || height == 0) ==>
      r == Err(ZeroDivisionError)
    ensures button in {LEFT, MIDDLE, RIGHT} ==> (r.Ok? <==> x.Some? && y.Some? && width != 0 && height != 0)
    ensures r.Ok? ==> r.value.MouseEvent? && ButtonClickFlag(button) == Ok(r.value.dwFlags) && r.value.dwData == 0
  {
    match ButtonClickFlag(button)
    case Err(e) => Err(e)
    case Ok(ev) => MouseEventFor(ev, x, y, 0, width, height)
  }

  /** A bad button raises ValueError whatever the coordinates and the
      screen; a good one on a point of a non-degenerate screen always
      yields an event at the same place for down, up and click, the click
      carrying the sum of the other two flags. */
  lemma ButtonOutcomes(x: Option<int>, y: Option<int>, button: string, width: int, height: int)
    ensures button !in {LEFT, MIDDLE, RIGHT} ==>
      && MouseDownOutcome(x, y, button, width, height) == Err(ValueError)
      && MouseUpOutcome(x, y, button, width, height) == Err(ValueError)
      && ClickOutcome(x, y, button, width, height) == Err(ValueError)
    ensures button in {LEFT, MIDDLE, RIGHT} && x.Some? && y.Some? && width != 0 && height != 0 ==>
      var down, up, click := MouseDownOutcome(x, y, button, width, height),
        MouseUpOutcome(x, y, button, width, height), ClickOutcome(x, y, button, width, height);
      && down.Ok? && up.Ok? && click.Ok?
      && down.value.dx == up.value.dx == click.value.dx
      && down.value.dy == up.value.dy == click.value.dy
      && click.value.dwFlags == down.value.dwFlags + up.value.dwFlags
  {
    if button in {LEFT, MIDDLE, RIGHT} {
      ClickIsDownPlusUp(button);
    }
  }

  function Min(a: int, b: int): int { if a <= b then a else b }
  function Max(a: int, b: int): int { if a >= b then a else b }

  /** Where `_scroll` puts one coordinate: the cursor's own position when
      none is given (not clamped), otherwise the given one pulled onto the
      screen. */
  function ScrollCoordinate(requested: Option<int>, current: int, extent: int): (c: int)
    ensures requested.None? ==> c == current
    ensures requested.Some? && extent > 0 ==> c == Min(Max(requested.value, 0), extent - 1)
    ensures requested.Some? && extent > 0 ==> 0 <= c < extent
  {
    if requested.None? then current
    else if requested.value < 0 then 0
    else if requested.value >= extent then extent - 1
    else requested.value
  }

  /** The wheel event `_scroll(clicks, x, y)` injects, with the cursor at
      `cursor` and a screen of size `screen`. */
  function ScrollOutcome(clicks: int, x: Option<int>, y: Option<int>, cursor: (int, int), screen: (int, int)): (r: Result<Input>)
    ensures r.Ok? ==> r.value.MouseEvent? && r.value.dwFlags == MOUSEEVENTF_WHEEL && r.value.dwData == clicks
    ensures r.Ok? <==> screen.0 != 0 && screen.1 != 0
    ensures r.Err? ==> r.error == ZeroDivisionError
    ensures r.Ok? ==>
      && r.value.dx == CLong(Normalized(ScrollCoordinate(x, cursor.0, screen.0), screen.0).value)
      && r.value.dy == CLong(Normalized(ScrollCoordinate(y, cursor.1, screen.1), screen.1).value)
  {
    MouseEventFor(MOUSEEVENTF_WHEEL, Some(ScrollCoordinate(x, cursor.0, screen.0)),
      Some(ScrollCoordinate(y, cursor.1, screen.1)), clicks, screen.0, screen.1)
  }

  /** Scrolling never fails its coordinate assertion: it fails only on a
      zero extent, and otherwise sends a wheel event carrying `clicks`. A
      missing coordinate aims at the cursor's own; a given one aims at the
      point clamped onto the screen, scaled into [1, 65536] and untouched by
      c_long. With the cursor on the screen, every scroll lands on it. */
  lemma ScrollSendsWheelEvent(clicks: int, x: Option<int>, y: Option<int>, cursor: (int, int), screen: (int, int))
    ensures var r := ScrollOutcome(clicks, x, y, cursor, screen);
      && (r.Ok? <==> screen.0 != 0 && screen.1 != 0)
      && (r.Err? ==> r.error == ZeroDivisionError)
      && (r.Ok? ==> r.value.dwFlags == MOUSEEVENTF_WHEEL && r.value.dwData == clicks)
    ensures var r := ScrollOutcome(clicks, x, y, cursor, screen);
      x.Some? && y.Some? && screen.0 > 0 && screen.1 > 0 ==>
      1 <= r.value.dx <= 0x10000 && 1 <= r.value.dy <= 0x10000
    ensures var r := ScrollOutcome(clicks, x, y, cursor, screen);
      r.Ok? ==>
      && (x.None? ==> r.value.dx == CLong(Normalized(cursor.0, screen.0).value))
      && (y.None? ==> r.value.dy == CLong(Normalized(cursor.1, screen.1).value))
    ensures var r := ScrollOutcome(clicks, x, y, cursor, screen);
      x.Some? && screen.0 > 0 && screen.1 > 0 ==>
      r.value.dx == Normalized(Min(Max(x.value, 0), screen.0 - 1), screen.0).value
    ensures var r := ScrollOutcome(clicks, x, y, cursor, screen);
      y.Some? && screen.0 > 0 && screen.1 > 0 ==>
      r.value.dy == Normalized(Min(Max(y.value, 0), screen.1 - 1), screen.1).value
    ensures var r := ScrollOutcome(clicks, x, y, cursor, screen);
      && screen.0 > 0 && screen.1 > 0
      && 0 <= cursor.0 < screen.0 && 0 <= cursor.1 < screen.1 ==>
      1 <= r.value.dx <= 0x10000 && 1 <= r.value.dy <= 0x10000
  {
    var sx, sy := ScrollCoordinate(x, cursor.0, screen.0), ScrollCoordinate(y, cursor.1, screen.1);
    if screen.0 > 0 && screen.1 > 0 {
      if x.Some? || 0 <= cursor.0 < screen.0 {
        OnScreenAxis(sx, screen.0);
      }
      if y.Some? || 0 <= cursor.1 < screen.1 {
        OnScreenAxis(sy, screen.1);
      }
    }
  }

  /** An on-screen coordinate reaches mouse_event in [1, 65536], unchanged
      by c_long. */
  lemma OnScreenAxis(c: int, extent: int)
    requires 0 <= c < extent
    ensures 1 <= CLong(Normalized(c, extent).value) == Normalized(c, extent).value <= 0x10000
  {
    NormalizedOnScreen(c, extent);
    CLongKeepsSmallValues(Normalized(c, extent).value);
  }
}
