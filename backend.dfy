/** The Windows back end as a stateful object: the key table it builds
    when the module loads, and the calls into keybd_event and mouse_event
    its functions make, recorded in order in `injected`. */
module Backend {
  import opened Win32Input
  import opened KeyTable
  import opened KeyComposer
  import opened MouseEvents

  class Win32Backend {
    /** The module-level `keyboardMapping`, fixed once built. */
    const keyboardMapping: KeyMap
    /** Every event handed to the operating system so far, oldest first. */
    var injected: seq<Input>

    /** Loading the module: the table is built from the static names and
        the scan of the printable range, with `keyNames` the package's key
        names and `vkKeyScan` the layout's VkKeyScanA. */
    constructor (keyNames: set<string>, vkKeyScan: char -> int)
      ensures keyboardMapping == KeyboardMapping(keyNames, StaticKeys(), vkKeyScan)
      ensures injected == []
    {
      var mapping := BuildKeyboardMapping(keyNames, StaticKeys(), vkKeyScan);
      keyboardMapping := mapping;
      injected := [];
    }

    /** keybd_event(vk, 0, dwFlags, 0). */
    method KeybdEventCall(vk: int, dwFlags: int)
      modifies this
      ensures injected == old(injected) + [KeybdEvent(vk, dwFlags)]
    {
      injected := injected + [KeybdEvent(vk, dwFlags)];
    }

    /** mouse_event(dwFlags, dx, dy, dwData, 0). */
    method MouseEventCall(dwFlags: int, dx: int, dy: int, dwData: int)
      modifies this
      ensures injected == old(injected) + [MouseEvent(dwFlags, dx, dy, dwData)]
    {
      injected := injected + [MouseEvent(dwFlags, dx, dy, dwData)];
    }

    /** One of the composer's `for apply_mod, vk_mod in ...` loops: a
        keybd_event with `dwFlags` for every slot that applies. */
    method EmitModifiers(slots: seq<ModifierSlot>, dwFlags: int)
      modifies this
      ensures injected == old(injected) + ModifierEvents(slots, dwFlags)
    {
      for i := 0 to |slots|
        invariant injected == old(injected) + ModifierEvents(slots[..i], dwFlags)
      {
        ModifierEventsStep(slots, dwFlags, i);
        if slots[i].apply {
          KeybdEventCall(slots[i].vk, dwFlags);
        }
      }
      assert slots[..|slots|] == slots;
    }

    /** `_keyDown(key)`, with `isShiftCharacter` the package's test for
        characters typed with shift. */
    method KeyDown(key: string, isShiftCharacter: string -> bool)
      modifies this
      ensures injected == old(injected) + KeyDownEvents(keyboardMapping, key, isShiftCharacter(key))
    {
      if key !in keyboardMapping || keyboardMapping[key].None? {
        return;
      }
      var needsShift := isShiftCharacter(key);
      var value := keyboardMapping[key].value;
      var code := Split(value);
      var applied := Applied(code.mods, needsShift);
      EmitModifiers(PressOrder(applied), KEYEVENTF_KEYDOWN);
      KeybdEventCall(code.vkCode, KEYEVENTF_KEYDOWN);
      EmitModifiers(ReleaseOrder(applied), KEYEVENTF_KEYUP);
      assert injected == old(injected) + Wrapped(applied, Press(code.vkCode));
      assert KeyDownEvents(keyboardMapping, key, needsShift) == KeyDownSequence(value, needsShift);
    }

    /** `_keyUp(key)`. */
    method KeyUp(key: string, isShiftCharacter: string -> bool)
      modifies this
      ensures injected == old(injected) + KeyUpEvents(keyboardMapping, key, isShiftCharacter(key))
    {
      if key !in keyboardMapping || keyboardMapping[key].None? {
        return;
      }
      var needsShift := isShiftCharacter(key);
      var value := keyboardMapping[key].value;
      var code := Split(value);
      var applied := Applied(code.mods, needsShift);
      EmitModifiers(PressOrder(applied), 0);
      KeybdEventCall(code.vkCode, KEYEVENTF_KEYUP);
      EmitModifiers(ReleaseOrder(applied), KEYEVENTF_KEYUP);
      assert injected == old(injected) + Wrapped(applied, Release(code.vkCode));
      assert KeyUpEvents(keyboardMapping, key, needsShift) == KeyUpSequence(value, needsShift);
    }

    /** `_sendMouseEvent(ev, x, y, dwData)` on a screen of size `screen`;
        `error` is the exception it raises, if any. */
    method SendMouseEvent(ev: int, x: Option<int>, y: Option<int>, dwData: int, screen: (int, int))
      returns (error: Option<PyError>)
      modifies this
      ensures error == Raised(MouseEventFor(ev, x, y, dwData, screen.0, screen.1))
      ensures injected == old(injected) + Emitted(MouseEventFor(ev, x, y, dwData, screen.0, screen.1))
    {
      if x.None? || y.None? {
        return Some(AssertionError);
      }
      var (width, height) := screen;
      if width == 0 || height == 0 {
        return Some(ZeroDivisionError);
      }
      var convertedX := FloorDiv(0x10000 * x.value, width) + 1;
      var convertedY := FloorDiv(0x10000 * y.value, height) + 1;
      MouseEventCall(ev, CLong(convertedX), CLong(convertedY), dwData);
      error := None;
    }

    /** `_mouseDown(x, y, button)`. */
    method MouseDown(x: Option<int>, y: Option<int>, button: string, screen: (int, int))
      returns (error: Option<PyError>)
      modifies this
      ensures error == Raised(MouseDownOutcome(x, y, button, screen.0, screen.1))
      ensures injected == old(injected) + Emitted(MouseDownOutcome(x, y, button, screen.0, screen.1))
    {
      if button !in {LEFT, MIDDLE, RIGHT} {
        return Some(ValueError);
      }
      var ev;
      if button == LEFT {
        ev := MOUSEEVENTF_LEFTDOWN;
      } else if button == MIDDLE {
        ev := MOUSEEVENTF_MIDDLEDOWN;
      } else {
        ev := MOUSEEVENTF_RIGHTDOWN;
      }
      error := SendMouseEvent(ev, x, y, 0, screen);
    }

    /** `_mouseUp(x, y, button)`. */
    method MouseUp(x: Option<int>, y: Option<int>, button: string, screen: (int, int))
      returns (error: Option<PyError>)
      modifies this
      ensures error == Raised(MouseUpOutcome(x, y, button, screen.0, screen.1))
      ensures injected == old(injected) + Emitted(MouseUpOutcome(x, y, button, screen.0, screen.1))
    {
      if button !in {LEFT, MIDDLE, RIGHT} {
        return Some(ValueError);
      }
      var ev;
      if button == LEFT {
        ev := MOUSEEVENTF_LEFTUP;
      } else if button == MIDDLE {
        ev := MOUSEEVENTF_MIDDLEUP;
      } else {
        ev := MOUSEEVENTF_RIGHTUP;
      }
      error := SendMouseEvent(ev, x, y, 0, screen);
    }

    /** `_click(x, y, button)`. */
    method Click(x: Option<int>, y: Option<int>, button: string, screen: (int, int))
      returns (error: Option<PyError>)
      modifies this
      ensures error == Raised(ClickOutcome(x, y, button, screen.0, screen.1))
      ensures injected == old(injected) + Emitted(ClickOutcome(x, y, button, screen.0, screen.1))
    {
      if button !in {LEFT, MIDDLE, RIGHT} {
        return Some(ValueError);
      }
      var ev;
      if button == LEFT {
        ev := MOUSEEVENTF_LEFTCLICK;
      } else if button == MIDDLE {
        ev := MOUSEEVENTF_MIDDLECLICK;
      } else {
        ev := MOUSEEVENTF_RIGHTCLICK;
      }
      error := SendMouseEvent(ev, x, y, 0, screen);
    }

    /** `_scroll(clicks, x, y)` with the cursor at `cursor` and a screen of
        size `screen`: a missing coordinate is taken from the cursor, a
        given one is pulled onto the screen. */
    method Scroll(clicks: int, x: Option<int>, y: Option<int>, cursor: (int, int), screen: (int, int))
      returns (error: Option<PyError>)
      modifies this
      ensures error == Raised(ScrollOutcome(clicks, x, y, cursor, screen))
      ensures injected == old(injected) + Emitted(ScrollOutcome(clicks, x, y, cursor, screen))
    {
      var (startx, starty) := cursor;
      var (width, height) := screen;
      var sx, sy;
      if x.None? {
        sx := startx;
      } else if x.value < 0 {
        sx := 0;
      } else if x.value >= width {
        sx := width - 1;
      } else {
        sx := x.value;
      }
      if y.None? {
        sy := starty;
      } else if y.value < 0 {
        sy := 0;
      } else if y.value >= height {
        sy := height - 1;
      } else {
        sy := y.value;
      }
      error := SendMouseEvent(MOUSEEVENTF_WHEEL, Some(sx), Some(sy), clicks, screen);
    }

    /** `_hscroll(clicks, x, y)`: the very same wheel event as `_scroll`. */
    method HScroll(clicks: int, x: Option<int>, y: Option<int>, cursor: (int, int), screen: (int, int))
      returns (error: Option<PyError>)
      modifies this
      ensures error == Raised(ScrollOutcome(clicks, x, y, cursor, screen))
      ensures injected == old(injected) + Emitted(ScrollOutcome(clicks, x, y, cursor, screen))
    {
      error := Scroll(clicks, x, y, cursor, screen);
    }

    /** `_vscroll(clicks, x, y)`: the very same wheel event as `_scroll`. */
    method VScroll(clicks: int, x: Option<int>, y: Option<int>, cursor: (int, int), screen: (int, int))
      returns (error: Option<PyError>)
      modifies this
      ensures error == Raised(ScrollOutcome(clicks, x, y, cursor, screen))
      ensures injected == old(injected) + Emitted(ScrollOutcome(clicks, x, y, cursor, screen))
    {
      error := Scroll(clicks, x, y, cursor, screen);
    }
  }
}
