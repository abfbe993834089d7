# pyautogui's Windows back end, in Dafny

This project models the core of `pyautogui/_pyautogui_win.py`, the module
that turns pyautogui's keyboard and mouse requests into Win32 input calls.
It covers these parts:

- **The key table** (`keyboardMapping`). At load time every name the package
  knows maps to `None`. The static dictionary of named keys is then merged in.
  Finally every character from 32 to 127 is overwritten with the value
  VkKeyScanA returns for it. Modules `KeyTable` and `Backend.Win32Backend.constructor`.
- **Keystrokes** (`_keyDown`, `_keyUp`). A table value is split with
  `divmod(value, 0x100)` into a modifier byte and a virtual-key code. The key
  event is wrapped in ALT/CTRL/SHIFT presses (in that order) and releases
  (SHIFT, CTRL, ALT). Module `KeyComposer` says which events are sent and what
  they do to the set of held keys. `Backend.Win32Backend.KeyDown`/`KeyUp`
  send them one call at a time, as the source's loops do.
- **Mouse buttons and coordinates** (`_mouseDown`, `_mouseUp`, `_click`,
  `_sendMouseEvent`). A button name selects a `MOUSEEVENTF_*` flag. A
  coordinate is scaled as `65536 * x // width + 1` and passed through
  `ctypes.c_long`. Module `MouseEvents`, and the `Backend` methods.
- **Scrolling** (`_scroll`, `_hscroll`, `_vscroll`). A missing coordinate
  becomes the cursor's. A given one is pulled onto the screen. A
  `MOUSEEVENTF_WHEEL` event carries the click count. `_hscroll` sends exactly
  the same vertical wheel event as `_scroll`: `MOUSEEVENTF_HWHEEL` is defined
  but never used, and the model keeps that behaviour.

The operating system appears only through its inputs and outputs:

- Every `keybd_event`/`mouse_event` call is appended to the back end's
  `injected` log.
- VkKeyScanA is a parameter `vkKeyScan: char -> int`.
- `pyautogui.KEY_NAMES` is a parameter `keyNames: set<string>`.
- `pyautogui.isShiftCharacter` is a parameter `string -> bool`.
- The cursor position (`_position`) and the screen size (`_size`) are
  parameters of the mouse methods.
- What the events do to the keyboard is an assumption about the operating
  system, not a line of the module: `KeyComposer.Replay` reads a
  `keybd_event` with `KEYEVENTF_KEYUP` as a release of its key and one with
  any other flag as a press, and ignores mouse events.
- An exception the back end lets escape (`ValueError` for a bad button,
  `AssertionError` for a `None` coordinate, `ZeroDivisionError` for a
  zero-sized screen) is the method's `error` result. Nothing is sent in that
  case.

A few things the code does that its comments and docstrings do not spell out:

- `_keyDown` (lines 238-280) releases the modifiers it pressed right after the
  key goes down. Its docstring (lines 239-240) promises only that the key
  itself is left held down.
- `_keyUp` presses the modifiers (flag 0) before releasing the key (line 315).
- The scan at lines 232-235, commented as populating the printable ASCII
  characters, covers 0x7F as well as 32-126. It overwrites the static `' '`
  entry.
- VkKeyScanA's failure value -1 is stored as is: nothing turns it into a
  ValueError, as the dead code at lines 264-265 did. It splits into code 0xFF
  with every modifier bit set (`KeyComposer.ScanFailureValue`).

## Model

| member | source | states |
|---|---|---|
| KeyTable.ControlKeys | pyautogui/_pyautogui_win.py:110-136 | The static entries from backspace to modechange: every code is a byte with no modifier bits, and the only printable single-character name it could hold is `' '` |
| KeyTable.EditingKeys | pyautogui/_pyautogui_win.py:137-159 | The static entries from space to help: every code is a byte with no modifier bits, the only printable single-character name it holds is `' '`, and it maps `' '` to 0x20 |
| KeyTable.WindowsAndNumpadKeys | pyautogui/_pyautogui_win.py:160-180 | The Windows-key and numeric-keypad entries: every code is a byte with no modifier bits, and no name is a printable single character |
| KeyTable.FunctionKeys | pyautogui/_pyautogui_win.py:181-204 | F1-F24: every code is a byte with no modifier bits, and no name is a printable single character |
| KeyTable.LockAndSideModifierKeys | pyautogui/_pyautogui_win.py:205-212 | Lock keys and left/right modifiers: every code is a byte with no modifier bits, and no name is a printable single character |
| KeyTable.MediaKeys | pyautogui/_pyautogui_win.py:213-231 | Browser, volume, media and launch keys: every code is a byte with no modifier bits, and no name is a printable single character |
| KeyTable.StaticKeys | pyautogui/_pyautogui_win.py:110-231 | The static dictionary literal, merged from its six groups: every value is a byte (no modifier bits), and its only printable single-character name is `' '` |
| KeyTable.UnmappedNames | pyautogui/_pyautogui_win.py:109 | `dict([(key, None) for key in KEY_NAMES])`: its keys are exactly the package's key names, each mapped to None |
| KeyTable.MergedDictionary | pyautogui/_pyautogui_win.py:109 | The `dict(...) \| {...}` merge: its keys are exactly the package's key names and the static names. A static name takes its static code, even when it is also one of the package's names. Every other name maps to None |
| KeyTable.ScannedBelow | pyautogui/_pyautogui_win.py:234-235 | The entries the scan has written before character `n`: exactly the single characters from 32 up to `n` (and below 128), each mapped to VkKeyScanA's value for it |
| KeyTable.KeyboardMapping | pyautogui/_pyautogui_win.py:109-235 | The table's keys are exactly the package's key names, the static names and the printable characters 32-127. A printable character holds its scanned value, overriding any static entry. Any other static name holds its static code. Every remaining name maps to None |
| KeyTable.BuildKeyboardMapping | pyautogui/_pyautogui_win.py:109-235 | The dict-then-loop construction (`for c in range(32, 128)` reassigning one entry per step) yields exactly `KeyboardMapping` |
| KeyTable.SpaceScanOverridesStatic | pyautogui/_pyautogui_win.py:137-235 | The static dictionary maps `' '` to 0x20, yet the finished table maps `' '` to the scanned value |
| KeyTable.ScanCompletesTable | pyautogui/_pyautogui_win.py:234-235 | The merged dictionary overwritten by the scan of every character from 32 to 127 is exactly `KeyboardMapping` |
| KeyTable.StaticSpace | pyautogui/_pyautogui_win.py:137 | The merged static dictionary maps `' '` to VK_SPACE (0x20): no later group redefines it |
| KeyTable.ScannedSpace | pyautogui/_pyautogui_win.py:234-235 | Whatever the static dictionary says, the finished table maps `' '` to VkKeyScanA's value for it |
| KeyComposer.Split | pyautogui/_pyautogui_win.py:270 | `value == mods * 0x100 + vkCode` with `0 <= vkCode < 0x100`, for every value including negative ones |
| Win32Input.HasBit | pyautogui/_pyautogui_win.py:272-273 | Python's `mods & bit` for a one-bit mask, read as the remainder below the next bit up reaching `bit`, agrees with the parity of `mods // bit`, for negative `mods` too |
| KeyComposer.Applied | pyautogui/_pyautogui_win.py:272-273 | The modifiers a value applies: ALT exactly when bit 4 of the modifier byte is set, CTRL when bit 2 is, SHIFT when bit 1 is or the character needs shift |
| KeyComposer.AppliedIgnoresHighBits | pyautogui/_pyautogui_win.py:272-273 | Bit 8 (Hankaku) and every higher bit of the modifier byte apply no modifier: adding a multiple of 8 applies the same ones |
| KeyComposer.PressOrder | pyautogui/_pyautogui_win.py:272-273 | The press list has one slot for each of ALT, CTRL and SHIFT, and a slot applies exactly when its modifier is applied |
| KeyComposer.ReleaseOrder | pyautogui/_pyautogui_win.py:277-278 | The release list is the press list reversed, so the modifier pressed last is released first |
| KeyComposer.KeyDownSequence | pyautogui/_pyautogui_win.py:270-280 | With m applied modifiers `_keyDown` sends 1 + 2m events, and the key's own press comes right after the m modifier presses |
| KeyComposer.KeyUpSequence | pyautogui/_pyautogui_win.py:310-320 | With m applied modifiers `_keyUp` sends 1 + 2m events, and the key's own release comes right after the m modifier presses |
| KeyComposer.Lookup | pyautogui/_pyautogui_win.py:252 | A key has a value exactly when it is in the table and does not map to None, and then the value is the table's |
| KeyComposer.ModifierEvents | pyautogui/_pyautogui_win.py:272-275 | A pass over the modifier list sends at most one event per slot, each a keybd_event with the pass's flag |
| KeyComposer.KeyDownEvents | pyautogui/_pyautogui_win.py:252-280 | `_keyDown` sends nothing exactly when the key is absent from the table or maps to None |
| KeyComposer.KeyUpEvents | pyautogui/_pyautogui_win.py:293-320 | `_keyUp` sends nothing exactly when the key is absent from the table or maps to None |
| KeyComposer.PressPass | pyautogui/_pyautogui_win.py:272-275 | The press loop sends ALT if bit 4, then CTRL if bit 2, then SHIFT if bit 1 or the character needs shift |
| KeyComposer.ReleasePass | pyautogui/_pyautogui_win.py:277-280 | The release loop sends SHIFT, then CTRL, then ALT, under the same conditions |
| KeyComposer.PassLengths | pyautogui/_pyautogui_win.py:272-280 | Each modifier loop sends exactly one event per applied modifier |
| KeyComposer.KeyDownSpelledOut | pyautogui/_pyautogui_win.py:270-280 | `_keyDown`'s events in full: the applicable modifiers pressed in order ALT, CTRL, SHIFT; the code pressed; the same modifiers released in order SHIFT, CTRL, ALT |
| KeyComposer.KeyUpSpelledOut | pyautogui/_pyautogui_win.py:310-320 | `_keyUp`'s events in full: the applicable modifiers pressed with flag 0 in order ALT, CTRL, SHIFT; the code released; the modifiers released in order SHIFT, CTRL, ALT |
| KeyComposer.BareKeyIsOneEvent | pyautogui/_pyautogui_win.py:270-280 | A value below 0x100 for a character that needs no shift is a single key-down (or key-up) event for that very code |
| KeyComposer.HighModifierBitsIgnored | pyautogui/_pyautogui_win.py:272-280 | Bit 8 (Hankaku) and every higher modifier bit never produce an event: adding any multiple of 0x800 to a value leaves both calls' events unchanged |
| KeyComposer.ScanFailureValue | pyautogui/_pyautogui_win.py:270-280 | The stored failure value -1 makes both calls wrap code 0xFF in ALT, CTRL and SHIFT: seven events |
| KeyComposer.ReplayAppend | pyautogui/_pyautogui_win.py:272-280 | Replaying two event runs one after the other is replaying their concatenation |
| KeyComposer.ReplayPressPass | pyautogui/_pyautogui_win.py:272-275 | The press loop adds exactly the applied modifiers to the held keys |
| KeyComposer.ReplayReleasePass | pyautogui/_pyautogui_win.py:277-280 | The release loop removes exactly the applied modifiers from the held keys |
| KeyComposer.WrappedReplay | pyautogui/_pyautogui_win.py:272-280 | For any key event wrapped in the modifier loops: every applied modifier is down when the key event is sent. Afterwards the held keys are what the key event leaves, less every applied modifier |
| KeyComposer.KeyDownHolds | pyautogui/_pyautogui_win.py:270-280 | Every applied modifier is down when the key goes down. Afterwards every applied modifier is up, whatever was held before, and the key is held unless its own code is one of the applied modifiers (value 0x110 presses SHIFT twice and then releases it) |
| KeyComposer.KeyUpReleases | pyautogui/_pyautogui_win.py:310-320 | Every applied modifier is down when the key is released. Afterwards the key and every applied modifier are up |
| MouseEvents.ButtonDownFlag | pyautogui/_pyautogui_win.py:375-385 | ValueError exactly when the button is not left, middle or right (the flag each button selects is `ButtonFlagValues`) |
| MouseEvents.ButtonUpFlag | pyautogui/_pyautogui_win.py:406-416 | ValueError exactly when the button is not left, middle or right (the flag each button selects is `ButtonFlagValues`) |
| MouseEvents.ButtonFlagValues | pyautogui/_pyautogui_win.py:375-446 | The nine flags: left selects 0x02/0x04/0x06, middle 0x20/0x40/0x60 and right 0x08/0x10/0x18 for down/up/click |
| MouseEvents.ButtonClickFlag | pyautogui/_pyautogui_win.py:436-446 | ValueError exactly when the button is not left, middle or right (the flag each button selects is `ButtonFlagValues`) |
| MouseEvents.ClickIsDownPlusUp | pyautogui/_pyautogui_win.py:36-44 | A button's click flag is its down flag plus its up flag. Of the six button bits it sets exactly those two |
| MouseEvents.FlagsTellButtonsApart | pyautogui/_pyautogui_win.py:36-44 | Different buttons have different down, up and click flags, and no down flag equals an up flag |
| MouseEvents.FloorDiv | pyautogui/_pyautogui_win.py:486-487 | Python's `//` is the floor of the quotient, for either sign of the divisor |
| MouseEvents.Normalized | pyautogui/_pyautogui_win.py:486-488 | `65536 * c // extent + 1` raises an error exactly when the extent is 0, and that error is ZeroDivisionError. For a positive extent the result r satisfies `(r - 1) * extent <= 65536 * c < r * extent` |
| MouseEvents.NormalizedMonotonic | pyautogui/_pyautogui_win.py:486-488 | For a positive extent the conversion never decreases as the coordinate grows |
| MouseEvents.NormalizedOnScreen | pyautogui/_pyautogui_win.py:486-488 | An on-screen coordinate converts into [1, 65536], and 0 converts to exactly 1 |
| MouseEvents.CLong | pyautogui/_pyautogui_win.py:489 | `ctypes.c_long` gives a signed 32-bit value congruent to its argument modulo 2^32 |
| MouseEvents.CLongKeepsSmallValues | pyautogui/_pyautogui_win.py:489 | A value that fits in 32 signed bits passes `c_long` unchanged |
| MouseEvents.MouseEventFor | pyautogui/_pyautogui_win.py:470-489 | An event is produced exactly when both coordinates are given and both extents are non-zero. A None coordinate raises AssertionError, and otherwise a zero extent raises ZeroDivisionError. The event carries the given flag and dwData, and each coordinate is `c_long` of its scaled value `65536 * c // extent + 1`, for any point, off-screen ones included |
| MouseEvents.OnScreenEvent | pyautogui/_pyautogui_win.py:486-489 | An on-screen point yields the scaled coordinates, untouched by `c_long`, both in [1, 65536] |
| MouseEvents.MouseDownOutcome | pyautogui/_pyautogui_win.py:375-391 | A bad button raises ValueError. A good one raises AssertionError for a None coordinate and ZeroDivisionError for a zero extent, so ValueError means a bad button. Otherwise an event is sent, carrying the button's down flag and dwData 0 |
| MouseEvents.MouseUpOutcome | pyautogui/_pyautogui_win.py:406-421 | A bad button raises ValueError. A good one raises AssertionError for a None coordinate and ZeroDivisionError for a zero extent, so ValueError means a bad button. Otherwise an event is sent, carrying the button's up flag and dwData 0 |
| MouseEvents.ClickOutcome | pyautogui/_pyautogui_win.py:436-452 | A bad button raises ValueError. A good one raises AssertionError for a None coordinate and ZeroDivisionError for a zero extent, so ValueError means a bad button. Otherwise an event is sent, carrying the button's click flag and dwData 0 |
| MouseEvents.ButtonOutcomes | pyautogui/_pyautogui_win.py:375-452 | A bad button raises ValueError before any coordinate is looked at. For a good button, down, up and click land at the same point, and the click's flag is down plus up |
| MouseEvents.ScrollCoordinate | pyautogui/_pyautogui_win.py:512-523 | A None coordinate becomes the cursor's, unclamped. A given one on a positive extent is clamped to [0, extent - 1]: negative values to 0, values past the edge to extent - 1, others unchanged |
| MouseEvents.ScrollOutcome | pyautogui/_pyautogui_win.py:509-526 | A scroll raises ZeroDivisionError exactly when an extent is zero, never the None assertion. Otherwise it sends a WHEEL mouse event carrying the click count, aimed at the scaled `_scroll` coordinates |
| MouseEvents.ScrollSendsWheelEvent | pyautogui/_pyautogui_win.py:509-526 | Scrolling fails only on a zero extent and otherwise sends one WHEEL event carrying the click count. A missing coordinate aims at the cursor's. A given one aims at the point clamped onto the screen, scaled into [1, 65536] and untouched by `c_long`. With the cursor on the screen, every scroll lands in [1, 65536] |
| MouseEvents.OnScreenAxis | pyautogui/_pyautogui_win.py:486-489 | An on-screen coordinate reaches mouse_event in [1, 65536], unchanged by `c_long` |
| Backend.Win32Backend.constructor | pyautogui/_pyautogui_win.py:109-235 | Loading the module builds exactly `KeyboardMapping` over the static dictionary, and has sent nothing |
| Backend.Win32Backend.KeybdEventCall | pyautogui/_pyautogui_win.py:275-280 | One `keybd_event(vk, 0, dwFlags, 0)` call appends exactly that keyboard event to the log |
| Backend.Win32Backend.MouseEventCall | pyautogui/_pyautogui_win.py:489 | One `mouse_event(dwFlags, dx, dy, dwData, 0)` call appends exactly that mouse event to the log |
| Backend.Win32Backend.EmitModifiers | pyautogui/_pyautogui_win.py:272-280 | One modifier loop appends exactly that pass's events to the log |
| Backend.Win32Backend.KeyDown | pyautogui/_pyautogui_win.py:238-280 | `_keyDown` appends exactly `KeyDownEvents` for the key and its shift need to the log |
| Backend.Win32Backend.KeyUp | pyautogui/_pyautogui_win.py:283-320 | `_keyUp` appends exactly `KeyUpEvents` for the key and its shift need to the log |
| Backend.Win32Backend.SendMouseEvent | pyautogui/_pyautogui_win.py:455-489 | `_sendMouseEvent` raises what `MouseEventFor` raises and otherwise appends its single event |
| Backend.Win32Backend.MouseDown | pyautogui/_pyautogui_win.py:363-391 | `_mouseDown` raises or appends according to the button check followed by `_sendMouseEvent` |
| Backend.Win32Backend.MouseUp | pyautogui/_pyautogui_win.py:394-421 | `_mouseUp` raises or appends according to the button check followed by `_sendMouseEvent` |
| Backend.Win32Backend.Click | pyautogui/_pyautogui_win.py:424-452 | `_click` raises or appends according to the button check followed by `_sendMouseEvent` |
| Backend.Win32Backend.Scroll | pyautogui/_pyautogui_win.py:496-528 | `_scroll`'s branch-by-branch reassignment of x and y, then the wheel event, has exactly the outcome `ScrollOutcome` |
| Backend.Win32Backend.HScroll | pyautogui/_pyautogui_win.py:531-544 | `_hscroll` has the very same outcome as `_scroll`, a vertical wheel event included |
| Backend.Win32Backend.VScroll | pyautogui/_pyautogui_win.py:547-559 | `_vscroll` has the very same outcome as `_scroll` |

## Left out

- The ctypes structures `MOUSEINPUT`, `KEYBDINPUT`, `HARDWAREINPUT` and `INPUT` are left out. They are foreign-function layout that the module never uses.
- The platform check and the `SetProcessDPIAware` call at import are left out. They are environment set-up with no effect on the values modelled.
- `_moveTo`, `_position` and `_size` are left out. Each is a one-line call into the operating system; the cursor and the screen size are parameters instead.
- The Win32 calls themselves (`keybd_event`, `mouse_event`, `VkKeyScanA`, `GetCursorPos`, `GetSystemMetrics`) are left out. Their effects are the `injected` log, and their results are parameters.
- The `except OSError: pass` around each mouse call is left out. A foreign call is taken always to succeed, so there is no OSError to suppress.
- `pyautogui.KEY_NAMES` and `pyautogui.isShiftCharacter` are not part of this model. They are an arbitrary set of names and an arbitrary predicate.
- The values of `LEFT`, `MIDDLE` and `RIGHT` are taken as `"left"`, `"middle"` and `"right"`. They come from the package's `__init__`, which is not part of this model.
- `Backend.Win32Backend.SendMouseEvent` reads the screen size once, from a parameter. The source calls `_size()` once per call too, but `_scroll` calls it a second time, and the model assumes both calls agree.
- `Backend.Win32Backend.SendMouseEvent` passes `dwData` unconverted. ctypes' own conversion of a Python int to the C argument (and its overflow error) is not modelled.
- Coordinates and click counts are integers. Float arguments, which Python's `//` would also accept, are not modelled.
- `KeyTable.KeyboardMapping` and `KeyTable.BuildKeyboardMapping` take the static dictionary as a parameter. The concrete dictionary `KeyTable.StaticKeys` is stated as six group maps, and its facts are proved separately.
- The string blocks of old code in `_keyDown`/`_keyUp` are left out because they are dead code that never runs. So is the commented-out `SendInput` code in `_sendMouseEvent`, for the same reason.
