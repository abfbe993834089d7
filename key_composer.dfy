/** The keystroke composer of the Windows back end (`_keyDown`, `_keyUp`):
    a table value is split into its modifier byte and its virtual-key code,
    and the key event is wrapped in modifier presses and releases. */
module KeyComposer {
  import opened Win32Input
  import opened KeyTable

  /** A table value split by divmod(value, 0x100). */
  datatype KeyCode = KeyCode(mods: int, vkCode: int)

  /** divmod(value, 0x100): Python floors, which for a positive divisor is
      Dafny's Euclidean division, so VkKeyScanA's failure value -1 splits
      into mods -1 and code 0xFF. */
  function Split(value: int): (code: KeyCode)
    ensures value == code.mods * 0x100 + code.vkCode
    ensures 0 <= code.vkCode < 0x100
  {
    KeyCode(value / 0x100, value % 0x100)
  }

  /** Which of the three modifiers a key press wraps itself in: the
      conditions `mods & 4`, `mods & 2` and `mods & 1 or needsShift` of the
      composer's lists. Bit 8 (Hankaku) has no slot. */
  datatype Modifiers = Modifiers(alt: bool, ctrl: bool, shift: bool)

  /** The modifiers that apply to a key with modifier byte `mods`: VkKeyScan
      puts SHIFT in bit 1, CTRL in bit 2 and ALT in bit 4 of that byte. */
  function Applied(mods: int, needsShift: bool): (m: Modifiers)
    ensures m.alt <==> mods % 8 >= 4
    ensures m.ctrl <==> mods % 4 >= 2
    ensures m.shift <==> mods % 2 == 1 || needsShift
  {
    Modifiers(HasBit(mods, 4), HasBit(mods, 2), HasBit(mods, 1) || needsShift)
  }

  /** One entry of the composer's modifier lists: whether it applies, and
      the modifier's virtual-key code. */
  datatype ModifierSlot = ModifierSlot(apply: bool, vk: int)

  /** The list the press pass walks: ALT, CTRL, SHIFT. Each of the three
      modifiers has one slot, and a slot applies exactly when its modifier
      is one of those `m` applies. */
  function PressOrder(m: Modifiers): (slots: seq<ModifierSlot>)
    ensures |slots| == 3
    ensures forall i, j :: 0 <= i < j < |slots| ==> slots[i].vk != slots[j].vk
    ensures forall i :: 0 <= i < |slots| ==> slots[i].vk in {VK_SHIFT, VK_CONTROL, VK_MENU}
    ensures forall i :: 0 <= i < |slots| ==> (slots[i].apply <==> slots[i].vk in AppliedModifiers(m))
  {
    [ModifierSlot(m.alt, VK_MENU), ModifierSlot(m.ctrl, VK_CONTROL), ModifierSlot(m.shift, VK_SHIFT)]
  }

  /** The list the release pass walks: the press pass's slots in reverse,
      so the modifier pressed last is released first. */
  function ReleaseOrder(m: Modifiers): (slots: seq<ModifierSlot>)
    ensures |slots| == |PressOrder(m)|
    ensures forall i :: 0 <= i < |slots| ==> slots[i] == PressOrder(m)[|slots| - 1 - i]
  {
    [ModifierSlot(m.shift, VK_SHIFT), ModifierSlot(m.ctrl, VK_CONTROL), ModifierSlot(m.alt, VK_MENU)]
  }

  /** A one-event sequence when `b` holds, else the empty sequence. */
  function When(b: bool, e: Input): seq<Input> {
    if b then [e] else []
  }

  /** The keybd_event calls one pass over `slots` makes, in order: one
      event with `dwFlags` for every slot that applies. */
  function ModifierEvents(slots: seq<ModifierSlot>, dwFlags: int): (events: seq<Input>)
    ensures |events| <= |slots|
    ensures forall i :: 0 <= i < |events| ==> events[i].KeybdEvent? && events[i].dwFlags == dwFlags
  {
    if slots == [] then []
    else
      var last := slots[|slots| - 1];
      ModifierEvents(slots[..|slots| - 1], dwFlags) + When(last.apply, KeybdEvent(last.vk, dwFlags))
  }

  /** One more slot of a pass: its event, if it applies, comes last. */
  lemma ModifierEventsStep(slots: seq<ModifierSlot>, dwFlags: int, i: int)
    requires 0 <= i < |slots|
    ensures ModifierEvents(slots[..i + 1], dwFlags)
         == ModifierEvents(slots[..i], dwFlags) + When(slots[i].apply, KeybdEvent(slots[i].vk, dwFlags))
  {
    assert slots[..i + 1][..i] == slots[..i];
  }

  /** The key event `main` wrapped the way both calls wrap it: the
      modifiers pressed, `main`, the modifiers released. */
  function Wrapped(m: Modifiers, main: Input): seq<Input> {
    ModifierEvents(PressOrder(m), KEYEVENTF_KEYDOWN) + [main] + ModifierEvents(ReleaseOrder(m), KEYEVENTF_KEYUP)
  }

  /** The events `_keyDown` sends for a key whose table value is `value`:
      the modifiers pressed, the key pressed, the modifiers released again. */
  function KeyDownSequence(value: int, needsShift: bool): (events: seq<Input>)
    ensures |events| == 1 + 2 * ModifierCount(Applied(Split(value).mods, needsShift))
    ensures events[ModifierCount(Applied(Split(value).mods, needsShift))] == Press(Split(value).vkCode)
  {
    var code := Split(value);
    PassLengths(Applied(code.mods, needsShift));
    Wrapped(Applied(code.mods, needsShift), KeybdEvent(code.vkCode, KEYEVENTF_KEYDOWN))
  }

  /** The events `_keyUp` sends for a key whose table value is `value`: the
      modifiers pressed (flag 0), the key released, the modifiers released. */
  function KeyUpSequence(value: int, needsShift: bool): (events: seq<Input>)
    ensures |events| == 1 + 2 * ModifierCount(Applied(Split(value).mods, needsShift))
    ensures events[ModifierCount(Applied(Split(value).mods, needsShift))] == Release(Split(value).vkCode)
  {
    var code := Split(value);
    PassLengths(Applied(code.mods, needsShift));
    Wrapped(Applied(code.mods, needsShift), KeybdEvent(code.vkCode, KEYEVENTF_KEYUP))
  }

  /** The table entry for `key`: `None` both for a name that is not in the
      table and for a name mapped to `None`. */
  function Lookup(mapping: KeyMap, key: string): (r: Option<int>)
    ensures r.Some? <==> key in mapping && mapping[key].Some?
    ensures r.Some? ==> mapping[key] == r
  {
    if key in mapping then mapping[key] else None
  }

  /** `_keyDown(key)`: nothing for an unknown or unmapped key. */
  function KeyDownEvents(mapping: KeyMap, key: string, needsShift: bool): (events: seq<Input>)
    ensures events == [] <==> Lookup(mapping, key).None?
  {
    match Lookup(mapping, key)
    case None => []
    case Some(value) => KeyDownSequence(value, needsShift)
  }

  /** `_keyUp(key)`: nothing for an unknown or unmapped key. */
  function KeyUpEvents(mapping: KeyMap, key: string, needsShift: bool): (events: seq<Input>)
    ensures events == [] <==> Lookup(mapping, key).None?
  {
    match Lookup(mapping, key)
    case None => []
    case Some(value) => KeyUpSequence(value, needsShift)
  }

  // ---------------------------------------------------------------------
  // The composed sequences, spelled out

  /** The number of modifiers a key press wraps itself in. */
  function ModifierCount(m: Modifiers): nat {
    (if m.alt then 1 else 0) + (if m.ctrl then 1 else 0) + (if m.shift then 1 else 0)
  }

  /** The virtual-key codes of the modifiers a key press wraps itself in. */
  function AppliedModifiers(m: Modifiers): set<int> {
    (if m.alt then {VK_MENU} else {}) + (if m.ctrl then {VK_CONTROL} else {})
    + (if m.shift then {VK_SHIFT} else {})
  }

  /** The press pass: ALT, then CTRL, then SHIFT, each only if it applies. */
  lemma {:induction false} PressPass(m: Modifiers, dwFlags: int)
    ensures ModifierEvents(PressOrder(m), dwFlags)
         == When(m.alt, KeybdEvent(VK_MENU, dwFlags))
          + When(m.ctrl, KeybdEvent(VK_CONTROL, dwFlags))
          + When(m.shift, KeybdEvent(VK_SHIFT, dwFlags))
  {
    var s := PressOrder(m);
    ModifierEventsStep(s, dwFlags, 0);
    ModifierEventsStep(s, dwFlags, 1);
    ModifierEventsStep(s, dwFlags, 2);
    assert s[..0] == [] && s[..3] == s;
  }

  /** The release pass: SHIFT, then CTRL, then ALT, each only if it applies. */
  lemma {:induction false} ReleasePass(m: Modifiers, dwFlags: int)
    ensures ModifierEvents(ReleaseOrder(m), dwFlags)
         == When(m.shift, KeybdEvent(VK_SHIFT, dwFlags))
          + When(m.ctrl, KeybdEvent(VK_CONTROL, dwFlags))
          + When(m.alt, KeybdEvent(VK_MENU, dwFlags))
  {
    var s := ReleaseOrder(m);
    ModifierEventsStep(s, dwFlags, 0);
    ModifierEventsStep(s, dwFlags, 1);
    ModifierEventsStep(s, dwFlags, 2);
    assert s[..0] == [] && s[..3] == s;
  }

  /** Each pass sends one event per applied modifier. */
  lemma PassLengths(m: Modifiers)
    ensures |ModifierEvents(PressOrder(m), KEYEVENTF_KEYDOWN)| == ModifierCount(m)
    ensures |ModifierEvents(ReleaseOrder(m), KEYEVENTF_KEYUP)| == ModifierCount(m)
  {
    PressPass(m, KEYEVENTF_KEYDOWN);
    ReleasePass(m, KEYEVENTF_KEYUP);
  }

  /** `_keyDown` in full: ALT, CTRL, SHIFT down as they apply, the key down,
      then SHIFT, CTRL, ALT up again. */
  lemma KeyDownSpelledOut(value: int, needsShift: bool)
    ensures var code := Split(value);
      var alt, ctrl, shift := Applied(code.mods, needsShift).alt, Applied(code.mods, needsShift).ctrl, Applied(code.mods, needsShift).shift;
      KeyDownSequence(value, needsShift)
      == When(alt, Press(VK_MENU)) + When(ctrl, Press(VK_CONTROL)) + When(shift, Press(VK_SHIFT))
       + [Press(code.vkCode)]
       + When(shift, Release(VK_SHIFT)) + When(ctrl, Release(VK_CONTROL)) + When(alt, Release(VK_MENU))
  {
    var code := Split(value);
    var m := Applied(code.mods, needsShift);
    PressPass(m, KEYEVENTF_KEYDOWN);
    ReleasePass(m, KEYEVENTF_KEYUP);
  }

  /** `_keyUp` in full: ALT, CTRL, SHIFT down as they apply, the key up,
      then SHIFT, CTRL, ALT up. */
  lemma KeyUpSpelledOut(value: int, needsShift: bool)
    ensures var code := Split(value);
      var alt, ctrl, shift := Applied(code.mods, needsShift).alt, Applied(code.mods, needsShift).ctrl, Applied(code.mods, needsShift).shift;
      KeyUpSequence(value, needsShift)
      == When(alt, Press(VK_MENU)) + When(ctrl, Press(VK_CONTROL)) + When(shift, Press(VK_SHIFT))
       + [Release(code.vkCode)]
       + When(shift, Release(VK_SHIFT)) + When(ctrl, Release(VK_CONTROL)) + When(alt, Release(VK_MENU))
  {
    var code := Split(value);
    var m := Applied(code.mods, needsShift);
    PressPass(m, KEYEVENTF_KEYDOWN);
    ReleasePass(m, KEYEVENTF_KEYUP);
  }

  /** A key with no modifier bits that needs no shift is a single event. */
  lemma BareKeyIsOneEvent(value: int, needsShift: bool)
    requires 0 <= value < 0x100 && !needsShift
    ensures KeyDownSequence(value, needsShift) == [Press(value)]
    ensures KeyUpSequence(value, needsShift) == [Release(value)]
  {
    var m := Applied(Split(value).mods, needsShift);
    assert m == Modifiers(false, false, false);
    PressPass(m, KEYEVENTF_KEYDOWN);
    ReleasePass(m, KEYEVENTF_KEYUP);
  }

  /** Only the three low modifier bits matter: adding any multiple of 0x800
      to a value (bit 8 of the modifier byte is Hankaku, and everything
      above it) leaves both calls' events unchanged. */
  lemma HighModifierBitsIgnored(value: int, k: int, needsShift: bool)
    ensures KeyDownSequence(value + k * 0x800, needsShift) == KeyDownSequence(value, needsShift)
    ensures KeyUpSequence(value + k * 0x800, needsShift) == KeyUpSequence(value, needsShift)
  {
    var code, code' := Split(value), Split(value + k * 0x800);
    assert code' == KeyCode(code.mods + 8 * k, code.vkCode);
    AppliedIgnoresHighBits(code.mods, k, needsShift);
  }

  /** Adding a multiple of 8 to the modifier byte applies the same modifiers. */
  lemma AppliedIgnoresHighBits(mods: int, k: int, needsShift: bool)
    ensures Applied(mods + 8 * k, needsShift) == Applied(mods, needsShift)
  {
    QuotientOf(mods + 8 * k, mods / 8 + k, mods % 8, 8);
    QuotientOf(mods + 8 * k, mods / 4 + 2 * k, mods % 4, 4);
    QuotientOf(mods + 8 * k, mods / 2 + 4 * k, mods % 2, 2);
  }

  /** VkKeyScanA's failure value -1 is stored as is; it splits into code
      0xFF with every modifier bit set, so both calls wrap VK 0xFF in ALT,
      CTRL and SHIFT. */
  lemma ScanFailureValue(needsShift: bool)
    ensures KeyDownSequence(-1, needsShift)
         == [Press(VK_MENU), Press(VK_CONTROL), Press(VK_SHIFT), Press(0xFF),
             Release(VK_SHIFT), Release(VK_CONTROL), Release(VK_MENU)]
    ensures KeyUpSequence(-1, needsShift)
         == [Press(VK_MENU), Press(VK_CONTROL), Press(VK_SHIFT), Release(0xFF),
             Release(VK_SHIFT), Release(VK_CONTROL), Release(VK_MENU)]
  {
    assert Split(-1) == KeyCode(-1, 0xFF);
    var m := Applied(-1, needsShift);
    assert m == Modifiers(true, true, true);
    PressPass(m, KEYEVENTF_KEYDOWN);
    ReleasePass(m, KEYEVENTF_KEYUP);
  }

  // ---------------------------------------------------------------------
  // What the events do to the set of keys held down

  /** The virtual keys held down after `events`, starting from `held`. */
  function Replay(held: set<int>, events: seq<Input>): set<int> {
    if events == [] then held
    else
      var e := events[|events| - 1];
      var before := Replay(held, events[..|events| - 1]);
      if !e.KeybdEvent? then before
      else if e.dwFlags == KEYEVENTF_KEYUP then before - {e.bVk}
      else before + {e.bVk}
  }

  /** Replaying two runs of events one after the other. */
  lemma {:induction false} ReplayAppend(held: set<int>, a: seq<Input>, b: seq<Input>)
    ensures Replay(held, a + b) == Replay(Replay(held, a), b)
  {
    if b == [] {
      assert a + b == a;
    } else {
      assert (a + b)[..|a + b| - 1] == a + b[..|b| - 1];
      ReplayAppend(held, a, b[..|b| - 1]);
    }
  }

  /** Replaying `When(b, e)`. */
  lemma ReplayWhen(held: set<int>, b: bool, e: Input)
    ensures Replay(held, When(b, e)) == if b then Replay(held, [e]) else held
  {
    if b {
      assert [e][..0] == [];
    }
  }

  /** The press pass holds down exactly the applied modifiers. */
  lemma ReplayPressPass(held: set<int>, m: Modifiers)
    ensures Replay(held, ModifierEvents(PressOrder(m), KEYEVENTF_KEYDOWN)) == held + AppliedModifiers(m)
  {
    PressPass(m, KEYEVENTF_KEYDOWN);
    ReplayPresses(held, m);
  }

  /** Pressing ALT, CTRL and SHIFT as they apply adds the applied modifiers. */
  lemma ReplayPresses(held: set<int>, m: Modifiers)
    ensures Replay(held, When(m.alt, Press(VK_MENU)) + When(m.ctrl, Press(VK_CONTROL)) + When(m.shift, Press(VK_SHIFT)))
         == held + AppliedModifiers(m)
  {
    var p1, p2, p3 := When(m.alt, Press(VK_MENU)), When(m.ctrl, Press(VK_CONTROL)), When(m.shift, Press(VK_SHIFT));
    ReplayAppend(held, p1 + p2, p3);
    ReplayAppend(held, p1, p2);
    var s1, s2, s3 := (if m.alt then {VK_MENU} else {}), (if m.ctrl then {VK_CONTROL} else {}), (if m.shift then {VK_SHIFT} else {});
    ReplayWhen(held, m.alt, Press(VK_MENU));
    assert Replay(held, p1) == held + s1;
    ReplayWhen(held + s1, m.ctrl, Press(VK_CONTROL));
    assert Replay(held, p1 + p2) == held + s1 + s2;
    ReplayWhen(held + s1 + s2, m.shift, Press(VK_SHIFT));
  }

  /** The release pass lets go of exactly the applied modifiers. */
  lemma ReplayReleasePass(held: set<int>, m: Modifiers)
    ensures Replay(held, ModifierEvents(ReleaseOrder(m), KEYEVENTF_KEYUP)) == held - AppliedModifiers(m)
  {
    ReleasePass(m, KEYEVENTF_KEYUP);
    ReplayReleases(held, m);
  }

  /** Releasing SHIFT, CTRL and ALT as they apply removes the applied modifiers. */
  lemma ReplayReleases(held: set<int>, m: Modifiers)
    ensures Replay(held, When(m.shift, Release(VK_SHIFT)) + When(m.ctrl, Release(VK_CONTROL)) + When(m.alt, Release(VK_MENU)))
         == held - AppliedModifiers(m)
  {
    var r1, r2, r3 := When(m.shift, Release(VK_SHIFT)), When(m.ctrl, Release(VK_CONTROL)), When(m.alt, Release(VK_MENU));
    ReplayAppend(held, r1 + r2, r3);
    ReplayAppend(held, r1, r2);
    var s1, s2, s3 := (if m.shift then {VK_SHIFT} else {}), (if m.ctrl then {VK_CONTROL} else {}), (if m.alt then {VK_MENU} else {});
    ReplayWhen(held, m.shift, Release(VK_SHIFT));
    assert Replay(held, r1) == held - s1;
    ReplayWhen(held - s1, m.ctrl, Release(VK_CONTROL));
    assert Replay(held, r1 + r2) == held - s1 - s2;
    ReplayWhen(held - s1 - s2, m.alt, Release(VK_MENU));
    assert Replay(held, r1 + r2 + r3) == held - s1 - s2 - s3;
    assert AppliedModifiers(m) == s3 + s2 + s1;
  }

  /** A wrapped key event: every applied modifier is down when `main` is
      sent, and afterwards the keys held are those `main` leaves, less
      every applied modifier. */
  lemma WrappedReplay(held: set<int>, m: Modifiers, main: Input)
    ensures var events, k := Wrapped(m, main), ModifierCount(m);
      && k < |events| && events[k] == main
      && AppliedModifiers(m) <= Replay(held, events[..k])
      && Replay(held, events) == Replay(held + AppliedModifiers(m), [main]) - AppliedModifiers(m)
  {
    var presses := ModifierEvents(PressOrder(m), KEYEVENTF_KEYDOWN);
    var releases := ModifierEvents(ReleaseOrder(m), KEYEVENTF_KEYUP);
    var events := Wrapped(m, main);
    PassLengths(m);
    assert events[..|presses|] == presses;
    ReplayPressPass(held, m);
    ReplayReleasePass(Replay(held + AppliedModifiers(m), [main]), m);
    ReplayAppend(held, presses + [main], releases);
    ReplayAppend(held, presses, [main]);
  }

  /** Whatever was held before, every applied modifier is down when the
      key's own event is sent; after `_keyDown` every applied modifier is
      released (even one that was held before), and the key is held unless
      its own code is one of the applied modifiers (value 0x110, SHIFT with
      the shift bit, ends with SHIFT released). */
  lemma KeyDownHolds(held: set<int>, value: int, needsShift: bool)
    ensures var code := Split(value);
      var applied := AppliedModifiers(Applied(code.mods, needsShift));
      var events := KeyDownSequence(value, needsShift);
      var m := ModifierCount(Applied(code.mods, needsShift));
      && m < |events| && events[m] == Press(code.vkCode)
      && applied <= Replay(held, events[..m])
      && Replay(held, events) == (held + {code.vkCode}) - applied
      && (code.vkCode !in applied ==> code.vkCode in Replay(held, events))
  {
    var code := Split(value);
    var m := Applied(code.mods, needsShift);
    WrappedReplay(held, m, Press(code.vkCode));
    assert [Press(code.vkCode)][..0] == [];
  }

  /** Every applied modifier is down when the key is released; after
      `_keyUp` the key and every applied modifier are up. */
  lemma KeyUpReleases(held: set<int>, value: int, needsShift: bool)
    ensures var code := Split(value);
      var applied := AppliedModifiers(Applied(code.mods, needsShift));
      var events := KeyUpSequence(value, needsShift);
      var m := ModifierCount(Applied(code.mods, needsShift));
      && m < |events| && events[m] == Release(code.vkCode)
      && applied <= Replay(held, events[..m])
      && Replay(held, events) == (held - {code.vkCode}) - applied
  {
    var code := Split(value);
    var m := Applied(code.mods, needsShift);
    WrappedReplay(held, m, Release(code.vkCode));
    assert [Release(code.vkCode)][..0] == [];
  }
}
