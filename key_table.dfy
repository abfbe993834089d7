/** The key-name table of the Windows back end (`keyboardMapping`): every
    name of the platform-independent vocabulary, a static list of named
    virtual keys, and the printable characters whose codes come from
    VkKeyScanA when the module is loaded. A stored value packs the modifier
    bits in its high byte and the virtual-key code in its low byte. */
module KeyTable {
  import opened Win32Input

  /** The table: a key name maps to `None` (known but unmapped) or to a
      packed value; a name that is not a key at all is absent. */
  type KeyMap = map<string, Option<int>>

  /** An entry of the dictionary literal: a bare virtual-key code, and a
      name that is not one of the scanned characters unless it is the space. */
  ghost predicate BareEntry(name: string, code: int) {
    0 <= code < 0x100 && (IsPrintableKey(name) ==> name == " ")
  }

  /** The dictionary literal of named keys and their virtual-key codes,
      written as six groups that follow the literal's own order (the
      groups share no name, so their merge is the literal). */
  function StaticKeys(): (m: map<string, int>)
    ensures forall k :: k in m ==> BareEntry(k, m[k])
  {
    var m1 := ControlKeys() + EditingKeys();
    BareUnion(ControlKeys(), EditingKeys());
    var m2 := m1 + WindowsAndNumpadKeys();
    BareUnion(m1, WindowsAndNumpadKeys());
    var m3 := m2 + FunctionKeys();
    BareUnion(m2, FunctionKeys());
    var m4 := m3 + LockAndSideModifierKeys();
    BareUnion(m3, LockAndSideModifierKeys());
    BareUnion(m4, MediaKeys());
    m4 + MediaKeys()
  }

  /** Static entries: control, lock and IME keys. */
  function ControlKeys(): (m: map<string, int>)
    ensures forall k :: k in m ==> BareEntry(k, m[k])
  {
    map[
      "backspace" := 0x08,  // VK_BACK
      "\U{0008}" := 0x08,  // VK_BACK
      "super" := 0x5B,  // VK_LWIN
      "tab" := 0x09,  // VK_TAB
      "\t" := 0x09,  // VK_TAB
      "clear" := 0x0C,  // VK_CLEAR
      "enter" := 0x0D,  // VK_RETURN
      "\n" := 0x0D,  // VK_RETURN
      "return" := 0x0D,  // VK_RETURN
      "shift" := 0x10,  // VK_SHIFT
      "ctrl" := 0x11,  // VK_CONTROL
      "alt" := 0x12,  // VK_MENU
      "pause" := 0x13,  // VK_PAUSE
      "capslock" := 0x14,  // VK_CAPITAL
      "kana" := 0x15,  // VK_KANA
      "hanguel" := 0x15,  // VK_HANGUEL
      "hangul" := 0x15,  // VK_HANGUL
      "junja" := 0x17,  // VK_JUNJA
      "final" := 0x18,  // VK_FINAL
      "hanja" := 0x19,  // VK_HANJA
      "kanji" := 0x19,  // VK_KANJI
      "esc" := 0x1B,  // VK_ESCAPE
      "escape" := 0x1B,  // VK_ESCAPE
      "convert" := 0x1C,  // VK_CONVERT
      "nonconvert" := 0x1D,  // VK_NONCONVERT
      "accept" := 0x1E,  // VK_ACCEPT
      "modechange" := 0x1F   // VK_MODECHANGE
    ]
  }

  /** Static entries: space, paging, arrow and editing keys. */
  function EditingKeys(): (m: map<string, int>)
    ensures forall k :: k in m ==> BareEntry(k, m[k])
    ensures " " in m && m[" "] == 0x20
  {
    map[
      " " := 0x20,  // VK_SPACE
      "space" := 0x20,  // VK_SPACE
      "pgup" := 0x21,  // VK_PRIOR
      "pgdn" := 0x22,  // VK_NEXT
      "pageup" := 0x21,  // VK_PRIOR
      "pagedown" := 0x22,  // VK_NEXT
      "end" := 0x23,  // VK_END
      "home" := 0x24,  // VK_HOME
      "left" := 0x25,  // VK_LEFT
      "up" := 0x26,  // VK_UP
      "right" := 0x27,  // VK_RIGHT
      "down" := 0x28,  // VK_DOWN
      "select" := 0x29,  // VK_SELECT
      "print" := 0x2A,  // VK_PRINT
      "execute" := 0x2B,  // VK_EXECUTE
      "prtsc" := 0x2C,  // VK_SNAPSHOT
      "prtscr" := 0x2C,  // VK_SNAPSHOT
      "prntscrn" := 0x2C,  // VK_SNAPSHOT
      "printscreen" := 0x2C,  // VK_SNAPSHOT
      "insert" := 0x2D,  // VK_INSERT
      "del" := 0x2E,  // VK_DELETE
      "delete" := 0x2E,  // VK_DELETE
      "help" := 0x2F   // VK_HELP
    ]
  }

  /** Static entries: Windows, application, sleep and numeric-keypad keys. */
  function WindowsAndNumpadKeys(): (m: map<string, int>)
    ensures forall k :: k in m ==> BareEntry(k, m[k])
    ensures " " !in m
  {
    map[
      "win" := 0x5B,  // VK_LWIN
      "winleft" := 0x5B,  // VK_LWIN
      "winright" := 0x5C,  // VK_RWIN
      "apps" := 0x5D,  // VK_APPS
      "sleep" := 0x5F,  // VK_SLEEP
      "num0" := 0x60,  // VK_NUMPAD0
      "num1" := 0x61,  // VK_NUMPAD1
      "num2" := 0x62,  // VK_NUMPAD2
      "num3" := 0x63,  // VK_NUMPAD3
      "num4" := 0x64,  // VK_NUMPAD4
      "num5" := 0x65,  // VK_NUMPAD5
      "num6" := 0x66,  // VK_NUMPAD6
      "num7" := 0x67,  // VK_NUMPAD7
      "num8" := 0x68,  // VK_NUMPAD8
      "num9" := 0x69,  // VK_NUMPAD9
      "multiply" := 0x6A,  // VK_MULTIPLY
      "add" := 0x6B,  // VK_ADD
      "separator" := 0x6C,  // VK_SEPARATOR
      "subtract" := 0x6D,  // VK_SUBTRACT
      "decimal" := 0x6E,  // VK_DECIMAL
      "divide" := 0x6F   // VK_DIVIDE
    ]
  }

  /** Static entries: function keys F1 to F24. */
  function FunctionKeys(): (m: map<string, int>)
    ensures forall k :: k in m ==> BareEntry(k, m[k])
    ensures " " !in m
  {
    map[
      "f1" := 0x70,  // VK_F1
      "f2" := 0x71,  // VK_F2
      "f3" := 0x72,  // VK_F3
      "f4" := 0x73,  // VK_F4
      "f5" := 0x74,  // VK_F5
      "f6" := 0x75,  // VK_F6
      "f7" := 0x76,  // VK_F7
      "f8" := 0x77,  // VK_F8
      "f9" := 0x78,  // VK_F9
      "f10" := 0x79,  // VK_F10
      "f11" := 0x7A,  // VK_F11
      "f12" := 0x7B,  // VK_F12
      "f13" := 0x7C,  // VK_F13
      "f14" := 0x7D,  // VK_F14
      "f15" := 0x7E,  // VK_F15
      "f16" := 0x7F,  // VK_F16
      "f17" := 0x80,  // VK_F17
      "f18" := 0x81,  // VK_F18
      "f19" := 0x82,  // VK_F19
      "f20" := 0x83,  // VK_F20
      "f21" := 0x84,  // VK_F21
      "f22" := 0x85,  // VK_F22
      "f23" := 0x86,  // VK_F23
      "f24" := 0x87   // VK_F24
    ]
  }

  /** Static entries: lock keys and the left/right modifier keys. */
  function LockAndSideModifierKeys(): (m: map<string, int>)
    ensures forall k :: k in m ==> BareEntry(k, m[k])
    ensures " " !in m
  {
    map[
      "numlock" := 0x90,  // VK_NUMLOCK
      "scrolllock" := 0x91,  // VK_SCROLL
      "shiftleft" := 0xA0,  // VK_LSHIFT
      "shiftright" := 0xA1,  // VK_RSHIFT
      "ctrlleft" := 0xA2,  // VK_LCONTROL
      "ctrlright" := 0xA3,  // VK_RCONTROL
      "altleft" := 0xA4,  // VK_LMENU
      "altright" := 0xA5   // VK_RMENU
    ]
  }

  /** Static entries: browser, volume, media and launch keys. */
  function MediaKeys(): (m: map<string, int>)
    ensures forall k :: k in m ==> BareEntry(k, m[k])
    ensures " " !in m
  {
    map[
      "browserback" := 0xA6,  // VK_BROWSER_BACK
      "browserforward" := 0xA7,  // VK_BROWSER_FORWARD
      "browserrefresh" := 0xA8,  // VK_BROWSER_REFRESH
      "browserstop" := 0xA9,  // VK_BROWSER_STOP
      "browsersearch" := 0xAA,  // VK_BROWSER_SEARCH
      "browserfavorites" := 0xAB,  // VK_BROWSER_FAVORITES
      "browserhome" := 0xAC,  // VK_BROWSER_HOME
      "volumemute" := 0xAD,  // VK_VOLUME_MUTE
      "volumedown" := 0xAE,  // VK_VOLUME_DOWN
      "volumeup" := 0xAF,  // VK_VOLUME_UP
      "nexttrack" := 0xB0,  // VK_MEDIA_NEXT_TRACK
      "prevtrack" := 0xB1,  // VK_MEDIA_PREV_TRACK
      "stop" := 0xB2,  // VK_MEDIA_STOP
      "playpause" := 0xB3,  // VK_MEDIA_PLAY_PAUSE
      "launchmail" := 0xB4,  // VK_LAUNCH_MAIL
      "launchmediaselect" := 0xB5,  // VK_LAUNCH_MEDIA_SELECT
      "launchapp1" := 0xB6,  // VK_LAUNCH_APP1
      "launchapp2" := 0xB7   // VK_LAUNCH_APP2
    ]
  }

  /** chr(c), the one-character key name for code point `c`. */
  function KeyOf(c: int): (k: string)
    requires 0 <= c < 0xD800
    ensures |k| == 1 && k[0] as int == c
  {
    [c as char]
  }

  /** The single-character names the printable scan covers: chr(c) for
      every c in range(32, 128), so 0x7F (DEL) included. */
  ghost predicate IsPrintableKey(k: string) {
    |k| == 1 && 32 <= k[0] as int < 128
  }

  /** Every vocabulary name, mapped to `None`. */
  function UnmappedNames(keyNames: set<string>): (m: KeyMap)
    ensures forall k :: k in m <==> k in keyNames
    ensures forall k :: k in m ==> m[k].None?
  {
    map k | k in keyNames :: None
  }

  /** The entries of a dictionary literal, as table entries. */
  function StaticEntries(staticKeys: map<string, int>): KeyMap {
    map k | k in staticKeys :: Some(staticKeys[k])
  }

  /** The entries written by the rounds of the scan loop for the codes
      32 up to (not including) `n`, one character per round. */
  function ScannedBelow(vkKeyScan: char -> int, n: int): (m: KeyMap)
    requires n <= 128
    ensures forall k :: k in m <==> |k| == 1 && 32 <= k[0] as int < n
    ensures forall k :: k in m ==> m[k] == Some(vkKeyScan(k[0]))
  {
    if n <= 32 then map[]
    else
      var prev := ScannedBelow(vkKeyScan, n - 1);
      var key := KeyOf(n - 1);
      assert forall k | |k| == 1 && k[0] as int == n - 1 :: k == key;
      prev[key := Some(vkKeyScan((n - 1) as char))]
  }

  /** `dict([(key, None) for key in KEY_NAMES]) | {...}`: every vocabulary
      name and every static name is a key, and a static name takes its
      static code whether or not it is also a vocabulary name. */
  function MergedDictionary(keyNames: set<string>, staticKeys: map<string, int>): (m: KeyMap)
    ensures forall k :: k in m <==> k in keyNames || k in staticKeys
    ensures forall k :: k in staticKeys ==> m[k] == Some(staticKeys[k])
    ensures forall k :: k in keyNames && k !in staticKeys ==> m[k] == None
  {
    UnmappedNames(keyNames) + StaticEntries(staticKeys)
  }

  /** The table as the module leaves it once loaded: the vocabulary set to
      `None`, overridden by the static entries, overridden in turn by the
      scanned printable characters. `vkKeyScan` stands for VkKeyScanA under
      the keyboard layout active at load time. */
  function KeyboardMapping(keyNames: set<string>, staticKeys: map<string, int>, vkKeyScan: char -> int): (m: KeyMap)
    ensures forall k :: k in m <==> k in keyNames || k in staticKeys || IsPrintableKey(k)
    ensures forall k :: IsPrintableKey(k) ==> m[k] == Some(vkKeyScan(k[0]))
    ensures forall k :: k in staticKeys && !IsPrintableKey(k) ==> m[k] == Some(staticKeys[k])
    ensures forall k :: k in keyNames && k !in staticKeys && !IsPrintableKey(k) ==> m[k] == None
  {
    var scanned := ScannedBelow(vkKeyScan, 128);
    assert forall k :: k in scanned <==> IsPrintableKey(k);
    MergedDictionary(keyNames, staticKeys) + scanned
  }

  /** Builds the table the way the module does at load time: the merged
      dictionary first, then one VkKeyScanA query per printable character,
      each overwriting whatever entry that character had. */
  method BuildKeyboardMapping(keyNames: set<string>, staticKeys: map<string, int>, vkKeyScan: char -> int) returns (mapping: KeyMap)
    ensures mapping == KeyboardMapping(keyNames, staticKeys, vkKeyScan)
  {
    var merged := MergedDictionary(keyNames, staticKeys);
    mapping := merged;
    assert ScannedBelow(vkKeyScan, 32) == map[];
    var c := 32;
    while c < 128
      invariant 32 <= c <= 128
      invariant mapping == merged + ScannedBelow(vkKeyScan, c)
    {
      var key := KeyOf(c);
      ScanStep(merged, vkKeyScan, c);
      mapping := mapping[key := Some(vkKeyScan(c as char))];
      c := c + 1;
    }
    ScanCompletesTable(keyNames, staticKeys, vkKeyScan);
  }

  /** Once every printable character is scanned, the table is complete. */
  lemma ScanCompletesTable(keyNames: set<string>, staticKeys: map<string, int>, vkKeyScan: char -> int)
    ensures MergedDictionary(keyNames, staticKeys) + ScannedBelow(vkKeyScan, 128)
         == KeyboardMapping(keyNames, staticKeys, vkKeyScan)
  {
  }

  /** One round of the scan loop: writing chr(c) extends the scanned
      entries by that one character. */
  lemma ScanStep(base: KeyMap, vkKeyScan: char -> int, c: int)
    requires 32 <= c < 128
    ensures (base + ScannedBelow(vkKeyScan, c))[KeyOf(c) := Some(vkKeyScan(c as char))]
         == base + ScannedBelow(vkKeyScan, c + 1)
  {
  }

  /** The space bar appears in the dictionary literal as VK_SPACE, but the
      scan loop overwrites it with whatever VkKeyScanA reports for ' '. */
  lemma SpaceScanOverridesStatic(keyNames: set<string>, vkKeyScan: char -> int)
    ensures " " in StaticKeys() && StaticKeys()[" "] == 0x20
    ensures KeyboardMapping(keyNames, StaticKeys(), vkKeyScan)[" "] == Some(vkKeyScan(' '))
  {
    StaticSpace();
    ScannedSpace(keyNames, StaticKeys(), vkKeyScan);
  }

  /** The dictionary literal's own entry for the space bar. */
  lemma StaticSpace()
    ensures " " in StaticKeys() && StaticKeys()[" "] == 0x20
  {
    var sofar := ControlKeys() + EditingKeys();
    assert sofar[" "] == 0x20;
    sofar := sofar + WindowsAndNumpadKeys();
    assert sofar[" "] == 0x20;
    sofar := sofar + FunctionKeys();
    assert sofar[" "] == 0x20;
    sofar := sofar + LockAndSideModifierKeys();
    assert sofar[" "] == 0x20;
    sofar := sofar + MediaKeys();
    assert sofar == StaticKeys();
  }

  /** Whatever the dictionary says, ' ' ends up with its scanned value. */
  lemma ScannedSpace(keyNames: set<string>, staticKeys: map<string, int>, vkKeyScan: char -> int)
    ensures KeyboardMapping(keyNames, staticKeys, vkKeyScan)[" "] == Some(vkKeyScan(' '))
  {
    assert IsPrintableKey(" ") && " "[0] == ' ';
  }

  /** Merging two groups of bare entries gives bare entries. */
  lemma BareUnion(a: map<string, int>, b: map<string, int>)
    requires forall k :: k in a ==> BareEntry(k, a[k])
    requires forall k :: k in b ==> BareEntry(k, b[k])
    ensures forall k :: k in a + b ==> BareEntry(k, (a + b)[k])
  {
  }
}
