/**
  `KeyTables` of servo_gtk/key_tables.rs: the map from GDK keyvals to the names of the
  W3C "UI Events KeyboardEvent key Values" specification (section 3, named key values)
  together with a key location, and the list of keypad keyvals used when a keyval falls
  back to its character.

  Keyvals are the X11 keysym numbers GDK uses (`gdk::Key::…`); each entry carries the
  GDK name in a comment. `gdk::Key::to_unicode` is a parameter of the lookup.
*/
module KeyTables {
  import opened Base

  /** `KeyLocation` (servo_gtk/key_tables.rs:10-15). */
  datatype KeyLocation = Standard | Left | Right | Numpad

  /** One `keys.insert(keyval, (name, location))` of `KeyTables::new`. */
  datatype KeyEntry = KeyEntry(keyval: u32, name: string, location: KeyLocation)

  /** A value of the `keys` map. */
  datatype KeyName = KeyName(name: string, location: KeyLocation)

  /** What `key_from_keyval` returns: the key string, whether it is a character, and
      the location. */
  datatype KeyInfo = KeyInfo(key: string, isCharacter: bool, location: KeyLocation)

  /** The standard-location entries, in insertion order (servo_gtk/key_tables.rs:27-484). */
  const STANDARD_KEYS: seq<KeyEntry> := [
    KeyEntry(0xff3d, "AllCandidates", Standard), // MultipleCandidate
    KeyEntry(0xff2f, "Alphanumeric", Standard), // Eisu_Shift
    KeyEntry(0xfe03, "AltGraph", Standard), // ISO_Level3_Shift
    KeyEntry(0xff54, "ArrowDown", Standard), // Down
    KeyEntry(0xff51, "ArrowLeft", Standard), // Left
    KeyEntry(0xff53, "ArrowRight", Standard), // Right
    KeyEntry(0xff52, "ArrowUp", Standard), // Up
    KeyEntry(0xfd0e, "Attn", Standard), // 3270_Attn
    KeyEntry(0x1008ff11, "AudioVolumeDown", Standard), // AudioLowerVolume
    KeyEntry(0x1008ff12, "AudioVolumeMute", Standard), // AudioMute
    KeyEntry(0x1008ff13, "AudioVolumeUp", Standard), // AudioRaiseVolume
    KeyEntry(0xff08, "Backspace", Standard), // BackSpace
    KeyEntry(0x1008ff03, "BrightnessDown", Standard), // MonBrightnessDown
    KeyEntry(0x1008ff02, "BrightnessUp", Standard), // MonBrightnessUp
    KeyEntry(0x1008ff26, "BrowserBack", Standard), // Back
    KeyEntry(0x1008ff27, "BrowserForward", Standard), // Forward
    KeyEntry(0x1008ff18, "BrowserHome", Standard), // HomePage
    KeyEntry(0x1008ff29, "BrowserRefresh", Standard), // Refresh
    KeyEntry(0x1008ff1b, "BrowserSearch", Standard), // Search
    KeyEntry(0x1008ff28, "BrowserStop", Standard), // Stop
    KeyEntry(0xff69, "Cancel", Standard), // Cancel
    KeyEntry(0xffe5, "CapsLock", Standard), // Caps_Lock
    KeyEntry(0xff0b, "Clear", Standard), // Clear
    KeyEntry(0x1008ff56, "Close", Standard), // Close
    KeyEntry(0xff37, "CodeInput", Standard), // Codeinput
    KeyEntry(0x1008ffa3, "ColorF0Red", Standard), // Red
    KeyEntry(0x1008ffa4, "ColorF1Green", Standard), // Green
    KeyEntry(0x1008ffa5, "ColorF2Yellow", Standard), // Yellow
    KeyEntry(0x1008ffa6, "ColorF3Blue", Standard), // Blue
    KeyEntry(0xff20, "Compose", Standard), // Multi_key
    KeyEntry(0xff67, "ContextMenu", Standard), // Menu
    KeyEntry(0xff23, "Convert", Standard), // Henkan
    KeyEntry(0x1008ff57, "Copy", Standard), // Copy
    KeyEntry(0xfd1c, "CrSel", Standard), // 3270_CursorSelect
    KeyEntry(0x1008ff58, "Cut", Standard), // Cut
    KeyEntry(0xffff, "Delete", Standard), // Delete
    KeyEntry(0x1008ff3b, "Dimmer", Standard), // BrightnessAdjust
    KeyEntry(0x1008ff2c, "Eject", Standard), // Eject
    KeyEntry(0xff57, "End", Standard), // End
    KeyEntry(0xff0d, "Enter", Standard), // Return
    KeyEntry(0xfd06, "EraseEof", Standard), // 3270_EraseEOF
    KeyEntry(0xff1b, "Escape", Standard), // Escape
    KeyEntry(0xfd1b, "ExSel", Standard), // 3270_ExSelect
    KeyEntry(0xff62, "Execute", Standard), // Execute
    KeyEntry(0xffbe, "F1", Standard), // F1
    KeyEntry(0xffbf, "F2", Standard), // F2
    KeyEntry(0xffc0, "F3", Standard), // F3
    KeyEntry(0xffc1, "F4", Standard), // F4
    KeyEntry(0xffc2, "F5", Standard), // F5
    KeyEntry(0xffc3, "F6", Standard), // F6
    KeyEntry(0xffc4, "F7", Standard), // F7
    KeyEntry(0xffc5, "F8", Standard), // F8
    KeyEntry(0xffc6, "F9", Standard), // F9
    KeyEntry(0xffc7, "F10", Standard), // F10
    KeyEntry(0xffc8, "F11", Standard), // F11
    KeyEntry(0xffc9, "F12", Standard), // F12
    KeyEntry(0xffca, "F13", Standard), // F13
    KeyEntry(0xffcb, "F14", Standard), // F14
    KeyEntry(0xffcc, "F15", Standard), // F15
    KeyEntry(0xffcd, "F16", Standard), // F16
    KeyEntry(0xffce, "F17", Standard), // F17
    KeyEntry(0xffcf, "F18", Standard), // F18
    KeyEntry(0xffd0, "F19", Standard), // F19
    KeyEntry(0xffd1, "F20", Standard), // F20
    KeyEntry(0xffd2, "F21", Standard), // F21
    KeyEntry(0xffd3, "F22", Standard), // F22
    KeyEntry(0xffd4, "F23", Standard), // F23
    KeyEntry(0xffd5, "F24", Standard), // F24
    KeyEntry(0xffd6, "F25", Standard), // F25
    KeyEntry(0xffd7, "F26", Standard), // F26
    KeyEntry(0xffd8, "F27", Standard), // F27
    KeyEntry(0xffd9, "F28", Standard), // F28
    KeyEntry(0xffda, "F29", Standard), // F29
    KeyEntry(0xffdb, "F30", Standard), // F30
    KeyEntry(0xffdc, "F31", Standard), // F31
    KeyEntry(0xffdd, "F32", Standard), // F32
    KeyEntry(0xffde, "F33", Standard), // F33
    KeyEntry(0xffdf, "F34", Standard), // F34
    KeyEntry(0xffe0, "F35", Standard), // F35
    KeyEntry(0xff68, "Find", Standard), // Find
    KeyEntry(0xfe0c, "GroupFirst", Standard), // ISO_First_Group
    KeyEntry(0xfe0e, "GroupLast", Standard), // ISO_Last_Group
    KeyEntry(0xfe08, "GroupNext", Standard), // ISO_Next_Group
    KeyEntry(0xfe0a, "GroupPrevious", Standard), // ISO_Prev_Group
    KeyEntry(0xff29, "Hankaku", Standard), // Hankaku
    KeyEntry(0xff6a, "Help", Standard), // Help
    KeyEntry(0x1008ffa8, "Hibernate", Standard), // Hibernate
    KeyEntry(0xff25, "Hiragana", Standard), // Hiragana
    KeyEntry(0xff27, "HiraganaKatakana", Standard), // Hiragana_Katakana
    KeyEntry(0xff50, "Home", Standard), // Home
    KeyEntry(0xff63, "Insert", Standard), // Insert
    KeyEntry(0xff2d, "KanaMode", Standard), // Kana_Lock
    KeyEntry(0xff21, "KanjiMode", Standard), // Kanji
    KeyEntry(0xff26, "Katakana", Standard), // Katakana
    KeyEntry(0x1008ff1d, "LaunchCalculator", Standard), // Calculator
    KeyEntry(0x1008ff20, "LaunchCalendar", Standard), // Calendar
    KeyEntry(0x1008ff19, "LaunchMail", Standard), // Mail
    KeyEntry(0x1008ff53, "LaunchMediaPlayer", Standard), // CD
    KeyEntry(0x1008ff92, "LaunchMusicPlayer", Standard), // Music
    KeyEntry(0x1008ff33, "LaunchMyComputer", Standard), // MyComputer
    KeyEntry(0x1008ff2d, "LaunchScreenSaver", Standard), // ScreenSaver
    KeyEntry(0x1008ff5c, "LaunchSpreadsheet", Standard), // Excel
    KeyEntry(0x1008ff2e, "LaunchWebBrowser", Standard), // WWW
    KeyEntry(0x1008ff8f, "LaunchWebCam", Standard), // WebCam
    KeyEntry(0x1008ff89, "LaunchWordProcessor", Standard), // Word
    KeyEntry(0x1008ff61, "LogOff", Standard), // LogOff
    KeyEntry(0x1008ff90, "MailForward", Standard), // MailForward
    KeyEntry(0x1008ff72, "MailReply", Standard), // Reply
    KeyEntry(0x1008ff7b, "MailSend", Standard), // Send
    KeyEntry(0x1008ff97, "MediaFastForward", Standard), // AudioForward
    KeyEntry(0x1008ff31, "MediaPause", Standard), // AudioPause
    KeyEntry(0x1008ff14, "MediaPlay", Standard), // AudioPlay
    KeyEntry(0x1008ff1c, "MediaRecord", Standard), // AudioRecord
    KeyEntry(0x1008ff3e, "MediaRewind", Standard), // AudioRewind
    KeyEntry(0x1008ff15, "MediaStop", Standard), // AudioStop
    KeyEntry(0x1008ff17, "MediaTrackNext", Standard), // AudioNext
    KeyEntry(0x1008ff16, "MediaTrackPrevious", Standard), // AudioPrev
    KeyEntry(0x1008ff68, "New", Standard), // New
    KeyEntry(0xff22, "NonConvert", Standard), // Muhenkan
    KeyEntry(0xff7f, "NumLock", Standard), // Num_Lock
    KeyEntry(0x1008ff6b, "Open", Standard), // Open
    KeyEntry(0xff56, "PageDown", Standard), // Page_Down
    KeyEntry(0xff55, "PageUp", Standard), // Page_Up
    KeyEntry(0x1008ff6d, "Paste", Standard), // Paste
    KeyEntry(0xff13, "Pause", Standard), // Pause
    KeyEntry(0xfd16, "Play", Standard), // 3270_Play
    KeyEntry(0x1008ff2a, "PowerOff", Standard), // PowerOff
    KeyEntry(0xff3e, "PreviousCandidate", Standard), // PreviousCandidate
    KeyEntry(0xff61, "PrintScreen", Standard), // Print
    KeyEntry(0x1008ff99, "RandomToggle", Standard), // AudioRandomPlay
    KeyEntry(0xff66, "Redo", Standard), // Redo
    KeyEntry(0xff24, "Romaji", Standard), // Romaji
    KeyEntry(0x1008ff77, "Save", Standard), // Save
    KeyEntry(0xff14, "ScrollLock", Standard), // Scroll_Lock
    KeyEntry(0xff60, "Select", Standard), // Select
    KeyEntry(0xffe6, "Shift", Standard), // Shift_Lock
    KeyEntry(0xff3c, "SingleCandidate", Standard), // SingleCandidate
    KeyEntry(0x1008ff7c, "SpellCheck", Standard), // Spell
    KeyEntry(0x1008ff10, "Standby", Standard), // Standby
    KeyEntry(0x1008ff9a, "Subtitle", Standard), // Subtitle
    KeyEntry(0xff09, "Tab", Standard), // Tab
    KeyEntry(0xff65, "Undo", Standard), // Undo
    KeyEntry(0x1008fe22, "VideoModeNext", Standard), // Next_VMode
    KeyEntry(0x1008ff2b, "WakeUp", Standard), // WakeUp
    KeyEntry(0xff28, "Zenkaku", Standard), // Zenkaku
    KeyEntry(0xff2a, "ZenkakuHankaku", Standard), // Zenkaku_Hankaku
    KeyEntry(0x1008ff8b, "ZoomIn", Standard), // ZoomIn
    KeyEntry(0x1008ff8c, "ZoomOut", Standard)  // ZoomOut
  ]

  /** The left-location entries, in insertion order (servo_gtk/key_tables.rs:487-498). */
  const LEFT_KEYS: seq<KeyEntry> := [
    KeyEntry(0xffe9, "Alt", Left), // Alt_L
    KeyEntry(0xffe3, "Control", Left), // Control_L
    KeyEntry(0xffe7, "Meta", Left), // Meta_L
    KeyEntry(0xffeb, "OS", Left), // Super_L
    KeyEntry(0xffe1, "Shift", Left), // Shift_L
    KeyEntry(0xfe20, "Tab", Left)  // ISO_Left_Tab
  ]

  /** The right-location entries, in insertion order (servo_gtk/key_tables.rs:501-508). */
  const RIGHT_KEYS: seq<KeyEntry> := [
    KeyEntry(0xffea, "Alt", Right), // Alt_R
    KeyEntry(0xffe4, "Control", Right), // Control_R
    KeyEntry(0xffe8, "Meta", Right), // Meta_R
    KeyEntry(0xffec, "OS", Right), // Super_R
    KeyEntry(0xffe2, "Shift", Right)  // Shift_R
  ]

  /** The numpad-location entries, in insertion order (servo_gtk/key_tables.rs:511-553). */
  const NUMPAD_KEYS: seq<KeyEntry> := [
    KeyEntry(0xff99, "ArrowDown", Numpad), // KP_Down
    KeyEntry(0xff96, "ArrowLeft", Numpad), // KP_Left
    KeyEntry(0xff98, "ArrowRight", Numpad), // KP_Right
    KeyEntry(0xff97, "ArrowUp", Numpad), // KP_Up
    KeyEntry(0xff9f, "Delete", Numpad), // KP_Delete
    KeyEntry(0xff9c, "End", Numpad), // KP_End
    KeyEntry(0xff8d, "Enter", Numpad), // KP_Enter
    KeyEntry(0xff91, "F1", Numpad), // KP_F1
    KeyEntry(0xff92, "F2", Numpad), // KP_F2
    KeyEntry(0xff93, "F3", Numpad), // KP_F3
    KeyEntry(0xff94, "F4", Numpad), // KP_F4
    KeyEntry(0xff95, "Home", Numpad), // KP_Home
    KeyEntry(0xff9e, "Insert", Numpad), // KP_Insert
    KeyEntry(0xff9b, "PageDown", Numpad), // KP_Page_Down
    KeyEntry(0xff9a, "PageUp", Numpad), // KP_Page_Up
    KeyEntry(0xff89, "Tab", Numpad)  // KP_Tab
  ]

  /** `numpad_table` (servo_gtk/key_tables.rs:555-573). */
  const NUMPAD_TABLE: seq<u32> := [
    0xff8d, // KP_Enter
    0xffaa, // KP_Multiply
    0xffab, // KP_Add
    0xffac, // KP_Separator
    0xffad, // KP_Subtract
    0xffae, // KP_Decimal
    0xffaf, // KP_Divide
    0xffb0, // KP_0
    0xffb1, // KP_1
    0xffb2, // KP_2
    0xffb3, // KP_3
    0xffb4, // KP_4
    0xffb5, // KP_5
    0xffb6, // KP_6
    0xffb7, // KP_7
    0xffb8, // KP_8
    0xffb9  // KP_9
  ]

  /** The inserts that follow the standard run. */
  const AFTER_STANDARD: seq<KeyEntry> := LEFT_KEYS + RIGHT_KEYS + NUMPAD_KEYS

  /** Every insert of `KeyTables::new`, in program order. */
  const ENTRIES: seq<KeyEntry> := STANDARD_KEYS + AFTER_STANDARD

  /** The map a run of `HashMap::insert` calls leaves, starting from an empty map: a
      later insert of the same keyval replaces an earlier one. */
  function InsertAll(entries: seq<KeyEntry>): map<u32, KeyName>
  {
    if entries == [] then map[]
    else
      var last := entries[|entries| - 1];
      InsertAll(entries[..|entries| - 1])[last.keyval := KeyName(last.name, last.location)]
  }

  /** Exactly the inserted keyvals are keys of the map. */
  lemma {:induction false} InsertAllDomain(entries: seq<KeyEntry>, keyval: u32)
    ensures keyval in InsertAll(entries) <==> exists i :: 0 <= i < |entries| && entries[i].keyval == keyval
  {
    if entries != [] {
      var init := entries[..|entries| - 1];
      InsertAllDomain(init, keyval);
      if keyval in InsertAll(init) {
        var i :| 0 <= i < |init| && init[i].keyval == keyval;
        assert entries[i].keyval == keyval;
      }
      if i :| 0 <= i < |entries| && entries[i].keyval == keyval {
        if i < |init| {
          assert init[i].keyval == keyval;
        }
      }
    }
  }

  /** An insert that no later insert of the same keyval overrides decides that keyval's
      value. */
  lemma {:induction false} InsertAllLastWins(entries: seq<KeyEntry>, i: nat)
    requires i < |entries|
    requires forall j :: i < j < |entries| ==> entries[j].keyval != entries[i].keyval
    ensures entries[i].keyval in InsertAll(entries)
    ensures InsertAll(entries)[entries[i].keyval] == KeyName(entries[i].name, entries[i].location)
  {
    if i < |entries| - 1 {
      var init := entries[..|entries| - 1];
      assert init[i] == entries[i];
      forall j | i < j < |init|
        ensures init[j].keyval != init[i].keyval
      {
        assert init[j] == entries[j];
      }
      InsertAllLastWins(init, i);
    }
  }

  /** Inserting two runs one after the other: the second run's values win. */
  lemma {:induction false} InsertAllAppend(a: seq<KeyEntry>, b: seq<KeyEntry>)
    ensures InsertAll(a + b) == InsertAll(a) + InsertAll(b)
    decreases |b|
  {
    if b == [] {
      assert a + b == a;
    } else {
      var init := b[..|b| - 1];
      assert (a + b)[..|a + b| - 1] == a + init;
      InsertAllAppend(a, init);
    }
  }

  /** `KeyTables` (servo_gtk/key_tables.rs:17-20). */
  class KeyTables {
    var keys: map<u32, KeyName>
    var numpadTable: seq<u32>

    /** `KeyTables::new` (servo_gtk/key_tables.rs:23-576). */
    constructor ()
      ensures keys == InsertAll(ENTRIES) && numpadTable == NUMPAD_TABLE
    {
      var built := BuildKeys(ENTRIES);
      keys := built;
      numpadTable := NUMPAD_TABLE;
    }

    /** `impl Default for KeyTables` (servo_gtk/key_tables.rs:599-603): the same tables
        as `new`. */
    constructor Default()
      ensures keys == InsertAll(ENTRIES) && numpadTable == NUMPAD_TABLE
    {
      var built := BuildKeys(ENTRIES);
      keys := built;
      numpadTable := NUMPAD_TABLE;
    }

    /** `key_from_keyval` (servo_gtk/key_tables.rs:578-596). `toUnicode` is
        `gdk::Key::to_unicode`. The lookup only reads the tables. */
    function KeyFromKeyval(keyval: u32, toUnicode: u32 -> Option<char>): (r: Option<KeyInfo>)
      reads this
      ensures keyval in keys ==> r == Some(KeyInfo(keys[keyval].name, false, keys[keyval].location))
      ensures keyval !in keys ==> (r.Some? <==> toUnicode(keyval).Some? && toUnicode(keyval).value != '\0')
      ensures keyval !in keys && r.Some? ==>
        r.value.key == [toUnicode(keyval).value] && r.value.isCharacter
        && (r.value.location == Numpad <==> keyval in numpadTable)
        && (r.value.location == Numpad || r.value.location == Standard)
    {
      if keyval in keys then
        Some(KeyInfo(keys[keyval].name, false, keys[keyval].location))
      else
        var c := toUnicode(keyval);
        if c.Some? && c.value != '\0' then
          Some(KeyInfo([c.value], true, if keyval in numpadTable then Numpad else Standard))
        else
          None
    }
  }

  /** The run of `insert` calls of `KeyTables::new`, one entry at a time. */
  method BuildKeys(entries: seq<KeyEntry>) returns (keys: map<u32, KeyName>)
    ensures keys == InsertAll(entries)
  {
    keys := map[];
    var i := 0;
    while i < |entries|
      invariant 0 <= i <= |entries|
      invariant keys == InsertAll(entries[..i])
    {
      assert entries[..i + 1][..i] == entries[..i];
      keys := keys[entries[i].keyval := KeyName(entries[i].name, entries[i].location)];
      i := i + 1;
    }
    assert entries[..i] == entries;
  }

  /** The tables `new` and `Default` build. */
  ghost predicate Built(t: KeyTables)
    reads t
  {
    t.keys == InsertAll(ENTRIES) && t.numpadTable == NUMPAD_TABLE
  }

  /** An entry of a later run that no later entry of that run overrides decides its
      keyval in the map of both runs. */
  lemma LastInLaterRun(prefix: seq<KeyEntry>, run: seq<KeyEntry>, i: nat)
    requires i < |run|
    requires forall j :: i < j < |run| ==> run[j].keyval != run[i].keyval
    ensures run[i].keyval in InsertAll(prefix + run)
    ensures InsertAll(prefix + run)[run[i].keyval] == KeyName(run[i].name, run[i].location)
  {
    InsertAllLastWins(run, i);
    InsertAllAppend(prefix, run);
  }

  /** An entry after the standard run that is not inserted again is found in the
      built map under its own name and location. */
  lemma FoundAfterStandard(t: KeyTables, toUnicode: u32 -> Option<char>, i: nat)
    requires Built(t) && i < |AFTER_STANDARD|
    requires forall j :: i < j < |AFTER_STANDARD| ==> AFTER_STANDARD[j].keyval != AFTER_STANDARD[i].keyval
    ensures t.KeyFromKeyval(AFTER_STANDARD[i].keyval, toUnicode)
         == Some(KeyInfo(AFTER_STANDARD[i].name, false, AFTER_STANDARD[i].location))
  {
    LastInLaterRun(STANDARD_KEYS, AFTER_STANDARD, i);
  }

  /** `KP_Enter` is both in the map and in `numpad_table`; the map is consulted first,
      so it is the named key "Enter" at the keypad location, not a character. */
  lemma KeypadEnterIsNamed(t: KeyTables, toUnicode: u32 -> Option<char>)
    requires Built(t)
    ensures 0xff8d in t.numpadTable
    ensures t.KeyFromKeyval(0xff8d, toUnicode) == Some(KeyInfo("Enter", false, Numpad))
  {
    FoundAfterStandard(t, toUnicode, 17);
    assert NUMPAD_TABLE[0] == 0xff8d;
  }

  /** The left and right modifiers are inserted once each. */
  lemma ModifiersNotReinserted()
    ensures forall i, j :: 0 <= i < 11 && i < j < |AFTER_STANDARD| ==> AFTER_STANDARD[j].keyval != AFTER_STANDARD[i].keyval
  {
  }

  /** The left and right variants of Alt, Control, Meta, Super and Shift have the same
      name and differ only in their location. */
  lemma ModifierPairs(t: KeyTables, toUnicode: u32 -> Option<char>, i: nat)
    requires Built(t) && i < |RIGHT_KEYS|
    ensures LEFT_KEYS[i].name == RIGHT_KEYS[i].name
    ensures t.KeyFromKeyval(LEFT_KEYS[i].keyval, toUnicode) == Some(KeyInfo(LEFT_KEYS[i].name, false, Left))
    ensures t.KeyFromKeyval(RIGHT_KEYS[i].keyval, toUnicode) == Some(KeyInfo(RIGHT_KEYS[i].name, false, Right))
  {
    ModifiersNotReinserted();
    FoundAfterStandard(t, toUnicode, i);
    FoundAfterStandard(t, toUnicode, |LEFT_KEYS| + i);
    assert AFTER_STANDARD[i] == LEFT_KEYS[i];
    assert AFTER_STANDARD[|LEFT_KEYS| + i] == RIGHT_KEYS[i];
  }
}
