/** `Screenkey/listenkdb.py`: the evdev keycode listener. Each key event changes the
    `cmd_keys` flags, or the label's text through `update_text`. An event value is
    1 for a press, 2 for an auto-repeat and 0 for a release. */
module ListenKdb {
  import opened Wrappers
  import opened Text
  import opened LegacyKeys

  /** `REPLACE_KEYS`, by kernel key code; an empty replacement hides the key. */
  function ReplaceCode(code: int): (r: Option<UString>)
    ensures r == Some([]) <==> code == 99 || code == 127
  {
    match code
    case 1 => Some(U("Esc "))
    case 15 => Some(U("\U{21B9} "))
    case 28 => Some(U("\U{23CE} "))
    case 57 => Some(U(" "))
    case 58 => Some(U("Caps "))
    case 59 => Some(U("F1 "))
    case 60 => Some(U("F2 "))
    case 61 => Some(U("F3 "))
    case 62 => Some(U("F4 "))
    case 63 => Some(U("F5 "))
    case 64 => Some(U("F6 "))
    case 65 => Some(U("F7 "))
    case 66 => Some(U("F8 "))
    case 67 => Some(U("F9 "))
    case 68 => Some(U("F10 "))
    case 87 => Some(U("F11 "))
    case 88 => Some(U("F12 "))
    case 99 => Some([])
    case 102 => Some(U("Home "))
    case 103 => Some(U("\U{2191}"))
    case 104 => Some(U("PgUp "))
    case 105 => Some(U("\U{2190}"))
    case 106 => Some(U("\U{2192}"))
    case 107 => Some(U("End "))
    case 108 => Some(U("\U{2193}"))
    case 109 => Some(U("PgDn "))
    case 110 => Some(U("Ins "))
    case 111 => Some(U("Del "))
    case 127 => Some([])
    case _ => None
  }

  /** An EV_KEY event: its key code (`codeMaps[type].toNumber(code)`) and value. */
  datatype KeyEvent = KeyEvent(code: int, value: int)

  /** The flags and the label text; `text` is `self.text`. */
  datatype Kdb = Kdb(cmd: CmdKeys, labelText: UString, text: UString)

  const MetaCode := 100
  const BackspaceCode := 14

  /** `update_text(s)` for a string s: the label gets s appended, and `self.text` follows. */
  function Append(st: Kdb, s: UString): (r: Kdb)
    ensures r.labelText == st.labelText + s && r.text == r.labelText && r.cmd == st.cmd
  {
    Kdb(st.cmd, st.labelText + s, st.labelText + s)
  }

  /** `label.get_text()[:-1]`: the text without its last character, if it has one. */
  function DropLast(t: UString): (r: UString)
    ensures |t| > 0 ==> r == t[..|t| - 1]
    ensures |t| == 0 ==> r == []
  {
    if |t| > 0 then t[..|t| - 1] else []
  }

  /** The text a press of an ordinary key appends, None when its replacement is empty,
      or the TypeError of `ord`. */
  function PressText(cmd: CmdKeys, entry: seq<UString>, code: int): (r: Outcome<Option<UString>>)
    requires |entry| == 4
    ensures r.Raised? <==> SelectKey(cmd, entry).Raised?
    ensures r.Returned? && ReplaceCode(code) == Some([]) ==> r.value == None
    ensures r.Returned? && ReplaceCode(code) != Some([]) ==>
              var key := if ReplaceCode(code).Some? then ReplaceCode(code).value else SelectKey(cmd, entry).value;
              r.value == Some(Decorate(ChordPrefix(cmd), key))
  {
    match SelectKey(cmd, entry)
    case Raised(e) => Raised(e)
    case Returned(chosen) =>
      match ReplaceCode(code)
      case Some(repl) => if repl == [] then Returned(None) else Returned(Some(Decorate(ChordPrefix(cmd), repl)))
      case None => Returned(Some(Decorate(ChordPrefix(cmd), chosen)))
  }

  /** key_press: its outcome (returning or raising) and the new state. */
  function Press(keymap: map<int, seq<UString>>, modifiers: map<UString, seq<int>>, st: Kdb, ev: KeyEvent): (r: (Outcome<()>, Kdb))
    // an unmapped code, and whatever raises, changes nothing
    ensures ev.code !in keymap ==> r == (Returned(()), st)
    ensures r.0.Raised? ==> r.1 == st
    // only a press (value 1) changes the label
    ensures ev.value != 1 ==> r.1.labelText == st.labelText && r.1.text == st.text
  {
    if ev.code !in keymap then (Returned(()), st)
    else
      var entry := keymap[ev.code];
      if |entry| != 4 then (Raised(ValueError), st)
      else
        match Classify(modifiers, ev.code, MetaCode)
        case Raised(e) => (Raised(e), st)
        case Returned(ModKey(m)) => (Returned(()), st.(cmd := SetFlag(st.cmd, m, ev.value == 1 || ev.value == 2)))
        case Returned(CapsKey) =>
          (Returned(()), if ev.value == 1 then st.(cmd := st.cmd.(capslock := !st.cmd.capslock)) else st)
        case Returned(OtherKey) => OtherPress(st, entry, ev)
  }

  /** key_press for a key that is neither a modifier nor Caps Lock. */
  function OtherPress(st: Kdb, entry: seq<UString>, ev: KeyEvent): (r: (Outcome<()>, Kdb))
    requires |entry| == 4
    ensures r.0.Raised? ==> r.1 == st
    ensures ev.value != 1 ==> r == (Returned(()), st)
  {
    if ev.code == BackspaceCode && ev.value == 1 then
      (Returned(()), Append(st.(labelText := DropLast(st.labelText)), []))
    else if ev.value == 1 then
      match PressText(st.cmd, entry, ev.code)
      case Raised(e) => (Raised(e), st)
      case Returned(None) => (Returned(()), st)
      case Returned(Some(key)) => (Returned(()), Append(st, key))
    else (Returned(()), st)
  }

  /** A modifier key sets its flag for a press or an auto-repeat and clears it for any
      other value; Caps Lock toggles on a press only; neither touches the label. */
  lemma ModifierKeys(keymap: map<int, seq<UString>>, modifiers: map<UString, seq<int>>, st: Kdb, ev: KeyEvent)
    requires ev.code in keymap && |keymap[ev.code]| == 4
    ensures var r := Press(keymap, modifiers, st, ev);
            var c := Classify(modifiers, ev.code, MetaCode);
            (c.Returned? && c.value.ModKey? ==>
               r == (Returned(()), st.(cmd := SetFlag(st.cmd, c.value.m, ev.value in {1, 2}))))
            && (c == Returned(CapsKey) ==>
               r.0 == Returned(()) && r.1.labelText == st.labelText && r.1.text == st.text
               && r.1.cmd.capslock == (st.cmd.capslock != (ev.value == 1))
               && r.1.cmd == st.cmd.(capslock := r.1.cmd.capslock))
  {
  }

  /** A press of the backspace code drops the label's last character; `self.text`
      follows the shortened label. */
  lemma BackspaceKey(keymap: map<int, seq<UString>>, modifiers: map<UString, seq<int>>, st: Kdb)
    requires BackspaceCode in keymap && |keymap[BackspaceCode]| == 4
    requires Classify(modifiers, BackspaceCode, MetaCode) == Returned(OtherKey)
    ensures var r := Press(keymap, modifiers, st, KeyEvent(BackspaceCode, 1));
            r.0 == Returned(()) && r.1.cmd == st.cmd
            && r.1.labelText == DropLast(st.labelText) && r.1.text == r.1.labelText
  {
    assert DropLast(st.labelText) + [] == DropLast(st.labelText);
  }

  /** A press of an ordinary key appends its text: the replacement when the code has
      one (nothing at all when that is empty), else the selected character; decorated
      (`prefix + key + " "`) as a chord when a prefix is held. */
  lemma OrdinaryPress(keymap: map<int, seq<UString>>, modifiers: map<UString, seq<int>>, st: Kdb, code: int)
    requires code in keymap && |keymap[code]| == 4 && code != BackspaceCode
    requires Classify(modifiers, code, MetaCode) == Returned(OtherKey)
    requires SelectKey(st.cmd, keymap[code]).Returned?
    ensures var r := Press(keymap, modifiers, st, KeyEvent(code, 1));
            var key := if ReplaceCode(code).Some? then ReplaceCode(code).value else SelectKey(st.cmd, keymap[code]).value;
            r.0 == Returned(()) && r.1.cmd == st.cmd
            && (ReplaceCode(code) == Some([]) ==> r.1 == st)
            && (ReplaceCode(code) != Some([]) ==> r.1.labelText == st.labelText + Decorate(ChordPrefix(st.cmd), key))
  {
    assert Press(keymap, modifiers, st, KeyEvent(code, 1)) == OtherPress(st, keymap[code], KeyEvent(code, 1));
    OtherPressAppends(st, keymap[code], code);
  }

  lemma OtherPressAppends(st: Kdb, entry: seq<UString>, code: int)
    requires |entry| == 4 && code != BackspaceCode && SelectKey(st.cmd, entry).Returned?
    ensures var r := OtherPress(st, entry, KeyEvent(code, 1));
            var key := if ReplaceCode(code).Some? then ReplaceCode(code).value else SelectKey(st.cmd, entry).value;
            r.0 == Returned(()) && r.1.cmd == st.cmd
            && (ReplaceCode(code) == Some([]) ==> r.1 == st)
            && (ReplaceCode(code) != Some([]) ==> r.1.labelText == st.labelText + Decorate(ChordPrefix(st.cmd), key))
  {
    var out := PressText(st.cmd, entry, code);
    assert out.Returned?;
  }

  class ListenKbd {
    const keymap: map<int, seq<UString>>
    const modifiers: map<UString, seq<int>>
    var cmdKeys: CmdKeys
    /** The text of the label widget. */
    var labelText: UString
    /** `self.text`, the label text as last set by update_text. */
    var text: UString

    function State(): Kdb
      reads this
    {
      Kdb(cmdKeys, labelText, text)
    }

    constructor(keymap: map<int, seq<UString>>, modifiers: map<UString, seq<int>>, labelText: UString)
      ensures this.keymap == keymap && this.modifiers == modifiers
      ensures State() == Kdb(NoCmdKeys, labelText, [])
    {
      this.keymap := keymap;
      this.modifiers := modifiers;
      this.labelText := labelText;
      cmdKeys := NoCmdKeys;
      text := [];
    }

    /** `update_text`: append to the label, or clear it for None (`self.text` is kept then). */
    method UpdateText(s: Option<UString>)
      modifies this
      ensures s.Some? ==> State() == Append(old(State()), s.value)
      ensures s.None? ==> State() == old(State()).(labelText := [])
    {
      if s.Some? {
        text := labelText + s.value;
        labelText := text;
      } else {
        labelText := [];
      }
    }

    method KeyPress(ev: KeyEvent) returns (r: Outcome<()>)
      modifies this
      ensures (r, State()) == Press(keymap, modifiers, old(State()), ev)
    {
      if ev.code !in keymap {
        return Returned(());
      }
      var entry := keymap[ev.code];
      if |entry| != 4 {
        return Raised(ValueError);
      }
      var key: UString := [];
      var kind := Classify(modifiers, ev.code, MetaCode);
      if kind.Raised? {
        return Raised(kind.error);
      }
      match kind.value {
        case ModKey(m) =>
          cmdKeys := SetFlag(cmdKeys, m, ev.value == 1 || ev.value == 2);
          return Returned(());
        case CapsKey =>
          if ev.value == 1 {
            if cmdKeys.capslock {
              cmdKeys := cmdKeys.(capslock := false);
            } else {
              cmdKeys := cmdKeys.(capslock := true);
            }
          }
          return Returned(());
        case OtherKey =>
      }
      if ev.code == BackspaceCode && ev.value == 1 {
        labelText := if |labelText| > 0 then labelText[..|labelText| - 1] else [];
        key := [];
      } else if ev.value == 1 {
        var out := PressKey(entry, ev.code);
        if out.Raised? {
          return Raised(out.error);
        }
        if out.value.None? {
          return Returned(());
        }
        key := out.value.value;
      } else {
        return Returned(());
      }
      UpdateText(Some(key));
      return Returned(());
    }

    /** The press branch of key_press for an ordinary key. */
    method PressKey(entry: seq<UString>, code: int) returns (r: Outcome<Option<UString>>)
      requires |entry| == 4
      ensures r == PressText(cmdKeys, entry, code)
    {
      var keyNormal, keyShift, keyDead, keyDeadshift := entry[0], entry[1], entry[2], entry[3];
      var mod: UString := [];
      var key := keyNormal;
      if cmdKeys.ctrl {
        mod := mod + U("Ctrl+");
      }
      if cmdKeys.alt {
        mod := mod + U("Alt+");
      }
      if cmdKeys.super {
        mod := mod + U("Super+");
      }
      if cmdKeys.shift {
        key := keyShift;
      }
      if cmdKeys.capslock {
        if |keyNormal| != 1 {
          return Raised(TypeError);
        }
        if IsLowerAscii(keyNormal[0]) {
          key := keyShift;
        }
      }
      if cmdKeys.meta {
        key := keyDead;
      }
      if cmdKeys.shift && cmdKeys.meta {
        key := keyDeadshift;
      }
      assert key == SelectKey(cmdKeys, entry).value;
      var repl := ReplaceCode(code);
      if repl.Some? {
        key := repl.value;
        if key == [] {
          return Returned(None);
        }
      }
      assert mod == ChordPrefix(cmdKeys) by {
        assert [] + U("Ctrl+") == U("Ctrl+") && [] + U("Alt+") == U("Alt+") && [] + U("Super+") == U("Super+");
        assert U("Ctrl+") + [] == U("Ctrl+") && U("Alt+") + [] == U("Alt+");
        assert U("Ctrl+") + U("Alt+") + [] == U("Ctrl+") + U("Alt+");
      }
      if mod != [] {
        key := mod + key + U(" ");
      } else {
        assert mod + key == key;
        key := mod + key;
      }
      return Returned(Some(key));
    }
  }
}
