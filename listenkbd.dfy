/** `Screenkey/listenkbd.py`: the X RECORD keycode listener. Each key event changes
    the `cmd_keys` flags or the label's text and yields the text to append, if any.
    The keycode-to-keysym query and the `dir(XK)` listing of python-xlib are inputs. */
module ListenKbd {
  import opened Wrappers
  import opened Text
  import opened LegacyKeys

  // ---------------------------------------------------------------------------
  // REPLACE_KEYS and the two scans of dir(XK)

  /** `REPLACE_KEYS`, by XK constant name; the gettext-wrapped labels in their English form. */
  function ReplaceName(name: string): (r: Option<UString>)
    ensures r.Some? ==> |r.value| > 0
  {
    match name
    case "XK_Escape" => Some(U("Esc "))
    case "XK_Tab" => Some(U("\U{21B9} "))
    case "XK_Return" => Some(U("\U{23CE} "))
    case "XK_Space" => Some(U(" "))
    case "XK_Caps_Lock" => Some(U("Caps "))
    case "XK_F1" => Some(U("F1 "))
    case "XK_F2" => Some(U("F2 "))
    case "XK_F3" => Some(U("F3 "))
    case "XK_F4" => Some(U("F4 "))
    case "XK_F5" => Some(U("F5 "))
    case "XK_F6" => Some(U("F6 "))
    case "XK_F7" => Some(U("F7 "))
    case "XK_F8" => Some(U("F8 "))
    case "XK_F9" => Some(U("F9 "))
    case "XK_F10" => Some(U("F10 "))
    case "XK_F11" => Some(U("F11 "))
    case "XK_F12" => Some(U("F12 "))
    case "XK_Home" => Some(U("Home "))
    case "XK_Up" => Some(U("\U{2191}"))
    case "XK_Page_Up" => Some(U("PgUp "))
    case "XK_Left" => Some(U("\U{2190}"))
    case "XK_Right" => Some(U("\U{2192}"))
    case "XK_End" => Some(U("End "))
    case "XK_Down" => Some(U("\U{2193}"))
    case "XK_Next" => Some(U("PgDn "))
    case "XK_Insert" => Some(U("Ins "))
    case "XK_Delete" => Some(U("Del "))
    case "XK_KP_Home" => Some(U("(7)"))
    case "XK_KP_Up" => Some(U("(8)"))
    case "XK_KP_Prior" => Some(U("(9)"))
    case "XK_KP_Left" => Some(U("(4)"))
    case "XK_KP_Right" => Some(U("(6)"))
    case "XK_KP_End" => Some(U("(1)"))
    case "XK_KP_Down" => Some(U("(2)"))
    case "XK_KP_Page_Down" => Some(U("(3)"))
    case "XK_KP_Begin" => Some(U("(5)"))
    case "XK_KP_Insert" => Some(U("(0)"))
    case "XK_KP_Delete" => Some(U("(.)"))
    case "XK_KP_Add" => Some(U("(+)"))
    case "XK_KP_Subtract" => Some(U("(-)"))
    case "XK_KP_Multiply" => Some(U("(*)"))
    case "XK_KP_Divide" => Some(U("(/)"))
    case "XK_Num_Lock" => Some(U("NumLock "))
    case "XK_KP_Enter" => Some(U("\U{23CE} "))
    case _ => None
  }

  /** One attribute of the python-xlib `XK` module, as `dir(XK)` lists it. */
  datatype XkName = XkName(name: string, value: int)

  /** `name[:3] == "XK_" and getattr(XK, name) == keysym`. */
  predicate Names(a: XkName, keysym: int)
  {
    |a.name| >= 3 && a.name[..3] == "XK_" && a.value == keysym
  }

  /** The first attribute from `from` on that names the keysym. */
  function FirstName(xk: seq<XkName>, keysym: int, from: nat): (r: Option<nat>)
    requires from <= |xk|
    ensures r.Some? ==> from <= r.value < |xk| && Names(xk[r.value], keysym)
                        && forall j :: from <= j < r.value ==> !Names(xk[j], keysym)
    ensures r.None? ==> forall j :: from <= j < |xk| ==> !Names(xk[j], keysym)
    decreases |xk| - from
  {
    if from == |xk| then None
    else if Names(xk[from], keysym) then Some(from)
    else FirstName(xk, keysym, from + 1)
  }

  /** `lookup_keysym`: the first name of the keysym without its `XK_` prefix, or "". */
  function KeysymName(xk: seq<XkName>, keysym: int): (r: string)
    ensures (forall j :: 0 <= j < |xk| ==> !Names(xk[j], keysym)) ==> r == ""
    ensures forall j :: 0 <= j < |xk| && Names(xk[j], keysym) && (forall i :: 0 <= i < j ==> !Names(xk[i], keysym))
                        ==> "XK_" + r == xk[j].name
  {
    match FirstName(xk, keysym, 0)
    case None => ""
    case Some(j) =>
      assert xk[j].name == xk[j].name[..3] + xk[j].name[3..];
      xk[j].name[3..]
  }

  /** An attribute naming the keysym whose name `REPLACE_KEYS` holds. */
  predicate Replaceable(a: XkName, keysym: int)
  {
    Names(a, keysym) && ReplaceName(a.name).Some?
  }

  function FirstReplaceable(xk: seq<XkName>, keysym: int, from: nat): (r: Option<nat>)
    requires from <= |xk|
    ensures r.Some? ==> from <= r.value < |xk| && Replaceable(xk[r.value], keysym)
                        && forall j :: from <= j < r.value ==> !Replaceable(xk[j], keysym)
    ensures r.None? ==> forall j :: from <= j < |xk| ==> !Replaceable(xk[j], keysym)
    decreases |xk| - from
  {
    if from == |xk| then None
    else if Replaceable(xk[from], keysym) then Some(from)
    else FirstReplaceable(xk, keysym, from + 1)
  }

  /** `replace_key`: the replacement of the first name of the keysym that has one. */
  function Replacement(xk: seq<XkName>, keysym: int): (r: Option<UString>)
    ensures r.Some? ==> |r.value| > 0
    ensures r.None? <==> forall j :: 0 <= j < |xk| ==> !Replaceable(xk[j], keysym)
  {
    match FirstReplaceable(xk, keysym, 0)
    case None => None
    case Some(j) => ReplaceName(xk[j].name)
  }

  // ---------------------------------------------------------------------------
  // key_normal_mode as a function of the flags and the label

  /** A core KeyPress or KeyRelease event: `event.type == X.KeyPress` and `event.detail`. */
  datatype KeyEvent = KeyEvent(pressed: bool, detail: int)

  /** What the listener is built with: `mods_only`, the two xmodmap tables, `dir(XK)`. */
  datatype Env = Env(modsOnly: bool, keymap: map<int, seq<UString>>, modifiers: map<UString, seq<int>>, xk: seq<XkName>)

  /** The result of key_normal_mode (its return value or its exception) and the new
      flags and label text. */
  datatype Step = Step(out: Outcome<Option<UString>>, cmd: CmdKeys, labelText: UString)

  /** The meta key has a hard-wired keycode. */
  const MetaKeycode := 108
  const BackspaceKeycode := 22

  /** The text a press of an ordinary key yields, or the TypeError of `ord`. */
  function PressText(env: Env, cmd: CmdKeys, entry: seq<UString>, keysym: int): (r: Outcome<Option<UString>>)
    requires |entry| == 4
    ensures r.Raised? <==> SelectKey(cmd, entry).Raised?
    ensures r.Returned? && ChordPrefix(cmd) == [] && env.modsOnly ==> r.value == None
    ensures r.Returned? && !(ChordPrefix(cmd) == [] && env.modsOnly) ==>
              var key := if Replacement(env.xk, keysym).Some? then Replacement(env.xk, keysym).value
                         else SelectKey(cmd, entry).value;
              r.value == Some(Decorate(ChordPrefix(cmd), key))
  {
    match SelectKey(cmd, entry)
    case Raised(e) => Raised(e)
    case Returned(chosen) =>
      var key := match Replacement(env.xk, keysym) case Some(s) => s case None => chosen;
      var prefix := ChordPrefix(cmd);
      if prefix == [] && env.modsOnly then Returned(None) else Returned(Some(Decorate(prefix, key)))
  }

  function NormalMode(env: Env, cmd: CmdKeys, labelText: UString, ev: KeyEvent, keysym: int): (r: Step)
    // an unmapped keycode changes nothing
    ensures ev.detail !in env.keymap ==> r == Step(Returned(None), cmd, labelText)
    // whatever raises changes nothing
    ensures r.out.Raised? ==> r.cmd == cmd && r.labelText == labelText
    // only the backspace branch changes the label, by dropping its last character
    ensures r.labelText == labelText || (|labelText| > 0 && r.labelText == labelText[..|labelText| - 1] && r.out == Returned(Some([])))
    // no release yields text
    ensures !ev.pressed && r.out.Returned? ==> r.out.value == None
  {
    if ev.detail !in env.keymap then Step(Returned(None), cmd, labelText)
    else
      var entry := env.keymap[ev.detail];
      if |entry| != 4 then Step(Raised(ValueError), cmd, labelText)
      else
        match Classify(env.modifiers, ev.detail, MetaKeycode)
        case Raised(e) => Step(Raised(e), cmd, labelText)
        case Returned(ModKey(m)) => Step(Returned(None), SetFlag(cmd, m, ev.pressed), labelText)
        case Returned(CapsKey) => Step(Returned(None), if ev.pressed then cmd.(capslock := !cmd.capslock) else cmd, labelText)
        case Returned(OtherKey) =>
          if ev.detail == BackspaceKeycode && ev.pressed then
            if |labelText| > 0 then Step(Returned(Some([])), cmd, labelText[..|labelText| - 1])
            else Step(Returned(None), cmd, labelText)
          else if ev.pressed then Step(PressText(env, cmd, entry, keysym), cmd, labelText)
          else Step(Returned(None), cmd, labelText)
  }

  /** A modifier key sets its flag on press and clears it on release, yields no text
      and leaves the label; Caps Lock toggles on press only. */
  lemma ModifierKeys(env: Env, cmd: CmdKeys, labelText: UString, ev: KeyEvent, keysym: int)
    requires ev.detail in env.keymap && |env.keymap[ev.detail]| == 4
    ensures var r := NormalMode(env, cmd, labelText, ev, keysym);
            var c := Classify(env.modifiers, ev.detail, MetaKeycode);
            (c.Returned? && c.value.ModKey? ==>
               r == Step(Returned(None), SetFlag(cmd, c.value.m, ev.pressed), labelText))
            && (c == Returned(CapsKey) ==>
               r.out == Returned(None) && r.labelText == labelText
               && r.cmd.capslock == (cmd.capslock != ev.pressed)
               && r.cmd == cmd.(capslock := r.cmd.capslock))
  {
  }

  /** A press of the backspace keycode (an ordinary key) drops the last character of a
      non-empty label and yields ""; on an empty label it yields None. */
  lemma BackspaceKey(env: Env, cmd: CmdKeys, labelText: UString, keysym: int)
    requires BackspaceKeycode in env.keymap && |env.keymap[BackspaceKeycode]| == 4
    requires Classify(env.modifiers, BackspaceKeycode, MetaKeycode) == Returned(OtherKey)
    ensures var r := NormalMode(env, cmd, labelText, KeyEvent(true, BackspaceKeycode), keysym);
            r.cmd == cmd
            && (|labelText| > 0 ==> r.out == Returned(Some([])) && r.labelText == labelText[..|labelText| - 1])
            && (|labelText| == 0 ==> r.out == Returned(None) && r.labelText == labelText)
  {
  }

  /** A press of an ordinary key: a chord yields `prefix + key + ' '`; without a chord,
      `mods_only` hides the key; the label and the flags stay. */
  lemma OrdinaryPress(env: Env, cmd: CmdKeys, labelText: UString, code: int, keysym: int)
    requires code in env.keymap && |env.keymap[code]| == 4 && code != BackspaceKeycode
    requires Classify(env.modifiers, code, MetaKeycode) == Returned(OtherKey)
    requires SelectKey(cmd, env.keymap[code]).Returned?
    ensures var r := NormalMode(env, cmd, labelText, KeyEvent(true, code), keysym);
            var key := if Replacement(env.xk, keysym).Some? then Replacement(env.xk, keysym).value
                       else SelectKey(cmd, env.keymap[code]).value;
            r.cmd == cmd && r.labelText == labelText
            && (ChordPrefix(cmd) != [] ==> r.out == Returned(Some(ChordPrefix(cmd) + key + U(" "))))
            && (ChordPrefix(cmd) == [] && env.modsOnly ==> r.out == Returned(None))
            && (ChordPrefix(cmd) == [] && !env.modsOnly ==> r.out == Returned(Some(key)))
  {
  }

  /** The text `key_press` appends: the truthy results, joined. */
  function Joined(keys: seq<Option<UString>>): UString
  {
    if keys == [] then []
    else (if keys[0].Some? then keys[0].value else []) + Joined(keys[1..])
  }

  /** `any(key)`: some result is a non-empty string. */
  predicate AnyText(keys: seq<Option<UString>>)
  {
    exists i :: 0 <= i < |keys| && keys[i].Some? && |keys[i].value| > 0
  }

  lemma {:induction false} JoinedEmpty(keys: seq<Option<UString>>)
    ensures Joined(keys) == [] <==> !AnyText(keys)
  {
    if keys != [] {
      JoinedEmpty(keys[1..]);
      if AnyText(keys) {
        var i :| 0 <= i < |keys| && keys[i].Some? && |keys[i].value| > 0;
        if i > 0 {
          assert keys[1..][i - 1] == keys[i];
        }
      }
      if AnyText(keys[1..]) {
        var i :| 0 <= i < |keys[1..]| && keys[1..][i].Some? && |keys[1..][i].value| > 0;
        assert keys[i + 1] == keys[1..][i];
      }
    }
  }

  // ---------------------------------------------------------------------------
  // The object

  class ListenKbd {
    const env: Env
    var cmdKeys: CmdKeys
    /** The text of the label widget. */
    var labelText: UString
    /** `self.text`, the label text as last set by update_text. */
    var text: UString

    constructor(env: Env, labelText: UString)
      ensures this.env == env && this.labelText == labelText
      ensures cmdKeys == NoCmdKeys && text == []
    {
      this.env := env;
      this.labelText := labelText;
      cmdKeys := NoCmdKeys;
      text := [];
    }

    /** The loop of `lookup_keysym` over `dir(XK)`. */
    method LookupKeysym(keysym: int) returns (name: string)
      ensures name == KeysymName(env.xk, keysym)
    {
      var xk := env.xk;
      for i := 0 to |xk|
        invariant FirstName(xk, keysym, 0) == FirstName(xk, keysym, i)
      {
        if |xk[i].name| >= 3 && xk[i].name[..3] == "XK_" && xk[i].value == keysym {
          return xk[i].name[3..];
        }
      }
      return "";
    }

    /** The loop of `replace_key` over `dir(XK)`. */
    method ReplaceKey(keysym: int) returns (r: Option<UString>)
      ensures r == Replacement(env.xk, keysym)
    {
      var xk := env.xk;
      for i := 0 to |xk|
        invariant FirstReplaceable(xk, keysym, 0) == FirstReplaceable(xk, keysym, i)
      {
        if |xk[i].name| >= 3 && xk[i].name[..3] == "XK_" && xk[i].value == keysym {
          var repl := ReplaceName(xk[i].name);
          if repl.Some? {
            return repl;
          }
        }
      }
      return None;
    }

    /** `update_text`: append to the label, or clear it for None. */
    method UpdateText(s: Option<UString>)
      modifies this
      ensures s.Some? ==> text == old(labelText) + s.value && labelText == text
      ensures s.None? ==> labelText == [] && text == old(text)
      ensures cmdKeys == old(cmdKeys)
    {
      if s.Some? {
        text := labelText + s.value;
        labelText := text;
      } else {
        labelText := [];
      }
    }

    /** The end of `key_press`: the results of one RECORD reply, appended to the label
        when any of them is a non-empty string. */
    method Deliver(keys: seq<Option<UString>>)
      modifies this
      ensures AnyText(keys) ==> labelText == old(labelText) + Joined(keys) && text == labelText
      ensures !AnyText(keys) ==> labelText == old(labelText) && text == old(text)
      ensures cmdKeys == old(cmdKeys)
    {
      JoinedEmpty(keys);
      if AnyText(keys) {
        UpdateText(Some(Joined(keys)));
      }
    }

    method KeyNormalMode(ev: KeyEvent, keysym: int) returns (r: Outcome<Option<UString>>)
      modifies this
      ensures Step(r, cmdKeys, labelText) == NormalMode(env, old(cmdKeys), old(labelText), ev, keysym)
      ensures text == old(text)
    {
      var key: UString := [];
      if ev.detail !in env.keymap {
        return Returned(None);
      }
      var entry := env.keymap[ev.detail];
      if |entry| != 4 {
        return Raised(ValueError);
      }
      var kind := Classify(env.modifiers, ev.detail, MetaKeycode);
      if kind.Raised? {
        return Raised(kind.error);
      }
      match kind.value {
        case ModKey(m) =>
          cmdKeys := SetFlag(cmdKeys, m, ev.pressed);
          return Returned(None);
        case CapsKey =>
          if ev.pressed {
            if cmdKeys.capslock {
              cmdKeys := cmdKeys.(capslock := false);
            } else {
              cmdKeys := cmdKeys.(capslock := true);
            }
          }
          return Returned(None);
        case OtherKey =>
      }

      if ev.detail == BackspaceKeycode && ev.pressed {
        if |labelText| > 0 {
          labelText := labelText[..|labelText| - 1];
          key := [];
        } else {
          return Returned(None);
        }
      } else if ev.pressed {
        var out := PressKey(entry, keysym);
        return out;
      } else {
        return Returned(None);
      }
      return Returned(Some(key));
    }

    /** The press branch of key_normal_mode for an ordinary key. */
    method PressKey(entry: seq<UString>, keysym: int) returns (r: Outcome<Option<UString>>)
      requires |entry| == 4
      ensures r == PressText(env, cmdKeys, entry, keysym)
    {
      var mod := ChordMod();
      var chosen := ChooseKey(entry);
      if chosen.Raised? {
        return Raised(chosen.error);
      }
      var key := chosen.value;
      var s := ReplaceKey(keysym);
      if s.Some? && |s.value| > 0 {
        key := s.value;
      }
      if mod != [] {
        key := mod + key + U(" ");
      } else {
        if env.modsOnly {
          return Returned(None);
        } else {
          assert mod + key == key;
          key := mod + key;
        }
      }
      return Returned(Some(key));
    }

    /** The `mod` string of key_normal_mode: ctrl, alt, super, for each one held. */
    method ChordMod() returns (mod: UString)
      ensures mod == ChordPrefix(cmdKeys)
    {
      mod := [];
      if cmdKeys.ctrl {
        mod := mod + U("Ctrl+");
      }
      if cmdKeys.alt {
        mod := mod + U("Alt+");
      }
      if cmdKeys.super {
        mod := mod + U("Super+");
      }
      assert [] + U("Ctrl+") == U("Ctrl+") && [] + U("Alt+") == U("Alt+") && [] + U("Super+") == U("Super+");
      assert U("Ctrl+") + [] == U("Ctrl+") && U("Alt+") + [] == U("Alt+");
      assert U("Ctrl+") + U("Alt+") + [] == U("Ctrl+") + U("Alt+");
    }

    /** The `key` of key_normal_mode before replacement: the column of the keymap entry
        the flags select, or the TypeError of `ord` on a multi-character key_normal. */
    method ChooseKey(entry: seq<UString>) returns (r: Outcome<UString>)
      requires |entry| == 4
      ensures r == SelectKey(cmdKeys, entry)
    {
      var keyNormal, keyShift, keyDead, keyDeadshift := entry[0], entry[1], entry[2], entry[3];
      var key := keyNormal;
      if cmdKeys.shift {
        key := keyShift;
      }
      if cmdKeys.capslock {
        if |keyNormal| != 1 {
          return Raised(TypeError);
        }
        if IsLowerAscii(keyNormal[0]) {
          key := keyShift;
        }
      }
      if cmdKeys.meta {
        key := keyDead;
      }
      if cmdKeys.shift && cmdKeys.meta {
        key := keyDeadshift;
      }
      return Returned(key);
    }

    /** `key_raw_mode`: the keysym's name on a press, None on a release. */
    method KeyRawMode(ev: KeyEvent, keysym: int) returns (r: Option<UString>)
      ensures ev.pressed ==> r == Some(U(KeysymName(env.xk, keysym)))
      ensures !ev.pressed ==> r == None
    {
      var key: UString := [];
      if ev.pressed {
        var name := LookupKeysym(keysym);
        key := U(name);
      } else {
        return None;
      }
      return Some(key);
    }
  }
}
