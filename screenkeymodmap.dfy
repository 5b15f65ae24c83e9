/** `Screenkey/modmap.py`: the parsers of `xmodmap -pk` (the keymap table) and
    `xmodmap -pm` (the modifier map), with the command output given as text. */
module ScreenkeyModmap {
  import opened Wrappers
  import opened Text
  import opened Xmodmap

  // ---------------------------------------------------------------------------
  // get_keymap_table

  /** One of the four characters of a keymap entry: `unichr(int(keysyms[k], 16))`,
      or the empty string when the token is missing, does not convert, or is NUL. */
  function Slot(keysyms: seq<UString>, k: nat): (r: UString)
    ensures |r| <= 1
    ensures |r| == 1 <==> TokenChar(keysyms, k).Some? && TokenChar(keysyms, k).value != 0
    ensures |r| == 1 ==> r[0] == TokenChar(keysyms, k).value
  {
    match TokenChar(keysyms, k)
    case None => []
    case Some(c) => if c == 0 then [] else [c]
  }

  /** What one line of `xmodmap -pk` adds to the keymap. */
  function KeymapLine(line: UString): (r: LineResult<int, seq<UString>>)
    ensures !r.Fail?
    ensures r.Bind? <==> |line| > 0 && FirstDecimal(line).Some?
    ensures r.Bind? ==> r.key == FirstDecimal(line).value
                        && var t := HexTokens(line);
                           r.val == [Slot(t, 0), Slot(t, 1), Slot(t, 4), Slot(t, 5)]
    ensures r.Bind? ==> |r.val| == 4 && forall s :: 0 <= s < 4 ==> |r.val[s]| <= 1 && r.val[s] != [0]
  {
    if |line| > 0 then
      match FirstDecimal(line)
      case None => Skip
      case Some(keycode) =>
        var keysyms := HexTokens(line);
        Bind(keycode, [Slot(keysyms, 0), Slot(keysyms, 1), Slot(keysyms, 4), Slot(keysyms, 5)])
    else Skip
  }

  function KeymapTable(text: UString): Outcome<map<int, seq<UString>>>
  {
    Fill(KeymapLine, Lines(text))
  }

  method GetKeymapTable(text: UString) returns (keymap: map<int, seq<UString>>)
    ensures KeymapTable(text) == Returned(keymap)
  {
    keymap := map[];
    var lines := Split(text, NewLine)[1..];
    for i := 0 to |lines|
      invariant Fill(KeymapLine, lines[..i]) == Returned(keymap)
    {
      FillStep(KeymapLine, lines, i);
      var line := lines[i];
      if |line| > 0 {
        var keycode := FirstDecimal(line);
        if keycode.Some? {
          var newKeysyms: seq<UString> := [];
          var keysyms := HexTokens(line);
          newKeysyms := newKeysyms + [Slot(keysyms, 0)];
          newKeysyms := newKeysyms + [Slot(keysyms, 1)];
          newKeysyms := newKeysyms + [Slot(keysyms, 4)];
          newKeysyms := newKeysyms + [Slot(keysyms, 5)];
          assert newKeysyms == [Slot(keysyms, 0), Slot(keysyms, 1), Slot(keysyms, 4), Slot(keysyms, 5)];
          assert KeymapLine(line) == Bind(keycode.value, newKeysyms);
          keymap := keymap[keycode.value := newKeysyms];
        } else {
          assert KeymapLine(line) == Skip;
        }
      } else {
        assert KeymapLine(line) == Skip;
      }
    }
    assert lines[..|lines|] == lines;
  }

  /** The keymap never raises; its keys are the keycodes of the non-empty lines after
      the header; every value holds exactly four strings of at most one character,
      none of them NUL; and a keycode gets the entry of the last line that names it. */
  lemma KeymapShape(text: UString, keycode: int)
    ensures KeymapTable(text).Returned?
    ensures var ls := Lines(text);
            keycode in KeymapTable(text).value
            <==> exists i :: 0 <= i < |ls| && |ls[i]| > 0 && FirstDecimal(ls[i]) == Some(keycode)
    ensures keycode in KeymapTable(text).value ==>
              var v := KeymapTable(text).value[keycode];
              |v| == 4 && forall s :: 0 <= s < 4 ==> |v[s]| <= 1 && v[s] != [0]
  {
    var ls := Lines(text);
    FillDomain(KeymapLine, ls, keycode);
    assert forall i :: 0 <= i < |ls| ==> (Binds(KeymapLine, ls[i], keycode) <==> |ls[i]| > 0 && FirstDecimal(ls[i]) == Some(keycode));
    if keycode in KeymapTable(text).value {
      var v := KeymapTable(text).value[keycode];
      FillValues(KeymapLine, ls, keycode);
      var i :| 0 <= i < |ls| && KeymapLine(ls[i]) == Bind(keycode, v);
    }
  }

  /** A later line with the same keycode overwrites an earlier one. */
  lemma KeymapLastWins(text: UString, i: nat)
    requires i < |Lines(text)| && KeymapLine(Lines(text)[i]).Bind?
    requires forall j :: i < j < |Lines(text)| ==> FirstDecimal(Lines(text)[j]) != FirstDecimal(Lines(text)[i])
    ensures var b := KeymapLine(Lines(text)[i]);
            KeymapTable(text).Returned? && b.key in KeymapTable(text).value && KeymapTable(text).value[b.key] == b.val
  {
    FillLastWins(KeymapLine, Lines(text), i);
  }

  // ---------------------------------------------------------------------------
  // get_modifier_map

  /** What one line of `xmodmap -pm` adds to the modifier map: its leading word maps
      to the values of all its `0x` tokens; a token that is not hexadecimal raises. */
  function ModifierLine(line: UString): (r: LineResult<UString, seq<int>>)
    ensures r.Skip? <==> |line| == 0 || LeadingWord(line).None?
    ensures r.Fail? ==> r.error == ValueError
    ensures r.Bind? ==> r.key == LeadingWord(line).value && Some(r.val) == HexCodes(HexTokens(line), 0)
  {
    if |line| > 0 then
      match LeadingWord(line)
      case None => Skip
      case Some(modName) =>
        match HexCodes(HexTokens(line), 0)
        case None => Fail(ValueError)
        case Some(keycodes) => Bind(modName, keycodes)
    else Skip
  }

  function ModifierMap(text: UString): Outcome<map<UString, seq<int>>>
  {
    Fill(ModifierLine, Lines(text))
  }

  method GetModifierMap(text: UString) returns (r: Outcome<map<UString, seq<int>>>)
    ensures r == ModifierMap(text)
  {
    var modifiers: map<UString, seq<int>> := map[];
    var lines := Split(text, NewLine)[1..];
    for i := 0 to |lines|
      invariant Fill(ModifierLine, lines[..i]) == Returned(modifiers)
    {
      FillStep(ModifierLine, lines, i);
      var line := lines[i];
      if |line| > 0 {
        var modName := LeadingWord(line);
        if modName.Some? {
          var keycodes := HexCodes(HexTokens(line), 0);
          if keycodes.None? {
            FillRaisedStays(ModifierLine, lines, i + 1, ValueError);
            return Raised(ValueError);
          }
          modifiers := modifiers[modName.value := keycodes.value];
        }
      }
    }
    assert lines[..|lines|] == lines;
    return Returned(modifiers);
  }

  /** The modifier map raises exactly when some named line after the header holds a
      `0x` token that is not hexadecimal; otherwise each name maps to the values of
      the tokens of a line it heads, in order. */
  lemma ModifierMapShape(text: UString, name: UString)
    ensures var ls := Lines(text);
            ModifierMap(text).Raised? <==>
              exists i, k :: 0 <= i < |ls| && |ls[i]| > 0 && LeadingWord(ls[i]).Some?
                             && 0 <= k < |HexTokens(ls[i])| && ParseHex(HexTokens(ls[i])[k]).None?
    ensures ModifierMap(text).Returned? && name in ModifierMap(text).value ==>
              var ls := Lines(text);
              exists i :: 0 <= i < |ls| && LeadingWord(ls[i]) == Some(name)
                          && var t := HexTokens(ls[i]);
                             var v := ModifierMap(text).value[name];
                             |v| == |t| && forall k :: 0 <= k < |t| ==> v[k] == ParseHex(t[k]).value
  {
    var ls := Lines(text);
    FillRaises(ModifierLine, ls);
    forall i | 0 <= i < |ls|
      ensures ModifierLine(ls[i]).Fail? <==>
              |ls[i]| > 0 && LeadingWord(ls[i]).Some?
              && exists k :: 0 <= k < |HexTokens(ls[i])| && ParseHex(HexTokens(ls[i])[k]).None?
    {
    }
    if ModifierMap(text).Returned? && name in ModifierMap(text).value {
      FillValues(ModifierLine, ls, name);
    }
  }
}
