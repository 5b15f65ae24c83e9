# screenkey key-to-label core, modelled in Dafny

screenkey shows the keys you type in an on-screen label. This project models the
part of it that turns key events into label text.

- **LabelManager** (`Screenkey/labelmanager.py`) folds decoded key events into
  a log of `KeyData(stamp, is_ctrl, bk_stop, silent, repl)` entries. It covers:
  - the Ctrl+Ctrl enable toggle;
  - the three backspace policies (`normal`, `baked`, `full`);
  - the modifier-prefix chord rule and the `mods_only` suppression;
  - raw mode.

  It renders the log to Pango markup: separators between entries, U+200C before
  each entry, and one `<u>…</u>` span from the first recent entry to the end.
- **The X listeners** (`Screenkey/inputlistener.py`, `Screenkey/keylistener.py`)
  decode one X event into a `KeyData` record. That covers:
  - `keysym_to_unicode`;
  - the SETofKEYMASK modifier flags;
  - the printable-ASCII lookup rule;
  - the phantom-release peek;
  - the `repeated` rule.

  Each file's per-event dispatch is modelled over an abstract queue. The two
  files differ in when `last_ev` moves. `coalesce_ranges` and the pairing of
  ranges in `record_context` are also modelled.
- **The legacy keycode state machines** (`Screenkey/listenkbd.py`,
  `Screenkey/listenkdb.py`) keep a `cmd_keys` flag record and the label text.
  Their shared rules live in module `LegacyKeys`:
  - modifier keys set and clear flags;
  - Caps Lock toggles;
  - the character-selection precedence;
  - the `Ctrl+`/`Alt+`/`Super+` prefix.
- **The xmodmap parsers** (`Screenkey/modmap.py` and the top-level `modmap.py`)
  turn the text of `xmodmap -pk` / `xmodmap -pm` into the keymap and modifier
  dictionaries. The regular expressions are modelled as small tokenizers in
  module `Text`:
  - `0x\w+` tokens;
  - the first whitespace-preceded decimal;
  - the leading word.

  Module `Xmodmap` holds the line loop shared by both files. Module
  `ScreenkeyModmap` models `Screenkey/modmap.py`; module `LegacyModmap` models
  `modmap.py`, the variant that subtracts 8 and keeps NUL characters.

How the model is built:

- **Text** is a sequence of code points (`Text.UString`), because Python 2
  `unichr` and `keysym_to_unicode` can yield lone surrogates.
- **Python exceptions** become `Wrappers.Outcome` values, for example the
  `TypeError` of `ord` on a multi-character key and the `KeyError` of a missing
  modifier name.
- **Objects the source updates in place** are classes whose methods are proved
  against a specification function of the old state:
  - `LabelManager.LabelManager`;
  - `ListenKbd.ListenKbd`;
  - `ListenKdb.ListenKbd`.
- **The listeners' `KeyData` record** is the one exception. The listeners
  fill it field by field, and the model does the same on a value with
  `d.(field := …)`. This is sound because each record is created fresh per
  event and nothing else refers to it until it is handed on.
- **Loops in the source** are methods with loops. Each is proved equal to a
  function about which the properties are proved as lemmas:
  - `CoalesceRanges` and `RecordContext`;
  - the parser loops;
  - the markup loop;
  - the prefix loop;
  - the dispatch loops.
- **The X library and the input method** are the function parameters bundled
  in `KeyDecode.XOracles`.

## Model

| member | source | states |
|---|---|---|
| Text.Split | Screenkey/modmap.py:31 | `str.split('\n')` always yields at least one piece |
| Text.JoinSplit | Screenkey/modmap.py:31 | splitting on the newline loses nothing: joining the pieces with the newline gives back the text |
| Text.SplitJoin | Screenkey/modmap.py:31 | splitting pieces that have no newline, joined by newlines, gives back exactly those pieces |
| Text.SplitPiecesHaveNoSeparator | Screenkey/modmap.py:31 | no piece of a split contains the separator |
| Text.SplitNoSeparator | Screenkey/modmap.py:31 | text without a newline splits into itself alone |
| Text.ParseHex | Screenkey/modmap.py:42 | `int(tok, 16)` succeeds exactly when the token is hex digits after an optional `0x` prefix |
| Text.Unichr | Screenkey/modmap.py:42 | `unichr(v)` succeeds exactly for 0 ≤ v < 0x110000 and then yields the code point v (wide build) |
| Text.WordRunEnd | Screenkey/modmap.py:91 | ends the maximal run of `\w` characters starting at i |
| Text.DigitRunEnd | Screenkey/modmap.py:33 | ends the maximal run of decimal digits starting at i |
| Text.HexTokensFrom | Screenkey/modmap.py:37 | every token `findall(r'0x\w+')` returns is a `0x` word token; a line without one yields none |
| Text.HexTokensFromEmpty | Screenkey/modmap.py:37 | `findall(r'0x\w+')` returns no token exactly when no match starts in the rest of the line |
| Text.HexTokensFromFirst | Screenkey/modmap.py:37 | the first token is the maximal `0x\w+` match at the leftmost match position, and the search resumes right after it, so no match is skipped or overlapped |
| Text.FirstDecimalAt | Screenkey/modmap.py:33 | `re.search(r'\s+(\d+)')` finds a match iff some digit follows whitespace, and then it is the first such position |
| Text.LeadingWord | Screenkey/modmap.py:91 | `re.match(r'(\w+)')` succeeds iff the line starts with a word character, and returns the whole maximal leading run |
| Xmodmap.Lines | Screenkey/modmap.py:31 | `split('\n')[1:]` drops exactly the first line |
| Xmodmap.HeaderSkipped | Screenkey/modmap.py:31 | the header line is dropped and the body's lines are kept as they are |
| Xmodmap.SplitAtFirst | Screenkey/modmap.py:31 | splitting after a newline-free header yields the header followed by the body's pieces |
| Xmodmap.FillRaises | Screenkey/modmap.py:89-100 | the dictionary-filling loop raises iff some line's conversion raises |
| Xmodmap.FillRaisedStays | Screenkey/modmap.py:89-100 | once the loop has raised, later lines do not change the outcome |
| Xmodmap.FillDomain | Screenkey/modmap.py:31-79 | when no line raises, a key is in the dictionary iff some line binds it |
| Xmodmap.FillLastWins | Screenkey/modmap.py:79 | the value stored for a key is the one from the last line that binds it |
| Xmodmap.FillValues | Screenkey/modmap.py:79 | every stored value was produced by some line for that key |
| Xmodmap.HexCodes | Screenkey/modmap.py:98 | the list comprehension `[int(kc, 16) ...]` succeeds iff every token parses, keeps the token order, and adds the offset to each value |
| Xmodmap.TokenChar | Screenkey/modmap.py:41-44 | `unichr(int(keysyms[k], 16))` without raising: defined iff the token exists, parses and is a code point |
| ScreenkeyModmap.Slot | Screenkey/modmap.py:40-46 | one keymap slot is `''` on a missing, unparsable or out-of-range token or NUL, and otherwise the one character of the token |
| ScreenkeyModmap.KeymapLine | Screenkey/modmap.py:32-79 | a line binds iff it is non-empty and has a whitespace-preceded decimal; its key is that number and its value the slots of hex tokens 0, 1, 4 and 5; it never raises |
| ScreenkeyModmap.GetKeymapTable | Screenkey/modmap.py:26-81 | the loop builds exactly the dictionary of the line-by-line fold |
| ScreenkeyModmap.KeymapShape | Screenkey/modmap.py:31-79 | the keymap never raises; its keys are exactly the keycodes of non-empty lines after the first; every value has four entries of at most one non-NUL character |
| ScreenkeyModmap.KeymapLastWins | Screenkey/modmap.py:79 | a later line with the same keycode overwrites an earlier one |
| ScreenkeyModmap.ModifierLine | Screenkey/modmap.py:90-100 | a line is skipped iff it is empty or has no leading word; it raises only ValueError; else it binds the leading word to the parsed hex codes |
| ScreenkeyModmap.GetModifierMap | Screenkey/modmap.py:84-102 | the loop yields the fold's outcome, including the ValueError |
| ScreenkeyModmap.ModifierMapShape | Screenkey/modmap.py:89-100 | the map raises iff some named line has a non-hex `0x` token; each name maps to its line's codes in order |
| LegacyModmap.Slot | modmap.py:26-29 | a slot is `''` on a missing or invalid token and the token's character otherwise, NUL included |
| LegacyModmap.NulKept | modmap.py:26-29 | a `0x0` token yields NUL here and `''` in Screenkey/modmap.py; on every other token the two agree |
| LegacyModmap.KeymapLine | modmap.py:19-46 | a line binds iff non-empty with a decimal; its key is that keycode minus 8; its value is the four slots of tokens 0, 1, 4, 5 |
| LegacyModmap.GetKeymapTable | modmap.py:12-48 | the loop builds exactly the dictionary of the line-by-line fold |
| LegacyModmap.KeymapShape | modmap.py:18-46 | never raises; its keys are exactly the keycodes minus 8 of non-empty lines after the first; every value has four entries |
| LegacyModmap.KeymapLastWins | modmap.py:46 | a later line with the same keycode overwrites an earlier one |
| LegacyModmap.ModifierLine | modmap.py:57-67 | skipped iff empty or no leading word; raises only ValueError; else binds the word to the hex codes minus 8 |
| LegacyModmap.GetModifierMap | modmap.py:50-69 | the loop yields the fold's outcome |
| LegacyModmap.ModifierMapShape | modmap.py:56-67 | raises iff some named line has a non-hex token; each name maps to its codes minus 8 in order |
| KeyDecode.KeysymToUnicode | Screenkey/inputlistener.py:136-142 | Unicode keysyms give the code point k − 0x01000000; other keysyms give the table entry, or None when absent |
| KeyDecode.UnicodeKeysymRoundTrip | Screenkey/keylistener.py:112-118 | every character is reached through its Unicode keysym, and a keysym in that range decodes to only its own character |
| KeyDecode.ModifiersRoundTrip | Screenkey/inputlistener.py:205-214 | the eight flags and bits 0–7 of the state determine each other; higher bits are ignored |
| KeyDecode.MaskOfFlags | Screenkey/keylistener.py:172-181 | each flag read back from its own mask bit is the flag |
| KeyDecode.FlagsOfMask | Screenkey/keylistener.py:172-181 | re-encoding the decoded flags gives the low byte of the state |
| KeyDecode.EventModifiers | Screenkey/inputlistener.py:205-214 | only the modifier flags change, and they are the bits of the event state |
| KeyDecode.CStringValue | Screenkey/inputlistener.py:229 | `buf.value` is the longest NUL-free prefix of the buffer |
| KeyDecode.EventKeypress | Screenkey/inputlistener.py:217-233 | sets string, keysym and status from the lookup reply and leaves the rest |
| KeyDecode.EventLookup | Screenkey/inputlistener.py:236-238 | only the keysym changes, to the keycode's group-0 level-0 keysym |
| KeyDecode.EventProcessed | Screenkey/inputlistener.py:198-202 | sets the symbol name and fills a missing string from `keysym_to_unicode` |
| KeyDecode.NewKeyData | Screenkey/inputlistener.py:300-312 | pressed, filtered and mask fields; `repeated` iff type, state and keycode match `last_ev`; lookup used iff unfiltered, pressed and translating; printable-ASCII keysyms give their one character; a failed UTF-8 decode or NoSymbol falls back to `keysym_to_unicode` |
| KeyDecode.MakeKeyData | Screenkey/keylistener.py:298-310 | the field-by-field assembly yields the record NewKeyData describes |
| InputListener.InsertByFirst | Screenkey/inputlistener.py:58 | inserting into the sort keeps every range and adds exactly one |
| InputListener.SortByFirst | Screenkey/inputlistener.py:58 | `sorted(key=first)` is a permutation ordered by `first` |
| InputListener.SortedStaysPut | Screenkey/inputlistener.py:58 | sorting an already sorted list leaves it unchanged |
| InputListener.SortByFirstStable | Screenkey/inputlistener.py:58 | `sorted` is stable: for every start k, the ranges starting at k come out in their input order |
| InputListener.CoalesceRanges | Screenkey/inputlistener.py:57-65 | returns ranges sorted by `first` with no overlap or adjacency, no more than it was given, `[]` iff given `[]`, and covering the same integers when the input is well formed |
| InputListener.CoalesceShape | Screenkey/inputlistener.py:57-65 | sorted and separated, no longer than the input, empty iff the input is |
| InputListener.FoldShape | Screenkey/inputlistener.py:60-64 | the merge loop keeps the result sorted and separated |
| InputListener.FoldCovers | Screenkey/inputlistener.py:60-64 | the merge loop covers exactly what was merged so far plus what remains |
| InputListener.CoversPermutation | Screenkey/inputlistener.py:58 | reordering ranges changes neither what they cover nor their well-formedness |
| InputListener.CoalesceCovers | Screenkey/inputlistener.py:57-65 | for well-formed input the covered integers are exactly the input's |
| InputListener.RecordContext | Screenkey/inputlistener.py:68-83 | creates max(len(ev), len(dev)) specs after coalescing; spec i holds the i-th event and device ranges where they exist, zero otherwise |
| InputListener.PairRanges | Screenkey/inputlistener.py:72-82 | the range-spec loop pairs the i-th ranges of both lists |
| InputListener.AllDeviceRangesCoalesce | Screenkey/inputlistener.py:330-339 | with all input types, the device ranges merge into the one range KeyPress..MotionNotify |
| InputListener.FocusRangeCoalesces | Screenkey/inputlistener.py:333 | the event range stays FocusIn..FocusOut |
| InputListener.ProcessEvent | Screenkey/inputlistener.py:278-312 | one event gives the action of the per-event function |
| InputListener.KbdProcessOutcomes | Screenkey/inputlistener.py:278-305 | a focus client message (and only it) resets the input context; KeyData is emitted iff the event is a key event and not a phantom release; `repeated` compares with `last_ev`; the filter sees the event unrewritten |
| InputListener.Dispatch | Screenkey/inputlistener.py:368-373 | the event loop yields the actions of the queue, with `last_ev` advancing after every event |
| InputListener.RunIsPerEvent | Screenkey/inputlistener.py:368-373 | the run is the per-event actions in order, each event judged against the event just before it |
| KeyListener.Rewrite | Screenkey/keylistener.py:287-289 | key events get `send_event` false and the replay window; nothing else changes |
| KeyListener.ProcessEvent | Screenkey/keylistener.py:277-311 | one loop iteration gives the step function's action and new `last_ev` |
| KeyListener.KeyStepOutcomes | Screenkey/keylistener.py:280-311 | a focus client message resets the IC; no client message emits anything else; KeyData is emitted iff a non-phantom key event; `last_ev` moves only on emission; the filter sees the rewritten event |
| KeyListener.Dispatch | Screenkey/keylistener.py:277-311 | the loop yields the actions of the run over the queue |
| KeyListener.RunUnfolds | Screenkey/keylistener.py:311 | each event is judged against the last dispatched event before it |
| KeyListener.RunFromIsPerEvent | Screenkey/keylistener.py:277-311 | the run from position n is the per-event actions from n on |
| KeyListener.RunIsPerEvent | Screenkey/keylistener.py:277-311 | the run is the per-event actions in order |
| KeyListener.FocusBetweenPresses | Screenkey/keylistener.py:311 | a press, a focus message and the same press: keylistener reports the second press repeated, inputlistener does not |
| LabelManager.ReplaceMods | Screenkey/labelmanager.py:75-81 | every modifier label is non-empty in every mode |
| LabelManager.EscapeChar | Screenkey/labelmanager.py:134 | escaping one character never yields `<` or `>` |
| LabelManager.Escape | Screenkey/labelmanager.py:134 | escaped text contains no `<` or `>` and is no shorter |
| LabelManager.EscapePlain | Screenkey/labelmanager.py:134 | escaping is the identity exactly on text without markup characters |
| LabelManager.FirstRecentFrom | Screenkey/labelmanager.py:131-133 | finds the first entry younger than `recent_thr` |
| LabelManager.LayoutShape | Screenkey/labelmanager.py:121-136 | the markup holds every entry's text in order; one `<u>` iff some entry is recent; `</u>` iff opened, and only as the last token; an empty log renders to `""` |
| LabelManager.LayoutFromTexts | Screenkey/labelmanager.py:124-134 | the loop emits each entry's replacement text once, in order |
| LabelManager.LayoutFromTags | Screenkey/labelmanager.py:131-133 | the loop opens `<u>` at most once, at the first recent entry, and never closes inside |
| LabelManager.SeparatorText | Screenkey/labelmanager.py:125-130 | a space when either neighbour's text is longer than one, else the thin-space span when either is `bk_stop`, else nothing |
| LabelManager.RecentAt | Screenkey/labelmanager.py:131 | the span opens at entry i iff i is the first recent entry |
| LabelManager.PieceMarkup | Screenkey/labelmanager.py:125-134 | one iteration's markup: separator, the optional `<u>`, U+200C and the escaped text |
| LabelManager.RenderEntry | Screenkey/labelmanager.py:124-134 | one iteration keeps the loop invariant |
| LabelManager.RenderMarkup | Screenkey/labelmanager.py:121-136 | the loop builds exactly the specified markup |
| LabelManager.Backspace | Screenkey/labelmanager.py:169-190 | pops the last entry iff the policy allows it, else appends `⌫`; the length moves by exactly one |
| LabelManager.ModPrefix | Screenkey/labelmanager.py:194-197 | the prefix is empty iff none of ctrl, alt, super, hyper is held |
| LabelManager.CapsPrefixAll | Screenkey/labelmanager.py:194-197 | the loop over ctrl, alt, super, hyper builds the prefix in that order |
| LabelManager.ModifierPrefix | Screenkey/labelmanager.py:194-197 | the prefix loop yields the prefix function |
| LabelManager.RegularKey | Screenkey/labelmanager.py:193-216 | an unknown symbol without a string changes nothing and returns False; otherwise returns True and appends a chord entry (prefix, shift for replaced keys, flags copied) or a plain entry unless `mods_only` |
| LabelManager.NormalMode | Screenkey/labelmanager.py:160-216 | Ctrl+Ctrl flips `enabled`; while disabled nothing changes; `normal` backspace appends `⌫`; the log only grows by one at the tail, loses its last entry, or stays |
| LabelManager.RawMode | Screenkey/labelmanager.py:219-222 | appends exactly one `is_ctrl`, `bk_stop` entry holding the string or the symbol |
| LabelManager.Press | Screenkey/labelmanager.py:141-157 | a filtered event never changes the log and re-renders iff the log is non-empty; otherwise the mode decides |
| LabelManager.PressKeepsProtected | Screenkey/labelmanager.py:180-181 | a protected entry (`is_ctrl`, or the backspace stop of the mode) and everything before it survive any event |
| LabelManager.ReplayKeepsProtected | Screenkey/labelmanager.py:141-190 | the same holds across any sequence of events |
| LabelManager.PlainPress | Screenkey/labelmanager.py:193-211 | while enabled, an unfiltered press with a string, of a key with no replacement and none of ctrl/alt/super/hyper held, appends one non-chord entry holding the string (without mods_only) |
| LabelManager.BakedBackspaceScenario | Screenkey/labelmanager.py:182-187 | typing a, b, BackSpace under `baked` leaves only a |
| LabelManager.NormalBackspaceScenario | Screenkey/labelmanager.py:172-174 | under `normal` the same keys leave a, b and `⌫` |
| LabelManager.ChordScenario | Screenkey/labelmanager.py:209-215 | Ctrl+c then c gives the chord entry `Ctrl+c` and the plain entry `c` |
| LabelManager.LabelManager.constructor | Screenkey/labelmanager.py:85-95 | an empty, enabled log with no markup yet |
| LabelManager.LabelManager.Clear | Screenkey/labelmanager.py:117-118 | empties the log and changes nothing else |
| LabelManager.LabelManager.UpdateText | Screenkey/labelmanager.py:121-138 | hands the callback the markup of the current log |
| LabelManager.LabelManager.KeyNormalMode | Screenkey/labelmanager.py:160-216 | the new log, flag and result are those of NormalMode |
| LabelManager.LabelManager.BackspaceKey | Screenkey/labelmanager.py:169-190 | the new log is that of Backspace |
| LabelManager.LabelManager.RegularKeyPress | Screenkey/labelmanager.py:193-216 | the new log and result are those of RegularKey |
| LabelManager.LabelManager.KeyRawMode | Screenkey/labelmanager.py:219-222 | the new log is that of RawMode |
| LabelManager.LabelManager.KeyPress | Screenkey/labelmanager.py:141-157 | the new state is that of Press, and the markup is re-rendered iff it asks for an update |
| LegacyKeys.SetFlag | Screenkey/listenkbd.py:203-238 | sets exactly the named flag and leaves the others |
| LegacyKeys.Classify | Screenkey/listenkbd.py:203-240 | mod1 keys are Alt and win over the meta keycode; a missing modifier name raises KeyError |
| LegacyKeys.ClassifyOther | Screenkey/listenkbd.py:203-246 | with all five names present, a key is ordinary iff it is in none of them and is not the meta keycode |
| LegacyKeys.SelectKey | Screenkey/listenkbd.py:261-277 | the precedence picks one of the four symbols; `ord` raises TypeError iff Caps Lock is on and key_normal is not one character |
| LegacyKeys.CapsLockOnlyShiftsLetters | Screenkey/listenkbd.py:271-273 | Caps Lock selects the shifted symbol only for a–z |
| LegacyKeys.ChordPrefix | Screenkey/listenkbd.py:262-267 | the prefix is empty iff none of ctrl, alt, super is held |
| LegacyKeys.Decorate | Screenkey/listenkbd.py:283-289 | a chord gives `prefix + key + ' '`, a plain key gives the key |
| ListenKbd.ReplaceName | Screenkey/listenkbd.py:33-78 | every replacement in the table is non-empty |
| ListenKbd.FirstName | Screenkey/listenkbd.py:128-130 | finds the first `XK_` name whose value is the keysym |
| ListenKbd.KeysymName | Screenkey/listenkbd.py:127-131 | the first matching name without `XK_`, or `""` when none matches |
| ListenKbd.FirstReplaceable | Screenkey/listenkbd.py:135-138 | finds the first matching name that has a replacement |
| ListenKbd.Replacement | Screenkey/listenkbd.py:134-138 | a replacement exists iff some matching name is in the table, and it is non-empty |
| ListenKbd.PressText | Screenkey/listenkbd.py:260-291 | raises exactly when selection raises; mods_only with no prefix gives None; otherwise the decorated replacement or selected key |
| ListenKbd.NormalMode | Screenkey/listenkbd.py:185-293 | an unmapped keycode changes nothing; what raises changes nothing; only backspace changes the label, by its last character; no release yields text |
| ListenKbd.ModifierKeys | Screenkey/listenkbd.py:203-246 | modifier keys set the flag on press and clear it on release with no text; Caps Lock toggles on press only |
| ListenKbd.BackspaceKey | Screenkey/listenkbd.py:248-258 | keycode 22 drops the label's last character and returns `""`, or returns None on an empty label |
| ListenKbd.OrdinaryPress | Screenkey/listenkbd.py:259-291 | a press returns the chord `prefix + key + ' '`, None under mods_only with no prefix, or the key |
| ListenKbd.JoinedEmpty | Screenkey/listenkbd.py:172-182 | the joined reply text is empty iff no key produced text |
| ListenKbd.ListenKbd.constructor | Screenkey/listenkbd.py:82-100 | all flags false and empty text |
| ListenKbd.ListenKbd.LookupKeysym | Screenkey/listenkbd.py:127-131 | the loop returns the keysym's name |
| ListenKbd.ListenKbd.ReplaceKey | Screenkey/listenkbd.py:134-138 | the loop returns the table's replacement |
| ListenKbd.ListenKbd.UpdateText | Screenkey/listenkbd.py:141-149 | a string is appended to the label; None clears the label |
| ListenKbd.ListenKbd.Deliver | Screenkey/listenkbd.py:172-182 | the keys' texts are joined and appended when any produced text |
| ListenKbd.ListenKbd.KeyNormalMode | Screenkey/listenkbd.py:185-293 | the new flags, label and result are those of NormalMode |
| ListenKbd.ListenKbd.PressKey | Screenkey/listenkbd.py:260-291 | the press branch returns PressText |
| ListenKbd.ListenKbd.ChordMod | Screenkey/listenkbd.py:262-267 | builds the chord prefix |
| ListenKbd.ListenKbd.ChooseKey | Screenkey/listenkbd.py:269-277 | applies the selection precedence |
| ListenKbd.ListenKbd.KeyRawMode | Screenkey/listenkbd.py:296-303 | a press returns the keysym name (`""` if none), a release None |
| ListenKdb.ReplaceCode | Screenkey/listenkdb.py:22-52 | exactly codes 99 and 127 map to the empty replacement |
| ListenKdb.Append | Screenkey/listenkdb.py:91-94 | the label becomes the old label followed by the string |
| ListenKdb.DropLast | Screenkey/listenkdb.py:157 | `[:-1]` drops the last character, or leaves the empty label |
| ListenKdb.PressText | Screenkey/listenkdb.py:159-186 | raises exactly when selection raises; an empty replacement gives nothing; otherwise the decorated key |
| ListenKdb.Press | Screenkey/listenkdb.py:99-189 | an unmapped code and whatever raises change nothing; only value 1 changes the label |
| ListenKdb.OtherPress | Screenkey/listenkdb.py:159-189 | a non-modifier event with value other than 1 changes nothing |
| ListenKdb.ModifierKeys | Screenkey/listenkdb.py:110-154 | modifier flags are set for value 1 or 2 and cleared otherwise; Caps Lock toggles only on value 1; no text |
| ListenKdb.BackspaceKey | Screenkey/listenkdb.py:155-158 | code 14 drops the label's last character |
| ListenKdb.OrdinaryPress | Screenkey/listenkdb.py:159-189 | an empty replacement suppresses output; otherwise the label gains the decorated key |
| ListenKdb.OtherPressAppends | Screenkey/listenkdb.py:159-189 | the ordinary branch appends the decorated key or nothing |
| ListenKdb.ListenKbd.constructor | Screenkey/listenkdb.py:58-88 | all flags false and empty text |
| ListenKdb.ListenKbd.UpdateText | Screenkey/listenkdb.py:91-97 | a string is appended to the label; None clears it |
| ListenKdb.ListenKbd.KeyPress | Screenkey/listenkdb.py:99-189 | the new flags, label and result are those of Press |
| ListenKdb.ListenKbd.PressKey | Screenkey/listenkdb.py:159-186 | the press branch returns PressText |

## Left out

- Threads, the lock, `select`, the blocking loops, the X display connections,
  XRecord and the subprocess calls to `xmodmap` are not modelled. The
  parsers take the command output as text.
- The X library and the input method are pure oracles. These are
  `XFilterEvent`, `Xutf8LookupString`, `XkbKeycodeToKeysym`, `XKeysymToString`
  and the UTF-8 decoder. The real input method is stateful; only the reset
  it receives is modelled, as the ResetIC action.
- `_event_received` (forwarding recorded events with `XSendEvent`) and
  `_event_callback` (the hop through the GLib main loop) are left out. The
  dispatch yields the list of actions the callback would receive.
- `keysyms.KEYSYMS` is a map parameter of `KeysymToUnicode`, not the
  1800-line table.
- `glib.markup_escape_text` is modelled by its character rules: `&`, `<`,
  `>`, quotes, and C0/C1 control characters as `&#x…;`. GLib's handling of
  invalid UTF-8 is not modelled.
- `gettext` (`_()`) is the identity.
- Logging and the `print` of unmapped scan codes are not modelled.
- Time is an integer count of microseconds passed in. `recent_thr` is a real
  number of seconds.
- LabelManager.RenderMarkup: judges every entry's recency against one
  instant `now`. The source reads `datetime.now()` again for each entry until
  the first recent one, so an entry right at the `recent_thr` boundary can open
  `<u>` in the model but not in the source.
- InputListener.CoalesceRanges: computes on values. The source's
  `ret[-1][1] = ...` also widens, in place, the caller's inner lists that
  `ranges[:1]` shares; that aliasing is not modelled.
- LabelManager.RawMode: requires a string or a symbol. With neither, the
  source stores None and `update_text` then raises (in
  `glib.markup_escape_text` for the first entry, in `len` for a later one);
  that failure is not modelled. `silent` (None in the source) is stored as
  false.
- LabelManager.Press: requires the same of raw-mode events, for the same
  reason.
- LabelManager.LabelManager.KeyRawMode: carries the same requires, for the
  same reason.
- LabelManager.LabelManager.KeyPress: carries the same requires, for the same
  reason.
- ListenKdb.DropLast: slices characters. Under Python 2 the source slices the
  UTF-8 byte string of the label, which can cut a multi-byte character in half.
- Text.Unichr: assumes a wide Python build. On a narrow build `unichr` raises
  above 0xFFFF.
- KeyDecode.PhantomRelease: peeks at the rest of the abstract queue, so the
  model treats the matching autorepeat press as already queued. `XPending` and
  `XPeekEvent` see only events that have already arrived.
- KeyDecode.KeysymToUnicode: makes the same wide-build assumption. It returns
  one code point above 0xFFFF for Unicode keysyms up to 0x0110FFFF, where the
  `unichr` of Screenkey/inputlistener.py:138 would raise on a narrow build.
- ListenKbd.ListenKbd.Deliver: models only the join of `key_press`. Parsing
  RECORD replies and the `ps -C sudo` check are left out.
- `record_context` in Screenkey/keylistener.py (one fixed range pair, no
  coalescing), `record_enable` and `create_replay_window` are X calls and are
  not part of this model.
- Screenkey/screenkey.py, libscreenkey/screenkey.py, devices.py and
  Screenkey/xlib.py are not part of this model, beyond the event-type and mask
  constants of xlib.py in module `XProto`.
- The model follows the code as written:
  - `key_normal_mode` never looks at `pressed`, so a release is treated like
    a press;
  - there is no ignore set, repeat compression or whitespace policy;
  - inputlistener's `send_event`/`window` rewrite is nested under the
    ClientMessage test (Screenkey/inputlistener.py:279-289), so it never fires
    for key events.
