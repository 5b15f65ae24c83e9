/** The key-event decoding helpers that `Screenkey/inputlistener.py` and
    `Screenkey/keylistener.py` share line for line: the keysym-to-character rule,
    the phantom-release peek, the modifier decoding, the string lookup and the
    assembly of the `KeyData` record handed to the consumer. The X library and
    the input method are oracles (XOracles). */
module KeyDecode {
  import opened Wrappers
  import opened Text
  import opened XProto

  // ---------------------------------------------------------------------------
  // keysym_to_unicode

  /** X.Org convention: the keysym of Unicode character U is U + 0x01000000. */
  const UnicodeKeysymBase: int := 0x0100_0000
  const UnicodeKeysymLast: int := 0x0110_FFFF

  function UnicodeKeysym(c: CodePoint): int
  {
    c as int + UnicodeKeysymBase
  }

  /** The character of a keysym: Unicode keysyms by subtraction, the legacy
      keysyms through the table (first column of `keysyms.KEYSYMS`), else none. */
  function KeysymToUnicode(table: map<int, UString>, keysym: int): (r: Option<UString>)
    ensures UnicodeKeysymBase <= keysym <= UnicodeKeysymLast ==>
              r == Some([(keysym - UnicodeKeysymBase) as CodePoint])
    ensures !(UnicodeKeysymBase <= keysym <= UnicodeKeysymLast) ==>
              (r.Some? <==> keysym in table) && (keysym in table ==> r.value == table[keysym])
  {
    if UnicodeKeysymBase <= keysym <= UnicodeKeysymLast then
      Some([(keysym - UnicodeKeysymBase) as CodePoint])
    else if keysym in table then Some(table[keysym])
    else None
  }

  /** Every character is reachable through its Unicode keysym, whatever the table says,
      and a Unicode keysym yields the one character it encodes. */
  lemma UnicodeKeysymRoundTrip(table: map<int, UString>, c: CodePoint, keysym: int)
    ensures KeysymToUnicode(table, UnicodeKeysym(c)) == Some([c])
    ensures (UnicodeKeysymBase <= keysym <= UnicodeKeysymLast && KeysymToUnicode(table, keysym) == Some([c]))
              ==> keysym == UnicodeKeysym(c)
  {
  }

  // ---------------------------------------------------------------------------
  // phantom_release

  /** The release `kev` is a phantom when the next queued event (peeked, not
      consumed) is a press with the same state, keycode and time. */
  predicate PhantomRelease(pending: seq<XEvent>, kev: XEvent)
  {
    |pending| > 0 && pending[0].evType == KeyPress && pending[0].state == kev.state
    && pending[0].keycode == kev.keycode && pending[0].time == kev.time
  }

  // ---------------------------------------------------------------------------
  // _event_modifiers

  function ModifiersOf(state: bv32): Modifiers
  {
    Modifiers(state & ShiftMask != 0, state & LockMask != 0, state & ControlMask != 0,
              state & Mod1Mask != 0, state & Mod2Mask != 0, state & Mod3Mask != 0,
              state & Mod4Mask != 0, state & Mod5Mask != 0)
  }

  /** The mask with exactly the bits of the set flags: the inverse of ModifiersOf. */
  function ModsToMask(m: Modifiers): bv32
  {
    (if m.shift then ShiftMask else 0) | (if m.capsLock then LockMask else 0)
    | (if m.ctrl then ControlMask else 0) | (if m.alt then Mod1Mask else 0)
    | (if m.numLock then Mod2Mask else 0) | (if m.hyper then Mod3Mask else 0)
    | (if m.super then Mod4Mask else 0) | (if m.altGr then Mod5Mask else 0)
  }

  /** Decoding is a bijection between the eight flags and bits 0..7; bits 8 and up are ignored. */
  lemma ModifiersRoundTrip(m: Modifiers, state: bv32)
    ensures ModifiersOf(ModsToMask(m)) == m
    ensures ModsToMask(ModifiersOf(state)) == state & 0xFF
    ensures ModifiersOf(state) == ModifiersOf(state & 0xFF)
  {
    MaskOfFlags(m);
    FlagsOfMask(state);
  }

  lemma MaskOfFlags(m: Modifiers)
    ensures ModifiersOf(ModsToMask(m)) == m
  {
    var x := ModsToMask(m);
    assert x & ShiftMask != 0 <==> m.shift;
    assert x & LockMask != 0 <==> m.capsLock;
    assert x & ControlMask != 0 <==> m.ctrl;
    assert x & Mod1Mask != 0 <==> m.alt;
    assert x & Mod2Mask != 0 <==> m.numLock;
    assert x & Mod3Mask != 0 <==> m.hyper;
    assert x & Mod4Mask != 0 <==> m.super;
    assert x & Mod5Mask != 0 <==> m.altGr;
  }

  lemma FlagsOfMask(state: bv32)
    ensures ModsToMask(ModifiersOf(state)) == state & 0xFF
    ensures ModifiersOf(state) == ModifiersOf(state & 0xFF)
  {
    var m := ModifiersOf(state);
    assert (if m.shift then ShiftMask else 0) == state & ShiftMask;
    assert (if m.capsLock then LockMask else 0) == state & LockMask;
    assert (if m.ctrl then ControlMask else 0) == state & ControlMask;
    assert (if m.alt then Mod1Mask else 0) == state & Mod1Mask;
    assert (if m.numLock then Mod2Mask else 0) == state & Mod2Mask;
    assert (if m.hyper then Mod3Mask else 0) == state & Mod3Mask;
    assert (if m.super then Mod4Mask else 0) == state & Mod4Mask;
    assert (if m.altGr then Mod5Mask else 0) == state & Mod5Mask;
    assert state & 0xFF == (state & ShiftMask) | (state & LockMask) | (state & ControlMask)
      | (state & Mod1Mask) | (state & Mod2Mask) | (state & Mod3Mask) | (state & Mod4Mask) | (state & Mod5Mask);
  }

  // ---------------------------------------------------------------------------
  // The record handed to the consumer.

  /** `KeyData` once the listener has filled it; `string`, `status` and `symbol`
      may still be None, as in the source. */
  datatype KeyData = KeyData(
    pressed: bool, filtered: bool, repeated: bool,
    str: Option<UString>, keysym: int, status: Option<int>, symbol: Option<string>,
    modsMask: bv32, modifiers: Modifiers)

  /** `KeyData()` before the listener assigns its fields (every field the listener
      always assigns starts from an arbitrary placeholder). */
  const BlankKeyData := KeyData(false, false, false, None, NoSymbol, None, None, 0, ModifiersOf(0))

  /** What `Xutf8LookupString` leaves behind: its return value, the keysym, the
      16-byte buffer and the status. */
  datatype LookupReply = LookupReply(ret: int, keysym: int, buf: seq<Byte>, status: int)

  /** The X library and the input method, seen as functions of their arguments. */
  datatype XOracles = XOracles(
    filter: XEvent -> bool,                     // XFilterEvent(ev, 0)
    lookup: XEvent -> LookupReply,              // Xutf8LookupString(xic, kev, buf, 16, ...)
    keycodeToKeysym: int -> int,                // XkbKeycodeToKeysym(display, keycode, 0, 0)
    keysymToString: int -> Option<string>,      // XKeysymToString(keysym)
    decodeUtf8: seq<Byte> -> Option<UString>,   // bytes.decode('utf-8'), None on UnicodeDecodeError
    keysyms: map<int, UString>)                 // keysyms.KEYSYMS, first column

  method EventModifiers(kev: XEvent, data: KeyData) returns (d: KeyData)
    ensures d == data.(modifiers := d.modifiers)
    ensures d.modifiers == ModifiersOf(kev.state)
    ensures ModsToMask(d.modifiers) == kev.state & 0xFF
  {
    var m := Modifiers(false, false, false, false, false, false, false, false);
    m := m.(shift := kev.state & ShiftMask != 0);
    m := m.(capsLock := kev.state & LockMask != 0);
    m := m.(ctrl := kev.state & ControlMask != 0);
    m := m.(alt := kev.state & Mod1Mask != 0);
    m := m.(numLock := kev.state & Mod2Mask != 0);
    m := m.(hyper := kev.state & Mod3Mask != 0);
    m := m.(super := kev.state & Mod4Mask != 0);
    m := m.(altGr := kev.state & Mod5Mask != 0);
    d := data.(modifiers := m);
    FlagsOfMask(kev.state);
  }

  // ---------------------------------------------------------------------------
  // _event_keypress

  /** ctypes `buf.value`: the bytes before the first NUL (the whole buffer if it has none). */
  function CStringValue(buf: seq<Byte>): (r: seq<Byte>)
    ensures r <= buf
    ensures 0 !in r
    ensures |r| == |buf| || buf[|r|] == 0
  {
    if |buf| == 0 || buf[0] == 0 then [] else [buf[0]] + CStringValue(buf[1..])
  }

  /** The string after the lookup: untouched when `Xutf8LookupString` returned
      NoSymbol, the keysym itself for printable ASCII, otherwise the decoded
      buffer, or untouched when decoding fails. */
  function KeypressString(reply: LookupReply, decode: seq<Byte> -> Option<UString>, prev: Option<UString>): Option<UString>
  {
    if reply.ret == NoSymbol then prev
    else if 32 <= reply.keysym <= 126 then Some([reply.keysym as CodePoint])
    else match decode(CStringValue(reply.buf))
         case Some(s) => Some(s)
         case None => prev
  }

  method EventKeypress(kev: XEvent, o: XOracles, data: KeyData) returns (d: KeyData)
    ensures d == data.(str := KeypressString(o.lookup(kev), o.decodeUtf8, data.str),
                       keysym := o.lookup(kev).keysym, status := Some(o.lookup(kev).status))
  {
    var reply := o.lookup(kev);
    d := data;
    if reply.ret != NoSymbol {
      if 32 <= reply.keysym <= 126 {
        d := d.(str := Some([reply.keysym as CodePoint]));
      } else {
        var decoded := o.decodeUtf8(CStringValue(reply.buf));
        if decoded.Some? {
          d := d.(str := decoded);
        }
      }
    }
    d := d.(keysym := reply.keysym);
    d := d.(status := Some(reply.status));
  }

  // ---------------------------------------------------------------------------
  // _event_lookup and _event_processed

  method EventLookup(kev: XEvent, o: XOracles, data: KeyData) returns (d: KeyData)
    ensures d == data.(keysym := o.keycodeToKeysym(kev.keycode))
  {
    d := data.(keysym := o.keycodeToKeysym(kev.keycode));
  }

  function Processed(data: KeyData, o: XOracles): KeyData
  {
    data.(symbol := o.keysymToString(data.keysym),
          str := if data.str.None? then KeysymToUnicode(o.keysyms, data.keysym) else data.str)
  }

  method EventProcessed(data: KeyData, o: XOracles) returns (d: KeyData)
    ensures d == Processed(data, o)
  {
    d := data.(symbol := o.keysymToString(data.keysym));
    if d.str.None? {
      d := d.(str := KeysymToUnicode(o.keysyms, d.keysym));
    }
  }

  // ---------------------------------------------------------------------------
  // The KeyData assembled for one key event (the same lines in both listeners).

  /** `repeated`: same type, modifier state and keycode as the previous event. */
  predicate Repeated(ev: XEvent, lastEv: XEvent)
  {
    ev.evType == lastEv.evType && ev.state == lastEv.state && ev.keycode == lastEv.keycode
  }

  /** The string lookup runs only for a press the input method did not filter, with translation on. */
  predicate UsesLookup(ev: XEvent, filtered: bool, translate: bool)
  {
    !filtered && ev.evType == KeyPress && translate
  }

  function NewKeyData(ev: XEvent, lastEv: XEvent, filtered: bool, translate: bool, o: XOracles): (r: KeyData)
    ensures r.pressed <==> ev.evType == KeyPress
    ensures r.filtered == filtered
    ensures r.repeated <==> Repeated(ev, lastEv)
    ensures r.modsMask == ev.state && r.modifiers == ModifiersOf(ev.state)
    ensures r.status.Some? <==> UsesLookup(ev, filtered, translate)
    ensures r.keysym == if UsesLookup(ev, filtered, translate) then o.lookup(ev).keysym
                        else o.keycodeToKeysym(ev.keycode)
    ensures r.symbol == o.keysymToString(r.keysym)
    ensures (UsesLookup(ev, filtered, translate) && o.lookup(ev).ret != NoSymbol
             && 32 <= o.lookup(ev).keysym <= 126) ==> r.str == Some([o.lookup(ev).keysym as CodePoint])
    ensures !UsesLookup(ev, filtered, translate) ==> r.str == KeysymToUnicode(o.keysyms, r.keysym)
    ensures UsesLookup(ev, filtered, translate) && o.lookup(ev).ret == NoSymbol ==>
              r.str == KeysymToUnicode(o.keysyms, r.keysym)
    // outside printable ASCII the buffer is decoded as UTF-8; a failed decode falls
    // back to the keysym's own character
    ensures (UsesLookup(ev, filtered, translate) && o.lookup(ev).ret != NoSymbol
             && !(32 <= o.lookup(ev).keysym <= 126)) ==>
              r.str == match o.decodeUtf8(CStringValue(o.lookup(ev).buf))
                       case Some(s) => Some(s)
                       case None => KeysymToUnicode(o.keysyms, r.keysym)
  {
    var base := BlankKeyData.(filtered := filtered, pressed := ev.evType == KeyPress,
                              repeated := Repeated(ev, lastEv), modsMask := ev.state,
                              modifiers := ModifiersOf(ev.state));
    if UsesLookup(ev, filtered, translate) then
      var reply := o.lookup(ev);
      Processed(base.(str := KeypressString(reply, o.decodeUtf8, None),
                      keysym := reply.keysym, status := Some(reply.status)), o)
    else
      Processed(base.(keysym := o.keycodeToKeysym(ev.keycode)), o)
  }

  /** Lines 300-312 of inputlistener.py / 298-310 of keylistener.py, field by field. */
  method MakeKeyData(ev: XEvent, lastEv: XEvent, filtered: bool, translate: bool, o: XOracles)
    returns (d: KeyData)
    ensures d == NewKeyData(ev, lastEv, filtered, translate, o)
  {
    d := BlankKeyData;
    d := d.(filtered := filtered);
    d := d.(pressed := ev.evType == KeyPress);
    d := d.(repeated := ev.evType == lastEv.evType && ev.state == lastEv.state
                        && ev.keycode == lastEv.keycode);
    d := d.(modsMask := ev.state);
    d := EventModifiers(ev, d);
    if !d.filtered && d.pressed && translate {
      d := EventKeypress(ev, o, d);
    } else {
      d := EventLookup(ev, o, d);
    }
    d := EventProcessed(d, o);
  }

  // ---------------------------------------------------------------------------
  // What the per-event processing hands on.

  /** Resetting the input context (a forwarded focus change), or dispatching a
      KeyData to the consumer (`glib.idle_add(self._event_callback, data)`). */
  datatype Action = ResetIC | Emit(data: KeyData)

  /** The listener's fixed parameters: the `SCREENKEY` atom, the replay window
      and whether string lookup is on (`kbd_translate` / `translate`). */
  datatype ListenerConfig = ListenerConfig(customAtom: int, replayWin: int, translate: bool)

  /** The custom client message that carries a focus change. */
  predicate IsCustomMessage(ev: XEvent, c: ListenerConfig)
  {
    ev.evType == ClientMessage && ev.messageType == c.customAtom
  }

  predicate IsFocusChange(code: int) { code == FocusIn || code == FocusOut }

  /** The actions of a run, in order: every Some, dropping the Nones. */
  function Somes(s: seq<Option<Action>>): (r: seq<Action>)
    ensures |r| <= |s|
  {
    if s == [] then [] else (if s[0].Some? then [s[0].value] else []) + Somes(s[1..])
  }

  function OptionToSeq(a: Option<Action>): seq<Action>
  {
    if a.Some? then [a.value] else []
  }
}
