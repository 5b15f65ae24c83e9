/** What the two legacy keycode listeners (`Screenkey/listenkbd.py` over X RECORD and
    `Screenkey/listenkdb.py` over evdev) share: the `cmd_keys` flags, how a keycode
    is classified against the modifier map, which of the four keymap characters a
    press shows, and the chord prefix. */
module LegacyKeys {
  import opened Wrappers
  import opened Text

  /** The `cmd_keys` dictionary; its six keys are fixed, so it is a record. */
  datatype CmdKeys = CmdKeys(shift: bool, ctrl: bool, alt: bool, capslock: bool, meta: bool, super: bool)

  const NoCmdKeys := CmdKeys(false, false, false, false, false, false)

  /** The flags a modifier key sets and clears. */
  datatype Mod = Alt | Meta | Super | Ctrl | Shift

  function Flag(cmd: CmdKeys, m: Mod): bool
  {
    match m
    case Alt => cmd.alt
    case Meta => cmd.meta
    case Super => cmd.super
    case Ctrl => cmd.ctrl
    case Shift => cmd.shift
  }

  /** `self.cmd_keys[m] = b`: that flag becomes b and every other flag is kept. */
  function SetFlag(cmd: CmdKeys, m: Mod, b: bool): (r: CmdKeys)
    ensures Flag(r, m) == b && r.capslock == cmd.capslock
    ensures forall n :: n != m ==> Flag(r, n) == Flag(cmd, n)
  {
    match m
    case Alt => cmd.(alt := b)
    case Meta => cmd.(meta := b)
    case Super => cmd.(super := b)
    case Ctrl => cmd.(ctrl := b)
    case Shift => cmd.(shift := b)
  }

  /** The branch of the `if`/`elif` chain a keycode takes. */
  datatype KeyClass = ModKey(m: Mod) | CapsKey | OtherKey

  /** The keycode tests in order: `mod1`, the hard-wired meta keycode, `mod4`,
      `control`, `shift`, `lock`. Looking up a modifier name the map lacks raises
      KeyError, but only once the tests before it have failed. */
  function Classify(modifiers: map<UString, seq<int>>, code: int, metaCode: int): (r: Outcome<KeyClass>)
    ensures r.Raised? ==> r.error == KeyError
    ensures U("mod1") !in modifiers ==> r == Raised(KeyError)
    ensures r == Returned(ModKey(Alt)) <==> U("mod1") in modifiers && code in modifiers[U("mod1")]
    ensures r == Returned(ModKey(Meta)) <==> U("mod1") in modifiers && code !in modifiers[U("mod1")] && code == metaCode
    ensures r.Returned? && r.value.ModKey? && r.value.m != Alt && r.value.m != Meta ==> code != metaCode
  {
    if U("mod1") !in modifiers then Raised(KeyError)
    else if code in modifiers[U("mod1")] then Returned(ModKey(Alt))
    else if code == metaCode then Returned(ModKey(Meta))
    else if U("mod4") !in modifiers then Raised(KeyError)
    else if code in modifiers[U("mod4")] then Returned(ModKey(Super))
    else if U("control") !in modifiers then Raised(KeyError)
    else if code in modifiers[U("control")] then Returned(ModKey(Ctrl))
    else if U("shift") !in modifiers then Raised(KeyError)
    else if code in modifiers[U("shift")] then Returned(ModKey(Shift))
    else if U("lock") !in modifiers then Raised(KeyError)
    else if code in modifiers[U("lock")] then Returned(CapsKey)
    else Returned(OtherKey)
  }

  /** A keycode in none of the five modifier lists, and not the meta keycode, is an
      ordinary key; one in the `lock` list only is Caps Lock. */
  lemma ClassifyOther(modifiers: map<UString, seq<int>>, code: int, metaCode: int)
    requires forall name :: name in [U("mod1"), U("mod4"), U("control"), U("shift"), U("lock")] ==> name in modifiers
    ensures Classify(modifiers, code, metaCode).Returned?
    ensures Classify(modifiers, code, metaCode) == Returned(OtherKey)
            <==> code != metaCode && forall name :: name in [U("mod1"), U("mod4"), U("control"), U("shift"), U("lock")] ==> code !in modifiers[name]
  {
    var names := [U("mod1"), U("mod4"), U("control"), U("shift"), U("lock")];
    assert names[0] in names && names[1] in names && names[2] in names && names[3] in names && names[4] in names;
  }

  /** `ord(c) in range(97, 123)`: a lower-case ASCII letter. */
  predicate IsLowerAscii(c: CodePoint) { 97 <= c <= 122 }

  /** The character a press shows, from `(key_normal, key_shift, key_dead, key_deadshift)`:
      shift and meta together pick the fourth, meta alone the third, shift, or Caps
      Lock on a lower-case letter, the second, and otherwise the first. With Caps Lock
      on, `ord(key_normal)` raises TypeError unless key_normal is one character. */
  function SelectKey(cmd: CmdKeys, entry: seq<UString>): (r: Outcome<UString>)
    requires |entry| == 4
    ensures r.Raised? <==> cmd.capslock && |entry[0]| != 1
    ensures r.Raised? ==> r.error == TypeError
    ensures r.Returned? ==> r.value in entry
  {
    if cmd.capslock && |entry[0]| != 1 then Raised(TypeError)
    else if cmd.shift && cmd.meta then Returned(entry[3])
    else if cmd.meta then Returned(entry[2])
    else if cmd.shift || (cmd.capslock && IsLowerAscii(entry[0][0])) then Returned(entry[1])
    else Returned(entry[0])
  }

  /** Caps Lock only matters for lower-case letters, and is overridden by meta. */
  lemma CapsLockOnlyShiftsLetters(cmd: CmdKeys, entry: seq<UString>)
    requires |entry| == 4 && |entry[0]| == 1 && !cmd.shift && !cmd.meta
    ensures SelectKey(cmd.(capslock := true), entry) == Returned(if IsLowerAscii(entry[0][0]) then entry[1] else entry[0])
    ensures SelectKey(cmd.(capslock := false), entry) == Returned(entry[0])
  {
  }

  /** The chord prefix: `Ctrl+`, `Alt+`, `Super+`, in this order, for each flag set. */
  function ChordPrefix(cmd: CmdKeys): (r: UString)
    ensures r == [] <==> !cmd.ctrl && !cmd.alt && !cmd.super
  {
    (if cmd.ctrl then U("Ctrl+") else []) + (if cmd.alt then U("Alt+") else []) + (if cmd.super then U("Super+") else [])
  }

  /** `"%s%s " % (mod, key)` for a chord, `key` itself otherwise. */
  function Decorate(prefix: UString, key: UString): (r: UString)
    ensures prefix != [] ==> r == prefix + key + U(" ")
    ensures prefix == [] ==> r == key
  {
    if prefix != [] then prefix + key + U(" ") else key
  }
}
