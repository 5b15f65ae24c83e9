/** `Screenkey/labelmanager.py`: the log of label entries that key events are folded
    into, its backspace and modifier rules, and the markup the log renders to.
    `datetime.now()` is the parameter `now` (microseconds); the label callback is
    modelled by recording the last markup handed to it. */
module LabelManager {
  import opened Wrappers
  import opened Text
  import opened XProto
  import KeyDecode

  // ---------------------------------------------------------------------------
  // Tables

  datatype KeyRepl = KeyRepl(bkStop: bool, silent: bool, repl: UString)

  /** One entry of the log (`KeyData` in the source). */
  datatype KeyData = KeyData(stamp: int, isCtrl: bool, bkStop: bool, silent: bool, repl: UString)

  /** `REPLACE_KEYS.get(symbol)`, with the gettext wrapper taken as the identity. */
  function ReplaceKey(symbol: string): Option<KeyRepl>
  {
    match symbol
    case "Escape"      => Some(KeyRepl(true,  true,  U("Esc")))
    case "Tab"         => Some(KeyRepl(true,  false, U("\U{21B9}")))
    case "Return"      => Some(KeyRepl(true,  false, U("\U{23CE}")))
    case "space"       => Some(KeyRepl(false, false, U("\U{2423}")))
    case "BackSpace"   => Some(KeyRepl(true,  true,  U("\U{232B}")))
    case "Caps_Lock"   => Some(KeyRepl(false, true,  U("\U{21EA}")))
    case "F1"          => Some(KeyRepl(true,  true,  U("F1")))
    case "F2"          => Some(KeyRepl(true,  true,  U("F2")))
    case "F3"          => Some(KeyRepl(true,  true,  U("F3")))
    case "F4"          => Some(KeyRepl(true,  true,  U("F4")))
    case "F5"          => Some(KeyRepl(true,  true,  U("F5")))
    case "F6"          => Some(KeyRepl(true,  true,  U("F6")))
    case "F7"          => Some(KeyRepl(true,  true,  U("F7")))
    case "F8"          => Some(KeyRepl(true,  true,  U("F8")))
    case "F9"          => Some(KeyRepl(true,  true,  U("F9")))
    case "F10"         => Some(KeyRepl(true,  true,  U("F10")))
    case "F11"         => Some(KeyRepl(true,  true,  U("F11")))
    case "F12"         => Some(KeyRepl(true,  true,  U("F12")))
    case "Home"        => Some(KeyRepl(true,  true,  U("Home")))
    case "Up"          => Some(KeyRepl(true,  true,  U("\U{2191}")))
    case "Prior"       => Some(KeyRepl(true,  true,  U("PgUp")))
    case "Next"        => Some(KeyRepl(true,  true,  U("PgDn")))
    case "Left"        => Some(KeyRepl(true,  true,  U("\U{2190}")))
    case "Right"       => Some(KeyRepl(true,  true,  U("\U{2192}")))
    case "End"         => Some(KeyRepl(true,  true,  U("End")))
    case "Down"        => Some(KeyRepl(true,  true,  U("\U{2193}")))
    case "Insert"      => Some(KeyRepl(false, true,  U("Ins")))
    case "Delete"      => Some(KeyRepl(true,  false, U("Del")))
    case "KP_End"      => Some(KeyRepl(false, false, U("(1)")))
    case "KP_Down"     => Some(KeyRepl(false, false, U("(2)")))
    case "KP_Next"     => Some(KeyRepl(false, false, U("(3)")))
    case "KP_Left"     => Some(KeyRepl(false, false, U("(4)")))
    case "KP_Begin"    => Some(KeyRepl(false, false, U("(5)")))
    case "KP_Right"    => Some(KeyRepl(false, false, U("(6)")))
    case "KP_Home"     => Some(KeyRepl(false, false, U("(7)")))
    case "KP_Up"       => Some(KeyRepl(false, false, U("(8)")))
    case "KP_Prior"    => Some(KeyRepl(false, false, U("(9)")))
    case "KP_Insert"   => Some(KeyRepl(false, false, U("(0)")))
    case "KP_Delete"   => Some(KeyRepl(false, false, U("(.)")))
    case "KP_Add"      => Some(KeyRepl(false, false, U("(+)")))
    case "KP_Subtract" => Some(KeyRepl(false, false, U("(-)")))
    case "KP_Multiply" => Some(KeyRepl(false, false, U("(*)")))
    case "KP_Divide"   => Some(KeyRepl(false, false, U("(/)")))
    case "KP_Enter"    => Some(KeyRepl(true,  false, U("\U{23CE}")))
    case "Num_Lock"    => Some(KeyRepl(false, true,  U("NumLck")))
    case "Scroll_Lock" => Some(KeyRepl(false, true,  U("ScrLck")))
    case "Pause"       => Some(KeyRepl(false, true,  U("Pause")))
    case "Break"       => Some(KeyRepl(false, true,  U("Break")))
    case "Print"       => Some(KeyRepl(false, true,  U("Print")))
    case _ => None
  }

  const BackspaceRepl := KeyRepl(true, true, U("\U{232B}"))

  /** `MODS_MAP`: the three spellings of the modifier prefixes. */
  datatype ModsMode = NormalMods | EmacsMods | MacMods

  datatype Cap = Shift | Ctrl | Alt | Super | Hyper

  /** `REPLACE_MODS[cap][mods_index]`. */
  function ReplaceMods(cap: Cap, mode: ModsMode): (r: UString)
    ensures |r| > 0
  {
    match cap
    case Shift => (match mode case NormalMods => U("Shift+") case EmacsMods => U("S-") case MacMods => U("\U{21E7}+"))
    case Ctrl  => (match mode case NormalMods => U("Ctrl+")  case EmacsMods => U("C-") case MacMods => U("\U{2318}+"))
    case Alt   => (match mode case NormalMods => U("Alt+")   case EmacsMods => U("M-") case MacMods => U("\U{2325}+"))
    case Super => (match mode case NormalMods => U("Super+") case EmacsMods => U("s-") case MacMods => U("Super+"))
    case Hyper => (match mode case NormalMods => U("Hyper+") case EmacsMods => U("H-") case MacMods => U("Hyper+"))
  }

  /** `key_mode`: 'normal', or raw for any other value. */
  datatype KeyMode = NormalKeys | RawKeys

  /** `bak_mode`: 'normal', 'baked', or the full policy for any other value. */
  datatype BakMode = NormalBak | Baked | Full

  datatype Config = Config(keyMode: KeyMode, bakMode: BakMode, modsMode: ModsMode, modsOnly: bool, recentThr: real)

  /** The event handed over by the key listener. */
  type Event = KeyDecode.KeyData

  // ---------------------------------------------------------------------------
  // update_text

  const ZeroWidthNonJoiner: CodePoint := 0x200C

  /** What glib's `markup_escape_text` turns one character into. */
  function EscapeChar(c: CodePoint): (r: UString)
    ensures |r| > 0
    ensures '<' as CodePoint !in r && '>' as CodePoint !in r
  {
    if c == '&' as CodePoint then U("&amp;")
    else if c == '<' as CodePoint then U("&lt;")
    else if c == '>' as CodePoint then U("&gt;")
    else if c == '\'' as CodePoint then U("&#39;")
    else if c == '"' as CodePoint then U("&quot;")
    else if (0x1 <= c <= 0x8) || (0xb <= c <= 0xc) || (0xe <= c <= 0x1f) || (0x7f <= c <= 0x84) || (0x86 <= c <= 0x9f) then
      U("&#x") + LowerHex(c as int) + U(";")
    else [c]
  }

  /** `%x` of a number below 256. */
  function LowerHex(n: int): (r: UString)
    requires 0 <= n < 256
    ensures 1 <= |r| <= 2
    ensures forall k :: 0 <= k < |r| ==> IsHexDigit(r[k]) && r[k] != '<' as CodePoint && r[k] != '>' as CodePoint
  {
    if n < 16 then [HexChar(n)] else [HexChar(n / 16), HexChar(n % 16)]
  }

  function HexChar(d: int): (c: CodePoint)
    requires 0 <= d < 16
    ensures IsHexDigit(c) && HexDigitValue(c) == d
  {
    if d < 10 then ('0' as int + d) as CodePoint else ('a' as int + d - 10) as CodePoint
  }

  /** Plain characters: no markup character and no control character escaped above. */
  predicate PlainChar(c: CodePoint)
  {
    c != '&' as CodePoint && c != '<' as CodePoint && c != '>' as CodePoint && c != '\'' as CodePoint
    && c != '"' as CodePoint
    && !((0x1 <= c <= 0x8) || (0xb <= c <= 0xc) || (0xe <= c <= 0x1f) || (0x7f <= c <= 0x84) || (0x86 <= c <= 0x9f))
  }

  function Escape(t: UString): (r: UString)
    ensures |r| >= |t|
    ensures '<' as CodePoint !in r && '>' as CodePoint !in r
  {
    if t == [] then [] else EscapeChar(t[0]) + Escape(t[1..])
  }

  /** Escaping changes nothing in text made of plain characters, and always leaves anything else longer. */
  lemma {:induction false} EscapePlain(t: UString)
    ensures (forall k :: 0 <= k < |t| ==> PlainChar(t[k])) <==> Escape(t) == t
  {
    if t != [] {
      EscapePlain(t[1..]);
      if !PlainChar(t[0]) {
        assert |EscapeChar(t[0])| > 1;
        assert |Escape(t)| > |t|;
      } else {
        assert forall k :: 1 <= k < |t| ==> t[k] == t[1..][k - 1];
        if Escape(t) == t {
          assert Escape(t[1..]) == t[1..];
        }
      }
    }
  }

  /** What `update_text` writes between two entries. */
  datatype Gap = NoGap | Space | ThinSpace

  /** The pieces `update_text` emits: a gap, the opening and closing underline
      tags, and an entry's text (prefixed by a zero-width non-joiner). */
  datatype Token = Sep(gap: Gap) | Open | Close | Entry(text: UString)

  function TokenText(t: Token): UString
  {
    match t
    case Sep(NoGap) => []
    case Sep(Space) => U(" ")
    case Sep(ThinSpace) => U("<span font_family=\"sans\">\U{2009}</span>")
    case Open => U("<u>")
    case Close => U("</u>")
    case Entry(text) => [ZeroWidthNonJoiner] + Escape(text)
  }

  function Flatten(ts: seq<Token>): UString
  {
    if ts == [] then [] else TokenText(ts[0]) + Flatten(ts[1..])
  }

  lemma {:induction false} FlattenAppend(a: seq<Token>, b: seq<Token>)
    ensures Flatten(a + b) == Flatten(a) + Flatten(b)
  {
    if a != [] {
      assert (a + b)[0] == a[0] && (a + b)[1..] == a[1..] + b;
      FlattenAppend(a[1..], b);
    } else {
      assert a + b == b;
    }
  }

  /** `(now - stamp).total_seconds() < recent_thr`. */
  predicate IsRecent(e: KeyData, now: int, thr: real)
  {
    ((now - e.stamp) as real) / 1000000.0 < thr
  }

  /** The first recent entry from `i` on. */
  function FirstRecentFrom(data: seq<KeyData>, i: nat, now: int, thr: real): (r: Option<nat>)
    requires i <= |data|
    ensures r.Some? ==> i <= r.value < |data| && IsRecent(data[r.value], now, thr)
                        && forall j :: i <= j < r.value ==> !IsRecent(data[j], now, thr)
    ensures r.None? ==> forall j :: i <= j < |data| ==> !IsRecent(data[j], now, thr)
    decreases |data| - i
  {
    if i == |data| then None
    else if IsRecent(data[i], now, thr) then Some(i)
    else FirstRecentFrom(data, i + 1, now, thr)
  }

  function FirstRecent(data: seq<KeyData>, now: int, thr: real): Option<nat>
  {
    FirstRecentFrom(data, 0, now, thr)
  }

  /** The gap before entry i: a space when either neighbour is longer than one
      character, else a thin space when either is a backspace stop. */
  function GapBefore(data: seq<KeyData>, i: nat): Gap
    requires i < |data|
  {
    if i == 0 then NoGap
    else if |data[i].repl| > 1 || |data[i - 1].repl| > 1 then Space
    else if data[i].bkStop || data[i - 1].bkStop then ThinSpace
    else NoGap
  }

  function Piece(data: seq<KeyData>, i: nat, open: bool): seq<Token>
    requires i < |data|
  {
    if open then [Sep(GapBefore(data, i)), Open, Entry(data[i].repl)]
    else [Sep(GapBefore(data, i)), Entry(data[i].repl)]
  }

  /** The tokens of the entries from i on, the underline opening at entry `first`. */
  function LayoutFrom(data: seq<KeyData>, i: nat, first: Option<nat>): seq<Token>
    requires i <= |data|
    decreases |data| - i
  {
    if i == |data| then [] else Piece(data, i, first == Some(i)) + LayoutFrom(data, i + 1, first)
  }

  function Layout(data: seq<KeyData>, now: int, thr: real): seq<Token>
  {
    var first := FirstRecent(data, now, thr);
    LayoutFrom(data, 0, first) + (if first.Some? then [Close] else [])
  }

  /** The markup `update_text` hands to the label. */
  function Markup(data: seq<KeyData>, now: int, thr: real): UString
  {
    Flatten(Layout(data, now, thr))
  }

  function Texts(ts: seq<Token>): seq<UString>
  {
    if ts == [] then [] else (if ts[0].Entry? then [ts[0].text] else []) + Texts(ts[1..])
  }

  lemma {:induction false} TextsAppend(a: seq<Token>, b: seq<Token>)
    ensures Texts(a + b) == Texts(a) + Texts(b)
  {
    if a != [] {
      assert (a + b)[0] == a[0] && (a + b)[1..] == a[1..] + b;
      TextsAppend(a[1..], b);
    } else {
      assert a + b == b;
    }
  }

  function Repls(data: seq<KeyData>): (r: seq<UString>)
    ensures |r| == |data| && forall i :: 0 <= i < |data| ==> r[i] == data[i].repl
  {
    seq(|data|, i requires 0 <= i < |data| => data[i].repl)
  }

  lemma PieceTexts(data: seq<KeyData>, i: nat, open: bool)
    requires i < |data|
    ensures Texts(Piece(data, i, open)) == [data[i].repl]
  {
    var g, e := Sep(GapBefore(data, i)), Entry(data[i].repl);
    if open {
      assert [g, Open, e] == [g] + ([Open] + [e]);
      TextsAppend([g], [Open] + [e]);
      TextsAppend([Open], [e]);
    } else {
      assert [g, e] == [g] + [e];
      TextsAppend([g], [e]);
    }
    assert Texts([g]) == [] && Texts([Open]) == [] && Texts([e]) == [data[i].repl] by {
      assert [g][1..] == [] && [Open][1..] == [] && [e][1..] == [];
    }
  }

  lemma {:induction false} LayoutFromTexts(data: seq<KeyData>, i: nat, first: Option<nat>)
    requires i <= |data|
    ensures Texts(LayoutFrom(data, i, first)) == Repls(data[i..])
    decreases |data| - i
  {
    if i < |data| {
      var p, rest := Piece(data, i, first == Some(i)), LayoutFrom(data, i + 1, first);
      assert LayoutFrom(data, i, first) == p + rest;
      LayoutFromTexts(data, i + 1, first);
      PieceTexts(data, i, first == Some(i));
      TextsAppend(p, rest);
      ReplsCons(data, i);
    }
  }

  lemma ReplsCons(data: seq<KeyData>, i: nat)
    requires i < |data|
    ensures Repls(data[i..]) == [data[i].repl] + Repls(data[i + 1..])
  {
    var a, b := Repls(data[i..]), [data[i].repl] + Repls(data[i + 1..]);
    assert |a| == |b|;
    forall k | 0 <= k < |a|
      ensures a[k] == b[k]
    {
      if k > 0 {
        assert data[i..][k] == data[i + 1..][k - 1];
      }
    }
  }

  /** How many times token t occurs in ts. */
  function Count(ts: seq<Token>, t: Token): nat
  {
    if ts == [] then 0 else (if ts[0] == t then 1 else 0) + Count(ts[1..], t)
  }

  lemma {:induction false} CountAppend(a: seq<Token>, b: seq<Token>, t: Token)
    ensures Count(a + b, t) == Count(a, t) + Count(b, t)
  {
    if a != [] {
      assert (a + b)[0] == a[0] && (a + b)[1..] == a[1..] + b;
      CountAppend(a[1..], b, t);
    } else {
      assert a + b == b;
    }
  }

  lemma {:induction false} CountAbsent(ts: seq<Token>, t: Token)
    ensures Count(ts, t) == 0 <==> t !in ts
  {
    if ts != [] {
      CountAbsent(ts[1..], t);
      assert ts == [ts[0]] + ts[1..];
    }
  }

  lemma PieceTags(data: seq<KeyData>, i: nat, open: bool)
    requires i < |data|
    ensures Count(Piece(data, i, open), Open) == if open then 1 else 0
    ensures Count(Piece(data, i, open), Close) == 0
  {
    var g, e := Sep(GapBefore(data, i)), Entry(data[i].repl);
    if open {
      assert [g, Open, e] == [g] + ([Open] + [e]);
      CountAppend([g], [Open] + [e], Open);
      CountAppend([Open], [e], Open);
      CountAppend([g], [Open] + [e], Close);
      CountAppend([Open], [e], Close);
    } else {
      assert [g, e] == [g] + [e];
      CountAppend([g], [e], Open);
      CountAppend([g], [e], Close);
    }
    assert [g][1..] == [] && [Open][1..] == [] && [e][1..] == [];
  }

  lemma {:induction false} LayoutFromTags(data: seq<KeyData>, i: nat, first: Option<nat>)
    requires i <= |data|
    ensures Count(LayoutFrom(data, i, first), Open) == if first.Some? && i <= first.value < |data| then 1 else 0
    ensures Count(LayoutFrom(data, i, first), Close) == 0
    decreases |data| - i
  {
    if i < |data| {
      var p, rest := Piece(data, i, first == Some(i)), LayoutFrom(data, i + 1, first);
      LayoutFromTags(data, i + 1, first);
      PieceTags(data, i, first == Some(i));
      CountAppend(p, rest, Open);
      CountAppend(p, rest, Close);
    }
  }

  /** The rendering shows every entry's text once, in order; it underlines at most
      once, from the first recent entry, and closes the underline, as its very last
      token, exactly when it opened one. An empty log renders to the empty string. */
  lemma LayoutShape(data: seq<KeyData>, now: int, thr: real)
    ensures Texts(Layout(data, now, thr)) == Repls(data)
    ensures Count(Layout(data, now, thr), Open) == Count(Layout(data, now, thr), Close)
    ensures Count(Layout(data, now, thr), Open) == if exists i :: 0 <= i < |data| && IsRecent(data[i], now, thr) then 1 else 0
    ensures Close in Layout(data, now, thr) ==> Layout(data, now, thr)[|Layout(data, now, thr)| - 1] == Close
                                                && Close !in Layout(data, now, thr)[..|Layout(data, now, thr)| - 1]
    ensures data == [] ==> Markup(data, now, thr) == []
  {
    var first := FirstRecent(data, now, thr);
    var body := LayoutFrom(data, 0, first);
    LayoutFromTexts(data, 0, first);
    LayoutFromTags(data, 0, first);
    CountAbsent(body, Close);
    assert data[0..] == data;
    var tail := if first.Some? then [Close] else [];
    TextsAppend(body, tail);
    CountAppend(body, tail, Open);
    CountAppend(body, tail, Close);
    assert Texts(tail) == [] && Count(tail, Open) == 0 by {
      if first.Some? { assert tail[1..] == []; }
    }
    assert Layout(data, now, thr) == body + tail;
    if first.Some? {
      assert Count(tail, Close) == 1 by { assert tail[1..] == []; }
      assert (body + tail)[..|body + tail| - 1] == body;
    } else {
      assert body + tail == body;
    }
  }

  lemma FlattenPiece(data: seq<KeyData>, i: nat, open: bool)
    requires i < |data|
    ensures Flatten(Piece(data, i, open))
            == TokenText(Sep(GapBefore(data, i))) + (if open then TokenText(Open) else []) + TokenText(Entry(data[i].repl))
  {
    var g, e := Sep(GapBefore(data, i)), Entry(data[i].repl);
    if open {
      assert [g, Open, e] == [g] + ([Open] + [e]);
      FlattenAppend([g], [Open] + [e]);
      FlattenAppend([Open], [e]);
    } else {
      assert [g, e] == [g] + [e];
      FlattenAppend([g], [e]);
    }
    FlattenOne(g);
    FlattenOne(Open);
    FlattenOne(e);
  }

  lemma FlattenOne(t: Token)
    ensures Flatten([t]) == TokenText(t)
  {
    assert [t][1..] == [];
  }

  /** The separator `update_text` writes before entry i. */
  method SeparatorText(data: seq<KeyData>, i: nat) returns (sep: UString)
    requires i < |data|
    ensures sep == TokenText(Sep(GapBefore(data, i)))
  {
    sep := [];
    if i != 0 {
      var key, last := data[i], data[i - 1];
      if |key.repl| > 1 || |last.repl| > 1 {
        sep := U(" ");
      } else if key.bkStop || last.bkStop {
        sep := U("<span font_family=\"sans\">\U{2009}</span>");
      }
    }
  }

  /** Entry i opens the underline exactly when it is recent and no earlier one is. */
  lemma OpensAt(data: seq<KeyData>, i: nat, now: int, thr: real)
    requires i < |data|
    requires var first := FirstRecent(data, now, thr); !(first.Some? && first.value < i)
    ensures IsRecent(data[i], now, thr) <==> FirstRecent(data, now, thr) == Some(i)
  {
  }

  /** The loop's `recent` test at entry i, before any entry was recent: entry i
      opens the underline exactly when it is the first recent one. */
  method RecentAt(data: seq<KeyData>, i: nat, now: int, thr: real) returns (opens: bool)
    requires i < |data|
    requires var first := FirstRecent(data, now, thr); !(first.Some? && first.value < i)
    ensures opens <==> FirstRecent(data, now, thr) == Some(i)
  {
    OpensAt(data, i, now, thr);
    opens := IsRecent(data[i], now, thr);
  }

  /** What the loop of `update_text` appends for entry i: its separator, the
      opening tag when `open`, and the escaped replacement text. */
  method PieceMarkup(data: seq<KeyData>, i: nat, open: bool) returns (piece: UString)
    requires i < |data|
    ensures piece == Flatten(Piece(data, i, open))
  {
    var sep := SeparatorText(data, i);
    var tag: UString := if open then U("<u>") else [];
    piece := sep + tag + ([ZeroWidthNonJoiner] + Escape(data[i].repl));
    FlattenPiece(data, i, open);
  }

  lemma Assoc(a: UString, b: UString, c: UString)
    ensures a + (b + c) == (a + b) + c
  {
  }

  /** Appending entry i's markup keeps `markup` a prefix of the whole layout. */
  lemma MarkupStep(data: seq<KeyData>, i: nat, first: Option<nat>, markup: UString, piece: UString, whole: UString)
    requires i < |data|
    requires markup + Flatten(LayoutFrom(data, i, first)) == whole
    requires piece == Flatten(Piece(data, i, first == Some(i)))
    ensures (markup + piece) + Flatten(LayoutFrom(data, i + 1, first)) == whole
  {
    var p, rest := Piece(data, i, first == Some(i)), LayoutFrom(data, i + 1, first);
    assert LayoutFrom(data, i, first) == p + rest;
    FlattenAppend(p, rest);
    Assoc(markup, piece, Flatten(rest));
  }

  /** What the loop of `update_text` has built after the entries before i: the
      markup of those entries, and whether one of them was recent. */
  predicate RenderedUpTo(data: seq<KeyData>, now: int, thr: real, i: nat, markup: UString, recent: bool)
    requires i <= |data|
  {
    var first := FirstRecent(data, now, thr);
    && markup + Flatten(LayoutFrom(data, i, first)) == Flatten(LayoutFrom(data, 0, first))
    && (recent <==> first.Some? && first.value < i)
  }

  /** One pass of that loop: entry i's separator, opening tag and text. */
  method RenderEntry(data: seq<KeyData>, now: int, thr: real, i: nat, markup: UString, recent: bool)
    returns (markup': UString, recent': bool)
    requires i < |data| && RenderedUpTo(data, now, thr, i, markup, recent)
    ensures RenderedUpTo(data, now, thr, i + 1, markup', recent')
  {
    ghost var first := FirstRecent(data, now, thr);
    var opens := false;
    if !recent {
      opens := RecentAt(data, i, now, thr);
    }
    assert opens == (first == Some(i));
    var piece := PieceMarkup(data, i, opens);
    MarkupStep(data, i, first, markup, piece, Flatten(LayoutFrom(data, 0, first)));
    markup' := markup + piece;
    recent' := recent || opens;
  }

  /** The loop of `update_text`: `markup` and `recent` built entry by entry. */
  method RenderMarkup(data: seq<KeyData>, now: int, thr: real) returns (markup: UString)
    ensures markup == Markup(data, now, thr)
  {
    ghost var first := FirstRecent(data, now, thr);
    markup := [];
    var recent := false;
    for i := 0 to |data|
      invariant RenderedUpTo(data, now, thr, i, markup, recent)
    {
      markup, recent := RenderEntry(data, now, thr, i, markup, recent);
    }
    if recent {
      markup := markup + U("</u>");
    }
    assert markup == Flatten(LayoutFrom(data, 0, first)) + (if first.Some? then U("</u>") else []);
    FlattenAppend(LayoutFrom(data, 0, first), if first.Some? then [Close] else []);
    assert Flatten([Close]) == TokenText(Close) by { assert [Close][1..] == []; }
  }

  // ---------------------------------------------------------------------------
  // key_normal_mode, key_raw_mode, key_press as functions of the log

  /** Python truthiness of `event.string`. */
  predicate HasText(s: Option<UString>) { s.Some? && |s.value| > 0 }

  predicate IsToggle(ev: Event)
  {
    ev.modifiers.ctrl && (ev.symbol == Some("Control_L") || ev.symbol == Some("Control_R"))
  }

  predicate IsBackspace(cfg: Config, ev: Event)
  {
    ev.symbol == Some("BackSpace") && ev.modsMask == 0 && !cfg.modsOnly
  }

  function NewEntry(now: int, isCtrl: bool, r: KeyRepl): KeyData
  {
    KeyData(now, isCtrl, r.bkStop, r.silent, r.repl)
  }

  /** Under the baked and full policies a backspace pops the last entry, unless it
      is a chord or marked as a stop (bk_stop when baked, silent when full). */
  predicate Pops(bak: BakMode, data: seq<KeyData>)
  {
    bak != NormalBak && |data| > 0 && !data[|data| - 1].isCtrl
    && (if bak == Baked then !data[|data| - 1].bkStop else !data[|data| - 1].silent)
  }

  function Backspace(bak: BakMode, data: seq<KeyData>, now: int): (r: seq<KeyData>)
    ensures Pops(bak, data) ==> r == data[..|data| - 1]
    ensures !Pops(bak, data) ==> r == data + [NewEntry(now, false, BackspaceRepl)]
    ensures |r| == |data| + 1 || |r| == |data| - 1
  {
    if Pops(bak, data) then data[..|data| - 1] else data + [NewEntry(now, false, ReplaceKey("BackSpace").value)]
  }

  /** The modifier prefix: ctrl, alt, super, hyper, in this order, for each one held. */
  function ModPrefix(m: Modifiers, mode: ModsMode): (r: UString)
    ensures r == [] <==> !(m.ctrl || m.alt || m.super || m.hyper)
  {
    Part(m, mode, Ctrl) + Part(m, mode, Alt) + Part(m, mode, Super) + Part(m, mode, Hyper)
  }

  predicate Known(ev: Event) { ev.symbol.Some? && ReplaceKey(ev.symbol.value).Some? }

  /** The full prefix: shift is added back only for keys that ReplaceKey knows. */
  function Prefix(ev: Event, mode: ModsMode): UString
  {
    ModPrefix(ev.modifiers, mode) + (if Known(ev) && ev.modifiers.shift then ReplaceMods(Shift, mode) else [])
  }

  /** The log, `enabled` and whether to re-render after one event. */
  datatype Reaction = Reaction(data: seq<KeyData>, enabled: bool, update: bool)

  /** The regular-key part of key_normal_mode. */
  function RegularKey(cfg: Config, data: seq<KeyData>, ev: Event, now: int): (r: (seq<KeyData>, bool))
    ensures !Known(ev) && !HasText(ev.str) ==> r == (data, false)
    ensures (Known(ev) || HasText(ev.str)) ==> r.1
    ensures var kr := if Known(ev) then ReplaceKey(ev.symbol.value).value else KeyRepl(false, false, if ev.str.Some? then ev.str.value else []);
            var pre := Prefix(ev, cfg.modsMode);
            (Known(ev) || HasText(ev.str)) ==>
              if pre == [] then r.0 == (if cfg.modsOnly then data else data + [KeyData(now, false, kr.bkStop, kr.silent, kr.repl)])
              else r.0 == data + [KeyData(now, true, kr.bkStop, kr.silent, pre + kr.repl)]
  {
    var pre := Prefix(ev, cfg.modsMode);
    if !Known(ev) && !HasText(ev.str) then (data, false)
    else
      var kr := if Known(ev) then ReplaceKey(ev.symbol.value).value else KeyRepl(false, false, ev.str.value);
      if pre == [] then (if cfg.modsOnly then data else data + [NewEntry(now, false, kr)], true)
      else (data + [KeyData(now, true, kr.bkStop, kr.silent, pre + kr.repl)], true)
  }

  function NormalMode(cfg: Config, data: seq<KeyData>, enabled: bool, ev: Event, now: int): (r: Reaction)
    ensures r.enabled == (if IsToggle(ev) then !enabled else enabled)
    ensures !r.enabled ==> r.data == data && !r.update
    ensures r.enabled && IsBackspace(cfg, ev) ==> r.update && r.data == Backspace(cfg.bakMode, data, now)
    ensures r.enabled && cfg.bakMode == NormalBak && IsBackspace(cfg, ev) ==>
              r.data == data + [KeyData(now, false, true, true, U("\U{232B}"))]
    ensures r.enabled && !IsBackspace(cfg, ev) ==> (r.data, r.update) == RegularKey(cfg, data, ev, now)
    ensures r.data == data || (|data| > 0 && r.data == data[..|data| - 1]) || (|r.data| == |data| + 1 && r.data[..|data|] == data)
  {
    var en := if IsToggle(ev) then !enabled else enabled;
    if !en then Reaction(data, en, false)
    else if IsBackspace(cfg, ev) then Reaction(Backspace(cfg.bakMode, data, now), en, true)
    else
      var (d, u) := RegularKey(cfg, data, ev, now);
      assert d[..|data|] == data || d == data;
      Reaction(d, en, u)
  }

  /** `event.string or event.symbol`. */
  function RawValue(ev: Event): Option<UString>
  {
    if HasText(ev.str) then ev.str
    else if ev.symbol.Some? then Some(U(ev.symbol.value))
    else None
  }

  /** key_raw_mode; `silent` is None there, which every later use reads as false. */
  function RawMode(data: seq<KeyData>, ev: Event, now: int): (r: seq<KeyData>)
    requires RawValue(ev).Some?
    ensures |r| == |data| + 1 && r[..|data|] == data
    ensures r[|data|].isCtrl && r[|data|].bkStop && r[|data|].repl == RawValue(ev).value && r[|data|].stamp == now
  {
    data + [KeyData(now, true, true, false, RawValue(ev).value)]
  }

  predicate RawReady(cfg: Config, ev: Event)
  {
    cfg.keyMode == RawKeys && !ev.filtered ==> RawValue(ev).Some?
  }

  function Press(cfg: Config, data: seq<KeyData>, enabled: bool, ev: Event, now: int): (r: Reaction)
    requires RawReady(cfg, ev)
    ensures ev.filtered ==> r == Reaction(data, enabled, |data| > 0)
    ensures !ev.filtered && cfg.keyMode == NormalKeys ==> r == NormalMode(cfg, data, enabled, ev, now)
    ensures !ev.filtered && cfg.keyMode == RawKeys ==> r == Reaction(RawMode(data, ev, now), enabled, true)
  {
    if ev.filtered then Reaction(data, enabled, |data| > 0)
    else if cfg.keyMode == NormalKeys then NormalMode(cfg, data, enabled, ev, now)
    else Reaction(RawMode(data, ev, now), enabled, true)
  }

  // ---------------------------------------------------------------------------
  // Properties over whole runs

  datatype Timed = Timed(ev: Event, now: int)

  predicate AllRawReady(cfg: Config, evs: seq<Timed>)
  {
    forall i :: 0 <= i < |evs| ==> RawReady(cfg, evs[i].ev)
  }

  /** The log after a run of key presses. */
  function Replay(cfg: Config, data: seq<KeyData>, enabled: bool, evs: seq<Timed>): Reaction
    requires AllRawReady(cfg, evs)
    decreases |evs|
  {
    if evs == [] then Reaction(data, enabled, false)
    else
      var r := Press(cfg, data, enabled, evs[0].ev, evs[0].now);
      assert AllRawReady(cfg, evs[1..]) by {
        forall i | 0 <= i < |evs[1..]| ensures RawReady(cfg, evs[1..][i].ev) { assert evs[1..][i] == evs[i + 1]; }
      }
      Replay(cfg, r.data, r.enabled, evs[1..])
  }

  /** The entries backspace cannot pop. */
  predicate Protected(bak: BakMode, e: KeyData)
  {
    bak == NormalBak || e.isCtrl || (bak == Baked && e.bkStop) || (bak == Full && e.silent)
  }

  /** One event never removes a protected entry, nor anything before it. */
  lemma PressKeepsProtected(cfg: Config, data: seq<KeyData>, enabled: bool, ev: Event, now: int, k: nat)
    requires RawReady(cfg, ev) && k < |data| && Protected(cfg.bakMode, data[k])
    ensures var r := Press(cfg, data, enabled, ev, now);
            k < |r.data| && r.data[..k + 1] == data[..k + 1]
  {
    var r := Press(cfg, data, enabled, ev, now);
    if r.data == data[..|data| - 1] && r.data != data {
      assert !ev.filtered && cfg.keyMode == NormalKeys;
      var n := NormalMode(cfg, data, enabled, ev, now);
      if n.enabled && IsBackspace(cfg, ev) {
        assert Pops(cfg.bakMode, data);
        assert k < |data| - 1;
      } else if n.enabled {
        assert false;
      }
    }
    if |r.data| == |data| + 1 {
      assert r.data[..k + 1] == r.data[..|data|][..k + 1];
    }
  }

  /** Over any run of key presses, an entry backspace cannot pop (a chord, or a stop
      under the baked and full policies; any entry under the normal policy) stays,
      and so does everything logged before it. */
  lemma {:induction false} ReplayKeepsProtected(cfg: Config, data: seq<KeyData>, enabled: bool, evs: seq<Timed>, k: nat)
    requires AllRawReady(cfg, evs) && k < |data| && Protected(cfg.bakMode, data[k])
    ensures k < |Replay(cfg, data, enabled, evs).data|
    ensures Replay(cfg, data, enabled, evs).data[..k + 1] == data[..k + 1]
    decreases |evs|
  {
    if evs != [] {
      var r := Press(cfg, data, enabled, evs[0].ev, evs[0].now);
      PressKeepsProtected(cfg, data, enabled, evs[0].ev, evs[0].now, k);
      assert r.data[k] == data[k] by { assert r.data[..k + 1][k] == data[..k + 1][k]; }
      assert AllRawReady(cfg, evs[1..]) by {
        forall i | 0 <= i < |evs[1..]| ensures RawReady(cfg, evs[1..][i].ev) { assert evs[1..][i] == evs[i + 1]; }
      }
      ReplayKeepsProtected(cfg, r.data, r.enabled, evs[1..], k);
    }
  }

  // ---------------------------------------------------------------------------
  // Worked scenarios

  /** An unfiltered press of `symbol` producing the string `s` under the modifier state `mask`. */
  function Typed(symbol: string, s: UString, mask: bv32): Event
  {
    KeyDecode.KeyData(true, false, false, Some(s), 0, None, Some(symbol), mask, KeyDecode.ModifiersOf(mask))
  }

  /** The three presses `a`, `b`, BackSpace, one microsecond apart. */
  function TypeAbBackspace(): seq<Timed>
  {
    [Timed(Typed("a", U("a"), 0), 1), Timed(Typed("b", U("b"), 0), 2), Timed(Typed("BackSpace", [8], 0), 3)]
  }

  /** Under every backspace policy `a` and `b` are logged as two plain entries. */
  lemma TypeAb(cfg: Config)
    requires cfg.keyMode == NormalKeys && !cfg.modsOnly
    ensures Replay(cfg, [], true, TypeAbBackspace())
            == Replay(cfg, [KeyData(1, false, false, false, U("a")), KeyData(2, false, false, false, U("b"))],
                      true, [Timed(Typed("BackSpace", [8], 0), 3)])
  {
    var a, b, bs := Typed("a", U("a"), 0), Typed("b", U("b"), 0), Typed("BackSpace", [8], 0);
    var evs := TypeAbBackspace();
    assert evs[1..] == [Timed(b, 2), Timed(bs, 3)] && evs[1..][1..] == [Timed(bs, 3)];
    assert KeyDecode.ModifiersOf(0) == Modifiers(false, false, false, false, false, false, false, false);
    var ea, eb := KeyData(1, false, false, false, U("a")), KeyData(2, false, false, false, U("b"));
    UnmodifiedTyped("a", U("a"));
    UnmodifiedTyped("b", U("b"));
    PlainPress(cfg, [], a, 1);
    PlainPress(cfg, [ea], b, 2);
    assert Replay(cfg, [], true, evs) == Replay(cfg, [ea], true, evs[1..]);
  }

  /** A press typed with no modifier held, of a key ReplaceKey does not know, meets
      PlainPress's requirements. */
  lemma UnmodifiedTyped(symbol: string, s: UString)
    requires ReplaceKey(symbol).None? && |s| > 0
    ensures var ev := Typed(symbol, s, 0);
            !ev.filtered && !Known(ev) && HasText(ev.str)
            && !(ev.modifiers.ctrl || ev.modifiers.alt || ev.modifiers.super || ev.modifiers.hyper)
  {
    assert KeyDecode.ModifiersOf(0) == Modifiers(false, false, false, false, false, false, false, false);
  }

  /** An unfiltered press with a string, of a key ReplaceKey does not know, with none
      of ctrl, alt, super and hyper held, appends one plain entry holding its string
      (in normal key mode, without mods_only, while enabled). */
  lemma PlainPress(cfg: Config, data: seq<KeyData>, ev: Event, now: int)
    requires cfg.keyMode == NormalKeys && !cfg.modsOnly
    requires !ev.filtered && !Known(ev) && HasText(ev.str)
    requires !(ev.modifiers.ctrl || ev.modifiers.alt || ev.modifiers.super || ev.modifiers.hyper)
    ensures Press(cfg, data, true, ev, now) == Reaction(data + [KeyData(now, false, false, false, ev.str.value)], true, true)
  {
    assert !IsToggle(ev) && !IsBackspace(cfg, ev);
    assert Prefix(ev, cfg.modsMode) == [];
  }

  /** `a`, `b`, BackSpace with no modifier held: the baked policy pops the `b` entry. */
  lemma BakedBackspaceScenario(mods: ModsMode, thr: real)
    ensures Replay(Config(NormalKeys, Baked, mods, false, thr), [], true, TypeAbBackspace()).data
            == [KeyData(1, false, false, false, U("a"))]
  {
    var cfg := Config(NormalKeys, Baked, mods, false, thr);
    var bs := Typed("BackSpace", [8], 0);
    var ea, eb := KeyData(1, false, false, false, U("a")), KeyData(2, false, false, false, U("b"));
    TypeAb(cfg);
    assert [Timed(bs, 3)][1..] == [];
    assert IsBackspace(cfg, bs);
    assert [ea, eb][..1] == [ea];
    assert Press(cfg, [ea, eb], true, bs, 3) == Reaction([ea], true, true);
  }

  /** The same presses under the normal policy keep `b` and log the backspace glyph after it. */
  lemma NormalBackspaceScenario(mods: ModsMode, thr: real)
    ensures Replay(Config(NormalKeys, NormalBak, mods, false, thr), [], true, TypeAbBackspace()).data
            == [KeyData(1, false, false, false, U("a")), KeyData(2, false, false, false, U("b")),
                KeyData(3, false, true, true, U("\U{232B}"))]
  {
    var cfg := Config(NormalKeys, NormalBak, mods, false, thr);
    var bs := Typed("BackSpace", [8], 0);
    var ea, eb := KeyData(1, false, false, false, U("a")), KeyData(2, false, false, false, U("b"));
    TypeAb(cfg);
    assert [Timed(bs, 3)][1..] == [];
    assert IsBackspace(cfg, bs);
  }

  /** Ctrl held while pressing `c` logs the single chord entry `Ctrl+c`; pressing `c`
      again once Ctrl is released logs a plain `c` entry. */
  lemma ChordScenario(bak: BakMode, thr: real)
    ensures var evs := [Timed(Typed("c", U("c"), ControlMask), 1), Timed(Typed("c", U("c"), 0), 2)];
            Replay(Config(NormalKeys, bak, NormalMods, false, thr), [], true, evs).data
            == [KeyData(1, true, false, false, U("Ctrl+c")), KeyData(2, false, false, false, U("c"))]
  {
    var cfg := Config(NormalKeys, bak, NormalMods, false, thr);
    var chord, plain := Typed("c", U("c"), ControlMask), Typed("c", U("c"), 0);
    var evs := [Timed(chord, 1), Timed(plain, 2)];
    assert evs[1..] == [Timed(plain, 2)] && evs[1..][1..] == [];
    assert KeyDecode.ModifiersOf(ControlMask) == Modifiers(false, false, true, false, false, false, false, false);
    assert KeyDecode.ModifiersOf(0) == Modifiers(false, false, false, false, false, false, false, false);
    assert Prefix(chord, NormalMods) == U("Ctrl+") by {
      assert ModPrefix(chord.modifiers, NormalMods) == U("Ctrl+") + [] + [] + [];
    }
    assert Prefix(plain, NormalMods) == [];
    var e1 := KeyData(1, true, false, false, U("Ctrl+") + U("c"));
    assert U("Ctrl+") + U("c") == U("Ctrl+c");
    assert Press(cfg, [], true, chord, 1) == Reaction([e1], true, true);
    var e2 := KeyData(2, false, false, false, U("c"));
    assert Press(cfg, [e1], true, plain, 2) == Reaction([e1, e2], true, true);
    assert Replay(cfg, [e1], true, evs[1..]) == Replay(cfg, [e1, e2], true, []);
  }

  // ---------------------------------------------------------------------------
  // The object

  class LabelManager {
    const keyMode: KeyMode
    const bakMode: BakMode
    const modsMode: ModsMode
    const modsOnly: bool
    const recentThr: real
    var data: seq<KeyData>
    var enabled: bool
    /** The argument of the last call of the label callback, None before the first. */
    var lastMarkup: Option<UString>

    function Cfg(): Config
    {
      Config(keyMode, bakMode, modsMode, modsOnly, recentThr)
    }

    constructor(keyMode: KeyMode, bakMode: BakMode, modsMode: ModsMode, modsOnly: bool, recentThr: real)
      ensures Cfg() == Config(keyMode, bakMode, modsMode, modsOnly, recentThr)
      ensures data == [] && enabled && lastMarkup == None
    {
      this.keyMode := keyMode;
      this.bakMode := bakMode;
      this.modsMode := modsMode;
      this.modsOnly := modsOnly;
      this.recentThr := recentThr;
      data := [];
      enabled := true;
      lastMarkup := None;
    }

    method Clear()
      modifies this
      ensures data == [] && enabled == old(enabled) && lastMarkup == old(lastMarkup)
    {
      data := [];
    }

    method UpdateText(now: int)
      modifies this
      ensures lastMarkup == Some(Markup(data, now, recentThr))
      ensures data == old(data) && enabled == old(enabled)
    {
      var markup := RenderMarkup(data, now, recentThr);
      lastMarkup := Some(markup);
    }

    method KeyNormalMode(ev: Event, now: int) returns (update: bool)
      modifies this
      ensures Reaction(data, enabled, update) == NormalMode(Cfg(), old(data), old(enabled), ev, now)
      ensures lastMarkup == old(lastMarkup)
    {
      if ev.modifiers.ctrl && (ev.symbol == Some("Control_L") || ev.symbol == Some("Control_R")) {
        enabled := !enabled;
      }
      if !enabled {
        return false;
      }
      if ev.symbol == Some("BackSpace") && ev.modsMask == 0 && !modsOnly {
        BackspaceKey(now);
        return true;
      }
      update := RegularKeyPress(ev, now);
    }

    /** The backspace branch of key_normal_mode. */
    method BackspaceKey(now: int)
      modifies this
      ensures data == Backspace(bakMode, old(data), now)
      ensures enabled == old(enabled) && lastMarkup == old(lastMarkup)
    {
      var keyRepl := ReplaceKey("BackSpace").value;
      if bakMode == NormalBak {
        data := data + [NewEntry(now, false, keyRepl)];
      } else {
        var pop: bool;
        if |data| == 0 {
          pop := false;
        } else {
          var last := data[|data| - 1];
          if last.isCtrl {
            pop := false;
          } else if bakMode == Baked {
            pop := !last.bkStop;
          } else {
            pop := !last.silent;
          }
        }
        if pop {
          data := data[..|data| - 1];
        } else {
          data := data + [NewEntry(now, false, keyRepl)];
        }
      }
    }

    /** The regular-key branch of key_normal_mode. */
    method RegularKeyPress(ev: Event, now: int) returns (update: bool)
      modifies this
      ensures (data, update) == RegularKey(Cfg(), old(data), ev, now)
      ensures enabled == old(enabled) && lastMarkup == old(lastMarkup)
    {
      var mod := ModifierPrefix(ev.modifiers, modsMode);
      var found := if ev.symbol.Some? then ReplaceKey(ev.symbol.value) else None;
      var keyRepl: KeyRepl;
      if found.Some? {
        keyRepl := found.value;
        if ev.modifiers.shift {
          mod := mod + ReplaceMods(Shift, modsMode);
        }
      } else if ev.str.Some? && |ev.str.value| > 0 {
        keyRepl := KeyRepl(false, false, ev.str.value);
      } else {
        return false;
      }
      assert mod == Prefix(ev, modsMode) by {
        if !(found.Some? && ev.modifiers.shift) {
          assert ModPrefix(ev.modifiers, modsMode) + [] == ModPrefix(ev.modifiers, modsMode);
        }
      }

      if mod == [] {
        if !modsOnly {
          data := data + [NewEntry(now, false, keyRepl)];
        }
      } else {
        data := data + [KeyData(now, true, keyRepl.bkStop, keyRepl.silent, mod + keyRepl.repl)];
      }
      return true;
    }

    method KeyRawMode(ev: Event, now: int) returns (update: bool)
      requires RawValue(ev).Some?
      modifies this
      ensures data == RawMode(old(data), ev, now) && update
      ensures enabled == old(enabled) && lastMarkup == old(lastMarkup)
    {
      var value := if ev.str.Some? && |ev.str.value| > 0 then ev.str.value else U(ev.symbol.value);
      data := data + [KeyData(now, true, true, false, value)];
      return true;
    }

    method KeyPress(ev: Event, now: int)
      requires RawReady(Cfg(), ev)
      modifies this
      ensures var r := Press(Cfg(), old(data), old(enabled), ev, now);
              data == r.data && enabled == r.enabled
              && lastMarkup == (if r.update then Some(Markup(r.data, now, recentThr)) else old(lastMarkup))
    {
      var update := |data| > 0 && ev.filtered;
      if !ev.filtered {
        var u: bool;
        if keyMode == NormalKeys {
          u := KeyNormalMode(ev, now);
        } else {
          u := KeyRawMode(ev, now);
        }
        update := update || u;
      }
      if update {
        UpdateText(now);
      }
    }
  }

  /** The cap loop of key_normal_mode: `for cap in ['ctrl', 'alt', 'super', 'hyper']`. */
  method ModifierPrefix(m: Modifiers, mode: ModsMode) returns (mod: UString)
    ensures mod == ModPrefix(m, mode)
  {
    var caps := [Ctrl, Alt, Super, Hyper];
    mod := [];
    for i := 0 to |caps|
      invariant mod == CapsPrefix(m, mode, caps[..i])
    {
      assert caps[..i + 1] == caps[..i] + [caps[i]];
      if Holds(m, caps[i]) {
        mod := mod + ReplaceMods(caps[i], mode);
      }
    }
    assert caps[..4] == caps;
    CapsPrefixAll(m, mode);
  }

  lemma CapsPrefixAll(m: Modifiers, mode: ModsMode)
    ensures CapsPrefix(m, mode, [Ctrl, Alt, Super, Hyper]) == ModPrefix(m, mode)
  {
    var c, a, s, h := Part(m, mode, Ctrl), Part(m, mode, Alt), Part(m, mode, Super), Part(m, mode, Hyper);
    assert CapsPrefix(m, mode, [Ctrl]) == c by { assert [Ctrl][..0] == []; }
    assert CapsPrefix(m, mode, [Ctrl, Alt]) == c + a by { assert [Ctrl, Alt][..1] == [Ctrl]; }
    assert CapsPrefix(m, mode, [Ctrl, Alt, Super]) == c + a + s by { assert [Ctrl, Alt, Super][..2] == [Ctrl, Alt]; }
    assert CapsPrefix(m, mode, [Ctrl, Alt, Super, Hyper]) == c + a + s + h by { assert [Ctrl, Alt, Super, Hyper][..3] == [Ctrl, Alt, Super]; }
  }

  function Part(m: Modifiers, mode: ModsMode, cap: Cap): UString
  {
    if Holds(m, cap) then ReplaceMods(cap, mode) else []
  }

  function Holds(m: Modifiers, cap: Cap): bool
  {
    match cap
    case Shift => m.shift
    case Ctrl => m.ctrl
    case Alt => m.alt
    case Super => m.super
    case Hyper => m.hyper
  }

  function CapsPrefix(m: Modifiers, mode: ModsMode, caps: seq<Cap>): UString
  {
    if caps == [] then []
    else CapsPrefix(m, mode, caps[..|caps| - 1])
         + Part(m, mode, caps[|caps| - 1])
  }
}
