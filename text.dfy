/** Text as the modelled Python 2 code sees it: sequences of Unicode code points
    (a Python 2 `unicode` may hold a lone surrogate, which a Dafny `char` cannot),
    the ASCII character classes of the `re` module without the UNICODE flag, and
    the few string primitives the parsers rely on (`str.split`, `int(s, 10)`,
    `int(s, 16)`, `unichr`, `re.findall`, `re.search`, `re.match`). */
module Text {
  import opened Wrappers

  newtype CodePoint = x: int | 0 <= x < 0x11_0000

  type UString = seq<CodePoint>

  /** The code points of a Dafny string literal. */
  function U(s: string): (r: UString)
    ensures |r| == |s|
    ensures forall i :: 0 <= i < |s| ==> r[i] as int == s[i] as int
  {
    seq(|s|, i requires 0 <= i < |s| => s[i] as int as CodePoint)
  }

  const NewLine: CodePoint := 10

  // ---------------------------------------------------------------------------
  // Character classes of `re` without re.UNICODE: \s, \d, \w, and hex digits.

  predicate IsSpace(c: CodePoint) { c == 32 || 9 <= c <= 13 }
  predicate IsDigit(c: CodePoint) { 48 <= c <= 57 }
  predicate IsWordChar(c: CodePoint) { IsDigit(c) || 65 <= c <= 90 || 97 <= c <= 122 || c == 95 }
  predicate IsHexDigit(c: CodePoint) { IsDigit(c) || 65 <= c <= 70 || 97 <= c <= 102 }

  function HexDigitValue(c: CodePoint): (v: nat)
    requires IsHexDigit(c)
    ensures v < 16
    ensures IsDigit(c) ==> v == c as int - 48
  {
    if IsDigit(c) then c as int - 48 else if c <= 70 then c as int - 55 else c as int - 87
  }

  // ---------------------------------------------------------------------------
  // str.split(sep) and its inverse, sep.join(parts).

  function Split(s: UString, sep: CodePoint): (r: seq<UString>)
    ensures |r| >= 1
    decreases |s|
  {
    if |s| == 0 then [[]]
    else
      var rest := Split(s[1..], sep);
      if s[0] == sep then [[]] + rest else [[s[0]] + rest[0]] + rest[1..]
  }

  function Join(parts: seq<UString>, sep: CodePoint): UString
    requires |parts| >= 1
  {
    if |parts| == 1 then parts[0] else parts[0] + [sep] + Join(parts[1..], sep)
  }

  /** No piece of a split contains the separator. */
  lemma {:induction false} SplitPiecesHaveNoSeparator(s: UString, sep: CodePoint)
    ensures forall i :: 0 <= i < |Split(s, sep)| ==> sep !in Split(s, sep)[i]
    decreases |s|
  {
    if |s| > 0 {
      SplitPiecesHaveNoSeparator(s[1..], sep);
      var rest := Split(s[1..], sep);
      if s[0] != sep {
        assert forall i :: 1 <= i < |Split(s, sep)| ==> Split(s, sep)[i] == rest[i];
      }
    }
  }

  /** Joining the pieces of a split gives back the text. */
  lemma {:induction false} JoinSplit(s: UString, sep: CodePoint)
    ensures Join(Split(s, sep), sep) == s
    decreases |s|
  {
    if |s| > 0 {
      JoinSplit(s[1..], sep);
      var rest := Split(s[1..], sep);
      if s[0] == sep {
        assert Split(s, sep)[1..] == rest;
      } else {
        var r := Split(s, sep);
        if |rest| == 1 {
          assert r == [[s[0]] + rest[0]];
        } else {
          assert r[1..] == rest[1..];
          assert Join(rest, sep) == rest[0] + [sep] + Join(rest[1..], sep);
        }
      }
    }
  }

  /** Splitting a join of separator-free pieces gives back the pieces. */
  lemma {:induction false} SplitJoin(parts: seq<UString>, sep: CodePoint)
    requires |parts| >= 1
    requires forall i :: 0 <= i < |parts| ==> sep !in parts[i]
    ensures Split(Join(parts, sep), sep) == parts
    decreases |parts|, |parts[0]|
  {
    var p := parts[0];
    if |parts| == 1 {
      SplitNoSeparator(p, sep);
    } else if |p| == 0 {
      var tail := Join(parts[1..], sep);
      assert Join(parts, sep) == [sep] + tail;
      assert ([sep] + tail)[1..] == tail;
      SplitJoin(parts[1..], sep);
      assert parts == [[]] + parts[1..];
    } else {
      var shorter := [p[1..]] + parts[1..];
      assert Join(shorter, sep) == p[1..] + [sep] + Join(parts[1..], sep);
      assert Join(parts, sep) == [p[0]] + Join(shorter, sep);
      assert forall i :: 0 <= i < |shorter| ==> sep !in shorter[i] by {
        forall i | 0 <= i < |shorter| ensures sep !in shorter[i] {
          if i == 0 { assert forall c :: c in p[1..] ==> c in p; } else { assert shorter[i] == parts[i]; }
        }
      }
      SplitJoin(shorter, sep);
      assert ([p[0]] + Join(shorter, sep))[1..] == Join(shorter, sep);
      assert [p[0]] + p[1..] == p;
      assert parts == [p] + parts[1..];
    }
  }

  lemma {:induction false} SplitNoSeparator(s: UString, sep: CodePoint)
    requires sep !in s
    ensures Split(s, sep) == [s]
    decreases |s|
  {
    if |s| > 0 {
      assert sep !in s[1..] by { assert forall c :: c in s[1..] ==> c in s; }
      SplitNoSeparator(s[1..], sep);
      assert [s[0]] + s[1..] == s;
    }
  }

  // ---------------------------------------------------------------------------
  // Numbers: int(s, 10) on a run of digits, int(s, 16), unichr.

  predicate AllDigits(s: UString) { forall i :: 0 <= i < |s| ==> IsDigit(s[i]) }
  predicate AllHexDigits(s: UString) { forall i :: 0 <= i < |s| ==> IsHexDigit(s[i]) }

  function DecimalValue(s: UString): nat
    requires AllDigits(s)
  {
    if |s| == 0 then 0 else DecimalValue(s[..|s| - 1]) * 10 + (s[|s| - 1] as int - 48)
  }

  function HexValue(s: UString): nat
    requires AllHexDigits(s)
  {
    if |s| == 0 then 0 else HexValue(s[..|s| - 1]) * 16 + HexDigitValue(s[|s| - 1])
  }

  /** Python 2 `int(t, 16)` on a token without sign or blanks: an optional `0x`
      or `0X` prefix and at least one hexadecimal digit; anything else raises. */
  function ParseHex(t: UString): (r: Option<nat>)
    ensures r.Some? <==> exists k :: 0 <= k <= 2 && HexDigitsAfter(t, k)
  {
    var k := if |t| >= 2 && t[0] == 48 && (t[1] == 120 || t[1] == 88) then 2 else 0;
    if |t| > k && AllHexDigits(t[k..]) then
      assert HexDigitsAfter(t, k);
      Some(HexValue(t[k..]))
    else
      assert k == 2 ==> !IsHexDigit(t[1]) && !AllHexDigits(t[0..]);
      None
  }

  /** `t[k..]` is a non-empty run of hexadecimal digits and `t[..k]` is empty or a `0x` prefix. */
  predicate HexDigitsAfter(t: UString, k: nat)
  {
    k <= |t| && (k == 0 || (k == 2 && t[0] == 48 && (t[1] == 120 || t[1] == 88)))
    && |t| > k && AllHexDigits(t[k..])
  }

  /** Python 2 `unichr(v)` on a wide (UCS-4) build: raises ValueError outside 0..0x10FFFF. */
  function Unichr(v: int): (r: Option<CodePoint>)
    ensures r.Some? <==> 0 <= v < 0x11_0000
    ensures r.Some? ==> r.value as int == v
  {
    if 0 <= v < 0x11_0000 then Some(v as CodePoint) else None
  }

  // ---------------------------------------------------------------------------
  // The three regular expressions of the xmodmap parsers, as scanners.

  /** End of the run of word characters that starts at `i`. */
  function WordRunEnd(s: UString, i: nat): (j: nat)
    requires i <= |s|
    ensures i <= j <= |s|
    ensures forall k :: i <= k < j ==> IsWordChar(s[k])
    ensures j == |s| || !IsWordChar(s[j])
    decreases |s| - i
  {
    if i < |s| && IsWordChar(s[i]) then WordRunEnd(s, i + 1) else i
  }

  /** End of the run of digits that starts at `i`. */
  function DigitRunEnd(s: UString, i: nat): (j: nat)
    requires i <= |s|
    ensures i <= j <= |s|
    ensures forall k :: i <= k < j ==> IsDigit(s[k])
    ensures j == |s| || !IsDigit(s[j])
    decreases |s| - i
  {
    if i < |s| && IsDigit(s[i]) then DigitRunEnd(s, i + 1) else i
  }

  /** A match of `0x\w+` starts at `i`. */
  predicate HexTokenAt(s: UString, i: nat)
  {
    i + 2 < |s| && s[i] == 48 && s[i + 1] == 120 && IsWordChar(s[i + 2])
  }

  /** A well-formed `0x\w+` token: `0x` followed by at least one word character. */
  predicate IsHexToken(t: UString)
  {
    |t| >= 3 && t[0] == 48 && t[1] == 120 && forall k :: 2 <= k < |t| ==> IsWordChar(t[k])
  }

  /** `re.findall(r'0x\w+', s[i..])`: the leftmost non-overlapping matches, in order. */
  function HexTokensFrom(s: UString, i: nat): (r: seq<UString>)
    requires i <= |s|
    ensures forall k :: 0 <= k < |r| ==> IsHexToken(r[k])
    ensures (forall p :: i <= p < |s| ==> !HexTokenAt(s, p)) ==> r == []
    decreases |s| - i
  {
    if HexTokenAt(s, i) then
      var j := WordRunEnd(s, i + 2);
      [s[i..j]] + HexTokensFrom(s, j)
    else if i < |s| then HexTokensFrom(s, i + 1)
    else []
  }

  function HexTokens(s: UString): seq<UString>
  {
    HexTokensFrom(s, 0)
  }

  /** `findall` returns nothing exactly when no match starts at or after `i`. */
  lemma {:induction false} HexTokensFromEmpty(s: UString, i: nat)
    requires i <= |s|
    ensures HexTokensFrom(s, i) == [] <==> forall p :: i <= p < |s| ==> !HexTokenAt(s, p)
    decreases |s| - i
  {
    if !HexTokenAt(s, i) && i < |s| {
      HexTokensFromEmpty(s, i + 1);
    }
  }

  /** The first token `findall` returns is the maximal match at the leftmost match
      position, and the search resumes right after it. */
  lemma {:induction false} HexTokensFromFirst(s: UString, i: nat, p: nat)
    requires i <= p < |s| && HexTokenAt(s, p)
    requires forall q :: i <= q < p ==> !HexTokenAt(s, q)
    ensures HexTokensFrom(s, i) == [s[p..WordRunEnd(s, p + 2)]] + HexTokensFrom(s, WordRunEnd(s, p + 2))
    decreases p - i
  {
    if i < p {
      HexTokensFromFirst(s, i + 1, p);
    }
  }

  /** A digit at `j` directly preceded by whitespace: where `\s+(\d+)` can capture. */
  predicate DecimalAt(s: UString, j: nat)
  {
    1 <= j < |s| && IsSpace(s[j - 1]) && IsDigit(s[j])
  }

  /** Where `re.search(r'\s+(\d+).*', s)` captures, scanning from candidate position `j`:
      the first digit directly preceded by whitespace. */
  function FirstDecimalAt(s: UString, j: nat): (r: Option<nat>)
    requires j >= 1
    ensures r.None? <==> forall p :: j <= p < |s| ==> !DecimalAt(s, p)
    ensures r.Some? ==> j <= r.value < |s| && DecimalAt(s, r.value) && FirstDecimalIs(s, j, r.value)
    decreases |s| - j
  {
    if j >= |s| then None
    else if DecimalAt(s, j) then Some(j)
    else FirstDecimalAt(s, j + 1)
  }

  /** `p` is the first capture position at or after `j`. */
  predicate FirstDecimalIs(s: UString, j: nat, p: nat)
  {
    forall q :: j <= q < p ==> !DecimalAt(s, q)
  }

  /** `int(m.group(1))` for the first capture of `\s+(\d+)`: the value of the digit
      run at the first capture position. */
  function FirstDecimal(s: UString): Option<nat>
  {
    match FirstDecimalAt(s, 1)
    case None => None
    case Some(p) => Some(DecimalValue(s[p..DigitRunEnd(s, p)]))
  }

  /** `re.match(r'(\w+).*', s).group(1)`: the leading run of word characters, if any. */
  function LeadingWord(s: UString): (r: Option<UString>)
    ensures r.Some? <==> |s| > 0 && IsWordChar(s[0])
    ensures r.Some? ==> |r.value| > 0 && r.value <= s && (forall k :: 0 <= k < |r.value| ==> IsWordChar(r.value[k]))
                        && (|r.value| == |s| || !IsWordChar(s[|r.value|]))
  {
    var j := WordRunEnd(s, 0);
    if j > 0 then Some(s[..j]) else None
  }
}
