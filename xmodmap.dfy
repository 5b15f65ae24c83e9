/** What the two xmodmap parsers have in common: the output of `xmodmap -pk` or
    `xmodmap -pm` is split into lines, the first (a header) is dropped, and each
    remaining line either is skipped, binds a key of the resulting dictionary
    (a later line overwriting an earlier one), or raises. */
module Xmodmap {
  import opened Wrappers
  import opened Text

  /** What one line contributes: nothing, one dictionary entry, or an exception. */
  datatype LineResult<K, V> = Skip | Bind(key: K, val: V) | Fail(error: PyError)

  /** `text.split('\n')[1:]`. */
  function Lines(text: UString): (r: seq<UString>)
    ensures |r| == |Split(text, NewLine)| - 1
  {
    Split(text, NewLine)[1..]
  }

  /** The header line, whatever it holds, is never parsed. */
  lemma HeaderSkipped(header: UString, body: UString)
    requires NewLine !in header
    ensures Lines(header + [NewLine] + body) == Split(body, NewLine)
  {
    SplitAtFirst(header, body);
  }

  lemma {:induction false} SplitAtFirst(header: UString, body: UString)
    requires NewLine !in header
    ensures Split(header + [NewLine] + body, NewLine) == [header] + Split(body, NewLine)
    decreases |header|
  {
    var s := header + [NewLine] + body;
    if header == [] {
      assert s == [NewLine] + body;
      assert s[1..] == body;
    } else {
      var tail := header[1..];
      assert NewLine !in tail by { assert forall c :: c in tail ==> c in header; }
      SplitAtFirst(tail, body);
      assert s[1..] == tail + [NewLine] + body;
      assert [header[0]] + tail == header;
    }
  }

  /** The dictionary the line loop builds, or the exception that ends it: a left fold. */
  function Fill<K(==), V>(f: UString -> LineResult<K, V>, ls: seq<UString>): Outcome<map<K, V>>
    decreases |ls|
  {
    if ls == [] then Returned(map[])
    else
      match Fill(f, ls[..|ls| - 1])
      case Raised(e) => Raised(e)
      case Returned(m) =>
        match f(ls[|ls| - 1])
        case Skip => Returned(m)
        case Bind(k, v) => Returned(m[k := v])
        case Fail(e) => Raised(e)
  }

  predicate Binds<K(==), V>(f: UString -> LineResult<K, V>, line: UString, k: K)
  {
    f(line).Bind? && f(line).key == k
  }

  /** One step of the fold, as the loop over the lines takes it. */
  lemma FillStep<K, V>(f: UString -> LineResult<K, V>, ls: seq<UString>, i: nat)
    requires i < |ls|
    ensures ls[..i + 1][..i] == ls[..i]
    ensures Fill(f, ls[..i + 1]) == match Fill(f, ls[..i])
                                   case Raised(e) => Raised(e)
                                   case Returned(m) =>
                                     match f(ls[i])
                                     case Skip => Returned(m)
                                     case Bind(k, v) => Returned(m[k := v])
                                     case Fail(e) => Raised(e)
  {
    assert ls[..i + 1][..i] == ls[..i];
  }

  /** Once the loop has raised, the whole parse raises the same exception. */
  lemma {:induction false} FillRaisedStays<K, V>(f: UString -> LineResult<K, V>, ls: seq<UString>, i: nat, e: PyError)
    requires i <= |ls| && Fill(f, ls[..i]) == Raised(e)
    ensures Fill(f, ls) == Raised(e)
    decreases |ls| - i
  {
    if i < |ls| {
      FillStep(f, ls, i);
      FillRaisedStays(f, ls, i + 1, e);
    } else {
      assert ls[..i] == ls;
    }
  }

  /** The parse raises exactly when some line raises. */
  lemma {:induction false} FillRaises<K, V>(f: UString -> LineResult<K, V>, ls: seq<UString>)
    ensures Fill(f, ls).Raised? <==> exists i :: 0 <= i < |ls| && f(ls[i]).Fail?
    decreases |ls|
  {
    if ls != [] {
      var init := ls[..|ls| - 1];
      FillRaises(f, init);
      assert forall i :: 0 <= i < |init| ==> init[i] == ls[i];
      if exists i :: 0 <= i < |ls| && f(ls[i]).Fail? {
        var i :| 0 <= i < |ls| && f(ls[i]).Fail?;
        if i < |init| {
          assert f(init[i]).Fail?;
        }
      }
    }
  }

  /** Without a raising line, a key is bound exactly when some line binds it. */
  lemma {:induction false} FillDomain<K, V>(f: UString -> LineResult<K, V>, ls: seq<UString>, k: K)
    requires forall i :: 0 <= i < |ls| ==> !f(ls[i]).Fail?
    ensures Fill(f, ls).Returned?
    ensures k in Fill(f, ls).value <==> exists i :: 0 <= i < |ls| && Binds(f, ls[i], k)
    decreases |ls|
  {
    if ls != [] {
      var init := ls[..|ls| - 1];
      assert forall i :: 0 <= i < |init| ==> init[i] == ls[i];
      FillDomain(f, init, k);
      if exists i :: 0 <= i < |ls| && Binds(f, ls[i], k) {
        var i :| 0 <= i < |ls| && Binds(f, ls[i], k);
        if i < |init| {
          assert Binds(f, init[i], k);
        }
      }
    }
  }

  /** The value of a key is the one of the last line that binds it. */
  lemma {:induction false} FillLastWins<K, V>(f: UString -> LineResult<K, V>, ls: seq<UString>, i: nat)
    requires forall j :: 0 <= j < |ls| ==> !f(ls[j]).Fail?
    requires i < |ls| && f(ls[i]).Bind?
    requires forall j :: i < j < |ls| ==> !Binds(f, ls[j], f(ls[i]).key)
    ensures Fill(f, ls).Returned?
    ensures f(ls[i]).key in Fill(f, ls).value && Fill(f, ls).value[f(ls[i]).key] == f(ls[i]).val
    decreases |ls|
  {
    var init := ls[..|ls| - 1];
    assert forall j :: 0 <= j < |init| ==> init[j] == ls[j];
    FillDomain(f, init, f(ls[i]).key);
    if i < |ls| - 1 {
      FillLastWins(f, init, i);
    }
  }

  /** Every value in the dictionary is the value some line bound to that key. */
  lemma {:induction false} FillValues<K, V>(f: UString -> LineResult<K, V>, ls: seq<UString>, k: K)
    requires Fill(f, ls).Returned? && k in Fill(f, ls).value
    ensures exists i :: 0 <= i < |ls| && f(ls[i]) == Bind(k, Fill(f, ls).value[k])
    decreases |ls|
  {
    var init := ls[..|ls| - 1];
    assert forall j :: 0 <= j < |init| ==> init[j] == ls[j];
    var last := f(ls[|ls| - 1]);
    if !(last.Bind? && last.key == k) {
      FillValues(f, init, k);
      var i :| 0 <= i < |init| && f(init[i]) == Bind(k, Fill(f, init).value[k]);
      assert f(ls[i]) == Bind(k, Fill(f, ls).value[k]);
    }
  }

  /** `int(kc, 16)` for every `0x` token of a modifier line, shifted by `offset`;
      None, for the ValueError of the first token that is not hexadecimal. */
  function HexCodes(tokens: seq<UString>, offset: int): (r: Option<seq<int>>)
    ensures r.Some? <==> forall k :: 0 <= k < |tokens| ==> ParseHex(tokens[k]).Some?
    ensures r.Some? ==> |r.value| == |tokens|
                        && forall k :: 0 <= k < |tokens| ==> r.value[k] == ParseHex(tokens[k]).value + offset
    decreases |tokens|
  {
    if tokens == [] then Some([])
    else
      match ParseHex(tokens[0])
      case None => None
      case Some(v) =>
        match HexCodes(tokens[1..], offset)
        case None => assert forall k :: 1 <= k < |tokens| ==> tokens[1..][k - 1] == tokens[k]; None
        case Some(rest) => Some([v + offset] + rest)
  }

  /** `keysyms[k]` converted by `unichr(int(keysyms[k], 16))`, when that raises nothing. */
  function TokenChar(tokens: seq<UString>, k: nat): (r: Option<CodePoint>)
    ensures r.Some? <==> k < |tokens| && ParseHex(tokens[k]).Some? && ParseHex(tokens[k]).value < 0x11_0000
    ensures r.Some? ==> r.value as int == ParseHex(tokens[k]).value
  {
    if k < |tokens| then
      match ParseHex(tokens[k])
      case None => None
      case Some(v) => Unichr(v)
    else None
  }
}
