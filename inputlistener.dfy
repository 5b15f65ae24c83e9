/** `Screenkey/inputlistener.py`: merging of XRecord ranges, the range pairing of
    `record_context`, and the per-event processing `_kbd_process` over an abstract
    queue of replayed events (the run loop assigns `last_ev` after EVERY event). */
module InputListener {
  import opened Wrappers
  import opened XProto
  import opened KeyDecode

  // ---------------------------------------------------------------------------
  // coalesce_ranges

  /** An inclusive interval `[first, last]` of event codes. */
  datatype Range = Range(first: int, last: int)

  predicate WellFormed(s: seq<Range>) { forall i :: 0 <= i < |s| ==> s[i].first <= s[i].last }

  predicate SortedByFirst(s: seq<Range>) { forall i, j :: 0 <= i < j < |s| ==> s[i].first <= s[j].first }

  /** Each range starts more than one past the end of the one before it: no overlap, no adjacency. */
  predicate Separated(s: seq<Range>) { forall i :: 0 <= i < |s| - 1 ==> s[i].last < s[i + 1].first - 1 }

  predicate Covers(s: seq<Range>, x: int) { exists i :: 0 <= i < |s| && s[i].first <= x <= s[i].last }

  function Max(a: int, b: int): int { if a < b then b else a }

  /** Stable insertion of `r` before the first range that does not start before it. */
  function InsertByFirst(r: Range, s: seq<Range>): (t: seq<Range>)
    ensures multiset(t) == multiset(s) + multiset{r} && |t| == |s| + 1
  {
    if s == [] || r.first <= s[0].first then [r] + s
    else
      assert s == [s[0]] + s[1..];
      [s[0]] + InsertByFirst(r, s[1..])
  }

  predicate StartsFrom(m: int, s: seq<Range>) { forall k :: 0 <= k < |s| ==> m <= s[k].first }

  lemma {:induction false} InsertStartsFrom(m: int, r: Range, s: seq<Range>)
    requires m <= r.first && StartsFrom(m, s)
    ensures StartsFrom(m, InsertByFirst(r, s))
    decreases |s|
  {
    if s != [] && r.first > s[0].first {
      InsertStartsFrom(m, r, s[1..]);
    }
  }

  lemma {:induction false} InsertSorted(r: Range, s: seq<Range>)
    requires SortedByFirst(s)
    ensures SortedByFirst(InsertByFirst(r, s))
    decreases |s|
  {
    if s != [] && r.first > s[0].first {
      InsertSorted(r, s[1..]);
      InsertStartsFrom(s[0].first, r, s[1..]);
    }
  }

  /** `sorted(ranges, key=lambda x: x[0])`: a stable sort on `first`. */
  function SortByFirst(s: seq<Range>): (t: seq<Range>)
    ensures multiset(t) == multiset(s) && |t| == |s|
    ensures SortedByFirst(t)
  {
    if s == [] then [] else
      assert s == [s[0]] + s[1..];
      InsertSorted(s[0], SortByFirst(s[1..]));
      InsertByFirst(s[0], SortByFirst(s[1..]))
  }

  /** The ranges of `s` that start at `k`, in their order in `s`. */
  function WithFirst(s: seq<Range>, k: int): seq<Range>
  {
    if s == [] then [] else (if s[0].first == k then [s[0]] else []) + WithFirst(s[1..], k)
  }

  /** Inserting `r` puts it ahead of every range with the same start. */
  lemma {:induction false} InsertWithFirst(r: Range, t: seq<Range>, k: int)
    ensures WithFirst(InsertByFirst(r, t), k) == (if r.first == k then [r] else []) + WithFirst(t, k)
    decreases |t|
  {
    if t == [] || r.first <= t[0].first {
      assert ([r] + t)[1..] == t;
    } else {
      InsertWithFirst(r, t[1..], k);
      assert ([t[0]] + InsertByFirst(r, t[1..]))[1..] == InsertByFirst(r, t[1..]);
    }
  }

  /** The sort is stable: ranges with equal starts keep their relative order. */
  lemma {:induction false} SortByFirstStable(s: seq<Range>, k: int)
    ensures WithFirst(SortByFirst(s), k) == WithFirst(s, k)
    decreases |s|
  {
    if s != [] {
      SortByFirstStable(s[1..], k);
      InsertWithFirst(s[0], SortByFirst(s[1..]), k);
    }
  }

  /** One step of the loop: append `r` after a gap, otherwise widen the last range. */
  function MergeInto(acc: seq<Range>, r: Range): seq<Range>
    requires |acc| > 0
  {
    var top := acc[|acc| - 1];
    if top.last < r.first - 1 then acc + [r]
    else acc[..|acc| - 1] + [Range(top.first, Max(top.last, r.last))]
  }

  function Fold(acc: seq<Range>, rest: seq<Range>): seq<Range>
    requires |acc| > 0
    decreases |rest|
  {
    if rest == [] then acc else Fold(MergeInto(acc, rest[0]), rest[1..])
  }

  /** The value `coalesce_ranges` returns. */
  function Coalesce(ranges: seq<Range>): seq<Range>
  {
    var s := SortByFirst(ranges);
    if s == [] then [] else Fold([s[0]], s[1..])
  }

  method CoalesceRanges(ranges: seq<Range>) returns (ret: seq<Range>)
    ensures ret == Coalesce(ranges)
    ensures SortedByFirst(ret) && Separated(ret)
    ensures |ret| <= |ranges| && (ret == [] <==> ranges == [])
    ensures WellFormed(ranges) ==> WellFormed(ret) && forall x :: Covers(ret, x) <==> Covers(ranges, x)
  {
    var sorted := SortByFirst(ranges);
    ret := sorted[..if |sorted| == 0 then 0 else 1];
    var i := if |sorted| == 0 then 0 else 1;
    while i < |sorted|
      invariant |sorted| > 0 ==> 1 <= i <= |sorted| && |ret| > 0 && Fold(ret, sorted[i..]) == Coalesce(ranges)
      invariant |sorted| == 0 ==> ret == [] && i == 0
    {
      var r := sorted[i];
      assert sorted[i..] == [r] + sorted[i + 1..];
      if ret[|ret| - 1].last < r.first - 1 {
        ret := ret + [r];
      } else {
        ret := ret[..|ret| - 1] + [Range(ret[|ret| - 1].first, Max(ret[|ret| - 1].last, r.last))];
      }
      i := i + 1;
    }
    if |sorted| > 0 {
      assert sorted[i..] == [];
    }
    CoalesceShape(ranges);
    if WellFormed(ranges) {
      CoalesceCovers(ranges);
    }
  }

  // Properties of Coalesce.

  /** What the fold keeps: the accumulator is sorted and separated, and its last range
      starts no later than anything still to come. */
  predicate FoldInv(acc: seq<Range>, rest: seq<Range>)
  {
    |acc| > 0 && SortedByFirst(acc) && Separated(acc) && SortedByFirst(rest)
    && forall k :: 0 <= k < |rest| ==> acc[|acc| - 1].first <= rest[k].first
  }

  lemma {:induction false} FoldShape(acc: seq<Range>, rest: seq<Range>)
    requires FoldInv(acc, rest)
    ensures SortedByFirst(Fold(acc, rest)) && Separated(Fold(acc, rest))
    ensures 0 < |Fold(acc, rest)| <= |acc| + |rest|
    decreases |rest|
  {
    if rest != [] {
      var next := MergeInto(acc, rest[0]);
      MergeKeepsInv(acc, rest);
      FoldShape(next, rest[1..]);
    }
  }

  /** Coalesced ranges come sorted and separated, they are never more numerous than
      the input, and only the empty input gives the empty output. */
  lemma CoalesceShape(ranges: seq<Range>)
    ensures SortedByFirst(Coalesce(ranges)) && Separated(Coalesce(ranges))
    ensures |Coalesce(ranges)| <= |ranges|
    ensures Coalesce(ranges) == [] <==> ranges == []
  {
    var s := SortByFirst(ranges);
    if s != [] {
      assert FoldInv([s[0]], s[1..]);
      FoldShape([s[0]], s[1..]);
    } else {
      assert ranges == [] by { assert |ranges| == |s|; }
    }
  }

  /** One merge step keeps the fold invariant. */
  lemma MergeKeepsInv(acc: seq<Range>, rest: seq<Range>)
    requires FoldInv(acc, rest) && rest != []
    ensures FoldInv(MergeInto(acc, rest[0]), rest[1..])
  {
    var next := MergeInto(acc, rest[0]);
    var top := acc[|acc| - 1];
    if top.last < rest[0].first - 1 {
      assert next[|next| - 1] == rest[0];
    } else {
      assert next[|next| - 1].first == top.first;
      assert forall k :: 0 <= k < |acc| - 1 ==> next[k] == acc[k];
    }
  }

  lemma CoversCons(s: seq<Range>, x: int)
    requires s != []
    ensures Covers(s, x) <==> (s[0].first <= x <= s[0].last) || Covers(s[1..], x)
    ensures WellFormed(s) ==> WellFormed(s[1..])
  {
    if Covers(s, x) {
      var i :| 0 <= i < |s| && s[i].first <= x <= s[i].last;
      if i > 0 { assert s[1..][i - 1] == s[i]; }
    }
    if Covers(s[1..], x) {
      var i :| 0 <= i < |s[1..]| && s[1..][i].first <= x <= s[1..][i].last;
      assert s[i + 1] == s[1..][i];
    }
    if WellFormed(s) {
      forall k | 0 <= k < |s[1..]| ensures s[1..][k].first <= s[1..][k].last { assert s[1..][k] == s[k + 1]; }
    }
  }

  /** Appending after a gap adds exactly the new range's points. */
  lemma AppendCovers(acc: seq<Range>, r: Range, y: int)
    ensures Covers(acc + [r], y) <==> Covers(acc, y) || r.first <= y <= r.last
  {
    var next := acc + [r];
    if Covers(acc, y) { var i :| 0 <= i < |acc| && acc[i].first <= y <= acc[i].last; assert next[i] == acc[i]; }
    if r.first <= y <= r.last { assert next[|acc|] == r; }
    if Covers(next, y) {
      var i :| 0 <= i < |next| && next[i].first <= y <= next[i].last;
      if i < |acc| { assert next[i] == acc[i]; }
    }
  }

  /** Widening the last range by an overlapping or adjacent `r` adds exactly `r`'s points. */
  lemma WidenCovers(acc: seq<Range>, r: Range, y: int)
    requires |acc| > 0 && r.first <= r.last && acc[|acc| - 1].first <= r.first <= acc[|acc| - 1].last + 1
    ensures Covers(MergeInto(acc, r), y) <==> Covers(acc, y) || r.first <= y <= r.last
  {
    var top := acc[|acc| - 1];
    var next := MergeInto(acc, r);
    var merged := Range(top.first, Max(top.last, r.last));
    assert next == acc[..|acc| - 1] + [merged];
    assert next[|acc| - 1] == merged;
    if Covers(acc, y) {
      var i :| 0 <= i < |acc| && acc[i].first <= y <= acc[i].last;
      if i < |acc| - 1 { assert next[i] == acc[i]; }
    }
    if Covers(next, y) {
      var i :| 0 <= i < |next| && next[i].first <= y <= next[i].last;
      if i < |acc| - 1 { assert next[i] == acc[i]; }
      else if y <= top.last { assert acc[|acc| - 1].first <= y <= acc[|acc| - 1].last; }
    }
  }

  lemma MergeCovers(acc: seq<Range>, rest: seq<Range>, y: int)
    requires FoldInv(acc, rest) && rest != [] && WellFormed(acc) && rest[0].first <= rest[0].last
    ensures WellFormed(MergeInto(acc, rest[0]))
    ensures Covers(MergeInto(acc, rest[0]), y) <==> Covers(acc, y) || rest[0].first <= y <= rest[0].last
  {
    var r := rest[0];
    if acc[|acc| - 1].last < r.first - 1 {
      AppendCovers(acc, r, y);
    } else {
      assert acc[|acc| - 1].first <= r.first by { assert 0 < |rest|; }
      WidenCovers(acc, r, y);
    }
  }

  lemma {:induction false} FoldCovers(acc: seq<Range>, rest: seq<Range>, x: int)
    requires FoldInv(acc, rest) && WellFormed(acc) && WellFormed(rest)
    ensures WellFormed(Fold(acc, rest))
    ensures Covers(Fold(acc, rest), x) <==> Covers(acc, x) || Covers(rest, x)
    decreases |rest|
  {
    if rest != [] {
      MergeKeepsInv(acc, rest);
      MergeCovers(acc, rest, x);
      CoversCons(rest, x);
      FoldCovers(MergeInto(acc, rest[0]), rest[1..], x);
    }
  }

  lemma CoversPermutation(s: seq<Range>, t: seq<Range>, x: int)
    requires multiset(s) == multiset(t)
    ensures Covers(s, x) <==> Covers(t, x)
    ensures WellFormed(s) <==> WellFormed(t)
  {
    forall u: seq<Range>, v: seq<Range> | multiset(u) == multiset(v) && Covers(u, x) ensures Covers(v, x) {
      var i :| 0 <= i < |u| && u[i].first <= x <= u[i].last;
      assert u[i] in multiset(v);
      var j :| 0 <= j < |v| && v[j] == u[i];
    }
    forall u: seq<Range>, v: seq<Range> | multiset(u) == multiset(v) && WellFormed(u) ensures WellFormed(v) {
      forall j | 0 <= j < |v| ensures v[j].first <= v[j].last {
        assert v[j] in multiset(u);
        var i :| 0 <= i < |u| && u[i] == v[j];
      }
    }
  }

  /** For well-formed input, coalescing keeps exactly the set of covered integers. */
  lemma CoalesceCovers(ranges: seq<Range>)
    requires WellFormed(ranges)
    ensures WellFormed(Coalesce(ranges))
    ensures forall x :: Covers(Coalesce(ranges), x) <==> Covers(ranges, x)
  {
    CoalesceCoversAt(ranges, 0);
    forall x ensures Covers(Coalesce(ranges), x) <==> Covers(ranges, x) {
      CoalesceCoversAt(ranges, x);
    }
  }

  lemma CoalesceCoversAt(ranges: seq<Range>, x: int)
    requires WellFormed(ranges)
    ensures WellFormed(Coalesce(ranges))
    ensures Covers(Coalesce(ranges), x) <==> Covers(ranges, x)
  {
    var s := SortByFirst(ranges);
    CoversPermutation(s, ranges, x);
    if s != [] {
      var head, tail := [s[0]], s[1..];
      assert FoldInv(head, tail);
      CoversCons(s, x);
      FoldCovers(head, tail, x);
      assert Coalesce(ranges) == Fold(head, tail);
      assert Covers(head, x) <==> s[0].first <= x <= s[0].last by {
        assert head[0] == s[0];
      }
    }
  }

  // ---------------------------------------------------------------------------
  // record_context: pairing the coalesced ranges into XRecordRange structures.

  /** An `XRecordRange8`: two `unsigned char` fields. */
  datatype Range8 = Range8(first: Byte, last: Byte)

  /** One `XRecordRange` as `XRecordAllocRange` leaves it (zeroed) and the code fills it. */
  datatype RangeSpec = RangeSpec(deliveredEvents: Range8, deviceEvents: Range8)

  const ZeroRange8 := Range8(0, 0)

  /** Assigning a Python int to a ctypes `c_ubyte` keeps its low 8 bits. */
  function ToRange8(r: Range): Range8
  {
    Range8((r.first % 256) as Byte, (r.last % 256) as Byte)
  }

  /** The range structures `record_context` passes to `XRecordCreateContext`. */
  method RecordContext(evRanges: seq<Range>, devRanges: seq<Range>) returns (specs: seq<RangeSpec>)
    ensures |specs| == Max(|Coalesce(evRanges)|, |Coalesce(devRanges)|)
    ensures forall i :: 0 <= i < |specs| ==> specs[i] == SpecAt(Coalesce(evRanges), Coalesce(devRanges), i)
  {
    var ev := CoalesceRanges(evRanges);
    var dev := CoalesceRanges(devRanges);
    specs := PairRanges(ev, dev);
  }

  /** The loop of `record_context`: one range structure per index of the longer list. */
  method PairRanges(ev: seq<Range>, dev: seq<Range>) returns (specs: seq<RangeSpec>)
    ensures |specs| == Max(|ev|, |dev|)
    ensures forall i :: 0 <= i < |specs| ==> specs[i] == SpecAt(ev, dev, i)
  {
    var n := Max(|ev|, |dev|);
    specs := [];
    for i := 0 to n
      invariant |specs| == i
      invariant forall k :: 0 <= k < i ==> specs[k] == SpecAt(ev, dev, k)
    {
      var delivered, device := ZeroRange8, ZeroRange8;
      if |ev| > i {
        delivered := ToRange8(ev[i]);
      }
      if |dev| > i {
        device := ToRange8(dev[i]);
      }
      specs := specs + [RangeSpec(delivered, device)];
    }
  }

  /** The `i`-th range structure: the `i`-th range of each list, or zeroes past its end. */
  function SpecAt(ev: seq<Range>, dev: seq<Range>, i: nat): RangeSpec
  {
    RangeSpec(if i < |ev| then ToRange8(ev[i]) else ZeroRange8, if i < |dev| then ToRange8(dev[i]) else ZeroRange8)
  }

  /** The event and device ranges `run` asks XRecord for, by enabled input type. */
  function EventRanges(keyboard: bool): seq<Range>
  {
    if keyboard then [Range(FocusIn, FocusOut)] else []
  }

  function DeviceRanges(keyboard: bool, button: bool, movement: bool): seq<Range>
  {
    (if keyboard then [Range(KeyPress, KeyRelease)] else [])
    + (if button then [Range(ButtonPress, ButtonRelease)] else [])
    + (if movement then [Range(MotionNotify, MotionNotify)] else [])
  }

  /** With every input type enabled the three device ranges are adjacent and
      coalesce into the single range KeyPress..MotionNotify. */
  lemma AllDeviceRangesCoalesce()
    ensures Coalesce(DeviceRanges(true, true, true)) == [Range(KeyPress, MotionNotify)]
  {
    var d := DeviceRanges(true, true, true);
    assert d == [Range(2, 3), Range(4, 5), Range(6, 6)];
    SortedStaysPut(d);
    var t, u := [Range(4, 5), Range(6, 6)], [Range(6, 6)];
    assert d[1..] == t && t[1..] == u && u[1..] == [];
    calc {
      Coalesce(d);
      Fold([Range(2, 3)], t);
      { MergeIntoSingle(Range(2, 3), t[0]); }
      Fold([Range(2, 5)], u);
      { MergeIntoSingle(Range(2, 5), u[0]); }
      Fold([Range(2, 6)], []);
    }
  }

  lemma MergeIntoSingle(a: Range, r: Range)
    requires a.last >= r.first - 1
    ensures MergeInto([a], r) == [Range(a.first, Max(a.last, r.last))]
  {
    assert [a][..0] == [];
  }

  /** The focus event range is a single range and stays as it is. */
  lemma FocusRangeCoalesces()
    ensures Coalesce(EventRanges(true)) == [Range(FocusIn, FocusOut)]
  {
    SortedStaysPut(EventRanges(true));
  }

  /** Sorting a list already sorted by `first` leaves it as it is. */
  lemma {:induction false} SortedStaysPut(s: seq<Range>)
    requires SortedByFirst(s)
    ensures SortByFirst(s) == s
    decreases |s|
  {
    if s != [] {
      SortedStaysPut(s[1..]);
      assert s == [s[0]] + s[1..];
    }
  }

  // ---------------------------------------------------------------------------
  // _kbd_process

  /** What `_kbd_process` does with the event `ev`, given the events still queued
      behind it (`pending`) and the previous event. The input method is handed `ev`
      as received: the `send_event`/`window` rewrite sits under the ClientMessage
      test, so it can never apply (ProcessEvent below proves the filter sees `ev`). */
  function KbdProcess(ev: XEvent, pending: seq<XEvent>, lastEv: XEvent, c: ListenerConfig, o: XOracles): Option<Action>
  {
    if IsCustomMessage(ev, c) && IsFocusChange(ev.data0) then Some(ResetIC)
    else if ev.evType == KeyRelease && PhantomRelease(pending, ev) then None
    else if !IsKeyEvent(ev) then None
    else Some(Emit(NewKeyData(ev, lastEv, o.filter(ev), c.translate, o)))
  }

  method ProcessEvent(ev: XEvent, pending: seq<XEvent>, lastEv: XEvent, c: ListenerConfig, o: XOracles)
    returns (out: Option<Action>)
    ensures out == KbdProcess(ev, pending, lastEv, c, o)
  {
    var kev := ev;
    if kev.evType == ClientMessage && kev.messageType == c.customAtom {
      if kev.data0 == FocusIn || kev.data0 == FocusOut {
        return Some(ResetIC);
      } else if kev.evType == KeyPress || kev.evType == KeyRelease {
        kev := kev.(sendEvent := false, window := c.replayWin);
      }
    }
    var filtered := o.filter(kev);
    if kev.evType == KeyRelease && PhantomRelease(pending, kev) {
      return None;
    }
    if !(kev.evType == KeyPress || kev.evType == KeyRelease) {
      return None;
    }
    var data := MakeKeyData(kev, lastEv, filtered, c.translate, o);
    out := Some(Emit(data));
  }

  // ---------------------------------------------------------------------------
  // The dispatch part of `run`: every replayed event in turn, `last_ev := ev` after each.

  function Run(queue: seq<XEvent>, lastEv: XEvent, keyboard: bool, c: ListenerConfig, o: XOracles): seq<Action>
    decreases |queue|
  {
    if queue == [] then []
    else (if keyboard then OptionToSeq(KbdProcess(queue[0], queue[1..], lastEv, c, o)) else [])
         + Run(queue[1..], queue[0], keyboard, c, o)
  }

  method Dispatch(queue: seq<XEvent>, keyboard: bool, c: ListenerConfig, o: XOracles) returns (actions: seq<Action>)
    ensures actions == Run(queue, ZeroEvent, keyboard, c, o)
  {
    var lastEv := ZeroEvent;
    actions := [];
    for i := 0 to |queue|
      invariant actions + Run(queue[i..], lastEv, keyboard, c, o) == Run(queue, ZeroEvent, keyboard, c, o)
    {
      var ev := queue[i];
      assert queue[i..] == [ev] + queue[i + 1..];
      if keyboard {
        var out := ProcessEvent(ev, queue[i + 1..], lastEv, c, o);
        actions := actions + OptionToSeq(out);
      }
      lastEv := ev;
    }
  }

  /** The event `repeated` is measured against: the event just before in the queue,
      whatever its type. */
  function Previous(queue: seq<XEvent>, i: nat, first: XEvent): XEvent
    requires i < |queue|
  {
    if i == 0 then first else queue[i - 1]
  }

  function PerEvent(queue: seq<XEvent>, lastEv: XEvent, c: ListenerConfig, o: XOracles): seq<Option<Action>>
  {
    seq(|queue|, i requires 0 <= i < |queue| => KbdProcess(queue[i], queue[i + 1..], Previous(queue, i, lastEv), c, o))
  }

  /** A run is the concatenation of each event's own outcome, where event i is compared
      with event i - 1 (a focus message or any other event included). */
  lemma {:induction false} RunIsPerEvent(queue: seq<XEvent>, lastEv: XEvent, c: ListenerConfig, o: XOracles)
    ensures Run(queue, lastEv, true, c, o) == Somes(PerEvent(queue, lastEv, c, o))
    decreases |queue|
  {
    if queue != [] {
      RunIsPerEvent(queue[1..], queue[0], c, o);
      var p := PerEvent(queue, lastEv, c, o);
      var q := PerEvent(queue[1..], queue[0], c, o);
      assert p[1..] == q by {
        forall k | 0 <= k < |q| ensures p[1..][k] == q[k] {
          assert queue[1..][k + 1..] == queue[k + 2..];
          assert Previous(queue, k + 1, lastEv) == Previous(queue[1..], k, queue[0]);
        }
      }
    }
  }

  /** Only key events that are not phantom releases produce a KeyData; a focus message
      produces an input-context reset and nothing else does anything. */
  lemma KbdProcessOutcomes(ev: XEvent, pending: seq<XEvent>, lastEv: XEvent, c: ListenerConfig, o: XOracles)
    ensures KbdProcess(ev, pending, lastEv, c, o) == Some(ResetIC) <==> IsCustomMessage(ev, c) && IsFocusChange(ev.data0)
    ensures KbdProcess(ev, pending, lastEv, c, o).Some? && KbdProcess(ev, pending, lastEv, c, o).value.Emit? <==>
              IsKeyEvent(ev) && !(ev.evType == KeyRelease && PhantomRelease(pending, ev))
    ensures match KbdProcess(ev, pending, lastEv, c, o)
            case Some(Emit(d)) => d.repeated == Repeated(ev, lastEv) && d.filtered == o.filter(ev)
            case _ => true
  {
  }
}
