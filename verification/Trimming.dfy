/** The trim pipeline: `trim` asks the loglets of the chain in order, `get_trim_point` collects how far
    they got, and the watchdog turns that into a `TrimPrefix` command. */
module Trimming {
  import opened Outcomes
  import opened Addresses
  import Entries
  import opened Chains
  import opened ChainCommands
  import opened Loglets
  import opened VirtualLog
  import opened Readers
  import opened ReaderTraces

  /** The address space at successive moments of a call, none of them inconsistent. */
  ghost predicate Timeline(ss: seq<Space>) {
    && (forall k :: 0 <= k < |ss| ==> Book(ss[k]) && TrimClosed(ss[k]))
    && (forall j, k :: 0 <= j <= k < |ss| ==> Grows(ss[j], ss[k]))
  }

  // ---------------------------------------------------------------- trim

  datatype TrimEnd = Done | Failed | Panicked

  /** A `trim` call on a loglet, with the offset it was given. */
  datatype TrimCall = TrimCall(segment: nat, offset: Offset)

  /** A successful `trim` has trimmed what was committed when it was called, up to the offset. */
  ghost predicate TrimAnswer(before: Space, after: Space, call: TrimCall, ok: bool) {
    ok ==> && Known(before, call.segment) && Known(after, call.segment)
           && after.loglets[call.segment].trimmed >= Min(call.offset, before.loglets[call.segment].committed)
  }

  /** All that the first `n` entries of the chain precede has been trimmed. */
  ghost predicate TrimmedBefore(s: Space, i: nat) {
    forall j :: 0 <= j < i ==> Known(s, j) && FullyTrimmed(s, j)
  }

  lemma TrimmedBeforeIsStable(s: Space, t: Space, i: nat)
    requires Grows(s, t) && Book(s) && Book(t) && TrimmedBefore(s, i) && Known(s, i)
    ensures TrimmedBefore(t, i)
  {
    forall j | 0 <= j < i ensures Known(t, j) && FullyTrimmed(t, j) {
      assert FullyTrimmed(s, j);
      SegmentsAreOrdered(s, j, i);
      SegmentGrows(s, t, j);
      SegmentsAreOrdered(t, j, j);
    }
  }

  /** Once entry `p` is trimmed through the base of its successor, all before that successor is. */
  lemma NextIsTrimmedBefore(s: Space, c: Chain, p: nat)
    requires Book(s) && ChainFits(s, c) && p + 1 < |c| && TrimmedBefore(s, c[p].index) && FullyTrimmed(s, c[p].index)
    ensures TrimmedBefore(s, if c[p + 1].kind == SealMarker then c[p + 1].index + 1 else c[p + 1].index)
  {
    var e, f := c[p], c[p + 1];
    assert EntryFits(s, f) && EntryFits(s, e);
    var n := if f.kind == SealMarker then f.index + 1 else f.index;
    forall j | 0 <= j < n ensures Known(s, j) && FullyTrimmed(s, j) {
      if j > e.index { SkippedAreEmpty(s, c, p, j); }
    }
  }

  /** What one more answered call adds: the segment is trimmed up to the request, and if its
      successor starts by the request, all before the successor is. */
  lemma CallMovesOn(s: Space, t: Space, c: Chain, p: nat, point: Lsn, ok: bool)
    requires Book(s) && Book(t) && Grows(s, t) && ChainFits(s, c) && p < |c| && c[p].kind != SealMarker
    requires TrimmedBefore(s, c[p].index) && TrimOffset(c[p].base, point).Some? && c[p].base <= point
    requires TrimAnswer(s, t, TrimCall(c[p].index, TrimOffset(c[p].base, point).value.value), ok) && ok
    ensures ChainFits(t, c) && TrimmedBefore(t, c[p].index)
    ensures point <= OFFSET_MAX ==>
              t.loglets[c[p].index].trimmed >= Min(point - c[p].base + OLDEST, s.loglets[c[p].index].committed)
    ensures p + 1 < |c| && c[p + 1].base <= Min(point, OFFSET_MAX) ==> FullyTrimmed(t, c[p].index)
  {
    ChainFitsIsStable(s, t, c);
    assert EntryFits(s, c[p]);
    TrimmedBeforeIsStable(s, t, c[p].index);
    TrimOffsetIsExact(c[p].base, point);
    if p + 1 < |c| {
      assert LinkFits(s, c[p], c[p + 1]);
      SegmentGrows(s, t, c[p].index);
      SegmentsAreOrdered(t, c[p].index, c[p].index);
    }
  }

  /** The call `trim` makes on entry `e`: it comes when everything before the segment is trimmed,
      reaches up to the request, as far as 32-bit offsets go, and not past it. */
  ghost predicate CallOk(s: Space, e: Chains.Entry, point: Lsn, call: TrimCall) {
    && call.segment == e.index && e.base <= point
    && EventAllowed(s, e.index, TrimLoglet(call.offset))
    && OffsetBy(e.base, call.offset) == Some(Min(point, OFFSET_MAX))
  }

  ghost predicate LegalTrim(ss: seq<Space>, c: LiveChain, point: Lsn, answers: seq<bool>) {
    && Timeline(ss) && |ss| == |c| + 1 && |answers| == |c| && ChainFits(ss[0], c)
    && forall p :: 0 <= p < |c| ==> LegalCall(ss[p], ss[p + 1], c[p], point, answers[p])
  }

  ghost predicate LegalCall(s: Space, t: Space, e: Chains.Entry, point: Lsn, ok: bool) {
    var offset := TrimOffset(e.base, point);
    offset.Some? && offset.value.Some? && e.kind != SealMarker ==> TrimAnswer(s, t, TrimCall(e.index, offset.value.value), ok)
  }

  /** `trim` is about to look at entry `p`. */
  ghost predicate Ready(s: Space, c: LiveChain, p: nat, point: Lsn) {
    && ChainFits(s, c)
    && (p < |c| && c[p].base <= Min(point, OFFSET_MAX) ==> TrimmedBefore(s, c[p].index))
  }

  lemma ReadyAtFirst(s: Space, c: LiveChain, point: Lsn)
    requires Book(s) && ChainFits(s, c)
    ensures Ready(s, c, 0, point)
  {
  }

  lemma ReadyForNext(ss: seq<Space>, c: LiveChain, point: Lsn, answers: seq<bool>, p: nat)
    requires LegalTrim(ss, c, point, answers) && p < |c| && Ready(ss[p], c, p, point)
    requires c[p].base <= Min(point, OFFSET_MAX) && c[p].kind != SealMarker
    ensures TrimOffset(c[p].base, point).Some? && TrimOffset(c[p].base, point).value.Some?
    ensures CallOk(ss[p], c[p], point, TrimCall(c[p].index, TrimOffset(c[p].base, point).value.value))
    ensures answers[p] ==> Ready(ss[p + 1], c, p + 1, point)
  {
    BasesOrdered(c, 0, p);
    TrimOffsetIsExact(c[p].base, point);
    assert EntryFits(ss[p], c[p]);
    if answers[p] {
      assert LegalCall(ss[p], ss[p + 1], c[p], point, answers[p]);
      CallMovesOn(ss[p], ss[p + 1], c, p, point, answers[p]);
      if p + 1 < |c| && c[p + 1].base <= Min(point, OFFSET_MAX) { NextIsTrimmedBefore(ss[p + 1], c, p); }
    }
  }

  /** An address in a segment that was trimmed successfully. */
  lemma CalledIsTrimmed(ss: seq<Space>, c: LiveChain, point: Lsn, answers: seq<bool>, q: nat, x: Lsn)
    requires LegalTrim(ss, c, point, answers) && q < |c| && answers[q] && c[q].kind != SealMarker
    requires c[q].base <= x <= Min(point, OFFSET_MAX) && Known(ss[0], c[q].index) && x < End(ss[0], c[q].index)
    ensures AddressTrimmed(ss[|c|], x)
  {
    var i := c[q].index;
    BasesOrdered(c, 0, q);
    TrimOffsetIsExact(c[q].base, point);
    assert EntryFits(ss[0], c[q]);
    assert LegalCall(ss[q], ss[q + 1], c[q], point, answers[q]);
    SegmentGrows(ss[0], ss[q], i);
    SegmentGrows(ss[q + 1], ss[|c|], i);
    SegmentGrows(ss[0], ss[|c|], i);
    assert TrimmedAt(ss[|c|], i, x);
  }

  /** When no call fails, every address that was committed before is trimmed up to the request. */
  lemma AllIsTrimmed(ss: seq<Space>, c: LiveChain, point: Lsn, answers: seq<bool>, n: nat, x: Lsn)
    requires LegalTrim(ss, c, point, answers) && n <= |c| && forall q :: 0 <= q < n ==> answers[q]
    requires n < |c| ==> c[n].base > point || c[n].kind == SealMarker
    requires Known(ss[0], TailIndex(c)) && OLDEST <= x <= Min(point, OFFSET_MAX) && x < End(ss[0], TailIndex(c))
    ensures AddressTrimmed(ss[|c|], x)
  {
    var s := ss[0];
    if x < c[0].base {
      BelowHeadIsTrimmed(s, c, x);
      AddressesAreStable(s, ss[|c|], Entries.Any, x);
    } else {
      var i := Locate(s, x, TailIndex(c));
      SegmentsAreOrdered(s, i, i);
      ChainFindsHolder(s, c, x, i, s.loglets[i].log[x - s.bases[i]]);
      var q := FindSegmentPosition(c, x);
      BasesOrdered(c, n, q);
      CalledIsTrimmed(ss, c, point, answers, q, x);
    }
  }

  /** Entry `p` is one the loop trims: all calls before it succeeded. */
  predicate Comes(c: LiveChain, point: Lsn, answers: seq<bool>, p: nat)
    requires |answers| == |c|
  {
    && p < |c| && c[p].base <= Min(point, OFFSET_MAX) && c[p].kind != SealMarker
    && forall q :: 0 <= q < p ==> answers[q] && c[q].base <= Min(point, OFFSET_MAX) && c[q].kind != SealMarker
  }

  function CallOn(e: Chains.Entry, point: Lsn): TrimCall
    requires 0 < e.base <= Min(point, OFFSET_MAX)
  {
    TrimCall(e.index, Min(point, OFFSET_MAX) - e.base + OLDEST)
  }

  lemma {:induction false} ReadyWhenItComes(ss: seq<Space>, c: LiveChain, point: Lsn, answers: seq<bool>, p: nat)
    requires LegalTrim(ss, c, point, answers) && Comes(c, point, answers, p)
    ensures Ready(ss[p], c, p, point)
  {
    if p == 0 {
      ReadyAtFirst(ss[0], c, point);
    } else {
      ReadyWhenItComes(ss, c, point, answers, p - 1);
      ReadyForNext(ss, c, point, answers, p - 1);
    }
  }

  lemma CallsAreOk(ss: seq<Space>, c: LiveChain, point: Lsn, answers: seq<bool>, p: nat)
    requires LegalTrim(ss, c, point, answers) && Comes(c, point, answers, p)
    ensures 0 < c[p].base && CallOk(ss[p], c[p], point, CallOn(c[p], point))
  {
    ReadyWhenItComes(ss, c, point, answers, p);
    ReadyForNext(ss, c, point, answers, p);
    BasesOrdered(c, 0, p);
  }

  /** How far `trim` came and why it stopped. */
  predicate Stopped(c: LiveChain, point: Lsn, answers: seq<bool>, end: TrimEnd, n: nat)
    requires |answers| == |c|
  {
    && n <= |c|
    && match end
       case Panicked => n < |c| && OFFSET_MAX < c[n].base <= point
       case Failed => n > 0 && !answers[n - 1]
       case Done =>
         && (forall q :: 0 <= q < n ==> answers[q])
         && (n < |c| ==> c[n].base > point || (c[n].kind == SealMarker && c[n].base <= OFFSET_MAX))
  }

  method TrimLoop(c: LiveChain, point: Lsn, answers: seq<bool>) returns (end: TrimEnd, calls: seq<TrimCall>)
    requires |answers| == |c| && forall p :: 0 <= p < |c| ==> c[p].base > 0
    ensures Stopped(c, point, answers, end, |calls|)
    ensures forall k :: 0 <= k < |calls| ==> Comes(c, point, answers, k) && calls[k] == CallOn(c[k], point)
  {
    calls := [];
    var p := 0;
    while p < |c| && c[p].base <= point
      invariant 0 <= p <= |c| && |calls| == p
      invariant forall q :: 0 <= q < p ==> answers[q] && c[q].base <= Min(point, OFFSET_MAX) && c[q].kind != SealMarker
      invariant forall k :: 0 <= k < |calls| ==> calls[k] == CallOn(c[k], point)
    {
      match TrimOffset(c[p].base, point) {
        case None => return Panicked, calls;
        case Some(offset) =>
          if c[p].kind == SealMarker { break; } // the sealed loglet has nothing to trim, and is the last
          calls := calls + [TrimCall(c[p].index, offset.value)];
          if !answers[p] { return Failed, calls; }
          p := p + 1;
      }
    }
    end := Done;
  }

  /** `Bifrost::trim` over the chain version it loaded. Every trim it asks of a loglet is head-first. It
      panics only at a segment that starts by the request but past the largest 32-bit offset. When it
      is done, all that was committed up to the request is trimmed, as far as 32-bit offsets go. */
  method Trim(c: LiveChain, point: Lsn, answers: seq<bool>, ghost ss: seq<Space>)
    returns (end: TrimEnd, calls: seq<TrimCall>)
    requires LegalTrim(ss, c, point, answers)
    ensures Stopped(c, point, answers, end, |calls|)
    ensures forall k :: 0 <= k < |calls| ==> CallOk(ss[k], c[k], point, calls[k])
    ensures end.Done? ==> TrimmedWherever(ss[0], ss[|c|], TailIndex(c), Min(point, OFFSET_MAX))
  {
    forall p | 0 <= p < |c| ensures c[p].base > 0 { BasesOrdered(c, 0, p); }
    end, calls := TrimLoop(c, point, answers);
    forall k | 0 <= k < |calls| ensures CallOk(ss[k], c[k], point, calls[k]) { CallsAreOk(ss, c, point, answers, k); }
    if end.Done? { DoneTrimsAll(ss, c, point, answers, |calls|); }
  }

  /** Addresses committed in `s` up to segment `n` and the given point are trimmed in `t`. */
  ghost predicate TrimmedWherever(s: Space, t: Space, n: nat, point: int) {
    forall x: Lsn {:trigger AddressTrimmed(t, x)} ::
      OLDEST <= x <= point && Known(s, n) && x < End(s, n) ==> AddressTrimmed(t, x)
  }

  lemma DoneTrimsAll(ss: seq<Space>, c: LiveChain, point: Lsn, answers: seq<bool>, n: nat)
    requires LegalTrim(ss, c, point, answers) && Stopped(c, point, answers, Done, n)
    ensures TrimmedWherever(ss[0], ss[|c|], TailIndex(c), Min(point, OFFSET_MAX))
  {
    forall x: Lsn | OLDEST <= x <= Min(point, OFFSET_MAX) && Known(ss[0], TailIndex(c)) && x < End(ss[0], TailIndex(c))
      ensures AddressTrimmed(ss[|c|], x)
    {
      AllIsTrimmed(ss, c, point, answers, n, x);
    }
  }

  // ---------------------------------------------------------------- the trim point of the chain

  /** What a loglet's `get_trim_point` may answer: never INVALID, and no further than it has trimmed. */
  predicate PointAnswer(s: Space, e: Chains.Entry, a: Option<Offset>) {
    a.Some? ==> e.kind != SealMarker && Known(s, e.index) && OLDEST <= a.value <= s.loglets[e.index].trimmed
  }

  /** The wrapper's translation, clamped to the segment when the chain knows its tail. */
  function PointLsn(c: Chain, p: nat, o: Offset): int
    requires p < |c|
  {
    var lsn := c[p].base + o - OLDEST;
    if p + 1 < |c| then Min(lsn, PrevLsn(c[p + 1].base)) else lsn
  }

  /** The point of the last entry before the first one without a trim point. */
  function TrimPoint(c: Chain, answers: seq<Option<Offset>>): int
    requires |answers| == |c|
  {
    var n := LeadingPoints(answers);
    if n == 0 then INVALID else PointLsn(c, n - 1, answers[n - 1].value)
  }

  function LeadingPoints(answers: seq<Option<Offset>>): (n: nat)
    ensures n <= |answers| && (forall k :: 0 <= k < n ==> answers[k].Some?) && (n < |answers| ==> answers[n].None?)
  {
    if answers == [] || answers[0].None? then 0 else 1 + LeadingPoints(answers[1..])
  }

  /** The answers come from successive moments, none later than `end`. */
  ghost predicate LegalPoints(ss: seq<Space>, end: Space, c: LiveChain, answers: seq<Option<Offset>>) {
    && |answers| == |c| == |ss| && Book(end) && ChainFits(end, c)
    && forall p :: 0 <= p < |c| ==> Grows(ss[p], end) && PointAnswer(ss[p], c[p], answers[p])
  }

  ghost predicate PointOk(end: Space, point: int) { OLDEST <= point <= LSN_MAX && TrimmedThrough(end, point) }

  method TrimPointLoop(c: LiveChain, answers: seq<Option<Offset>>, ghost end: Space) returns (point: Lsn)
    requires |answers| == |c|
    requires forall p :: 0 <= p < |c| && answers[p].Some? ==> PointOk(end, PointLsn(c, p, answers[p].value))
    ensures point == TrimPoint(c, answers)
    ensures answers[0].None? ==> point == INVALID
    ensures answers[0].Some? ==> PointOk(end, point)
  {
    point := INVALID;
    var p := 0;
    while p < |c| && answers[p].Some?
      invariant 0 <= p <= |c| && (forall k :: 0 <= k < p ==> answers[k].Some?)
      invariant point == if p == 0 then INVALID else PointLsn(c, p - 1, answers[p - 1].value)
      invariant p > 0 ==> PointOk(end, point)
    {
      point := PointLsn(c, p, answers[p].value);
      p := p + 1;
    }
  }

  /** `get_trim_point`. The answer, unless INVALID, is evidence that everything up to it is trimmed. */
  method GetTrimPoint(c: LiveChain, answers: seq<Option<Offset>>, ghost ss: seq<Space>, ghost end: Space) returns (point: Lsn)
    requires LegalPoints(ss, end, c, answers)
    ensures point == TrimPoint(c, answers)
    ensures point == INVALID <==> answers[0].None?
    ensures point != INVALID ==> Evidence(end, TrimTo(point))
  {
    forall p | 0 <= p < |c| && answers[p].Some? ensures PointOk(end, PointLsn(c, p, answers[p].value)) {
      PointIsTrimmed(ss[p], end, c, p, answers[p].value);
    }
    point := TrimPointLoop(c, answers, end);
  }

  lemma PointIsTrimmed(s: Space, end: Space, c: LiveChain, p: nat, o: Offset)
    requires Book(end) && ChainFits(end, c) && p < |c| && Grows(s, end) && PointAnswer(s, c[p], Some(o))
    ensures OLDEST <= PointLsn(c, p, o) <= LSN_MAX && TrimmedThrough(end, PointLsn(c, p, o))
  {
    var i := c[p].index;
    assert EntryFits(end, c[p]);
    assert p + 1 < |c| ==> LinkFits(end, c[p], c[p + 1]);
    BasesOrdered(c, 0, p);
    SegmentGrows(s, end, i);
    SegmentBoundsHold(end, i, i);
    assert TrimmedPast(end, i, PointLsn(c, p, o));
  }

  // ---------------------------------------------------------------- when the trim point moves

  /** What a loglet that answers truthfully says: how far it is trimmed, if at all. */
  function PointOf(s: Space, e: Chains.Entry): Option<Offset> {
    if e.kind == SealMarker || !Known(s, e.index) || !(0 < s.loglets[e.index].trimmed <= OFFSET_MAX) then None
    else Some(s.loglets[e.index].trimmed)
  }

  function Points(s: Space, c: Chain): seq<Option<Offset>> { seq(|c|, p requires 0 <= p < |c| => PointOf(s, c[p])) }

  /** The trim point of the log as it stands. */
  function ChainPoint(k: Core): int { TrimPoint(k.chain, Points(k.space, k.chain)) }

  predicate HeadUntrimmed(k: Core)
    requires |k.chain| > 0
  {
    PointOf(k.space, k.chain[0]).None?
  }

  /** Truthful answers are legal ones. */
  lemma PointsAreLegal(k: Core)
    requires CoreInv(k)
    ensures LegalPoints(seq(|k.chain|, _ => k.space), k.space, k.chain, Points(k.space, k.chain))
  {
    forall p | 0 <= p < |k.chain| ensures PointAnswer(k.space, k.chain[p], PointOf(k.space, k.chain[p])) {
      assert EntryFits(k.space, k.chain[p]);
    }
  }

  /** Only the last segment of a chain can be empty. */
  lemma MiddleHoldsRecords(s: Space, c: Chain, p: nat)
    requires ChainFits(s, c) && p < |c|
    ensures p + 1 < |c| ==> s.loglets[c[p].index].committed > 0
  {
    if p + 1 < |c| { assert EntryFits(s, c[p]) && LinkFits(s, c[p], c[p + 1]) && Precedes(c[p], c[p + 1]); }
  }

  /** No segment past the last entry with a trim point is trimmed. */
  lemma UntrimmedBehind(k: Core, n: nat, j: nat)
    requires CoreInv(k) && 0 < n <= |k.chain| && k.chain[n - 1].kind != SealMarker && Known(k.space, j)
    requires n < |k.chain| ==> PointOf(k.space, k.chain[n]).None?
    ensures j > k.chain[n - 1].index ==> k.space.loglets[j].trimmed == 0
  {
    var s, c := k.space, k.chain;
    SegmentsAreOrdered(s, j, j);
    if n < |c| && j > c[n - 1].index {
      assert EntryFits(s, c[n]) && Valid(s.loglets[c[n].index]);
      if j < c[n].index || c[n].kind == SealMarker { SkippedAreEmpty(s, c, n - 1, j); }
      else if j > c[n].index {
        MiddleHoldsRecords(s, c, n);
        assert s.loglets[j].trimmed > 0 ==> FullyTrimmed(s, c[n].index);
      }
    }
  }

  lemma PointIsLargest(k: Core, n: nat, x: int)
    requires CoreInv(k) && n == LeadingPoints(Points(k.space, k.chain)) && n > 0
    ensures TrimmedAt(k.space, k.chain[n - 1].index, ChainPoint(k)) && (AddressTrimmed(k.space, x) ==> x <= ChainPoint(k))
  {
    var s, c := k.space, k.chain;
    var i := c[n - 1].index;
    assert EntryFits(s, c[n - 1]) && Valid(s.loglets[i]);
    assert Points(s, c)[n - 1] == PointOf(s, c[n - 1]);
    if n < |c| { assert Points(s, c)[n] == PointOf(s, c[n]) && LinkFits(s, c[n - 1], c[n]); }
    if AddressTrimmed(s, x) {
      var j: nat :| TrimmedAt(s, j, x);
      UntrimmedBehind(k, n, j);
      SegmentsAreOrdered(s, i, j);
    }
  }

  /** The trim point is INVALID exactly when nothing of the head is trimmed, and otherwise the largest
      trimmed LSN of the log. */
  lemma TrimPointIsExact(k: Core)
    requires CoreInv(k)
    ensures ChainPoint(k) == INVALID <==> HeadUntrimmed(k)
    ensures !HeadUntrimmed(k) ==> AddressTrimmed(k.space, ChainPoint(k)) && ChainPoint(k) >= OLDEST
    ensures !HeadUntrimmed(k) ==> forall x {:trigger AddressTrimmed(k.space, x)} :: AddressTrimmed(k.space, x) ==> x <= ChainPoint(k)
  {
    var n := LeadingPoints(Points(k.space, k.chain));
    assert Points(k.space, k.chain)[0] == PointOf(k.space, k.chain[0]);
    if n > 0 {
      PointIsLargest(k, n, 0);
      SegmentBoundsHold(k.space, k.chain[n - 1].index, k.chain[n - 1].index);
      forall x | AddressTrimmed(k.space, x) ensures x <= ChainPoint(k) { PointIsLargest(k, n, x); }
    }
  }

  lemma CommandsTrimNothing(k: Core, op: ChainOp, x: int)
    requires CoreInv(k)
    ensures AddressTrimmed(k.space, x) <==> AddressTrimmed(Apply(k, op).space, x)
  {
    var s, t := k.space, Apply(k, op).space;
    if AddressTrimmed(s, x) {
      var i: nat :| TrimmedAt(s, i, x);
      assert TrimmedAt(t, i, x);
    }
    if AddressTrimmed(t, x) {
      var i: nat :| TrimmedAt(t, i, x);
      assert TrimmedAt(s, i, x);
    }
  }

  /** The entry of the chain that holds an LSN, or its head if the LSN lies before it. */
  function HolderOf(c: Chain, x: Lsn): Chains.Entry
    requires |c| > 0
  {
    var p := LastAtOrBelow(c, Max(x, OLDEST));
    if p < 0 then c[0] else c[p]
  }

  /** Other commands leave the head trimmed or untrimmed as it was. */
  lemma HeadKeepsItsPoint(k: Core, op: ChainOp)
    requires CoreInv(k) && Evidence(k.space, op) && !op.TrimTo?
    ensures |Apply(k, op).chain| > 0 && (HeadUntrimmed(Apply(k, op)) <==> HeadUntrimmed(k))
  {
    var s, c := k.space, k.chain;
    EditKeepsShape(c, op);
    assert EntryFits(s, c[0]) && Valid(s.loglets[c[0].index]);
    if Apply(k, op).chain[0] != c[0] { assert |c| == 1; }
  }

  /** A head that ends at or before a trimmed address has been trimmed. */
  lemma EndedHeadIsTrimmed(k: Core, point: Lsn)
    requires CoreInv(k) && TrimmedThrough(k.space, point) && |k.chain| > 1 && k.chain[1].base <= NextLsn(point)
    ensures !HeadUntrimmed(k)
  {
    var s, c := k.space, k.chain;
    assert EntryFits(s, c[0]) && LinkFits(s, c[0], c[1]) && Valid(s.loglets[c[0].index]);
    MiddleHoldsRecords(s, c, 0);
    EndedIsTrimmed(s, point, c[0].index);
  }

  /** A prefix trim backed by its evidence removes nothing from behind an untrimmed head. */
  lemma UntrimmedHeadStays(k: Core, point: Lsn)
    requires CoreInv(k) && TrimmedThrough(k.space, point) && HeadUntrimmed(k)
    ensures HolderOf(k.chain, NextLsn(point)) == k.chain[0]
  {
    var p := LastAtOrBelow(k.chain, Max(NextLsn(point), OLDEST));
    if p > 0 {
      BasesOrdered(k.chain, 1, p);
      EndedHeadIsTrimmed(k, point);
    }
  }

  /** Only a prefix trim can make an untrimmed segment the head: the one that holds the successor of its
      point. */
  lemma HeadAfterCommand(k: Core, op: ChainOp)
    requires CoreInv(k) && Evidence(k.space, op)
    ensures |Apply(k, op).chain| > 0
    ensures HeadUntrimmed(Apply(k, op)) <==>
            if op.TrimTo? then PointOf(k.space, HolderOf(k.chain, NextLsn(op.point))).None? else HeadUntrimmed(k)
    ensures HeadUntrimmed(k) ==> HeadUntrimmed(Apply(k, op))
  {
    if op.TrimTo? {
      if HeadUntrimmed(k) { UntrimmedHeadStays(k, op.point); }
    } else {
      HeadKeepsItsPoint(k, op);
    }
  }

  /** A command moves the trim point back exactly when it is a prefix trim of a log whose head has been
      trimmed, and the segment that holds the successor of its point has not; then back to INVALID.
      Otherwise it leaves it where it is. */
  lemma CommandMovesPointBackIff(k: Core, op: ChainOp)
    requires CoreInv(k) && Evidence(k.space, op)
    ensures CoreInv(Apply(k, op))
    ensures ChainPoint(Apply(k, op)) < ChainPoint(k) <==>
            op.TrimTo? && !HeadUntrimmed(k) && PointOf(k.space, HolderOf(k.chain, NextLsn(op.point))).None?
    ensures ChainPoint(Apply(k, op)) < ChainPoint(k) ==> ChainPoint(Apply(k, op)) == INVALID
    ensures ChainPoint(Apply(k, op)) >= ChainPoint(k) ==> ChainPoint(Apply(k, op)) == ChainPoint(k)
  {
    ApplyKeepsCore(k, op);
    TrimPointIsExact(k);
    TrimPointIsExact(Apply(k, op));
    CommandsTrimNothing(k, op, ChainPoint(k));
    CommandsTrimNothing(k, op, ChainPoint(Apply(k, op)));
    HeadAfterCommand(k, op);
  }

  /** Loglet events, trims included, never move it back. */
  lemma EventsNeverMovePointBack(k: Core, i: nat, e: Event)
    requires CoreInv(k) && EventAllowed(k.space, i, e)
    ensures ChainPoint(k) <= ChainPoint(k.(space := OnLoglet(k.space, i, e)))
  {
    var z := k.(space := OnLoglet(k.space, i, e));
    EventKeepsCore(k, i, e);
    TrimPointIsExact(k);
    TrimPointIsExact(z);
    if !HeadUntrimmed(k) {
      AddressesAreStable(k.space, z.space, Entries.Any, ChainPoint(k));
      assert EntryFits(k.space, k.chain[0]) && EntryFits(z.space, z.chain[0]);
      SegmentGrows(k.space, z.space, k.chain[0].index);
      SegmentsAreOrdered(z.space, k.chain[0].index, k.chain[0].index);
    }
  }

  const TRIMMED_THEN_OPEN :=
    Core([Chains.Entry(1, 0, Local, Blob("")), Chains.Entry(3, 1, Local, Blob(""))],
         Space([1, 3], [Loglet([Entries.Record(Entries.NoKeys, 0), Entries.Record(Entries.NoKeys, 0)], 2, 2, 2, true, true), FRESH]))

  /** The trim point of a log can move back: its first segment is trimmed through LSN 2, the prefix trim
      that reports is sent, and once it is written the trim point reads INVALID. */
  lemma TrimPointCanMoveBack()
    ensures var k := TRIMMED_THEN_OPEN; var op := TrimTo(2);
            && CoreInv(k) && Evidence(k.space, op)
            && ChainPoint(k) == 2 && ChainPoint(Apply(k, op)) == INVALID
  {
    var k, op := TRIMMED_THEN_OPEN, TrimTo(2);
    assert EntryFits(k.space, k.chain[0]) && EntryFits(k.space, k.chain[1]) && LinkFits(k.space, k.chain[0], k.chain[1]);
    assert TrimmedPast(k.space, 0, 2);
    var answers := Points(k.space, k.chain);
    assert answers[0] == Some(2) && answers[1] == None;
    assert LeadingPoints(answers[1..]) == 0;
    ApplyKeepsCore(k, op);
    assert Apply(k, op).chain == k.chain[1..];
    TrimPointIsExact(Apply(k, op));
  }

  /** The watchdog's trim of one chain: it sends a prefix trim exactly when the loglets report a trim
      point, and that command carries its evidence. */
  method TrimChain(c: LiveChain, answers: Result<seq<Option<Offset>>, ()>, ghost ss: seq<Space>, ghost end: Space)
    returns (sent: Option<ChainOp>)
    requires answers.Ok? ==> LegalPoints(ss, end, c, answers.value)
    ensures sent.Some? <==> answers.Ok? && answers.value[0].Some?
    ensures sent.Some? ==> sent.value.TrimTo? && sent.value.point == TrimPoint(c, answers.value) && Evidence(end, sent.value)
  {
    sent := None;
    if answers.Ok? {
      var point := GetTrimPoint(c, answers.value, ss, end);
      if point != INVALID { sent := Some(TrimTo(point)); }
    }
  }
}
