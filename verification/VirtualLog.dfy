/** The address space of one log: the base LSN of every segment ever created (by segment
    index), the loglet behind each, and the current chain. This module states what ties them
    together and shows that loglet events and chain edits backed by evidence keep it. */
module VirtualLog {
  import opened Outcomes
  import opened Addresses
  import opened Entries
  import opened Chains
  import opened ChainCommands
  import opened Loglets

  datatype Space = Space(bases: seq<Lsn>, loglets: seq<Loglet>)

  datatype Core = Core(chain: Chain, space: Space)

  predicate Known(s: Space, i: int) {
    |s.bases| == |s.loglets| && 0 <= i < |s.loglets|
  }

  /** First LSN after the committed records of segment `i`. */
  function End(s: Space, i: nat): nat
    requires Known(s, i)
  {
    s.bases[i] + s.loglets[i].committed
  }

  predicate Frozen(s: Space, i: nat)
    requires Known(s, i)
  {
    s.loglets[i].frozen
  }

  predicate FullyTrimmed(s: Space, i: nat)
    requires Known(s, i)
  {
    s.loglets[i].trimmed == s.loglets[i].committed
  }

  // ---------------------------------------------------------------- invariant

  /** Segments lie end to end: all but the newest are frozen, and each begins where its
      predecessor's committed records end. */
  ghost predicate Book(s: Space) {
    && |s.bases| == |s.loglets| > 0
    && s.bases[0] == OLDEST
    && (forall i :: 0 <= i < |s.loglets| ==> Valid(s.loglets[i]) && s.bases[i] + |s.loglets[i].log| < LSN_MAX)
    && (forall i, j :: 0 <= i < j < |s.loglets| ==> Frozen(s, i) && End(s, i) <= s.bases[j])
    && (forall i :: 0 <= i < |s.loglets| - 1 ==> End(s, i) == s.bases[i + 1])
  }

  lemma SegmentsAreOrdered(s: Space, i: nat, j: nat)
    requires Book(s) && Known(s, i) && Known(s, j)
    ensures i < j ==> Frozen(s, i) && End(s, i) <= s.bases[j]
    ensures j < i ==> Frozen(s, j) && End(s, j) <= s.bases[i]
    ensures Valid(s.loglets[i]) && Valid(s.loglets[j])
  {
  }

  /** The trimmed addresses are downward closed across segments. */
  ghost predicate TrimClosed(s: Space)
    requires |s.bases| == |s.loglets|
  {
    forall i, j :: 0 <= i < j < |s.loglets| && s.loglets[j].trimmed > 0 ==> FullyTrimmed(s, i)
  }

  predicate EntryFits(s: Space, e: Chains.Entry) {
    && Known(s, e.index)
    && if e.kind == SealMarker
       then Frozen(s, e.index) && e.base == End(s, e.index)
       else e.base == s.bases[e.index]
  }

  predicate LinkFits(s: Space, e: Chains.Entry, f: Chains.Entry) {
    Known(s, e.index) && Frozen(s, e.index) && f.base == End(s, e.index)
  }

  /** Number of segments that lie before the chain's head. */
  function Dropped(c: Chain): nat
    requires |c| > 0
  {
    if c[0].kind == SealMarker then c[0].index + 1 else c[0].index
  }

  /** A version of the chain agrees with the book: bases are the segments' own, every tail is
      the end of a frozen segment, and whatever lies before the head has been trimmed. */
  ghost predicate ChainFits(s: Space, c: Chain) {
    && WellFormed(c)
    && (forall p :: 0 <= p < |c| ==> EntryFits(s, c[p]))
    && (forall p :: 0 <= p < |c| - 1 ==> LinkFits(s, c[p], c[p + 1]))
    && (forall i :: 0 <= i < Dropped(c) ==> Known(s, i) && FullyTrimmed(s, i))
  }

  ghost predicate CoreInv(k: Core) {
    && Book(k.space)
    && TrimClosed(k.space)
    && ChainFits(k.space, k.chain)
    && TailIndex(k.chain) == |k.space.bases| - 1
  }

  /** How the address space may have changed between two observations. */
  ghost predicate Grows(s: Space, t: Space) {
    && |s.bases| == |s.loglets| && |t.bases| == |t.loglets|
    && s.bases <= t.bases
    && (forall i :: 0 <= i < |s.loglets| ==> Le(s.loglets[i], t.loglets[i]))
  }

  lemma GrowsIsTransitive(a: Space, b: Space, c: Space)
    requires Grows(a, b) && Grows(b, c)
    ensures Grows(a, c)
  {
  }

  lemma ChainFitsIsStable(s: Space, t: Space, c: Chain)
    requires Book(s) && Book(t) && Grows(s, t) && ChainFits(s, c)
    ensures ChainFits(t, c)
  {
    assert EntryFits(s, c[0]);
    forall i | 0 <= i < Dropped(c) ensures Known(t, i) && FullyTrimmed(t, i) {
      assert FullyTrimmed(s, i) && (i < c[0].index ==> Frozen(s, i));
      assert Le(s.loglets[i], t.loglets[i]) && Valid(t.loglets[i]);
    }
    forall p | 0 <= p < |c| ensures EntryFits(t, c[p]) {
      assert EntryFits(s, c[p]) && Le(s.loglets[c[p].index], t.loglets[c[p].index]);
    }
    forall p | 0 <= p < |c| - 1 ensures LinkFits(t, c[p], c[p + 1]) {
      assert LinkFits(s, c[p], c[p + 1]) && Le(s.loglets[c[p].index], t.loglets[c[p].index]);
    }
  }

  // ---------------------------------------------------------------- loglet events

  /** An event on loglet `i`. LSNs must still fit, and a trim needs everything before the
      segment to be trimmed already. */
  ghost predicate EventAllowed(s: Space, i: nat, e: Event) {
    && Known(s, i)
    && Enabled(s.loglets[i], e)
    && (e.Enqueue? ==> s.bases[i] + |s.loglets[i].log| + |e.records| < LSN_MAX)
    && (e.TrimLoglet? ==> forall j :: 0 <= j < i ==> FullyTrimmed(s, j))
  }

  function OnLoglet(s: Space, i: nat, e: Event): Space
    requires Known(s, i)
  {
    s.(loglets := s.loglets[i := Happens(s.loglets[i], e)])
  }

  lemma EventKeepsBook(s: Space, i: nat, e: Event)
    requires Book(s) && EventAllowed(s, i, e)
    ensures Book(OnLoglet(s, i, e)) && Grows(s, OnLoglet(s, i, e))
  {
    HappensKeepsContract(s.loglets[i], e);
    var t := OnLoglet(s, i, e);
    forall a, b | 0 <= a < b < |t.loglets| ensures Frozen(t, a) && End(t, a) <= t.bases[b] {
      assert Frozen(s, a) && End(s, a) <= s.bases[b];
    }
    forall a | 0 <= a < |t.loglets| - 1 ensures End(t, a) == t.bases[a + 1] {
      assert Frozen(s, a) && End(s, a) == s.bases[a + 1];
    }
  }

  lemma EventKeepsCore(k: Core, i: nat, e: Event)
    requires CoreInv(k) && EventAllowed(k.space, i, e)
    ensures CoreInv(k.(space := OnLoglet(k.space, i, e))) && Grows(k.space, OnLoglet(k.space, i, e))
  {
    var s := k.space;
    var t := OnLoglet(s, i, e);
    EventKeepsBook(s, i, e);
    ChainFitsIsStable(s, t, k.chain);
    forall a, b | 0 <= a < b < |t.loglets| && t.loglets[b].trimmed > 0 ensures FullyTrimmed(t, a) {
      assert Frozen(s, a);
      assert FullyTrimmed(s, a) by {
        if s.loglets[b].trimmed == 0 { assert b == i && e.TrimLoglet?; }
      }
      assert Le(s.loglets[a], t.loglets[a]) && Valid(t.loglets[a]);
    }
  }

  // ---------------------------------------------------------------- chain edits

  /** Evidence that segment `i` ends at `lsn` for good. */
  predicate EndsAt(s: Space, i: nat, lsn: Lsn) {
    Known(s, i) && Frozen(s, i) && lsn == End(s, i)
  }

  predicate TrimmedPast(s: Space, j: nat, point: Lsn) {
    Known(s, j) && s.loglets[j].trimmed > 0 && point < s.bases[j] + s.loglets[j].trimmed
  }

  /** Evidence that every address up to and including `point` is trimmed. */
  ghost predicate TrimmedThrough(s: Space, point: Lsn) {
    exists j: nat :: TrimmedPast(s, j, point)
  }

  /** What the caller of each command has established before sending it. */
  ghost predicate Evidence(s: Space, op: ChainOp) {
    match op
    case AddLog(_, _) => true
    case Extend(last, base, _, _) => EndsAt(s, last, base)
    case SealChain(last, tail, _) => EndsAt(s, last, tail)
    case TrimTo(point) => TrimmedThrough(s, point)
  }

  lemma EndsAtIsStable(s: Space, t: Space, i: nat, lsn: Lsn)
    requires Grows(s, t) && EndsAt(s, i, lsn)
    ensures EndsAt(t, i, lsn)
  {
  }

  lemma TrimmedThroughIsStable(s: Space, t: Space, point: Lsn)
    requires Grows(s, t) && TrimmedThrough(s, point)
    ensures TrimmedThrough(t, point)
  {
    var j: nat :| TrimmedPast(s, j, point);
    assert Le(s.loglets[j], t.loglets[j]);
    assert TrimmedPast(t, j, point);
  }

  lemma EvidenceIsStable(s: Space, t: Space, op: ChainOp)
    requires Grows(s, t) && Evidence(s, op)
    ensures Evidence(t, op)
  {
    match op
    case AddLog(_, _) =>
    case Extend(last, base, _, _) => EndsAtIsStable(s, t, last, base);
    case SealChain(last, tail, _) => EndsAtIsStable(s, t, last, tail);
    case TrimTo(point) => TrimmedThroughIsStable(s, t, point);
  }

  /** The metadata write that applies one command; a successful extension brings a fresh
      loglet with the next index. */
  function Apply(k: Core, op: ChainOp): Core
    requires |k.chain| > 0
  {
    var (d, answer) := Edit(k.chain, op);
    if op.Extend? && answer.Ok? then Core(d, Space(k.space.bases + [op.base], k.space.loglets + [FRESH]))
    else k.(chain := d)
  }

  lemma ExtendKeepsBook(k: Core, op: ChainOp)
    requires CoreInv(k) && op.Extend? && Evidence(k.space, op) && Edit(k.chain, op).1.Ok?
    ensures Book(Apply(k, op).space) && Grows(k.space, Apply(k, op).space) && TrimClosed(Apply(k, op).space)
  {
    var s, t := k.space, Apply(k, op).space;
    var n := |s.bases|;
    assert op.last == n - 1;
    forall i, j | 0 <= i < j < |t.loglets| ensures Frozen(t, i) && End(t, i) <= t.bases[j] {
      if j == n && i < n - 1 {
        assert Frozen(s, i) && End(s, i) <= s.bases[n - 1];
      } else if j < n {
        assert Frozen(s, i) && End(s, i) <= s.bases[j];
      }
    }
    forall i | 0 <= i < |t.loglets| - 1 ensures End(t, i) == t.bases[i + 1] {
      if i < n - 1 { assert End(s, i) == s.bases[i + 1]; }
    }
    forall i, j | 0 <= i < j < |t.loglets| && t.loglets[j].trimmed > 0 ensures FullyTrimmed(t, i) {
      assert j < n && FullyTrimmed(s, i);
    }
  }

  lemma ExtendKeepsCore(k: Core, op: ChainOp)
    requires CoreInv(k) && op.Extend? && Evidence(k.space, op) && Edit(k.chain, op).1.Ok?
    ensures CoreInv(Apply(k, op)) && Grows(k.space, Apply(k, op).space)
  {
    var c, d := k.chain, Apply(k, op).chain;
    var s, t := k.space, Apply(k, op).space;
    AppendKeepsShape(c, op.base, op.extension, op.extParams);
    ExtendKeepsBook(k, op);
    ChainFitsIsStable(s, t, c);
    forall p | 0 <= p < |d| - 1 ensures EntryFits(t, d[p]) && LinkFits(t, d[p], d[p + 1]) {
      assert EntryFits(t, c[p]);
      if p + 1 < |c| { assert LinkFits(t, c[p], c[p + 1]); }
    }
    assert EntryFits(s, Last(c));
    forall i | 0 <= i < Dropped(d) ensures Known(t, i) && FullyTrimmed(t, i) {
      if i < Dropped(c) {
        assert FullyTrimmed(t, i);
      } else {
        assert |d| == 1 && i == op.last && Last(c) == c[0];
        assert Valid(s.loglets[i]);
      }
    }
  }

  lemma SealKeepsCore(k: Core, op: ChainOp)
    requires CoreInv(k) && op.SealChain? && Evidence(k.space, op) && Edit(k.chain, op).1.Ok?
    ensures CoreInv(Apply(k, op)) && Grows(k.space, Apply(k, op).space)
  {
    var c, d := k.chain, Apply(k, op).chain;
    var s := k.space;
    SealKeepsShape(c, op.tail, op.permanent);
    assert EntryFits(s, Last(c));
    if d != c {
      forall p | 0 <= p < |d| - 1 ensures EntryFits(s, d[p]) && LinkFits(s, d[p], d[p + 1]) {
        assert EntryFits(s, c[p]);
        if p + 1 < |c| { assert LinkFits(s, c[p], c[p + 1]); }
      }
      forall i | 0 <= i < Dropped(d) ensures Known(s, i) && FullyTrimmed(s, i) {
        assert i < Dropped(c) ==> FullyTrimmed(s, i);
        assert Valid(s.loglets[op.last]);
      }
    }
  }

  /** Segments skipped between two neighbours of a chain hold no records. */
  lemma SkippedAreEmpty(s: Space, c: Chain, p: nat, i: nat)
    requires Book(s) && ChainFits(s, c) && p + 1 < |c| && c[p].index < i && Known(s, i)
    requires if c[p + 1].kind == SealMarker then i <= c[p + 1].index else i < c[p + 1].index
    ensures s.loglets[i].committed == 0 && FullyTrimmed(s, i)
  {
    var e, f := c[p], c[p + 1];
    assert LinkFits(s, e, f) && EntryFits(s, f);
    SegmentsAreOrdered(s, e.index, i);
    SegmentsAreOrdered(s, i, f.index);
  }

  /** Everything that ends by a trimmed-through point is fully trimmed. */
  lemma EndedIsTrimmed(s: Space, point: Lsn, i: nat)
    requires Book(s) && TrimClosed(s) && TrimmedThrough(s, point)
    requires Known(s, i) && End(s, i) <= point + 1
    ensures FullyTrimmed(s, i)
  {
    var j: nat :| TrimmedPast(s, j, point);
    SegmentsAreOrdered(s, i, j);
    assert i < j ==> FullyTrimmed(s, i);
  }

  lemma DroppedIsTrimmed(k: Core, point: Lsn, q: nat, i: nat)
    requires CoreInv(k) && TrimmedThrough(k.space, point)
    requires 0 < q < |k.chain| && k.chain[q].base <= NextLsn(point)
    requires Dropped(k.chain) <= i
    requires if k.chain[q].kind == SealMarker then i <= k.chain[q].index else i < k.chain[q].index
    ensures Known(k.space, i) && FullyTrimmed(k.space, i)
  {
    var c, s := k.chain, k.space;
    var e, f := c[q - 1], c[q];
    assert EntryFits(s, f) && EntryFits(s, e) && LinkFits(s, e, f);
    if e.index < i {
      SkippedAreEmpty(s, c, q - 1, i);
    } else {
      SegmentsAreOrdered(s, i, e.index);
      EndedIsTrimmed(s, point, i);
    }
  }

  lemma SuffixFits(s: Space, c: Chain, q: nat)
    requires q < |c|
    requires forall p :: 0 <= p < |c| ==> EntryFits(s, c[p])
    requires forall p :: 0 <= p < |c| - 1 ==> LinkFits(s, c[p], c[p + 1])
    ensures var d := c[q..];
            && (forall p :: 0 <= p < |d| ==> EntryFits(s, d[p]))
            && (forall p :: 0 <= p < |d| - 1 ==> LinkFits(s, d[p], d[p + 1]))
  {
  }

  lemma TrimmedChainFits(k: Core, point: Lsn, q: nat)
    requires CoreInv(k) && TrimmedThrough(k.space, point)
    requires q < |k.chain| && (q > 0 ==> k.chain[q].base <= NextLsn(point))
    requires WellFormed(k.chain[q..])
    ensures ChainFits(k.space, k.chain[q..])
  {
    var d := k.chain[q..];
    SuffixFits(k.space, k.chain, q);
    assert d[0] == k.chain[q];
    forall i | 0 <= i < Dropped(d) ensures Known(k.space, i) && FullyTrimmed(k.space, i) {
      if i >= Dropped(k.chain) { DroppedIsTrimmed(k, point, q, i); }
    }
  }

  lemma TrimPrefixFits(k: Core, point: Lsn)
    requires CoreInv(k) && TrimmedThrough(k.space, point)
    ensures ChainFits(k.space, TrimPrefix(k.chain, NextLsn(point)))
    ensures TailIndex(TrimPrefix(k.chain, NextLsn(point))) == TailIndex(k.chain)
  {
    var p := LastAtOrBelow(k.chain, NextLsn(point));
    TrimKeepsShape(k.chain, NextLsn(point));
    if p >= 0 { TrimmedChainFits(k, point, p); }
  }

  /** A command backed by its evidence keeps the address space consistent: no segment moves,
      no committed record leaves its interval, and only trimmed segments leave the chain. */
  lemma ApplyKeepsCore(k: Core, op: ChainOp)
    requires CoreInv(k) && Evidence(k.space, op)
    ensures CoreInv(Apply(k, op)) && Grows(k.space, Apply(k, op).space)
  {
    match op
    case AddLog(_, _) =>
    case Extend(_, _, _, _) => if Edit(k.chain, op).1.Ok? { ExtendKeepsCore(k, op); }
    case SealChain(_, _, _) => if Edit(k.chain, op).1.Ok? { SealKeepsCore(k, op); }
    case TrimTo(point) => TrimPrefixFits(k, point);
  }

  /** A coalesced batch of commands, in order. */
  function ApplyAll(k: Core, ops: seq<ChainOp>): Core
    requires WellFormed(k.chain)
    decreases |ops|
  {
    if ops == [] then k
    else
      EditKeepsShape(k.chain, ops[0]);
      ApplyAll(Apply(k, ops[0]), ops[1..])
  }

  lemma {:induction false} ApplyAllKeepsCore(k: Core, ops: seq<ChainOp>)
    requires CoreInv(k) && forall op :: op in ops ==> Evidence(k.space, op)
    ensures CoreInv(ApplyAll(k, ops)) && Grows(k.space, ApplyAll(k, ops).space)
    ensures Stage(k.chain) <= Stage(ApplyAll(k, ops).chain)
    ensures TailIndex(k.chain) <= TailIndex(ApplyAll(k, ops).chain)
    ensures k.chain[0].base <= ApplyAll(k, ops).chain[0].base
    decreases |ops|
  {
    if ops != [] {
      ApplyKeepsCore(k, ops[0]);
      EditKeepsShape(k.chain, ops[0]);
      var m := Apply(k, ops[0]);
      forall op | op in ops[1..] ensures Evidence(m.space, op) { EvidenceIsStable(k.space, m.space, op); }
      ApplyAllKeepsCore(m, ops[1..]);
      GrowsIsTransitive(k.space, m.space, ApplyAll(m, ops[1..]).space);
    }
  }

  // ---------------------------------------------------------------- what an address holds

  /** Every address below the end of segment `n` belongs to one of the first segments. */
  lemma {:induction false} Locate(s: Space, lsn: Lsn, n: nat) returns (i: nat)
    requires Book(s) && Known(s, n) && OLDEST <= lsn < End(s, n)
    ensures i <= n && s.bases[i] <= lsn < End(s, i)
  {
    if s.bases[n] <= lsn {
      i := n;
    } else {
      assert End(s, n - 1) == s.bases[n];
      i := Locate(s, lsn, n - 1);
    }
  }

  /** Segment `i` holds the committed record `r` at an address, whatever the chain version. */
  predicate Holds(s: Space, lsn: Lsn, i: nat, r: Record) {
    && Known(s, i)
    && s.bases[i] <= lsn < End(s, i)
    && s.loglets[i].committed <= |s.loglets[i].log|
    && s.loglets[i].log[lsn - s.bases[i]] == r
  }

  /** (segment, offset) to LSN is injective, so an address holds one record of one segment. */
  lemma HoldsIsUnique(s: Space, lsn: Lsn, i: nat, r: Record, j: nat, q: Record)
    requires Book(s) && Holds(s, lsn, i, r) && Holds(s, lsn, j, q)
    ensures i == j && r == q
  {
  }

  lemma HoldsIsStable(s: Space, t: Space, lsn: Lsn, i: nat, r: Record)
    requires Book(t) && Grows(s, t) && Holds(s, lsn, i, r)
    ensures Holds(t, lsn, i, r)
  {
  }

  /** A chain version whose range still covers the address finds the segment that holds it. */
  lemma ChainFindsHolder(s: Space, c: Chain, lsn: Lsn, i: nat, r: Record)
    requires Book(s) && ChainFits(s, c) && Holds(s, lsn, i, r)
    requires c[0].base <= lsn && i <= TailIndex(c)
    ensures FindSegment(c, lsn).Found?
    ensures var g := FindSegment(c, lsn).segment;
            g.index == i && g.kind != SealMarker && g.base == s.bases[i] && (g.tail.Some? ==> g.tail.value == End(s, i))
  {
  }
}
