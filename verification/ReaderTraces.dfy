/** What a reader leaves behind: every turn delivers committed records, real trims and nothing
    else, and the stretches it has passed tile the log from its start to its read pointer. */
module ReaderTraces {
  import opened Outcomes
  import opened Addresses
  import opened Entries
  import opened Chains
  import opened Loglets
  import opened VirtualLog
  import opened ReadStreams
  import opened Readers

  // ---------------------------------------------------------------- one turn

  predicate Ended(t: Stream) { t.readPointer == LSN_MAX || t.readPointer > t.endLsn }

  lemma TurnUnfolds(h: seq<LiveChain>, r: Reader, o: Sight)
    requires 1 <= o.version <= |h| && o.chain == Some(h[o.version - 1]) && !Ended(r.stream)
    ensures TurnOf(r.stream, o) == StateTurn(Updated(r, o).stream, Placed(h, r, o), TailIndex(h[o.version - 1]), o, false)
  {
  }

  /** Every turn keeps the stream's invariant and never moves its read pointer back. */
  lemma StepKeepsStream(s: Space, h: seq<LiveChain>, r: Reader, o: Sight)
    requires World(s, h) && StreamInv(s, h, r) && Legal(s, h, r, o)
    ensures StreamInv(s, h, Step(r, o))
    ensures Step(r, o).stream.readPointer >= r.stream.readPointer
    ensures Step(r, o).stream.filter == r.stream.filter && Step(r, o).stream.endLsn == r.stream.endLsn
  {
    TurnSees(s, h, r, o);
    if Ended(r.stream) {
      EndedKeeps(s, h, Updated(r, o), o.newest);
    } else {
      LookupIsOk(s, h[o.version - 1], r.stream.readPointer);
      SightKeeps(s, h, r, o);
    }
  }

  lemma SightKeeps(s: Space, h: seq<LiveChain>, r: Reader, o: Sight)
    requires 1 <= o.version <= o.newest <= |h| && o.chain == Some(h[o.version - 1]) && !Ended(r.stream)
    requires StreamInv(s, h, Updated(r, o)) && (Placed(h, r, o).Found? ==> h[o.version - 1][0].base <= r.stream.readPointer)
    requires Sees(s, NodeTail(h, o.newest), r.start, Updated(r, o).stream, Placed(h, r, o), TailIndex(h[o.version - 1]), o)
    ensures StreamInv(s, h, Step(r, o))
    ensures Step(r, o).stream.readPointer >= r.stream.readPointer
    ensures Step(r, o).stream.filter == r.stream.filter && Step(r, o).stream.endLsn == r.stream.endLsn
  {
    var u := Updated(r, o);
    var m, tail := Placed(h, r, o), TailIndex(h[o.version - 1]);
    TurnUnfolds(h, r, o);
    StateTurnKeeps(s, NodeTail(h, u.node), r.start, u.stream, m, tail, o);
    TrimCheckKept(u.stream, m, tail, o);
    TurnKeepsInv(s, h, u, o, TurnOf(r.stream, o), Step(r, o));
  }

  /** When the next turn panics: a start too far past its base, or polling a metadata watch that has
      already reported shutdown and was not replaced because no newer version was seen. */
  predicate Panics(h: seq<LiveChain>, r: Reader, o: Sight)
    requires 1 <= o.version <= |h|
  {
    && !Ended(r.stream)
    && (|| TooFar(r.stream)
        || (ShutDown(r.stream) && o.version <= r.stream.checkedVersion &&
            PollsWatch(r.stream, Placed(h, r, o), TailIndex(h[o.version - 1]), o)))
  }

  /** A turn panics exactly then; before a shutdown error only for a start too far. */
  lemma PanicsIff(s: Space, h: seq<LiveChain>, r: Reader, o: Sight)
    requires World(s, h) && StreamInv(s, h, r) && Legal(s, h, r, o)
    ensures OutcomeOf(TurnOf(r.stream, o)) == Some(Panicked) <==> Panics(h, r, o)
    ensures TooFar(r.stream) ==> r.stream.readPointer == r.start
  {
    TurnSees(s, h, r, o);
    var t, m, tail := Updated(r, o).stream, Placed(h, r, o), TailIndex(h[o.version - 1]);
    StatePanicsIff(s, NodeTail(h, o.newest), r.start, t, m, tail, o);
    if !Ended(r.stream) { TurnUnfolds(h, r, o); }
  }

  lemma EndedKeeps(s: Space, h: seq<LiveChain>, r: Reader, since: nat)
    requires StreamInv(s, h, r) && since <= r.node
    ensures StreamInv(s, h, r.(since := since, stream := r.stream.(state := Terminated)))
  {
  }

  /** A turn that keeps what concerns one turn keeps the whole invariant. */
  lemma TurnKeepsInv(s: Space, h: seq<LiveChain>, r: Reader, o: Sight, turn: Turn<Stream, Outcome>, q: Reader)
    requires StreamInv(s, h, r) && 1 <= o.version <= r.node
    requires q.stream == turn.state && q.node == r.node && q.start == r.start
    requires q.since == if StillLooking(r.stream, turn.state) then r.since else r.node
    requires Kept(s, NodeTail(h, r.node), r.start, r.stream, turn)
    requires var u := turn.state;
             u.state.Reading? && u.state.trimChecked > 0 ==>
               || (u.state.trimChecked == o.version && h[o.version - 1][0].base <= r.stream.readPointer)
               || (r.stream.state.Reading? && u.state.trimChecked == r.stream.state.trimChecked)
    ensures StreamInv(s, h, q)
  {
  }

  /** Searching the chain only when the logs version has changed gives exactly the turns of a
      reader that searches it every time. */
  lemma CheckingOncePerVersionSuffices(s: Space, h: seq<LiveChain>, r: Reader, o: Sight)
    requires World(s, h) && StreamInv(s, h, r) && Legal(s, h, r, o)
    ensures TurnOf(r.stream, o) == PlainTurn(r.stream, o)
  {
  }

  /** A stream that waits for reconfiguration always finds the chain reconfigured. */
  lemma ReconfigurationIsVisible(s: Space, h: seq<LiveChain>, r: Reader, o: Sight)
    requires World(s, h) && StreamInv(s, h, r) && Legal(s, h, r, o)
    requires r.stream.state.AwaitingReconfiguration?
    ensures var g := r.stream.substream.value.segment;
            !CheckChain(Placed(h, r, o), g.index, g.kind).NoChange?
  {
  }

  // ---------------------------------------------------------------- what is left behind

  predicate IsWide(c: Cover) { c.Delivered? && IsWideGap(c.entry) }

  ghost predicate NoneWide(cs: seq<Cover>) { forall c :: c in cs ==> !IsWide(c) }

  ghost predicate Unmatched(s: Space, f: KeyFilter, x: int) { exists i: nat :: NonMatching(s, f, i, x) }

  ghost predicate HasRecord(s: Space, x: Lsn, r: Record) { exists i: nat :: Holds(s, x, i, r) }

  /** Segment `i` has a committed record at `x`. */
  predicate CommittedAt(s: Space, i: nat, x: int) { Known(s, i) && s.bases[i] <= x < End(s, i) }

  /** A delivered entry tells the truth: its record is the committed one and matches, trim gaps cover
      trimmed addresses, and other gaps cover committed addresses, filtered ones unmatched records. */
  ghost predicate Truthful(s: Space, f: KeyFilter, e: Entries.Entry) {
    && OLDEST <= e.seqno <= To(e) < LSN_MAX
    && match e.payload
       case Data(r) => HasRecord(s, e.seqno, r) && Matches(r.keys, f)
       case TrimGap(to) => forall x {:trigger AddressTrimmed(s, x)} :: e.seqno <= x <= to ==> AddressTrimmed(s, x)
       case Filtered(to) => forall x {:trigger Unmatched(s, f, x)} :: e.seqno <= x <= to ==> Unmatched(s, f, x)
       case DataLoss(to) => exists i: nat :: CommittedAt(s, i, e.seqno) && CommittedAt(s, i, to)
  }

  ghost predicate CoverSound(s: Space, f: KeyFilter, c: Cover) {
    && From(c) <= UpTo(c)
    && (c.Delivered? ==> Truthful(s, f, c.entry))
  }

  predicate In(c: Cover, x: int) { From(c) <= x <= UpTo(c) }

  /** A data-loss gap over the address was handed out. */
  ghost predicate LossReported(cs: seq<Cover>, x: int) {
    exists k :: 0 <= k < |cs| && cs[k].Delivered? && cs[k].entry.payload.DataLoss? && In(cs[k], x)
  }

  /** Why an address may be passed over in silence: its record does not match, or its loss was reported. */
  ghost predicate Explained(s: Space, f: KeyFilter, past: seq<Cover>, x: int) {
    Unmatched(s, f, x) || LossReported(past, x)
  }

  ghost predicate AllExplained(s: Space, f: KeyFilter, past: seq<Cover>, from: int, to: int) {
    forall x {:trigger Explained(s, f, past, x)} :: from <= x < to ==> Explained(s, f, past, x)
  }

  lemma ExplainedGrows(s: Space, f: KeyFilter, past: seq<Cover>, more: seq<Cover>, from: int, to: int)
    requires AllExplained(s, f, past, from, to)
    ensures AllExplained(s, f, past + more, from, to)
  {
    forall x | from <= x < to ensures Explained(s, f, past + more, x) {
      assert Explained(s, f, past, x);
      if !Unmatched(s, f, x) {
        var k :| 0 <= k < |past| && past[k].Delivered? && past[k].entry.payload.DataLoss? && In(past[k], x);
        assert (past + more)[k] == past[k];
      }
    }
  }

  lemma UnmatchedIsExplained(s: Space, f: KeyFilter, past: seq<Cover>, from: int, mid: int, to: int)
    requires AllExplained(s, f, past, from, mid) && AllUnmatched(s, f, mid, to)
    ensures AllExplained(s, f, past, from, to)
  {
    forall x | from <= x < to ensures Explained(s, f, past, x) { assert x < mid || Unmatched(s, f, x); }
  }

  /** Every address skipped without an entry is explained. */
  ghost predicate SkipSound(s: Space, f: KeyFilter, past: seq<Cover>, c: Cover) {
    c.Skipped? ==> AllExplained(s, f, past, c.from, c.to + 1)
  }

  /** Each stretch starts where the read pointer stood after the one before. */
  predicate Chained(a: int, cs: seq<Cover>, b: int) {
    if cs == [] then a == b
    else Chained(a, cs[..|cs| - 1], From(cs[|cs| - 1])) && Advance(cs[|cs| - 1]) == b
  }

  /** Every address between the read pointer and the inner stream is explained. */
  ghost predicate Exact(s: Space, past: seq<Cover>, t: Stream) {
    t.substream.Some? && t.substream.value.segment.kind != SealMarker ==>
      AllExplained(s, t.filter, past, t.readPointer, InnerLsn(t.substream.value))
  }

  ghost predicate CoversOk(s: Space, past: seq<Cover>, t: Stream, turn: Turn<Stream, Outcome>) {
    var cs := Covers(t, turn);
    && Chained(t.readPointer, cs, turn.state.readPointer)
    && (forall c :: c in cs ==> CoverSound(s, t.filter, c))
    && (Exact(s, past, t) ==> forall c :: c in cs ==> SkipSound(s, t.filter, past, c))
    && (Exact(s, past, t) ==> Exact(s, past + cs, turn.state))
  }

  lemma StandingStill(s: Space, past: seq<Cover>, t: Stream, turn: Turn<Stream, Outcome>)
    requires turn.state.readPointer == t.readPointer && turn.state.filter == t.filter
    requires turn.state.substream.None? || (t.substream.Some? &&
               InnerLsn(turn.state.substream.value) == InnerLsn(t.substream.value) &&
               turn.state.substream.value.segment.kind == t.substream.value.segment.kind)
    ensures CoversOk(s, past, t, turn)
  {
    assert past + Covers(t, turn) == past;
  }

  lemma GapCovers(s: Space, past: seq<Cover>, t: Stream, nextBase: Lsn)
    requires OLDEST <= t.readPointer < nextBase < LSN_MAX
    requires TrimmedBelow(s, Trim(nextBase))
    ensures CoversOk(s, past, t, DeliverTrimGap(t, nextBase))
  {
    var e := Entries.Entry(t.readPointer, TrimGap(PrevLsn(nextBase)));
    assert Covers(t, DeliverTrimGap(t, nextBase)) == [Delivered(e)] && [Delivered(e)][..0] == [];
    assert Truthful(s, t.filter, e);
  }

  // ---------------------------------------------------------------- what one turn covers

  lemma MovingOn(s: Space, past: seq<Cover>, t: Stream, turn: Turn<Stream, Outcome>)
    requires turn.state.readPointer == t.readPointer && turn.state.substream.Some? && turn.state.filter == t.filter
    requires t.substream.Some? && t.substream.value.segment.kind != SealMarker ==>
               var sub, now := t.substream.value, turn.state.substream.value;
               now.segment.kind == sub.segment.kind && AllUnmatched(s, t.filter, InnerLsn(sub), InnerLsn(now))
    requires t.substream.None? || t.substream.value.segment.kind == SealMarker ==>
               var now := turn.state.substream.value;
               now.segment.kind == SealMarker || InnerLsn(now) <= t.readPointer
    ensures CoversOk(s, past, t, turn)
  {
    assert past + Covers(t, turn) == past;
    if Exact(s, past, t) && t.substream.Some? && t.substream.value.segment.kind != SealMarker {
      var sub, now := t.substream.value, turn.state.substream.value;
      UnmatchedIsExplained(s, t.filter, past, t.readPointer, InnerLsn(sub), InnerLsn(now));
    }
  }

  /** Records the inner stream drops by itself are unmatched. */
  lemma DroppedAreUnmatched(s: Space, f: KeyFilter, sub: Substream, o: Sight)
    requires Known(s, sub.segment.index) && LegalRecord(s, f, sub, o) && sub.segment.base == s.bases[sub.segment.index]
    ensures AllUnmatched(s, f, InnerLsn(sub), sub.segment.base + o.skipTo - 1)
  {
    forall x | InnerLsn(sub) <= x < sub.segment.base + o.skipTo - 1 ensures Unmatched(s, f, x) {
      assert NonMatching(s, f, sub.segment.index, x);
    }
  }

  /** An entry of a loglet, shifted to LSNs, is truthful. */
  lemma EntryIsTruthful(s: Space, t: Stream, o: Sight)
    requires t.substream.Some? && o.record.InnerEntry? && t.readPointer >= OLDEST
    requires LegalSubstream(s, t.filter, t.substream.value, o) && SubOk(s, t.substream.value, t.readPointer)
    requires SegmentBounds(s, t.substream.value.segment.index, t.substream.value.segment.index)
    requires o.record.entry.payload.Data? ==> Matches(o.record.entry.payload.record.keys, t.filter)
    ensures WithBaseLsn(o.record.entry, t.substream.value.segment.base).Some?
    ensures Truthful(s, t.filter, WithBaseLsn(o.record.entry, t.substream.value.segment.base).value)
  {
    EntryFacts(s, t.substream.value, t.readPointer, t.filter, o);
    var i := t.substream.value.segment.index;
    var g := WithBaseLsn(o.record.entry, t.substream.value.segment.base).value;
    match g.payload
    case Data(r) => assert Holds(s, g.seqno, i, r);
    case TrimGap(to) =>
      forall x | g.seqno <= x <= to ensures AddressTrimmed(s, x) { assert TrimmedAt(s, i, x); }
    case Filtered(to) =>
      forall x | g.seqno <= x <= to ensures Unmatched(s, t.filter, x) { assert NonMatching(s, t.filter, i, x); }
    case DataLoss(to) => assert CommittedAt(s, i, g.seqno) && CommittedAt(s, i, to);
  }

  /** The sights of a turn also say that what lies below a chain's head is trimmed. */
  ghost predicate SeesTrims(s: Space, m: MaybeSegment, o: Sight) {
    && TrimmedBelow(s, m)
    && (o.find.Ready? && o.find.output.Ok? ==> TrimmedBelow(s, o.find.output.value))
  }

  /** All of `[from, to)` holds unmatched records. */
  ghost predicate AllUnmatched(s: Space, f: KeyFilter, from: int, to: int) {
    forall x {:trigger Unmatched(s, f, x)} :: from <= x < to ==> Unmatched(s, f, x)
  }

  /** What a delivered entry leaves between the pointers is explained by the entry itself. */
  lemma EntryExplainsItself(s: Space, past: seq<Cover>, f: KeyFilter, g: Entries.Entry)
    requires Truthful(s, f, g)
    ensures AllExplained(s, f, past + [Delivered(g)], Advance(Delivered(g)), To(g) + 1)
  {
    var cs := past + [Delivered(g)];
    forall x | Advance(Delivered(g)) <= x <= To(g) ensures Explained(s, f, cs, x) {
      if g.payload.DataLoss? { assert cs[|past|] == Delivered(g) && In(cs[|past|], x); }
      else { assert Unmatched(s, f, x); }
    }
  }

  lemma DeliveryCovers(s: Space, past: seq<Cover>, t: Stream, u: Stream, g: Entries.Entry)
    requires t.readPointer <= g.seqno && u.readPointer == Advance(Delivered(g)) && u.filter == t.filter
    requires u.substream.Some? && InnerLsn(u.substream.value) == To(g) + 1
    requires Truthful(s, t.filter, g)
    requires Exact(s, past, t) ==> AllExplained(s, t.filter, past, t.readPointer, g.seqno)
    ensures CoversOk(s, past, t, Return(u, Item(g)))
  {
    var cs := Covers(t, Return(u, Item(g)));
    assert cs[|cs| - 1] == Delivered(g);
    if t.readPointer < g.seqno {
      var skipped := [Skipped(t.readPointer, g.seqno - 1)];
      assert cs[..1] == skipped && skipped[..0] == [];
      assert past + cs == (past + skipped) + [Delivered(g)];
      EntryExplainsItself(s, past + skipped, t.filter, g);
    } else {
      assert cs[..0] == [];
      EntryExplainsItself(s, past, t.filter, g);
    }
  }

  lemma PassingCovers(s: Space, past: seq<Cover>, t: Stream, u: Stream)
    requires t.readPointer < u.readPointer && u.filter == t.filter
    requires u.substream.Some? && InnerLsn(u.substream.value) == u.readPointer
    requires Exact(s, past, t) ==> AllExplained(s, t.filter, past, t.readPointer, u.readPointer)
    ensures CoversOk(s, past, t, Again(u))
  {
  }

  /** Every address before the position the inner stream reaches is explained. */
  lemma ExplainedUpToEntry(s: Space, past: seq<Cover>, t: Stream, o: Sight)
    requires t.substream.Some? && t.substream.value.segment.kind != SealMarker
    requires LegalSubstream(s, t.filter, t.substream.value, o) && SubOk(s, t.substream.value, t.readPointer)
    ensures Exact(s, past, t) ==>
              AllExplained(s, t.filter, past, t.readPointer, t.substream.value.segment.base + o.skipTo - 1)
  {
    var sub := t.substream.value;
    DroppedAreUnmatched(s, t.filter, sub, o);
    if Exact(s, past, t) {
      UnmatchedIsExplained(s, t.filter, past, t.readPointer, InnerLsn(sub), sub.segment.base + o.skipTo - 1);
    }
  }

  lemma EntryCovers(s: Space, past: seq<Cover>, t: Stream, o: Sight)
    requires t.substream.Some? && o.record.InnerEntry? && t.readPointer >= OLDEST
    requires LegalSubstream(s, t.filter, t.substream.value, o) && SubOk(s, t.substream.value, t.readPointer)
    requires SegmentBounds(s, t.substream.value.segment.index, t.substream.value.segment.index)
    requires SubstreamTurn(t, o).state.readPointer > t.readPointer
    ensures CoversOk(s, past, t, SubstreamTurn(t, o))
  {
    var sub, e := t.substream.value, o.record.entry;
    EntryFacts(s, sub, t.readPointer, t.filter, o);
    ExplainedUpToEntry(s, past, t, o);
    var g := WithBaseLsn(e, sub.segment.base).value;
    var u := AfterEntry(t, e, g);
    if g.payload.Data? && !Matches(g.payload.record.keys, t.filter) {
      assert NonMatching(s, t.filter, sub.segment.index, g.seqno);
      assert Unmatched(s, t.filter, g.seqno);
      if Exact(s, past, t) { UnmatchedIsExplained(s, t.filter, past, t.readPointer, g.seqno, g.seqno + 1); }
      assert SubstreamTurn(t, o) == Again(u);
      PassingCovers(s, past, t, u);
    } else {
      EntryIsTruthful(s, t, o);
      assert SubstreamTurn(t, o) == Return(u, Item(g));
      DeliveryCovers(s, past, t, u, g);
    }
  }

  lemma SubstreamCovers(s: Space, past: seq<Cover>, n: int, start: Lsn, t: Stream, o: Sight)
    requires LocalInv(s, n, start, t) && t.substream.Some?
    requires LegalSubstream(s, t.filter, t.substream.value, o)
    requires SegmentBounds(s, t.substream.value.segment.index, t.substream.value.segment.index)
    ensures CoversOk(s, past, t, SubstreamTurn(t, o))
  {
    var sub, turn := t.substream.value, SubstreamTurn(t, o);
    if turn.state.readPointer > t.readPointer {
      EntryCovers(s, past, t, o);
    } else if o.record.InnerPending? && turn.state.substream.Some? {
      if sub.segment.kind != SealMarker { DroppedAreUnmatched(s, t.filter, sub, o); }
      MovingOn(s, past, t, turn);
    } else {
      StandingStill(s, past, t, turn);
    }
  }

  lemma SameCovers(s: Space, past: seq<Cover>, u: Stream, t: Stream, turn: Turn<Stream, Outcome>)
    requires CoversOk(s, past, u, turn)
    requires u.readPointer == t.readPointer && u.filter == t.filter && u.substream == t.substream
    ensures CoversOk(s, past, t, turn)
  {
    assert Covers(u, turn) == Covers(t, turn);
  }

  lemma TailCovers(s: Space, past: seq<Cover>, n: int, start: Lsn, t: Stream, tail: nat, o: Sight)
    requires LocalInv(s, n, start, t) && t.state.Reading?
    requires LegalSubstream(s, t.filter, t.substream.value, o)
    requires SegmentBounds(s, t.substream.value.segment.index, t.substream.value.segment.index)
    ensures CoversOk(s, past, t, TailTurn(t, tail, o))
  {
    var turn := TailTurn(t, tail, o);
    if turn.state.readPointer == t.readPointer && (turn.state.substream == t.substream || turn.state.substream.None?) {
      StandingStill(s, past, t, turn);
    } else {
      var u := t.(state := t.state.(safeKnownTail := WatchedTail(t.substream.value.segment, o.tail.output.value)));
      assert turn == SubstreamTurn(u, o);
      SubstreamCovers(s, past, n, start, u, o);
      SameCovers(s, past, u, t, turn);
    }
  }

  lemma LiveCovers(s: Space, past: seq<Cover>, n: int, start: Lsn, t: Stream, tail: nat, o: Sight)
    requires LocalInv(s, n, start, t) && t.state.Reading?
    requires LegalSubstream(s, t.filter, t.substream.value, o)
    requires SegmentBounds(s, t.substream.value.segment.index, t.substream.value.segment.index)
    ensures CoversOk(s, past, t, LiveTurn(t, tail, o))
  {
    SubstreamCovers(s, past, n, start, t, o);
    TailCovers(s, past, n, start, t, tail, o);
    if t.substream.value.segment.tail.Some? && t.readPointer >= t.substream.value.segment.tail.value {
      StandingStill(s, past, t, LiveTurn(t, tail, o));
    }
  }

  lemma ReadingCovers(s: Space, past: seq<Cover>, n: int, start: Lsn, t: Stream, m: MaybeSegment, tail: nat, o: Sight)
    requires LocalInv(s, n, start, t) && Sees(s, n, start, t, m, tail, o) && SeesTrims(s, m, o) && t.state.Reading?
    ensures CoversOk(s, past, t, ReadingTurn(t, m, tail, o, false))
  {
    if t.state.trimChecked == o.version {
      LiveCovers(s, past, n, start, t, tail, o);
    } else if m.Found? {
      var u := t.(state := t.state.(trimChecked := o.version));
      LiveCovers(s, past, n, start, u, tail, o);
      SameCovers(s, past, u, t, LiveTurn(u, tail, o));
    } else {
      GapCovers(s, past, t, m.nextBase);
    }
  }

  lemma StalledCovers(s: Space, past: seq<Cover>, n: int, start: Lsn, t: Stream, m: MaybeSegment, tail: nat, o: Sight)
    requires LocalInv(s, n, start, t) && Sees(s, n, start, t, m, tail, o) && SeesTrims(s, m, o)
    requires t.state.AwaitingReconfiguration? || t.state.AwaitingOrSealChain?
    ensures CoversOk(s, past, t, StalledTurn(t, m, o))
  {
    if m.Trim? { GapCovers(s, past, t, m.nextBase); } else { StandingStill(s, past, t, StalledTurn(t, m, o)); }
  }

  lemma StateCovers(s: Space, past: seq<Cover>, n: int, start: Lsn, t: Stream, m: MaybeSegment, tail: nat, o: Sight)
    requires LocalInv(s, n, start, t) && Sees(s, n, start, t, m, tail, o) && SeesTrims(s, m, o)
    ensures CoversOk(s, past, t, StateTurn(t, m, tail, o, false))
  {
    match t.state
    case Reading(_, _, _) => ReadingCovers(s, past, n, start, t, m, tail, o);
    case AwaitingReconfiguration => StalledCovers(s, past, n, start, t, m, tail, o);
    case AwaitingOrSealChain => StalledCovers(s, past, n, start, t, m, tail, o);
    case FindingLoglet =>
      if o.find.Ready? && o.find.output.Ok? && o.find.output.value.Trim? { GapCovers(s, past, t, o.find.output.value.nextBase); }
      else { StandingStill(s, past, t, FindTurn(t, o)); }
    case CreatingSubstream(_) =>
      if CreateTurn(t, o).state.substream.Some? { MovingOn(s, past, t, CreateTurn(t, o)); }
      else { StandingStill(s, past, t, CreateTurn(t, o)); }
    case _ => StandingStill(s, past, t, StateTurn(t, m, tail, o, false));
  }

  // ---------------------------------------------------------------- traces

  /** What holds of a reader's whole past: its stretches chain from the start to the read pointer and
      tell the truth, and whatever was passed over in silence, or lies between the two pointers, is
      unmatched or was reported lost. */
  ghost predicate TraceInv(s: Space, r: Reader) {
    && Chained(r.start, r.trace, r.stream.readPointer)
    && (forall c :: c in r.trace ==> CoverSound(s, r.stream.filter, c) && SkipSound(s, r.stream.filter, r.trace, c))
    && Exact(s, r.trace, r.stream)
  }

  lemma {:induction false} ChainedConcat(a: int, cs: seq<Cover>, b: int, ds: seq<Cover>, c: int)
    requires Chained(a, cs, b) && Chained(b, ds, c)
    ensures Chained(a, cs + ds, c)
    decreases |ds|
  {
    if ds == [] {
      assert cs + ds == cs;
    } else {
      var n := |ds| - 1;
      ChainedConcat(a, cs, b, ds[..n], From(ds[n]));
      assert (cs + ds)[..|cs + ds| - 1] == cs + ds[..n];
    }
  }

  lemma WorldGivesTrims(s: Space, h: seq<LiveChain>, r: Reader, o: Sight)
    requires World(s, h) && r.stream.readPointer >= OLDEST && 1 <= o.version <= o.newest <= |h| && LegalLookup(h, r, o)
    ensures SeesTrims(s, Placed(h, r, o), o)
  {
    LookupPassesTrimmed(s, h[o.version - 1], r.stream.readPointer);
    if o.find.Ready? && o.find.output.Ok? { LookupPassesTrimmed(s, h[o.lookup - 1], r.stream.readPointer); }
  }

  lemma SightCovers(s: Space, h: seq<LiveChain>, r: Reader, o: Sight)
    requires 1 <= o.version <= o.newest <= |h| && o.chain == Some(h[o.version - 1]) && !Ended(r.stream)
    requires LocalInv(s, NodeTail(h, o.newest), r.start, Updated(r, o).stream) && SeesTrims(s, Placed(h, r, o), o)
    requires Sees(s, NodeTail(h, o.newest), r.start, Updated(r, o).stream, Placed(h, r, o), TailIndex(h[o.version - 1]), o)
    ensures CoversOk(s, r.trace, r.stream, TurnOf(r.stream, o))
  {
    var t, m, tail := Updated(r, o).stream, Placed(h, r, o), TailIndex(h[o.version - 1]);
    TurnUnfolds(h, r, o);
    StateCovers(s, r.trace, NodeTail(h, o.newest), r.start, t, m, tail, o);
    SameCovers(s, r.trace, t, r.stream, StateTurn(t, m, tail, o, false));
  }

  lemma TurnCovers(s: Space, h: seq<LiveChain>, r: Reader, o: Sight)
    requires World(s, h) && StreamInv(s, h, r) && Legal(s, h, r, o)
    ensures CoversOk(s, r.trace, r.stream, TurnOf(r.stream, o))
  {
    if Ended(r.stream) {
      StandingStill(s, r.trace, r.stream, TurnOf(r.stream, o));
    } else {
      TurnSees(s, h, r, o);
      WorldGivesTrims(s, h, r, o);
      SightCovers(s, h, r, o);
    }
  }

  /** Every turn keeps the trace truthful. */
  lemma StepKeepsTrace(s: Space, h: seq<LiveChain>, r: Reader, o: Sight)
    requires World(s, h) && StreamInv(s, h, r) && Legal(s, h, r, o) && TraceInv(s, r)
    ensures TraceInv(s, Step(r, o))
  {
    TurnCovers(s, h, r, o);
    StepKeepsStream(s, h, r, o);
    TraceGrows(s, r, TurnOf(r.stream, o), Step(r, o));
  }

  lemma TraceGrows(s: Space, r: Reader, turn: Turn<Stream, Outcome>, q: Reader)
    requires TraceInv(s, r) && CoversOk(s, r.trace, r.stream, turn)
    requires q.stream == turn.state && q.start == r.start && q.trace == r.trace + Covers(r.stream, turn)
    requires q.stream.filter == r.stream.filter
    ensures TraceInv(s, q)
  {
    var cs := Covers(r.stream, turn);
    ChainedConcat(r.start, r.trace, r.stream.readPointer, cs, turn.state.readPointer);
    forall c | c in q.trace ensures SkipSound(s, r.stream.filter, q.trace, c) {
      assert SkipSound(s, r.stream.filter, r.trace, c);
      if c.Skipped? { ExplainedGrows(s, r.stream.filter, r.trace, cs, c.from, c.to + 1); }
    }
  }

  // ---------------------------------------------------------------- exactly once

  /** The stretches lie end to end from `a` and cover `[a, b)`. */
  predicate Tiles(a: int, cs: seq<Cover>, b: int) {
    if cs == [] then a == b
    else Tiles(a, cs[..|cs| - 1], From(cs[|cs| - 1])) && UpTo(cs[|cs| - 1]) + 1 == b
  }

  /** The stretches a reader has left tile `[start, read pointer)` exactly when none of them is a
      gap of several LSNs other than a trim gap. */
  lemma {:induction false} TilesIffNoneWide(s: Space, f: KeyFilter, a: int, cs: seq<Cover>, b: int)
    requires Chained(a, cs, b) && forall c :: c in cs ==> CoverSound(s, f, c)
    ensures Tiles(a, cs, b) <==> NoneWide(cs)
    decreases |cs|
  {
    if cs != [] {
      var n := |cs| - 1;
      var init, last := cs[..n], cs[n];
      assert cs == init + [last];
      assert CoverSound(s, f, last);
      TilesIffNoneWide(s, f, a, init, From(last));
      assert UpTo(last) + 1 == Advance(last) <==> !IsWide(last);
      assert NoneWide(cs) <==> NoneWide(init) && !IsWide(last);
    }
  }

  /** A tiling covers every address of the range, and no address twice. */
  lemma {:induction false} TilingCoversOnce(a: int, cs: seq<Cover>, b: int, x: int) returns (k: nat)
    requires Tiles(a, cs, b) && a <= x < b && forall c :: c in cs ==> From(c) <= UpTo(c)
    ensures k < |cs| && In(cs[k], x)
    ensures forall j :: 0 <= j < |cs| && In(cs[j], x) ==> j == k
    decreases |cs|
  {
    var n := |cs| - 1;
    TilingIsBelow(a, cs[..n], From(cs[n]));
    if x < From(cs[n]) {
      k := TilingCoversOnce(a, cs[..n], From(cs[n]), x);
      forall j | 0 <= j < |cs| && In(cs[j], x) ensures j == k {
        if j < n { assert In(cs[..n][j], x); }
      }
    } else {
      k := n;
      assert forall j :: 0 <= j < n ==> cs[..n][j] == cs[j];
    }
  }

  lemma {:induction false} TilingIsBelow(a: int, cs: seq<Cover>, b: int)
    requires Tiles(a, cs, b) && forall c :: c in cs ==> From(c) <= UpTo(c)
    ensures a <= b
    ensures forall j :: 0 <= j < |cs| ==> a <= From(cs[j]) <= UpTo(cs[j]) < b
    decreases |cs|
  {
    if cs != [] {
      var n := |cs| - 1;
      TilingIsBelow(a, cs[..n], From(cs[n]));
      assert cs == cs[..n] + [cs[n]];
    }
  }

  /** How a reader may have accounted for a record that its filter asks for. */
  predicate Accounts(c: Cover, x: int, r: Record) {
    && c.Delivered?
    && match c.entry.payload
       case Data(q) => c.entry.seqno == x && q == r
       case TrimGap(_) => true
       case DataLoss(_) => true
       case Filtered(_) => false
  }

  /** Stretches that chain up leave no address between their ends uncovered. */
  lemma {:induction false} ChainCovers(a: int, cs: seq<Cover>, b: int, x: int) returns (k: nat)
    requires Chained(a, cs, b) && a <= x < b && forall c :: c in cs ==> From(c) <= UpTo(c)
    ensures k < |cs| && In(cs[k], x)
    decreases |cs|
  {
    var n := |cs| - 1;
    if x < From(cs[n]) { k := ChainCovers(a, cs[..n], From(cs[n]), x); } else { k := n; }
  }

  /** Each stretch starts past the one before, so no record is delivered twice. */
  lemma {:induction false} StartsRise(a: int, cs: seq<Cover>, b: int, i: nat, j: nat)
    requires Chained(a, cs, b) && i < j < |cs| && forall c :: c in cs ==> From(c) <= UpTo(c)
    ensures From(cs[i]) < From(cs[j])
    decreases |cs|
  {
    var n := |cs| - 1;
    if j < n {
      StartsRise(a, cs[..n], From(cs[n]), i, j);
    } else {
      assert From(cs[n]) == Advance(cs[n - 1]) && cs[n - 1] in cs;
      if i < n - 1 { StartsRise(a, cs[..n], From(cs[n]), i, n - 1); }
    }
  }

  /** Nothing the filter asks for is lost, in any run: every committed matching record the reader has
      passed was delivered as itself, or lies in a reported trim or data-loss gap. */
  lemma PassedRecordsAreAccountedFor(s: Space, r: Reader, x: Lsn, i: nat, record: Record) returns (k: nat)
    requires Book(s) && TraceInv(s, r)
    requires r.start <= x < r.stream.readPointer && Holds(s, x, i, record) && Matches(record.keys, r.stream.filter)
    ensures k < |r.trace| && In(r.trace[k], x) && Accounts(r.trace[k], x, record)
  {
    var f := r.stream.filter;
    assert forall c :: c in r.trace ==> CoverSound(s, f, c) ==> From(c) <= UpTo(c);
    k := ChainCovers(r.start, r.trace, r.stream.readPointer, x);
    var c := r.trace[k];
    assert CoverSound(s, f, c) && SkipSound(s, f, r.trace, c);
    MatchedIsNotUnmatched(s, f, x, i, record);
    if c.Skipped? {
      assert Explained(s, f, r.trace, x);
      k :| 0 <= k < |r.trace| && r.trace[k].Delivered? && r.trace[k].entry.payload.DataLoss? && In(r.trace[k], x);
    } else if c.entry.payload.Data? {
      var j: nat :| Holds(s, x, j, c.entry.payload.record);
      HoldsIsUnique(s, x, i, record, j, c.entry.payload.record);
    }
  }

  lemma MatchedIsNotUnmatched(s: Space, f: KeyFilter, x: Lsn, i: nat, record: Record)
    requires Book(s) && Holds(s, x, i, record) && Matches(record.keys, f)
    ensures !Unmatched(s, f, x)
  {
  }

  // ---------------------------------------------------------------- the log moves on

  lemma SegmentGrows(s: Space, t: Space, i: nat)
    requires Grows(s, t) && Known(s, i)
    ensures Known(t, i) && t.bases[i] == s.bases[i] && Le(s.loglets[i], t.loglets[i]) && End(s, i) <= End(t, i)
    ensures Frozen(s, i) ==> Frozen(t, i) && End(s, i) == End(t, i)
  {
  }

  /** Whatever was trimmed, unmatched, held or committed stays so. */
  lemma AddressesAreStable(s: Space, t: Space, f: KeyFilter, x: int)
    requires Grows(s, t) && Book(t)
    ensures AddressTrimmed(s, x) ==> AddressTrimmed(t, x)
    ensures Unmatched(s, f, x) ==> Unmatched(t, f, x)
  {
    if AddressTrimmed(s, x) {
      var i: nat :| TrimmedAt(s, i, x);
      SegmentGrows(s, t, i);
      assert TrimmedAt(t, i, x);
    }
    if Unmatched(s, f, x) {
      var i: nat :| NonMatching(s, f, i, x);
      SegmentGrows(s, t, i);
      assert NonMatching(t, f, i, x);
    }
  }

  lemma TruthfulIsStable(s: Space, t: Space, f: KeyFilter, e: Entries.Entry)
    requires Grows(s, t) && Book(t) && Truthful(s, f, e)
    ensures Truthful(t, f, e)
  {
    match e.payload
    case Data(r) =>
      var i: nat :| Holds(s, e.seqno, i, r);
      HoldsIsStable(s, t, e.seqno, i, r);
    case DataLoss(to) =>
      var i: nat :| CommittedAt(s, i, e.seqno) && CommittedAt(s, i, to);
      SegmentGrows(s, t, i);
      assert CommittedAt(t, i, e.seqno) && CommittedAt(t, i, to);
    case TrimGap(to) =>
      forall x | e.seqno <= x <= to ensures AddressTrimmed(t, x) { AddressesAreStable(s, t, f, x); }
    case Filtered(to) =>
      forall x | e.seqno <= x <= to ensures Unmatched(t, f, x) { AddressesAreStable(s, t, f, x); }
  }

  lemma ExplanationsAreStable(s: Space, t: Space, f: KeyFilter, past: seq<Cover>, from: int, to: int)
    requires Grows(s, t) && Book(t) && AllExplained(s, f, past, from, to)
    ensures AllExplained(t, f, past, from, to)
  {
    forall x | from <= x < to ensures Explained(t, f, past, x) {
      assert Explained(s, f, past, x);
      AddressesAreStable(s, t, f, x);
    }
  }

  lemma TraceIsStable(s: Space, t: Space, r: Reader)
    requires Grows(s, t) && Book(t) && TraceInv(s, r)
    ensures TraceInv(t, r)
  {
    var f := r.stream.filter;
    forall c | c in r.trace ensures CoverSound(t, f, c) && SkipSound(t, f, r.trace, c) {
      assert CoverSound(s, f, c) && SkipSound(s, f, r.trace, c);
      if c.Delivered? { TruthfulIsStable(s, t, f, c.entry); }
      else { ExplanationsAreStable(s, t, f, r.trace, c.from, c.to + 1); }
    }
    if r.stream.substream.Some? && r.stream.substream.value.segment.kind != SealMarker {
      ExplanationsAreStable(s, t, f, r.trace, r.stream.readPointer, InnerLsn(r.stream.substream.value));
    }
  }

  /** Growing loglets and new chain versions disturb no reader. */
  lemma StreamIsStable(s: Space, t: Space, h: seq<LiveChain>, g: seq<LiveChain>, r: Reader)
    requires Grows(s, t) && h <= g && StreamInv(s, h, r)
    ensures StreamInv(t, g, r)
  {
  }

  // ---------------------------------------------------------------- agreement

  /** A reader handed out a data record. */
  predicate Gave(r: Reader, x: Lsn, record: Record) {
    Delivered(Entries.Entry(x, Data(record))) in r.trace
  }

  /** Any two readers that delivered a record at the same LSN delivered the same one; it is a committed
      record of one segment, and every chain version that still covers the LSN finds that segment. */
  lemma ReadersAgree(s: Space, c: Chain, r1: Reader, r2: Reader, x: Lsn, a: Record, b: Record) returns (i: nat)
    requires Book(s) && TraceInv(s, r1) && TraceInv(s, r2) && Gave(r1, x, a) && Gave(r2, x, b)
    requires ChainFits(s, c)
    ensures a == b && Holds(s, x, i, a)
    ensures c[0].base <= x && i <= TailIndex(c) ==>
              FindSegment(c, x).Found? && FindSegment(c, x).segment.index == i && FindSegment(c, x).segment.kind != SealMarker
  {
    assert CoverSound(s, r1.stream.filter, Delivered(Entries.Entry(x, Data(a))));
    assert CoverSound(s, r2.stream.filter, Delivered(Entries.Entry(x, Data(b))));
    i :| Holds(s, x, i, a);
    var j: nat :| Holds(s, x, j, b);
    HoldsIsUnique(s, x, i, a, j, b);
    if c[0].base <= x && i <= TailIndex(c) { ChainFindsHolder(s, c, x, i, a); }
  }

  /** A turn that moves the read pointer and keeps the substream has taken one entry out of it. */
  lemma EntryTurn(t: Stream, m: MaybeSegment, tail: nat, o: Sight)
    requires t.substream.Some?
    requires var u := StateTurn(t, m, tail, o, false).state; u.substream.Some? && u.readPointer != t.readPointer
    ensures o.record.InnerEntry? && t.state.Reading? && WithBaseLsn(o.record.entry, t.substream.value.segment.base).Some?
    ensures var turn, g := StateTurn(t, m, tail, o, false), WithBaseLsn(o.record.entry, t.substream.value.segment.base).value;
            && turn.state.readPointer == CalculateReadPointer(g) > t.readPointer
            && (turn.Return? ==> turn.result == Item(g))
  {
  }

  lemma EntryStaysInside(s: Space, n: int, start: Lsn, t: Stream, m: MaybeSegment, tail: nat, o: Sight)
    requires LocalInv(s, n, start, t) && Sees(s, n, start, t, m, tail, o) && t.substream.Some?
    requires var u := StateTurn(t, m, tail, o, false).state; u.substream.Some? && u.readPointer != t.readPointer
    ensures var turn, i := StateTurn(t, m, tail, o, false), t.substream.value.segment.index;
            && t.readPointer < turn.state.readPointer <= End(s, i)
            && (turn.Return? && turn.result.Item? ==> s.bases[i] <= turn.result.entry.seqno <= To(turn.result.entry) < End(s, i))
  {
    EntryTurn(t, m, tail, o);
    EntryFacts(s, t.substream.value, t.readPointer, t.filter, o);
  }

  /** An entry taken out of a substream lies before the end of its segment: at or past a tail that
      any chain version gives the segment, nothing is delivered from it. */
  lemma NeverPastSealedTail(s: Space, h: seq<LiveChain>, r: Reader, o: Sight, v: nat, p: nat)
    requires World(s, h) && StreamInv(s, h, r) && Legal(s, h, r, o)
    requires v < |h| && p + 1 < |h[v]|
    requires r.stream.substream.Some? && h[v][p].index == r.stream.substream.value.segment.index
    requires var turn := TurnOf(r.stream, o);
             turn.state.substream.Some? && turn.state.readPointer != r.stream.readPointer
    ensures var turn := TurnOf(r.stream, o);
            && turn.state.readPointer <= h[v][p + 1].base
            && (turn.Return? && turn.result.Item? ==> To(turn.result.entry) < h[v][p + 1].base)
  {
    TurnSees(s, h, r, o);
    EntryStaysInside(s, NodeTail(h, o.newest), r.start, Updated(r, o).stream, Placed(h, r, o), TailIndex(h[o.version - 1]), o);
    assert ChainFits(s, h[v]) && LinkFits(s, h[v][p], h[v][p + 1]);
  }

  /** Every entry handed out starts at the read pointer or later and moves it forward. */
  lemma ItemsAdvance(s: Space, h: seq<LiveChain>, r: Reader, o: Sight, e: Entries.Entry)
    requires World(s, h) && StreamInv(s, h, r) && Legal(s, h, r, o)
    requires OutcomeOf(TurnOf(r.stream, o)) == Some(Item(e))
    ensures r.stream.readPointer <= e.seqno < TurnOf(r.stream, o).state.readPointer
    ensures Step(r, o).trace != [] && Step(r, o).trace[|Step(r, o).trace| - 1] == Delivered(e)
  {
    TurnCovers(s, h, r, o);
    ItemMoves(s, h, r, o);
  }

  lemma ItemMoves(s: Space, h: seq<LiveChain>, r: Reader, o: Sight)
    requires World(s, h) && StreamInv(s, h, r) && Legal(s, h, r, o)
    requires TurnOf(r.stream, o).Return? && TurnOf(r.stream, o).result.Item?
    ensures var e := TurnOf(r.stream, o).result.entry;
            && r.stream.readPointer <= e.seqno
            && TurnOf(r.stream, o).state.readPointer > r.stream.readPointer
            && TurnOf(r.stream, o).state.readPointer > e.seqno
  {
    TurnSees(s, h, r, o);
    TurnUnfolds(h, r, o);
    ItemOfStateMoves(s, NodeTail(h, o.newest), r.start, Updated(r, o).stream, Placed(h, r, o), TailIndex(h[o.version - 1]), o);
  }

  lemma ItemOfStateMoves(s: Space, n: int, start: Lsn, t: Stream, m: MaybeSegment, tail: nat, o: Sight)
    requires LocalInv(s, n, start, t) && Sees(s, n, start, t, m, tail, o)
    requires StateTurn(t, m, tail, o, false).Return? && StateTurn(t, m, tail, o, false).result.Item?
    ensures var turn := StateTurn(t, m, tail, o, false);
            && t.readPointer <= turn.result.entry.seqno < turn.state.readPointer
            && turn.state.readPointer > t.readPointer
  {
    if StateTurn(t, m, tail, o, false).state.substream.Some? {
      ItemFromSubstream(t, m, tail, o);
      EntryFacts(s, t.substream.value, t.readPointer, t.filter, o);
    } else {
      ItemFromChain(s, n, start, t, m, tail, o);
    }
  }

  lemma ItemFromSubstream(t: Stream, m: MaybeSegment, tail: nat, o: Sight)
    requires StateTurn(t, m, tail, o, false).Return? && StateTurn(t, m, tail, o, false).result.Item?
    requires StateTurn(t, m, tail, o, false).state.substream.Some?
    ensures t.substream.Some? && o.record.InnerEntry?
    ensures var g := StateTurn(t, m, tail, o, false).result.entry;
            && WithBaseLsn(o.record.entry, t.substream.value.segment.base) == Some(g)
            && StateTurn(t, m, tail, o, false).state.readPointer == CalculateReadPointer(g) > t.readPointer
  {
  }

  lemma LiveItemKeepsSubstream(t: Stream, tail: nat, o: Sight)
    requires t.state.Reading? && t.substream.Some?
    ensures var turn := LiveTurn(t, tail, o); turn.Return? && turn.result.Item? ==> turn.state.substream.Some?
  {
  }

  lemma ItemFromChain(s: Space, n: int, start: Lsn, t: Stream, m: MaybeSegment, tail: nat, o: Sight)
    requires LocalInv(s, n, start, t) && Sees(s, n, start, t, m, tail, o)
    requires StateTurn(t, m, tail, o, false).Return? && StateTurn(t, m, tail, o, false).result.Item?
    requires StateTurn(t, m, tail, o, false).state.substream.None?
    ensures var g := StateTurn(t, m, tail, o, false).result.entry;
            g.payload.TrimGap? && g.seqno == t.readPointer <= To(g) && StateTurn(t, m, tail, o, false).state.readPointer == To(g) + 1
  {
    if t.state.Reading? {
      LiveItemKeepsSubstream(t, tail, o);
      LiveItemKeepsSubstream(t.(state := t.state.(trimChecked := o.version)), tail, o);
    }
  }
}
