/** When a read stream stops, holds back or overshoots: the end LSN, sealed tails, running dry and
    looking the chain up, each with the exact condition under which it happens. */
module ReaderLimits {
  import opened Outcomes
  import opened Addresses
  import opened Entries
  import opened Chains
  import opened Loglets
  import opened VirtualLog
  import opened ReadStreams
  import opened Readers
  import opened ReaderTraces

  // ---------------------------------------------------------------- the end LSN

  /** A stretch starts past the end LSN only right behind one skipped inside the loglet. */
  ghost predicate EndInv(r: Reader) {
    forall k {:trigger r.trace[k]} :: 0 <= k < |r.trace| && From(r.trace[k]) > r.stream.endLsn ==>
      k > 0 && r.trace[k - 1].Skipped? && From(r.trace[k - 1]) <= r.stream.endLsn
  }

  lemma StepKeepsEnd(s: Space, h: seq<LiveChain>, r: Reader, o: Sight)
    requires World(s, h) && StreamInv(s, h, r) && Legal(s, h, r, o) && EndInv(r)
    ensures EndInv(Step(r, o))
  {
    StepKeepsStream(s, h, r, o);
    var cs := Covers(r.stream, TurnOf(r.stream, o));
    var q := Step(r, o);
    assert cs != [] ==> From(cs[0]) <= r.stream.endLsn;
    forall k | 0 <= k < |q.trace| && From(q.trace[k]) > q.stream.endLsn
      ensures k > 0 && q.trace[k - 1].Skipped? && From(q.trace[k - 1]) <= q.stream.endLsn
    {
      if k < |r.trace| {
        assert q.trace[k] == r.trace[k];
      } else {
        assert q.trace[k] == cs[k - |r.trace|] && k - |r.trace| == 1 && q.trace[k - 1] == cs[0];
      }
    }
  }

  lemma {:induction false} ChainedNeighbours(a: int, cs: seq<Cover>, b: int, k: nat)
    requires Chained(a, cs, b) && 0 < k < |cs|
    ensures From(cs[k]) == Advance(cs[k - 1])
    decreases |cs|
  {
    var n := |cs| - 1;
    if k < n { ChainedNeighbours(a, cs[..n], From(cs[n]), k); }
  }

  /** A turn delivers an entry past the end LSN exactly when the inner stream hands over an entry from a
      position past the end LSN. */
  lemma PastEndIff(s: Space, h: seq<LiveChain>, r: Reader, o: Sight, e: Entries.Entry)
    requires World(s, h) && StreamInv(s, h, r) && Legal(s, h, r, o)
    requires OutcomeOf(TurnOf(r.stream, o)) == Some(Item(e))
    ensures e.seqno > r.stream.endLsn <==>
            && r.stream.substream.Some? && Step(r, o).stream.substream.Some?
            && r.stream.substream.value.segment.base + o.skipTo - OLDEST > r.stream.endLsn
    ensures Step(r, o).stream.substream.Some? ==> o.record.InnerEntry?
  {
    TurnSees(s, h, r, o);
    TurnUnfolds(h, r, o);
    var t, m, tail := Updated(r, o).stream, Placed(h, r, o), TailIndex(h[o.version - 1]);
    if TurnOf(r.stream, o).state.substream.Some? {
      ItemFromSubstream(t, m, tail, o);
      EntryFacts(s, t.substream.value, t.readPointer, t.filter, o);
    } else {
      ItemFromChain(s, NodeTail(h, o.newest), r.start, t, m, tail, o);
    }
  }

  /** The turn gets as far as polling the inner stream, whatever that answers. */
  predicate PollsInnerStream(h: seq<LiveChain>, r: Reader, o: Sight)
    requires 1 <= o.version <= |h|
  {
    && !Ended(r.stream) && r.stream.state.Reading? && r.stream.substream.Some?
    && (r.stream.state.trimChecked == o.version || Placed(h, r, o).Found?)
    && ReachesInner(r.stream, TailIndex(h[o.version - 1]), o)
    && var sub := r.stream.substream.value;
       && sub.segment.kind != SealMarker
       && (sub.segment.tail.Some? ==> InnerLsn(sub) < sub.segment.tail.value)
  }

  /** With this answer of the inner stream the turn delivers an entry past the end LSN. */
  ghost predicate Overshoots(s: Space, h: seq<LiveChain>, r: Reader, o: Sight, skipTo: Offset, record: InnerPoll) {
    var p := o.(skipTo := skipTo, record := record);
    && Legal(s, h, r, p)
    && var turn := TurnOf(r.stream, p);
       turn.Return? && turn.result.Item? && turn.result.entry.seqno > r.stream.endLsn
  }

  /** From the inner stream's position through the end LSN every record is released and does not match, and
      the next one is released or trimmed. */
  predicate MayPassEnd(s: Space, f: KeyFilter, sub: Substream, end: Lsn)
    requires Known(s, sub.segment.index)
  {
    var i := sub.segment.index;
    && (forall x {:trigger NonMatching(s, f, i, x)} :: InnerLsn(sub) <= x <= end ==> NonMatching(s, f, i, x))
    && (InnerLsn(sub) <= end ==> end < s.bases[i] + s.loglets[i].released)
    && Max(InnerLsn(sub), end + 1) < s.bases[i] + Max(s.loglets[i].released, s.loglets[i].trimmed)
  }

  lemma EntryPastEndAllows(s: Space, f: KeyFilter, sub: Substream, end: Lsn, o: Sight)
    requires Known(s, sub.segment.index) && Valid(s.loglets[sub.segment.index]) && LegalRecord(s, f, sub, o)
    requires sub.segment.base == s.bases[sub.segment.index] && o.record.InnerEntry? && sub.segment.base + o.skipTo - 1 > end
    ensures MayPassEnd(s, f, sub, end)
  {
  }

  /** The answer that passes the end: a gap right behind it. */
  lemma PastEndEntry(s: Space, f: KeyFilter, sub: Substream, end: Lsn, o: Sight) returns (skipTo: Offset, record: InnerPoll)
    requires Known(s, sub.segment.index) && Valid(s.loglets[sub.segment.index]) && MayPassEnd(s, f, sub, end)
    requires sub.segment.base == s.bases[sub.segment.index] && sub.inner >= OLDEST
    ensures LegalRecord(s, f, sub, o.(skipTo := skipTo, record := record))
    ensures record.InnerEntry? && !record.entry.payload.Data? && sub.segment.base + skipTo - 1 > end
  {
    skipTo := Max(InnerLsn(sub), end + 1) - sub.segment.base + 1;
    var gap := if skipTo <= s.loglets[sub.segment.index].released then DataLoss(skipTo) else TrimGap(skipTo);
    record := InnerEntry(Entries.Entry(skipTo, gap));
  }

  /** A turn that polls the inner stream hands on a gap it answers with. */
  lemma GapIsHandedOn(h: seq<LiveChain>, r: Reader, o: Sight)
    requires 1 <= o.version <= |h| && o.chain == Some(h[o.version - 1]) && PollsInnerStream(h, r, o)
    requires o.record.InnerEntry? && !o.record.entry.payload.Data?
    requires var g := WithBaseLsn(o.record.entry, r.stream.substream.value.segment.base);
             g.Some? && CalculateReadPointer(g.value) > r.stream.readPointer
    requires r.stream.substream.value.segment.tail.Some? ==>
               OffsetBy(r.stream.substream.value.segment.base, r.stream.substream.value.inner).Some?
    requires o.tail.Ready? && o.tail.output.Some? ==> WatchedTail(r.stream.substream.value.segment, o.tail.output.value).Some?
    requires r.stream.substream.value.segment.tail.None? ==> r.stream.state.tailWatch
    ensures OutcomeOf(TurnOf(r.stream, o)) == Some(Item(WithBaseLsn(o.record.entry, r.stream.substream.value.segment.base).value))
  {
  }

  lemma PassesEnd(s: Space, h: seq<LiveChain>, r: Reader, o: Sight) returns (skipTo: Offset, record: InnerPoll)
    requires StreamInv(s, h, r) && Legal(s, h, r, o) && PollsInnerStream(h, r, o)
    requires MayPassEnd(s, r.stream.filter, r.stream.substream.value, r.stream.endLsn)
    requires var i := r.stream.substream.value.segment.index; SegmentBounds(s, i, i)
    ensures Overshoots(s, h, r, o, skipTo, record)
  {
    var sub := r.stream.substream.value;
    skipTo, record := PastEndEntry(s, r.stream.filter, sub, r.stream.endLsn, o);
    var p := o.(skipTo := skipTo, record := record);
    assert LegalSubstream(s, r.stream.filter, sub, p);
    EntryFacts(s, sub, r.stream.readPointer, r.stream.filter, p);
    GapIsHandedOn(h, r, p);
  }

  lemma OvershootIsAllowed(s: Space, h: seq<LiveChain>, r: Reader, o: Sight)
    requires StreamInv(s, h, r) && Legal(s, h, r, o) && r.stream.substream.Some?
    requires var g := r.stream.substream.value.segment; g.kind != SealMarker && SegmentBounds(s, g.index, g.index)
    requires o.record.InnerEntry? && r.stream.substream.value.segment.base + o.skipTo - OLDEST > r.stream.endLsn
    ensures MayPassEnd(s, r.stream.filter, r.stream.substream.value, r.stream.endLsn)
  {
    EntryPastEndAllows(s, r.stream.filter, r.stream.substream.value, r.stream.endLsn, o);
  }

  /** A legal answer of the inner stream takes a turn past the end LSN exactly when the log allows it. */
  lemma PastEndPossibleIff(s: Space, h: seq<LiveChain>, r: Reader, o: Sight)
    requires World(s, h) && StreamInv(s, h, r) && Legal(s, h, r, o) && PollsInnerStream(h, r, o)
    ensures (exists skipTo: Offset, record: InnerPoll :: Overshoots(s, h, r, o, skipTo, record)) <==>
            MayPassEnd(s, r.stream.filter, r.stream.substream.value, r.stream.endLsn)
  {
    var sub := r.stream.substream.value;
    SegmentBoundsHold(s, sub.segment.index, sub.segment.index);
    if MayPassEnd(s, r.stream.filter, sub, r.stream.endLsn) { var x, e := PassesEnd(s, h, r, o); }
    if skipTo: Offset, record: InnerPoll :| Overshoots(s, h, r, o, skipTo, record) {
      var p := o.(skipTo := skipTo, record := record);
      PastEndIff(s, h, r, p, TurnOf(r.stream, p).result.entry);
      OvershootIsAllowed(s, h, r, p);
    }
  }

  /** Whenever a run has delivered an entry past its end LSN, the record at the end LSN itself does not
      match the filter or was reported lost. */
  lemma PastEndIsExplained(s: Space, r: Reader, k: nat)
    requires TraceInv(s, r) && EndInv(r) && k < |r.trace| && r.trace[k].Delivered?
    requires r.trace[k].entry.seqno > r.stream.endLsn
    ensures Explained(s, r.stream.filter, r.trace, r.stream.endLsn)
  {
    ChainedNeighbours(r.start, r.trace, r.stream.readPointer, k);
    assert SkipSound(s, r.stream.filter, r.trace, r.trace[k - 1]);
  }

  /** So a run delivers nothing past an end LSN whose record it must deliver; in particular none does
      that reads without a filter and has no loss to report there. */
  lemma NothingPastAWantedEnd(s: Space, r: Reader, k: nat)
    requires Book(s) && TraceInv(s, r) && EndInv(r) && k < |r.trace| && r.trace[k].Delivered?
    requires !LossReported(r.trace, r.stream.endLsn)
    requires r.stream.filter.Any? || exists i: nat, q :: Holds(s, r.stream.endLsn, i, q) && Matches(q.keys, r.stream.filter)
    ensures r.trace[k].entry.seqno <= r.stream.endLsn
  {
    var f, x := r.stream.filter, r.stream.endLsn;
    if r.trace[k].entry.seqno > x {
      PastEndIsExplained(s, r, k);
      WantedIsNotUnmatched(s, f, x);
    }
  }

  // ---------------------------------------------------------------- running dry

  /** The turn polls the substream, which says it has nothing left: it has reached the tail of a sealed
      segment ahead of the read pointer, or the inner stream ends. */
  predicate RunsDry(t: Stream, tail: nat, o: Sight) {
    && t.state.Reading? && t.substream.Some? && ReachesInner(t, tail, o)
    && var sub := t.substream.value;
       (sub.segment.tail.Some? && InnerLsn(sub) >= sub.segment.tail.value) || o.record.InnerEnd?
  }

  lemma LiveFinishes(s: Space, n: int, start: Lsn, t: Stream, tail: nat, o: Sight)
    requires Pollable(s, n, start, t, o)
    ensures OutcomeOf(LiveTurn(t, tail, o)) == Some(Finished) <==> RunsDry(t, tail, o)
  {
    if o.tail.Ready? && o.tail.output.Some? { WatchedTailFits(s, n, start, t, o); }
  }

  lemma StateFinishes(s: Space, n: int, start: Lsn, t: Stream, m: MaybeSegment, tail: nat, o: Sight)
    requires LocalInv(s, n, start, t) && Sees(s, n, start, t, m, tail, o)
    requires t.state.Reading? && t.state.trimChecked == o.version ==> m.Found?
    ensures OutcomeOf(StateTurn(t, m, tail, o, false)) == Some(Finished) <==>
            t.state.Terminated? || (RunsDry(t, tail, o) && m.Found?)
  {
    if t.state.Reading? {
      LiveFinishes(s, n, start, t, tail, o);
      LiveFinishes(s, n, start, t.(state := t.state.(trimChecked := o.version)), tail, o);
    }
  }

  /** A read pointer checked against this version is one the version holds. */
  lemma CheckedIsLive(s: Space, h: seq<LiveChain>, r: Reader, o: Sight)
    requires World(s, h) && StreamInv(s, h, r) && Legal(s, h, r, o)
    requires r.stream.state.Reading? && r.stream.state.trimChecked == o.version
    ensures Placed(h, r, o).Found?
  {
  }

  predicate Finishes(h: seq<LiveChain>, r: Reader, o: Sight)
    requires 1 <= o.version <= |h|
  {
    || Ended(r.stream)
    || r.stream.state.Terminated?
    || (RunsDry(r.stream, TailIndex(h[o.version - 1]), o) && h[o.version - 1][0].base <= r.stream.readPointer)
  }

  lemma LiveStreamFinishesIff(s: Space, h: seq<LiveChain>, r: Reader, o: Sight)
    requires Legal(s, h, r, o) && StreamInv(s, h, Updated(r, o)) && !Ended(r.stream)
    requires Sees(s, NodeTail(h, o.newest), r.start, Updated(r, o).stream, Placed(h, r, o), TailIndex(h[o.version - 1]), o)
    requires r.stream.state.Reading? && r.stream.state.trimChecked == o.version ==> Placed(h, r, o).Found?
    requires Placed(h, r, o).Found? <==> h[o.version - 1][0].base <= r.stream.readPointer
    ensures OutcomeOf(TurnOf(r.stream, o)) == Some(Finished) <==> Finishes(h, r, o)
  {
    var t, m, tail := Updated(r, o).stream, Placed(h, r, o), TailIndex(h[o.version - 1]);
    StateFinishes(s, NodeTail(h, o.newest), r.start, t, m, tail, o);
    assert TurnOf(r.stream, o) == StateTurn(t, m, tail, o, false);
  }

  /** A stream ends exactly when it has ended before, its read pointer has passed the end LSN, or it
      runs dry on a segment the chain still holds. */
  lemma FinishedIff(s: Space, h: seq<LiveChain>, r: Reader, o: Sight)
    requires World(s, h) && StreamInv(s, h, r) && Legal(s, h, r, o)
    ensures OutcomeOf(TurnOf(r.stream, o)) == Some(Finished) <==> Finishes(h, r, o)
  {
    if !Ended(r.stream) {
      LookupIsOk(s, h[o.version - 1], r.stream.readPointer);
      TurnSees(s, h, r, o);
      if r.stream.state.Reading? && r.stream.state.trimChecked == o.version { CheckedIsLive(s, h, r, o); }
      LiveStreamFinishesIff(s, h, r, o);
    }
  }

  /** Unless the inner stream ends after an error, running dry happens in a sealed segment and leaves out no
      record of it unexplained: up to the tail everything is unmatched or was reported lost. What follows
      in later segments is never read. */
  lemma DryStretchIsExplained(s: Space, h: seq<LiveChain>, r: Reader, o: Sight)
    requires StreamInv(s, h, r) && Legal(s, h, r, o) && TraceInv(s, r)
    requires 1 <= o.version <= |h| && RunsDry(r.stream, TailIndex(h[o.version - 1]), o)
    requires o.record.InnerEnd? ==> !r.stream.substream.value.broken
    ensures var g := r.stream.substream.value.segment;
            && g.tail.Some? && r.stream.readPointer < g.tail.value
            && AllExplained(s, r.stream.filter, r.trace, r.stream.readPointer, g.tail.value)
  {
    ExplainedUpToEntry(s, r.trace, r.stream, o);
  }

  // ---------------------------------------------------------------- what an end means

  /** As long as no error was returned, the inner stream has not failed, and a stream that has ended before
      its end LSN stands at an address that is unmatched or was reported lost. */
  ghost predicate DoneInv(s: Space, r: Reader) {
    !r.failed ==>
      && (r.stream.substream.Some? ==> !r.stream.substream.value.broken)
      && (r.stream.state.Terminated? && !Ended(r.stream) ==> Explained(s, r.stream.filter, r.trace, r.stream.readPointer))
  }

  /** A turn breaks a substream, or ends a stream other than by finishing, only with an error. */
  predicate ErrorReturned(t: Stream, turn: Turn<Stream, Outcome>) {
    || (turn.Return? && turn.result.Failed?)
    || (&& (turn.state.substream.Some? ==> !turn.state.substream.value.broken)
        && (turn.state.state.Terminated? ==> turn.Return? && turn.result.Finished?)
        && (turn.Return? && turn.result.Finished? ==> turn.state.readPointer == t.readPointer))
  }

  lemma LiveErrorsAreReturned(t: Stream, tail: nat, o: Sight)
    requires t.state.Reading? && t.substream.Some? && !t.substream.value.broken
    ensures ErrorReturned(t, LiveTurn(t, tail, o))
  {
  }

  lemma ErrorsAreReturned(t: Stream, m: MaybeSegment, tail: nat, o: Sight)
    requires HasSubstream(t.state) ==> t.substream.Some?
    requires t.substream.Some? ==> !t.substream.value.broken
    ensures ErrorReturned(t, StateTurn(t, m, tail, o, false))
  {
    if t.state.Reading? {
      LiveErrorsAreReturned(t, tail, o);
      LiveErrorsAreReturned(t.(state := t.state.(trimChecked := o.version)), tail, o);
    }
  }

  /** Without an error, a stream ends past its end LSN, or at an address that is unmatched or was reported
      lost. */
  lemma FinishedIsExplained(s: Space, h: seq<LiveChain>, r: Reader, o: Sight)
    requires World(s, h) && StreamInv(s, h, r) && Legal(s, h, r, o) && TraceInv(s, r) && DoneInv(s, r) && !r.failed
    requires OutcomeOf(TurnOf(r.stream, o)) == Some(Finished)
    ensures Ended(r.stream) || Explained(s, r.stream.filter, r.trace, r.stream.readPointer)
  {
    FinishedIff(s, h, r, o);
    if !Ended(r.stream) && !r.stream.state.Terminated? { DryStretchIsExplained(s, h, r, o); }
  }

  lemma StepKeepsDone(s: Space, h: seq<LiveChain>, r: Reader, o: Sight)
    requires World(s, h) && StreamInv(s, h, r) && Legal(s, h, r, o) && TraceInv(s, r) && DoneInv(s, r)
    ensures DoneInv(s, Step(r, o))
  {
    if !Ended(r.stream) && !Step(r, o).failed {
      TurnUnfolds(h, r, o);
      ErrorsAreReturned(Updated(r, o).stream, Placed(h, r, o), TailIndex(h[o.version - 1]), o);
      if Step(r, o).stream.state.Terminated? {
        FinishedIsExplained(s, h, r, o);
        StepKeepsStream(s, h, r, o);
        assert Step(r, o).trace == r.trace;
      }
    }
  }

  lemma DoneIsStable(s: Space, t: Space, r: Reader)
    requires Grows(s, t) && Book(t) && DoneInv(s, r)
    ensures DoneInv(t, r)
  {
    AddressesAreStable(s, t, r.stream.filter, r.stream.readPointer);
  }

  /** A stream that has returned no error does not end before its end LSN where the next record is wanted
      and no loss was reported for it; in particular none does that reads without a filter and has no
      loss to report. */
  lemma NeverEndsBeforeAWantedRecord(s: Space, h: seq<LiveChain>, r: Reader, o: Sight)
    requires World(s, h) && StreamInv(s, h, r) && Legal(s, h, r, o) && TraceInv(s, r) && DoneInv(s, r) && !r.failed
    requires OutcomeOf(TurnOf(r.stream, o)) == Some(Finished) && !LossReported(r.trace, r.stream.readPointer)
    requires r.stream.filter.Any? || exists i: nat, q :: Holds(s, r.stream.readPointer, i, q) && Matches(q.keys, r.stream.filter)
    ensures r.stream.readPointer > r.stream.endLsn || r.stream.readPointer == LSN_MAX
  {
    FinishedIsExplained(s, h, r, o);
    if !Ended(r.stream) { WantedIsNotUnmatched(s, r.stream.filter, r.stream.readPointer); }
  }

  lemma WantedIsNotUnmatched(s: Space, f: KeyFilter, x: Lsn)
    requires Book(s) && (f.Any? || exists i: nat, q :: Holds(s, x, i, q) && Matches(q.keys, f))
    ensures !Unmatched(s, f, x)
  {
    if Unmatched(s, f, x) {
      var j: nat :| NonMatching(s, f, j, x);
      var i: nat, q :| Holds(s, x, i, q) && Matches(q.keys, f);
      MatchedIsNotUnmatched(s, f, x, i, q);
    }
  }

  // ---------------------------------------------------------------- a sealed tail holds the stream back

  function Steps(r: Reader, os: seq<Sight>): Reader
    decreases |os|
  {
    if os == [] then r else Steps(Step(r, os[0]), os[1..])
  }

  predicate HeldBack(t: Stream) {
    (t.state.AwaitingOrSealChain? || t.state.SealingChain?) && t.substream.Some?
  }

  /** The metadata shows no sealed tail, no newer segment and no trim for the read pointer. */
  predicate Unchanged(t: Stream, o: Sight)
    requires t.substream.Some?
  {
    var g := t.substream.value.segment;
    o.chain.Some? && CheckChain(FindSegment(o.chain.value, t.readPointer), g.index, g.kind).NoChange?
  }

  /** Held back, a stream delivers nothing over any run of turns until the metadata changes. */
  lemma {:induction false} HeldBackUntilChange(r: Reader, os: seq<Sight>)
    requires HeldBack(r.stream) && !Ended(r.stream)
    requires forall o :: o in os ==> Unchanged(r.stream, o)
    ensures Steps(r, os).trace == r.trace && Steps(r, os).stream.readPointer == r.stream.readPointer
    ensures HeldBack(Steps(r, os).stream) && Steps(r, os).stream.substream == r.stream.substream
    decreases |os|
  {
    if os != [] {
      var q := Step(r, os[0]);
      assert os[0] in os && Unchanged(r.stream, os[0]);
      assert HeldBack(q.stream) && q.stream.substream == r.stream.substream && q.trace == r.trace;
      forall o | o in os[1..] ensures Unchanged(q.stream, o) { assert o in os; }
      HeldBackUntilChange(q, os[1..]);
    }
  }

  /** At the safe tail of an open segment the tail watch reports that the loglet is sealed. */
  predicate SealReported(t: Stream, o: Sight) {
    && t.state.Reading? && t.substream.Some? && o.chain.Some?
    && t.substream.value.segment.tail.None? && t.state.tailWatch
    && (t.state.safeKnownTail.None? || t.readPointer >= t.state.safeKnownTail.value)
    && TailIndex(o.chain.value) == t.substream.value.segment.index
    && o.tail.Ready? && o.tail.output.Some? && o.tail.output.value.Sealed?
    && WatchedTail(t.substream.value.segment, o.tail.output.value).Some?
  }

  /** From the report on, a stream delivers nothing over any run of turns until the metadata shows a sealed
      tail, a newer segment or a trim for its read pointer. */
  lemma SilentFromSealReport(r: Reader, o: Sight, os: seq<Sight>)
    requires SealReported(r.stream, o) && !Ended(r.stream) && Unchanged(r.stream, o)
    requires forall p :: p in os ==> Unchanged(r.stream, p)
    ensures Steps(r, [o] + os).trace == r.trace && Steps(r, [o] + os).stream.readPointer == r.stream.readPointer
    ensures HeldBack(Steps(r, [o] + os).stream)
  {
    assert ([o] + os)[1..] == os;
    HeldBackUntilChange(Step(r, o), os);
  }

  // ---------------------------------------------------------------- one chain lookup per version

  /** The world at successive turns. */
  datatype Scene = Scene(space: Space, versions: seq<LiveChain>)

  ghost predicate Follows(a: Scene, b: Scene) { Grows(a.space, b.space) && a.versions <= b.versions }

  ghost predicate Moving(ws: seq<Scene>) {
    && (forall k :: 0 <= k < |ws| ==> World(ws[k].space, ws[k].versions))
    && (forall j, k :: 0 <= j < k < |ws| ==> Follows(ws[j], ws[k]))
  }

  /** Each sight is one the environment may give at that turn. */
  ghost predicate LegalThroughout(ws: seq<Scene>, r: Reader, os: seq<Sight>)
    requires |ws| == |os|
    decreases |os|
  {
    os == [] || (Legal(ws[0].space, ws[0].versions, r, os[0]) && LegalThroughout(ws[1..], Step(r, os[0]), os[1..]))
  }

  /** The run of a reader that searches the chain on every turn. */
  function PlainSteps(r: Reader, os: seq<Sight>): Reader
    decreases |os|
  {
    if os == [] then r
    else
      PlainSteps(Moved(r, PlainTurn(r.stream, os[0]), os[0]), os[1..])
  }

  /** Searching the chain once per logs version leads a reader through the same states and entries as
      searching it on every turn, over every run and however the log changes meanwhile. */
  lemma {:induction false} OneLookupPerVersion(ws: seq<Scene>, r: Reader, os: seq<Sight>)
    requires |ws| == |os| && Moving(ws) && LegalThroughout(ws, r, os)
    requires os != [] ==> StreamInv(ws[0].space, ws[0].versions, r)
    ensures PlainSteps(r, os) == Steps(r, os)
    decreases |os|
  {
    if os != [] {
      var s, h, q := ws[0].space, ws[0].versions, Step(r, os[0]);
      CheckingOncePerVersionSuffices(s, h, r, os[0]);
      StepKeepsStream(s, h, r, os[0]);
      if |os| > 1 {
        assert Follows(ws[0], ws[1]);
        StreamIsStable(s, ws[1].space, h, ws[1].versions, q);
      }
      ScenesMoveOn(ws);
      OneLookupPerVersion(ws[1..], q, os[1..]);
    }
  }

  lemma ScenesMoveOn(ws: seq<Scene>)
    requires Moving(ws) && ws != []
    ensures Moving(ws[1..])
  {
  }
}
