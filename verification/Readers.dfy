/** Readers over a changing log: what the environment may show them, and what every turn keeps. */
module Readers {
  import opened Outcomes
  import opened Addresses
  import opened Entries
  import opened Chains
  import opened Loglets
  import opened VirtualLog
  import opened ReadStreams

  // ---------------------------------------------------------------- the world a reader sees

  /** All versions of the chain so far agree with the address space, and neither the head nor
      the tail index ever moves back. Version `v` is `h[v - 1]`. */
  ghost predicate World(s: Space, h: seq<LiveChain>) {
    && Book(s) && TrimClosed(s)
    && |h| > 0
    && (forall v :: 0 <= v < |h| ==> ChainFits(s, h[v]))
    && (forall u, v :: 0 <= u <= v < |h| ==> NotBefore(h[u], h[v]))
  }

  ghost predicate NotBefore(c: Chain, d: Chain)
    requires WellFormed(c) && WellFormed(d)
  {
    TailIndex(c) <= TailIndex(d) && c[0].base <= d[0].base
  }

  /** A stretch of the log the reader has left behind. */
  datatype Cover = Delivered(entry: Entries.Entry) | Skipped(from: int, to: int)

  function From(c: Cover): int { if c.Delivered? then c.entry.seqno else c.from }

  function UpTo(c: Cover): int { if c.Delivered? then To(c.entry) else c.to }

  /** Where the read pointer stands after the stretch. */
  function Advance(c: Cover): int {
    if c.Delivered? && !c.entry.payload.TrimGap? then c.entry.seqno + 1 else UpTo(c) + 1
  }

  /** A read stream with the newest metadata version its node has shown it, the version its node had
      when its latest loglet lookup was made, its start, the stretches it has left behind and whether it
      has ever returned an error. */
  datatype Reader = Reader(stream: Stream, node: nat, since: nat, start: Lsn, trace: seq<Cover>, failed: bool)

  function OpenReader(filter: KeyFilter, start: Lsn, end: Lsn): Reader {
    var s := Create(filter, start, end);
    Reader(s, 0, 0, s.readPointer, [], false)
  }

  function Covers(s: Stream, turn: Turn<Stream, Outcome>): seq<Cover> {
    var now := turn.state.readPointer;
    if now == s.readPointer then []
    else if turn.Return? && turn.result.Item? then
      var e := turn.result.entry;
      (if e.seqno > s.readPointer then [Skipped(s.readPointer, e.seqno - 1)] else []) + [Delivered(e)]
    else [Skipped(s.readPointer, now - 1)]
  }

  /** The same lookup is still being awaited. */
  predicate StillLooking(t: Stream, u: Stream) {
    t.state.FindingLoglet? && u.state.FindingLoglet? && t.readPointer == u.readPointer
  }

  /** The reader after a turn. */
  function Moved(r: Reader, turn: Turn<Stream, Outcome>, o: Sight): Reader {
    r.(stream := turn.state,
       node := o.newest,
       since := if StillLooking(r.stream, turn.state) then r.since else o.newest,
       trace := r.trace + Covers(r.stream, turn),
       failed := r.failed || (turn.Return? && turn.result.Failed?))
  }

  function Step(r: Reader, o: Sight): Reader { Moved(r, TurnOf(r.stream, o), o) }

  function OutcomeOf(turn: Turn<Stream, Outcome>): Option<Outcome> {
    if turn.Return? then Some(turn.result) else None
  }

  function InnerLsn(sub: Substream): int { sub.segment.base + sub.inner - 1 }

  /** The record of segment `i` at `x` is committed and does not match the filter. */
  predicate NonMatching(s: Space, f: KeyFilter, i: nat, x: int) {
    && Known(s, i)
    && s.bases[i] <= x < End(s, i)
    && s.loglets[i].committed <= |s.loglets[i].log|
    && !Matches(s.loglets[i].log[x - s.bases[i]].keys, f)
  }

  /** What the inner stream of a real loglet may do when polled: pass over records its filter
      drops, then answer at the position it reached. Only released records are shown; a trim gap
      covers trimmed offsets only; it ends only past its bound or after an error. */
  ghost predicate LegalRecord(s: Space, f: KeyFilter, sub: Substream, o: Sight)
    requires Known(s, sub.segment.index)
  {
    var i := sub.segment.index;
    var l := s.loglets[i];
    && sub.inner <= o.skipTo
    && (o.skipTo > sub.inner ==> o.skipTo <= l.released + 1)
    && (forall x {:trigger NonMatching(s, f, i, x)} ::
          InnerLsn(sub) <= x < s.bases[i] + o.skipTo - 1 ==> NonMatching(s, f, i, x))
    && (o.record.InnerError? ==> o.skipTo == sub.inner)
    && (o.record.InnerEnd? ==> sub.broken || (sub.to.Some? && o.skipTo > sub.to.value))
    && (o.record.InnerEntry? ==>
          var e := o.record.entry;
          && e.seqno == o.skipTo <= To(e)
          && match e.payload
             case Data(r) => 1 <= e.seqno <= l.released <= |l.log| && r == l.log[e.seqno - 1]
             case TrimGap(to) => to <= l.trimmed
             case DataLoss(to) => to <= l.released
             case Filtered(to) =>
               && to <= l.released
               && (forall x {:trigger NonMatching(s, f, i, x)} ::
                     s.bases[i] + e.seqno - 1 <= x < s.bases[i] + to ==> NonMatching(s, f, i, x)))
  }

  /** What a substream may show in this turn. A seal marker only ever reports its own base. */
  ghost predicate LegalSubstream(s: Space, f: KeyFilter, sub: Substream, o: Sight) {
    && Known(s, sub.segment.index)
    && if sub.segment.kind == SealMarker then
         && o.skipTo == sub.inner && o.record.InnerPending?
         && (o.tail.Ready? && o.tail.output.Some? ==> o.tail.output.value == TailState.Open(OLDEST))
       else
         && LegalRecord(s, f, sub, o)
         && (o.tail.Ready? && o.tail.output.Some? ==>
               var tail := o.tail.output.value;
               && tail.offset <= s.loglets[sub.segment.index].committed + 1
               && (tail.Open? ==> tail.offset <= s.loglets[sub.segment.index].released + 1)
               && (tail.Sealed? ==> s.loglets[sub.segment.index].sealed))
  }

  predicate LegalLookup(h: seq<LiveChain>, r: Reader, o: Sight)
    requires o.newest <= |h|
  {
    o.find.Ready? && o.find.output.Ok? ==>
      && r.since <= o.lookup <= o.newest && 1 <= o.lookup
      && o.find.output.value == FindSegment(h[o.lookup - 1], r.stream.readPointer)
  }

  /** Answers the environment may give: the metadata a node shows never goes back, a completed watch
      shows the version it waited for, and a lookup is answered from any version between the one its
      node had when it was made and the newest one, so perhaps from an older one than this turn's. */
  ghost predicate Legal(s: Space, h: seq<LiveChain>, r: Reader, o: Sight) {
    && r.node <= o.version <= o.newest <= |h|
    && 1 <= o.version
    && o.chain == Some(h[o.version - 1])
    && (r.stream.watch.Completed? && r.stream.watch.ok ==> o.version >= r.stream.watch.target)
    && LegalLookup(h, r, o)
    && (r.stream.substream.Some? ==> LegalSubstream(s, r.stream.filter, r.stream.substream.value, o))
  }

  // ---------------------------------------------------------------- invariant

  /** A segment handed out by some version of the chain. */
  predicate SegmentOk(s: Space, g: Segment) {
    && Known(s, g.index)
    && (if g.kind == SealMarker
        then g.tail.None? && Frozen(s, g.index) && g.base == End(s, g.index)
        else g.base == s.bases[g.index])
    && (g.tail.Some? ==> EndsAt(s, g.index, g.tail.value))
  }

  predicate SubOk(s: Space, sub: Substream, pointer: Lsn) {
    && SegmentOk(s, sub.segment)
    && if sub.segment.kind == SealMarker then sub.inner == OLDEST && sub.to.None?
       else
         && sub.inner >= OLDEST
         && pointer <= InnerLsn(sub) <= LSN_MAX
         && (InnerLsn(sub) == pointer || InnerLsn(sub) <= End(s, sub.segment.index))
         && (sub.segment.tail.Some? ==> InnerLsn(sub) <= sub.segment.tail.value)
         && (sub.to.Some? ==> sub.segment.tail.Some? && sub.to.value == sub.segment.tail.value - sub.segment.base)
  }

  predicate HasSubstream(state: State) {
    state.Reading? || state.AwaitingReconfiguration? || state.AwaitingOrSealChain? || state.SealingChain?
  }

  /** The state machine's own consistency, with `n` the newest segment its node has seen. */
  predicate StateOk(s: Space, n: int, start: Lsn, t: Stream) {
    && (HasSubstream(t.state) ==> t.substream.Some?)
    && (t.substream.Some? ==> SubOk(s, t.substream.value, t.readPointer) && t.substream.value.segment.index <= n)
    && (t.state.New? || t.state.FindingLoglet? || t.state.CreatingSubstream? ==> t.substream.None?)
    && (t.state.CreatingSubstream? ==>
          var g := t.state.segment;
          && SegmentOk(s, g) && g.index <= n
          && g.base <= t.readPointer && (g.tail.Some? ==> t.readPointer < g.tail.value)
          && (t.readPointer == start || t.readPointer <= End(s, g.index)))
    && (t.state.Reading? ==> t.substream.value.segment.tail.None? ==> t.state.tailWatch)
    && (t.state.AwaitingReconfiguration? ==> t.substream.value.segment.index < n)
    && (t.state.AwaitingOrSealChain? || t.state.SealingChain? ==> t.substream.value.segment.kind != SealMarker)
  }

  /** The read pointer is still at the start or lies within what the node has seen. */
  predicate Reached(s: Space, n: int, start: Lsn, t: Stream) {
    t.readPointer == start || (Known(s, n) && t.readPointer <= End(s, n))
  }

  predicate LocalInv(s: Space, n: int, start: Lsn, t: Stream) {
    t.readPointer >= OLDEST && StateOk(s, n, start, t) && Reached(s, n, start, t)
  }

  predicate WatchOk(t: Stream) {
    if t.checkedVersion == 0 then t.watch == Unset
    else !t.watch.Unset? && t.watch.target == t.checkedVersion + 1
  }

  /** A version in which the read pointer was found live still has it live. */
  predicate TrimCheckOk(h: seq<LiveChain>, node: nat, t: Stream)
    requires node <= |h|
  {
    t.state.Reading? && t.state.trimChecked > 0 ==>
      t.state.trimChecked <= node && h[t.state.trimChecked - 1][0].base <= t.readPointer
  }

  function NodeTail(h: seq<LiveChain>, node: nat): int
    requires node <= |h|
  {
    if node == 0 then -1 else TailIndex(h[node - 1])
  }

  /** The read pointer of a lookup lies within what its node had seen when it was made. */
  predicate LookupInv(s: Space, h: seq<LiveChain>, r: Reader)
    requires r.since <= |h|
  {
    r.stream.state.FindingLoglet? ==> r.since >= 1 && Reached(s, NodeTail(h, r.since), r.start, r.stream)
  }

  ghost predicate StreamInv(s: Space, h: seq<LiveChain>, r: Reader) {
    && r.since <= r.node <= |h|
    && LookupInv(s, h, r)
    && r.stream.checkedVersion <= r.node
    && WatchOk(r.stream)
    && TrimCheckOk(h, r.node, r.stream)
    && LocalInv(s, NodeTail(h, r.node), r.start, r.stream)
  }

  // ---------------------------------------------------------------- what a turn may rely on

  /** Where a chain version with newest segment `n` may place the address `x`. */
  predicate PlacedOk(s: Space, n: int, x: Lsn, m: MaybeSegment) {
    && Known(s, n)
    && (m.Found? ==>
          && SegmentOk(s, m.segment)
          && m.segment.index <= n
          && m.segment.base <= x
          && (m.segment.tail.Some? ==> x < m.segment.tail.value)
          && (m.segment.tail.None? ==> m.segment.index == n))
    && (m.Trim? ==> x < m.nextBase <= End(s, n) && m.nextBase < LSN_MAX)
  }

  /** What a lookup may answer: a segment the node knows, with or without a tail, that holds the read
      pointer as far as it was committed, or a head past it. */
  predicate AnswerOk(s: Space, n: int, start: Lsn, x: Lsn, m: MaybeSegment) {
    && Known(s, n)
    && (m.Found? ==>
          && SegmentOk(s, m.segment)
          && m.segment.index <= n
          && m.segment.base <= x
          && (m.segment.tail.Some? ==> x < m.segment.tail.value)
          && (x == start || x <= End(s, m.segment.index)))
    && (m.Trim? ==> x < m.nextBase <= End(s, n) && m.nextBase < LSN_MAX)
  }

  lemma LookupIsOk(s: Space, c: LiveChain, x: Lsn)
    requires Book(s) && ChainFits(s, c) && x >= OLDEST
    ensures PlacedOk(s, TailIndex(c), x, FindSegment(c, x))
    ensures FindSegment(c, x).Found? <==> c[0].base <= x
  {
  }

  /** What is known of segment `i` next to a segment `n`. */
  predicate SegmentBounds(s: Space, i: nat, n: int) {
    && Known(s, i) && Known(s, n)
    && Valid(s.loglets[i]) && OLDEST <= s.bases[i] && s.bases[i] + |s.loglets[i].log| < LSN_MAX
    && (i <= n ==> End(s, i) <= End(s, n))
  }

  lemma SegmentBoundsHold(s: Space, i: nat, n: nat)
    requires Book(s) && Known(s, i) && Known(s, n)
    ensures SegmentBounds(s, i, n)
  {
    SegmentsAreOrdered(s, i, n);
    SegmentsAreOrdered(s, 0, i);
  }

  predicate ShutDown(t: Stream) { t.watch.Completed? && !t.watch.ok }

  /** The segment a stream is about to read or reading, if any. */
  function CurrentSegment(t: Stream): Option<nat> {
    if t.substream.Some? then Some(t.substream.value.segment.index)
    else if t.state.CreatingSubstream? then Some(t.state.segment.index)
    else None
  }

  /** Everything one turn relies on, free of the chain versions: the node has seen segment `n`, the
      chain of this turn has newest segment `tail` and places the read pointer at `m`. */
  ghost predicate Sees(s: Space, n: int, start: Lsn, t: Stream, m: MaybeSegment, tail: nat, o: Sight) {
    && tail <= n && SegmentBounds(s, tail, n)
    && PlacedOk(s, tail, t.readPointer, m)
    && (t.state.FindingLoglet? && o.find.Ready? && o.find.output.Ok? ==>
          AnswerOk(s, n, start, t.readPointer, o.find.output.value))
    && (t.substream.Some? ==> LegalSubstream(s, t.filter, t.substream.value, o))
    && (CurrentSegment(t).Some? ==> SegmentBounds(s, CurrentSegment(t).value, n))
    && (t.watch.Waiting? || ShutDown(t))
  }

  // ---------------------------------------------------------------- turns keep the stream invariant

  ghost predicate Kept(s: Space, n: int, start: Lsn, t: Stream, turn: Turn<Stream, Outcome>) {
    && LocalInv(s, n, start, turn.state)
    && turn.state.readPointer >= t.readPointer
    && turn.state.endLsn == t.endLsn && turn.state.filter == t.filter
    && turn.state.checkedVersion == t.checkedVersion
    && (WatchOk(t) ==> WatchOk(turn.state))
  }

  lemma FindTurnKeeps(s: Space, n: int, start: Lsn, t: Stream, m: MaybeSegment, tail: nat, o: Sight)
    requires LocalInv(s, n, start, t) && Sees(s, n, start, t, m, tail, o) && t.state.FindingLoglet?
    ensures Kept(s, n, start, t, FindTurn(t, o))
  {
  }

  /** The read pointer lies too far past the segment's base for a 32-bit offset. */
  predicate TooFar(t: Stream) {
    t.state.CreatingSubstream? && t.readPointer - t.state.segment.base + OLDEST > OFFSET_MAX
  }

  lemma CreateTurnKeeps(s: Space, n: int, start: Lsn, t: Stream, m: MaybeSegment, tail: nat, o: Sight)
    requires LocalInv(s, n, start, t) && Sees(s, n, start, t, m, tail, o) && t.state.CreatingSubstream?
    ensures Kept(s, n, start, t, CreateTurn(t, o))
    ensures OutcomeOf(CreateTurn(t, o)) == Some(Panicked) <==> TooFar(t)
    ensures TooFar(t) ==> t.readPointer == start
  {
  }

  lemma AwaitMetadataKeeps(s: Space, n: int, start: Lsn, t: Stream, o: Sight)
    requires LocalInv(s, n, start, t) && (t.watch.Waiting? || ShutDown(t))
    ensures Kept(s, n, start, t, AwaitMetadata(t, o))
  {
  }

  /** An entry lies between the read pointer and the end of its segment, and moves both pointers. */
  lemma EntryFacts(s: Space, sub: Substream, pointer: Lsn, f: KeyFilter, o: Sight)
    requires SubOk(s, sub, pointer) && LegalSubstream(s, f, sub, o) && Valid(s.loglets[sub.segment.index])
    requires s.bases[sub.segment.index] + |s.loglets[sub.segment.index].log| < LSN_MAX
    requires o.record.InnerEntry?
    ensures sub.segment.kind != SealMarker
    ensures WithBaseLsn(o.record.entry, sub.segment.base).Some?
    ensures var e, g := o.record.entry, WithBaseLsn(o.record.entry, sub.segment.base).value;
            && pointer <= g.seqno == sub.segment.base + o.skipTo - 1 <= To(g) < End(s, sub.segment.index)
            && CalculateReadPointer(g) > pointer
            && CalculateReadPointer(g) == Advance(Delivered(g)) <= End(s, sub.segment.index)
            && InnerLsn(sub.(inner := NextOffset(To(e)))) == To(g) + 1
            && SubOk(s, sub.(inner := NextOffset(To(e))), CalculateReadPointer(g))
  {
  }

  /** The stream after an entry of its substream. */
  function AfterEntry(t: Stream, e: LogletEntry, g: Entries.Entry): Stream
    requires t.substream.Some? && 0 <= g.seqno <= LSN_MAX && 0 <= To(g) <= LSN_MAX
  {
    t.(readPointer := CalculateReadPointer(g), substream := Some(t.substream.value.(inner := NextOffset(To(e)))))
  }

  lemma EntryKeeps(s: Space, n: int, start: Lsn, t: Stream, o: Sight)
    requires LocalInv(s, n, start, t) && t.state.Reading? && o.record.InnerEntry?
    requires LegalSubstream(s, t.filter, t.substream.value, o)
    requires SegmentBounds(s, t.substream.value.segment.index, n)
    ensures WithBaseLsn(o.record.entry, t.substream.value.segment.base).Some?
    ensures var g := WithBaseLsn(o.record.entry, t.substream.value.segment.base).value;
            && LocalInv(s, n, start, AfterEntry(t, o.record.entry, g))
            && AfterEntry(t, o.record.entry, g).readPointer > t.readPointer
  {
  }

  lemma SkipKeeps(s: Space, n: int, start: Lsn, t: Stream, o: Sight)
    requires LocalInv(s, n, start, t) && t.state.Reading?
    requires LegalSubstream(s, t.filter, t.substream.value, o)
    requires SegmentBounds(s, t.substream.value.segment.index, n)
    ensures LocalInv(s, n, start, t.(substream := Some(t.substream.value.(inner := o.skipTo))))
  {
  }

  /** What a poll of the substream relies on. */
  ghost predicate Pollable(s: Space, n: int, start: Lsn, t: Stream, o: Sight) {
    && LocalInv(s, n, start, t) && t.state.Reading? && (t.watch.Waiting? || ShutDown(t))
    && LegalSubstream(s, t.filter, t.substream.value, o)
    && SegmentBounds(s, t.substream.value.segment.index, n)
  }

  lemma PendingTurnKeeps(s: Space, n: int, start: Lsn, t: Stream, o: Sight)
    requires Pollable(s, n, start, t, o) && o.record.InnerPending?
    ensures Kept(s, n, start, t, SubstreamTurn(t, o))
  {
    SkipKeeps(s, n, start, t, o);
    AwaitMetadataKeeps(s, n, start, t.(substream := Some(t.substream.value.(inner := o.skipTo))), o);
  }

  lemma EntryTurnKeeps(s: Space, n: int, start: Lsn, t: Stream, o: Sight)
    requires Pollable(s, n, start, t, o) && o.record.InnerEntry?
    ensures Kept(s, n, start, t, SubstreamTurn(t, o))
  {
    EntryKeeps(s, n, start, t, o);
  }

  lemma SubstreamTurnKeeps(s: Space, n: int, start: Lsn, t: Stream, o: Sight)
    requires Pollable(s, n, start, t, o)
    ensures Kept(s, n, start, t, SubstreamTurn(t, o))
  {
    match o.record
    case InnerPending => PendingTurnKeeps(s, n, start, t, o);
    case InnerEntry(_) => EntryTurnKeeps(s, n, start, t, o);
    case InnerEnd =>
    case InnerError =>
  }

  /** A tail that the loglet reports translates to an LSN. */
  lemma WatchedTailFits(s: Space, n: int, start: Lsn, t: Stream, o: Sight)
    requires Pollable(s, n, start, t, o) && o.tail.Ready? && o.tail.output.Some?
    ensures WatchedTail(t.substream.value.segment, o.tail.output.value).Some?
  {
  }

  lemma SafeTailKeeps(s: Space, n: int, start: Lsn, t: Stream, o: Sight, lsn: Option<Lsn>)
    requires Pollable(s, n, start, t, o)
    ensures var u := t.(state := t.state.(safeKnownTail := lsn));
            Kept(s, n, start, t, SubstreamTurn(u, o))
  {
    SubstreamTurnKeeps(s, n, start, t.(state := t.state.(safeKnownTail := lsn)), o);
  }

  lemma TailTurnKeeps(s: Space, n: int, start: Lsn, t: Stream, tail: nat, o: Sight)
    requires Pollable(s, n, start, t, o)
    requires t.substream.value.segment.tail.None? && tail <= n
    ensures Kept(s, n, start, t, TailTurn(t, tail, o))
  {
    match o.tail
    case Pending => AwaitMetadataKeeps(s, n, start, t, o);
    case Ready(None) =>
    case Ready(Some(reported)) =>
      WatchedTailFits(s, n, start, t, o);
      SafeTailKeeps(s, n, start, t, o, WatchedTail(t.substream.value.segment, reported));
  }

  lemma LiveTurnKeeps(s: Space, n: int, start: Lsn, t: Stream, m: MaybeSegment, tail: nat, o: Sight)
    requires LocalInv(s, n, start, t) && Sees(s, n, start, t, m, tail, o) && t.state.Reading?
    ensures Kept(s, n, start, t, LiveTurn(t, tail, o))
  {
    var known := t.substream.value.segment.tail;
    if known.None? { TailTurnKeeps(s, n, start, t, tail, o); }
    SubstreamTurnKeeps(s, n, start, t, o);
  }

  lemma ReadingTurnKeeps(s: Space, n: int, start: Lsn, t: Stream, m: MaybeSegment, tail: nat, o: Sight)
    requires LocalInv(s, n, start, t) && Sees(s, n, start, t, m, tail, o) && t.state.Reading?
    ensures Kept(s, n, start, t, ReadingTurn(t, m, tail, o, false))
  {
    LiveTurnKeeps(s, n, start, t, m, tail, o);
    LiveTurnKeeps(s, n, start, t.(state := t.state.(trimChecked := o.version)), m, tail, o);
  }

  lemma StalledTurnKeeps(s: Space, n: int, start: Lsn, t: Stream, m: MaybeSegment, tail: nat, o: Sight)
    requires LocalInv(s, n, start, t) && Sees(s, n, start, t, m, tail, o)
    requires t.state.AwaitingReconfiguration? || t.state.AwaitingOrSealChain?
    ensures Kept(s, n, start, t, StalledTurn(t, m, o))
  {
    AwaitMetadataKeeps(s, n, start, t, o);
    var sub := t.substream.value;
    if CheckChain(m, sub.segment.index, sub.segment.kind).TailLsnSet? {
      assert SubOk(s, sub.(segment := sub.segment.(tail := m.segment.tail)), t.readPointer);
    }
  }

  lemma StateTurnKeeps(s: Space, n: int, start: Lsn, t: Stream, m: MaybeSegment, tail: nat, o: Sight)
    requires LocalInv(s, n, start, t) && Sees(s, n, start, t, m, tail, o)
    ensures Kept(s, n, start, t, StateTurn(t, m, tail, o, false))
  {
    match t.state
    case New =>
    case FindingLoglet => FindTurnKeeps(s, n, start, t, m, tail, o);
    case CreatingSubstream(_) => CreateTurnKeeps(s, n, start, t, m, tail, o);
    case Reading(_, _, _) => ReadingTurnKeeps(s, n, start, t, m, tail, o);
    case AwaitingReconfiguration => StalledTurnKeeps(s, n, start, t, m, tail, o);
    case AwaitingOrSealChain => StalledTurnKeeps(s, n, start, t, m, tail, o);
    case SealingChain =>
    case Terminated =>
  }

  // ---------------------------------------------------------------- when a turn panics

  /** The substream is polled and has nothing yet. */
  predicate PollsInner(t: Stream, o: Sight)
    requires t.substream.Some?
  {
    var sub := t.substream.value;
    (sub.segment.tail.Some? ==> InnerLsn(sub) < sub.segment.tail.value) && o.record.InnerPending?
  }

  /** A stream that is reading gets to poll its substream: it stands before the tail of a sealed segment, or
      in an open one before a tail it may read up to. */
  predicate ReachesInner(t: Stream, tail: nat, o: Sight)
    requires t.state.Reading? && t.substream.Some?
  {
    var g, safe := t.substream.value.segment, t.state.safeKnownTail;
    if g.tail.Some? then t.readPointer < g.tail.value
    else
      || (safe.Some? && t.readPointer < safe.value)
      || (tail <= g.index && o.tail.Ready? && o.tail.output.Some? && o.tail.output.value.Open?)
  }

  /** The turn polls the metadata watch: a reading stream with nothing to read or waiting for the tail of
      an open segment, or a stream that waits for the chain and sees it unchanged. */
  predicate PollsWatch(t: Stream, m: MaybeSegment, tail: nat, o: Sight) {
    && t.substream.Some?
    && var g := t.substream.value.segment;
       match t.state
       case Reading(safe, _, checked) =>
         && (checked == o.version || m.Found?)
         && (|| (ReachesInner(t, tail, o) && PollsInner(t, o))
             || (g.tail.None? && (safe.None? || t.readPointer >= safe.value) && tail <= g.index && o.tail.Pending?))
       case AwaitingReconfiguration => CheckChain(m, g.index, g.kind).NoChange?
       case AwaitingOrSealChain => CheckChain(m, g.index, g.kind).NoChange? && !o.patienceLost
       case _ => false
  }

  lemma SubstreamPanicsIff(s: Space, n: int, start: Lsn, t: Stream, o: Sight)
    requires Pollable(s, n, start, t, o)
    ensures OutcomeOf(SubstreamTurn(t, o)) == Some(Panicked) <==> ShutDown(t) && PollsInner(t, o)
  {
    if o.record.InnerEntry? { EntryFacts(s, t.substream.value, t.readPointer, t.filter, o); }
  }

  lemma LivePanicsIff(s: Space, n: int, start: Lsn, t: Stream, m: MaybeSegment, tail: nat, o: Sight)
    requires Pollable(s, n, start, t, o) && (t.state.trimChecked == o.version || m.Found?)
    ensures OutcomeOf(LiveTurn(t, tail, o)) == Some(Panicked) <==> ShutDown(t) && PollsWatch(t, m, tail, o)
  {
    SubstreamPanicsIff(s, n, start, t, o);
    if o.tail.Ready? && o.tail.output.Some? {
      WatchedTailFits(s, n, start, t, o);
      var lsn := WatchedTail(t.substream.value.segment, o.tail.output.value);
      SubstreamPanicsIff(s, n, start, t.(state := t.state.(safeKnownTail := lsn)), o);
    }
  }

  lemma ReadingPanicsIff(s: Space, n: int, start: Lsn, t: Stream, m: MaybeSegment, tail: nat, o: Sight)
    requires Pollable(s, n, start, t, o)
    ensures OutcomeOf(ReadingTurn(t, m, tail, o, false)) == Some(Panicked) <==> ShutDown(t) && PollsWatch(t, m, tail, o)
  {
    if t.state.trimChecked == o.version { LivePanicsIff(s, n, start, t, m, tail, o); }
    else if m.Found? { LivePanicsIff(s, n, start, t.(state := t.state.(trimChecked := o.version)), m, tail, o); }
  }

  /** A turn panics exactly when the stream starts too far past a base, or when it polls a metadata
      watch that has already reported shutdown. */
  lemma StatePanicsIff(s: Space, n: int, start: Lsn, t: Stream, m: MaybeSegment, tail: nat, o: Sight)
    requires LocalInv(s, n, start, t) && Sees(s, n, start, t, m, tail, o)
    ensures OutcomeOf(StateTurn(t, m, tail, o, false)) == Some(Panicked) <==>
            TooFar(t) || (ShutDown(t) && PollsWatch(t, m, tail, o))
    ensures TooFar(t) ==> t.readPointer == start
  {
    match t.state
    case CreatingSubstream(_) => CreateTurnKeeps(s, n, start, t, m, tail, o);
    case Reading(_, _, _) => ReadingPanicsIff(s, n, start, t, m, tail, o);
    case _ =>
  }

  // ---------------------------------------------------------------- from the world to one turn

  /** A lookup below the head of a version only passes over trimmed addresses. */
  ghost predicate TrimmedBelow(s: Space, m: MaybeSegment) {
    m.Trim? ==> forall x {:trigger AddressTrimmed(s, x)} :: OLDEST <= x < m.nextBase ==> AddressTrimmed(s, x)
  }

  predicate TrimmedAt(s: Space, i: nat, x: int) {
    Known(s, i) && s.bases[i] <= x < s.bases[i] + s.loglets[i].trimmed
  }

  ghost predicate AddressTrimmed(s: Space, x: int) {
    exists i: nat :: TrimmedAt(s, i, x)
  }

  lemma BelowHeadIsTrimmed(s: Space, c: Chain, x: Lsn)
    requires Book(s) && ChainFits(s, c) && OLDEST <= x < c[0].base
    ensures AddressTrimmed(s, x)
  {
    assert EntryFits(s, c[0]);
    var n := c[0].index;
    var i;
    if c[0].kind == SealMarker {
      i := Locate(s, x, n);
    } else {
      assert n > 0 && End(s, n - 1) == s.bases[n];
      i := Locate(s, x, n - 1);
    }
    assert i < Dropped(c) && FullyTrimmed(s, i);
    assert TrimmedAt(s, i, x);
  }

  lemma LookupPassesTrimmed(s: Space, c: LiveChain, x: Lsn)
    requires Book(s) && ChainFits(s, c) && x >= OLDEST
    ensures TrimmedBelow(s, FindSegment(c, x))
  {
    FindSegmentIsTheHolder(c, x);
    if FindSegment(c, x).Trim? {
      forall y | OLDEST <= y < c[0].base ensures AddressTrimmed(s, y) { BelowHeadIsTrimmed(s, c, y); }
    }
  }

  /** The reader with its view brought up to the version it sees. */
  function Updated(r: Reader, o: Sight): Reader {
    r.(stream := Checked(r.stream, o.version), node := o.newest)
  }

  /** Seeing a newer version keeps the invariant, and leaves a watch that has not completed
      unless the metadata manager has shut down. */
  lemma UpdatedKeeps(s: Space, h: seq<LiveChain>, r: Reader, o: Sight)
    requires StreamInv(s, h, r) && Legal(s, h, r, o)
    requires NodeTail(h, r.node) <= NodeTail(h, o.newest) && Known(s, NodeTail(h, o.newest))
    requires r.node > 0 ==> SegmentBounds(s, NodeTail(h, r.node), NodeTail(h, o.newest))
    ensures StreamInv(s, h, Updated(r, o))
    ensures ShutDown(Updated(r, o).stream) ==> ShutDown(r.stream)
    ensures Updated(r, o).stream.watch.Waiting? || ShutDown(Updated(r, o).stream)
  {
  }

  /** The chain of this turn and where it places the read pointer. */
  function Placed(h: seq<LiveChain>, r: Reader, o: Sight): MaybeSegment
    requires 1 <= o.version <= |h|
  {
    FindSegment(h[o.version - 1], r.stream.readPointer)
  }

  /** What the world says of two versions, the older first, and of an address. */
  ghost predicate VersionFacts(s: Space, h: seq<LiveChain>, u: nat, v: nat, x: Lsn) {
    && 1 <= u <= v <= |h|
    && TailIndex(h[u - 1]) <= TailIndex(h[v - 1])
    && SegmentBounds(s, TailIndex(h[u - 1]), TailIndex(h[v - 1]))
    && PlacedOk(s, TailIndex(h[u - 1]), x, FindSegment(h[u - 1], x))
    && PlacedOk(s, TailIndex(h[v - 1]), x, FindSegment(h[v - 1], x))
  }

  lemma WorldGivesVersionFacts(s: Space, h: seq<LiveChain>, u: nat, v: nat, x: Lsn)
    requires World(s, h) && 1 <= u <= v <= |h| && x >= OLDEST
    ensures VersionFacts(s, h, u, v, x)
  {
    assert NotBefore(h[u - 1], h[v - 1]);
    LookupIsOk(s, h[u - 1], x);
    LookupIsOk(s, h[v - 1], x);
    SegmentBoundsHold(s, TailIndex(h[u - 1]), TailIndex(h[v - 1]));
  }

  /** A lookup made when the node had seen segment `a`, read when the newest was `b`. */
  lemma AnswerIsOk(s: Space, a: nat, b: nat, n: nat, start: Lsn, x: Lsn, m: MaybeSegment)
    requires PlacedOk(s, b, x, m) && a <= b <= n && SegmentBounds(s, a, b) && SegmentBounds(s, b, n)
    requires x == start || x <= End(s, a)
    ensures AnswerOk(s, n, start, x, m)
  {
  }

  /** A lookup that read version `w` answers with what the node knows by version `v`. */
  lemma WorldGivesAnswer(s: Space, h: seq<LiveChain>, u: nat, w: nat, v: nat, start: Lsn, x: Lsn)
    requires World(s, h) && 1 <= u <= w <= v <= |h| && x >= OLDEST
    requires x == start || (Known(s, TailIndex(h[u - 1])) && x <= End(s, TailIndex(h[u - 1])))
    ensures AnswerOk(s, TailIndex(h[v - 1]), start, x, FindSegment(h[w - 1], x))
  {
    WorldGivesVersionFacts(s, h, u, w, x);
    WorldGivesVersionFacts(s, h, w, v, x);
    AnswerIsOk(s, TailIndex(h[u - 1]), TailIndex(h[w - 1]), TailIndex(h[v - 1]), start, x, FindSegment(h[w - 1], x));
  }

  /** Where the loglet lookup of a turn, if answered, may place the read pointer. */
  predicate LookupFacts(s: Space, h: seq<LiveChain>, r: Reader, o: Sight)
    requires o.newest <= |h|
  {
    r.stream.state.FindingLoglet? && o.find.Ready? && o.find.output.Ok? ==>
      AnswerOk(s, NodeTail(h, o.newest), r.start, r.stream.readPointer, o.find.output.value)
  }

  lemma WorldGivesLookupFacts(s: Space, h: seq<LiveChain>, r: Reader, o: Sight)
    requires World(s, h) && r.since <= |h| && LookupInv(s, h, r) && r.stream.readPointer >= OLDEST
    requires o.newest <= |h| && LegalLookup(h, r, o)
    ensures LookupFacts(s, h, r, o)
  {
    if r.stream.state.FindingLoglet? && o.find.Ready? && o.find.output.Ok? {
      WorldGivesAnswer(s, h, r.since, o.lookup, o.newest, r.start, r.stream.readPointer);
    }
  }

  /** All that a turn takes from the world. */
  ghost predicate TurnFacts(s: Space, h: seq<LiveChain>, r: Reader, o: Sight) {
    && VersionFacts(s, h, o.version, o.newest, r.stream.readPointer)
    && (r.node > 0 ==> VersionFacts(s, h, r.node, o.newest, r.stream.readPointer))
    && (CurrentSegment(r.stream).Some? ==> SegmentBounds(s, CurrentSegment(r.stream).value, NodeTail(h, o.newest)))
  }

  lemma WorldGivesTurnFacts(s: Space, h: seq<LiveChain>, r: Reader, o: Sight)
    requires World(s, h) && r.stream.readPointer >= OLDEST && 1 <= o.version <= o.newest <= |h| && r.node <= o.newest
    requires CurrentSegment(r.stream).Some? ==> Known(s, CurrentSegment(r.stream).value)
    ensures TurnFacts(s, h, r, o)
  {
    WorldGivesVersionFacts(s, h, o.version, o.newest, r.stream.readPointer);
    if r.node > 0 { WorldGivesVersionFacts(s, h, r.node, o.newest, r.stream.readPointer); }
    if CurrentSegment(r.stream).Some? {
      SegmentBoundsHold(s, CurrentSegment(r.stream).value, NodeTail(h, o.newest));
    }
  }

  lemma FactsGiveSight(s: Space, h: seq<LiveChain>, r: Reader, o: Sight)
    requires StreamInv(s, h, r) && Legal(s, h, r, o) && TurnFacts(s, h, r, o) && LookupFacts(s, h, r, o)
    ensures StreamInv(s, h, Updated(r, o))
    ensures Sees(s, NodeTail(h, o.newest), r.start, Updated(r, o).stream, Placed(h, r, o), TailIndex(h[o.version - 1]), o)
    ensures ShutDown(Updated(r, o).stream) <==> ShutDown(r.stream) && o.version <= r.stream.checkedVersion
  {
    UpdatedKeeps(s, h, r, o);
  }

  lemma TurnSees(s: Space, h: seq<LiveChain>, r: Reader, o: Sight)
    requires World(s, h) && StreamInv(s, h, r) && Legal(s, h, r, o)
    ensures StreamInv(s, h, Updated(r, o))
    ensures Sees(s, NodeTail(h, o.newest), r.start, Updated(r, o).stream, Placed(h, r, o), TailIndex(h[o.version - 1]), o)
    ensures ShutDown(Updated(r, o).stream) <==> ShutDown(r.stream) && o.version <= r.stream.checkedVersion
  {
    WorldGivesTurnFacts(s, h, r, o);
    WorldGivesLookupFacts(s, h, r, o);
    FactsGiveSight(s, h, r, o);
  }

  /** A turn that leaves the stream reading keeps its trim check, drops it, or renews it for a
      version that holds the read pointer. */
  lemma TrimCheckKept(t: Stream, m: MaybeSegment, tail: nat, o: Sight)
    ensures var u := StateTurn(t, m, tail, o, false).state;
            u.state.Reading? && u.state.trimChecked > 0 ==>
              || (u.state.trimChecked == o.version && m.Found?)
              || (t.state.Reading? && u.state.trimChecked == t.state.trimChecked)
  {
  }
}
