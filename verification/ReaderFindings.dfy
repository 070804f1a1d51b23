/** Runs, all within the loglet contract, in which a read stream does not do what its interface
    suggests: it ends before its end LSN, delivers past it, leaves an overlap, or panics. */
module ReaderFindings {
  import opened Outcomes
  import opened Addresses
  import opened Entries
  import opened Chains
  import opened Loglets
  import opened VirtualLog
  import opened ReadStreams
  import opened Readers
  import opened ReaderTraces
  import opened ReaderLimits

  /** Every sight is one the environment may give at that point, in a log that stands still. */
  ghost predicate LegalRun(s: Space, h: seq<LiveChain>, r: Reader, os: seq<Sight>)
    decreases |os|
  {
    os == [] || (Legal(s, h, r, os[0]) && LegalRun(s, h, Step(r, os[0]), os[1..]))
  }

  lemma Prepend(s: Space, h: seq<LiveChain>, r: Reader, o: Sight, os: seq<Sight>)
    requires Legal(s, h, r, o) && LegalRun(s, h, Step(r, o), os)
    ensures LegalRun(s, h, r, [o] + os) && Steps(r, [o] + os) == Steps(Step(r, o), os)
  {
    assert ([o] + os)[1..] == os;
  }

  const FILTER := Include(5)
  const WANTED := Record(Single(5), 0)
  const OTHER := Record(Single(7), 0)

  function Nothing(c: LiveChain): Sight {
    Sight(1, Some(c), 1, 1, Pending, Pending, Pending, OLDEST, InnerPending, Pending, false, false)
  }

  /** The three turns that open a substream on the segment holding the start. */
  function Opening(c: LiveChain, start: Lsn): seq<Sight> {
    [Nothing(c)] + ([Nothing(c).(find := Ready(Ok(FindSegment(c, start))))] + [Nothing(c).(create := Ready(true))])
  }

  /** The reader once its substream is open. */
  function Opened(f: KeyFilter, c: LiveChain, start: Lsn, end: Lsn): Reader
    requires FindSegment(c, start).Found? && StreamBounds(FindSegment(c, start).segment, start).Some?
  {
    var g := FindSegment(c, start).segment;
    var (from, to) := StreamBounds(g, start).value;
    Reader(Stream(start, end, f, 1, Waiting(2), Reading(g.tail, g.tail.None?, 0),
                  Some(Substream(g, if g.kind == SealMarker then OLDEST else from, to, false))), 1, 1, start, [], false)
  }

  lemma OpeningSteps(f: KeyFilter, c: LiveChain, start: Lsn, end: Lsn)
    requires OLDEST <= start <= end && start < LSN_MAX && FindSegment(c, start).Found?
    requires StreamBounds(FindSegment(c, start).segment, start).Some?
    ensures var n := Nothing(c);
            Step(Step(Step(OpenReader(f, start, end), n), n.(find := Ready(Ok(FindSegment(c, start))))),
                 n.(create := Ready(true))) == Opened(f, c, start, end)
  {
  }

  lemma OpeningRuns(s: Space, f: KeyFilter, c: LiveChain, start: Lsn, end: Lsn, rest: seq<Sight>)
    requires OLDEST <= start <= end && start < LSN_MAX && FindSegment(c, start).Found?
    requires StreamBounds(FindSegment(c, start).segment, start).Some?
    requires LegalRun(s, [c], Opened(f, c, start, end), rest)
    ensures LegalRun(s, [c], OpenReader(f, start, end), Opening(c, start) + rest)
    ensures Steps(OpenReader(f, start, end), Opening(c, start) + rest) == Steps(Opened(f, c, start, end), rest)
  {
    var n := Nothing(c);
    var r0 := OpenReader(f, start, end);
    var o2, o3 := n.(find := Ready(Ok(FindSegment(c, start)))), n.(create := Ready(true));
    OpeningSteps(f, c, start, end);
    var r1 := Step(r0, n);
    var r2 := Step(r1, o2);
    Prepend(s, [c], r2, o3, rest);
    Prepend(s, [c], r1, o2, [o3] + rest);
    Prepend(s, [c], r0, n, [o2] + ([o3] + rest));
    assert Opening(c, start) + rest == [n] + ([o2] + ([o3] + rest));
  }

  lemma OneMore(s: Space, h: seq<LiveChain>, r: Reader, o: Sight)
    requires Legal(s, h, r, o)
    ensures LegalRun(s, h, r, [o]) && Steps(r, [o]) == Step(r, o)
  {
    Prepend(s, h, r, o, []);
    assert [o] + [] == [o];
  }

  // ---------------------------------------------------------------- ending early

  /** Two segments: the first sealed and all filtered out, the second holding a wanted record. */
  const SEALED_THEN_OPEN :=
    Space([1, 3], [Loglet([OTHER, OTHER], 2, 2, 0, true, true), Loglet([WANTED], 1, 1, 0, false, false)])

  const TWO_SEGMENTS: LiveChain := [Chains.Entry(1, 0, Local, Blob("")), Chains.Entry(3, 1, Local, Blob(""))]

  lemma TwoSegmentsAreAWorld()
    ensures World(SEALED_THEN_OPEN, [TWO_SEGMENTS])
    ensures FindSegment(TWO_SEGMENTS, 1) == Found(Segment(1, Some(3), 0, Local, Blob("")))
  {
    var c: Chain := TWO_SEGMENTS;
    assert c[..1] == [c[0]];
    assert LastAtOrBelow(c, 1) == LastAtOrBelow(c[..1], 1);
    assert EntryFits(SEALED_THEN_OPEN, c[0]) && EntryFits(SEALED_THEN_OPEN, c[1]);
    assert LinkFits(SEALED_THEN_OPEN, c[0], c[1]);
  }

  /** The inner stream passes over both filtered records; polled again, the stream ends. */
  lemma FilteredSegmentIsLegal()
    ensures FindSegment(TWO_SEGMENTS, 1).Found? && StreamBounds(FindSegment(TWO_SEGMENTS, 1).segment, 1).Some?
    ensures var r, o := Opened(FILTER, TWO_SEGMENTS, 1, LSN_MAX), Nothing(TWO_SEGMENTS).(skipTo := 3);
            && Legal(SEALED_THEN_OPEN, [TWO_SEGMENTS], r, o)
            && Legal(SEALED_THEN_OPEN, [TWO_SEGMENTS], Step(r, o), o)
            && Step(r, o).stream.readPointer == 1
            && OutcomeOf(TurnOf(Step(r, o).stream, o)) == Some(Finished)
  {
    TwoSegmentsAreAWorld();
    var f := FILTER;
    assert !Matches(OTHER.keys, f);
    assert NonMatching(SEALED_THEN_OPEN, f, 0, 1) && NonMatching(SEALED_THEN_OPEN, f, 0, 2);
  }

  /** A reader of the whole log ends although a record it asks for lies ahead, because the trailing
      records of a sealed segment were dropped by the loglet's filter. */
  lemma StreamEndsEarly() returns (os: seq<Sight>, o: Sight)
    ensures World(SEALED_THEN_OPEN, [TWO_SEGMENTS])
    ensures LegalRun(SEALED_THEN_OPEN, [TWO_SEGMENTS], OpenReader(FILTER, 1, LSN_MAX), os)
    ensures var r := Steps(OpenReader(FILTER, 1, LSN_MAX), os);
            && Legal(SEALED_THEN_OPEN, [TWO_SEGMENTS], r, o)
            && OutcomeOf(TurnOf(r.stream, o)) == Some(Finished)
            && r.stream.readPointer == 1
    ensures Holds(SEALED_THEN_OPEN, 3, 1, WANTED) && Matches(WANTED.keys, FILTER)
  {
    TwoSegmentsAreAWorld();
    var s, c := SEALED_THEN_OPEN, TWO_SEGMENTS;
    o := Nothing(c).(skipTo := 3);
    var r := Opened(FILTER, c, 1, LSN_MAX);
    FilteredSegmentIsLegal();
    OneMore(s, [c], r, o);
    OpeningRuns(s, FILTER, c, 1, LSN_MAX, [o]);
    os := Opening(c, 1) + [o];
  }

  /** So does a reader without a filter when a gap of several LSNs reaches the tail of a sealed segment. */
  lemma WideGapEndsStream() returns (os: seq<Sight>, o: Sight)
    ensures World(SEALED_THEN_OPEN, [TWO_SEGMENTS])
    ensures LegalRun(SEALED_THEN_OPEN, [TWO_SEGMENTS], OpenReader(Any, 1, LSN_MAX), os)
    ensures var r := Steps(OpenReader(Any, 1, LSN_MAX), os);
            && Legal(SEALED_THEN_OPEN, [TWO_SEGMENTS], r, o)
            && OutcomeOf(TurnOf(r.stream, o)) == Some(Finished)
            && r.stream.readPointer == 2
    ensures Holds(SEALED_THEN_OPEN, 3, 1, WANTED)
  {
    TwoSegmentsAreAWorld();
    var s, c := SEALED_THEN_OPEN, TWO_SEGMENTS;
    LossReachesTail();
    var gap := Nothing(c).(record := InnerEntry(Entries.Entry(1, DataLoss(2))));
    OneMore(s, [c], Opened(Any, c, 1, LSN_MAX), gap);
    OpeningRuns(s, Any, c, 1, LSN_MAX, [gap]);
    os, o := Opening(c, 1) + [gap], Nothing(c).(skipTo := 3);
  }

  lemma LossReachesTail()
    ensures FindSegment(TWO_SEGMENTS, 1).Found? && StreamBounds(FindSegment(TWO_SEGMENTS, 1).segment, 1).Some?
    ensures var r, gap := Opened(Any, TWO_SEGMENTS, 1, LSN_MAX), Nothing(TWO_SEGMENTS).(record := InnerEntry(Entries.Entry(1, DataLoss(2))));
            && Legal(SEALED_THEN_OPEN, [TWO_SEGMENTS], r, gap)
            && Legal(SEALED_THEN_OPEN, [TWO_SEGMENTS], Step(r, gap), Nothing(TWO_SEGMENTS).(skipTo := 3))
            && Step(r, gap).stream.readPointer == 2
            && OutcomeOf(TurnOf(Step(r, gap).stream, Nothing(TWO_SEGMENTS).(skipTo := 3))) == Some(Finished)
  {
    TwoSegmentsAreAWorld();
  }

  const FIRST_VERSION: LiveChain := LOCAL_SEGMENT

  /** A lookup made at version 1 may be answered after version 2 has given its segment a tail: the stream
      then opens a segment it takes for open. */
  lemma LookupMayBeStale() returns (r: Reader, o: Sight)
    ensures World(SEALED_THEN_OPEN, [FIRST_VERSION, TWO_SEGMENTS])
    ensures StreamInv(SEALED_THEN_OPEN, [FIRST_VERSION, TWO_SEGMENTS], r)
    ensures Legal(SEALED_THEN_OPEN, [FIRST_VERSION, TWO_SEGMENTS], r, o) && o.version == 2
    ensures Step(r, o).stream.state == CreatingSubstream(Segment(1, None, 0, Local, Blob("")))
    ensures FindSegment(TWO_SEGMENTS, r.stream.readPointer) == Found(Segment(1, Some(3), 0, Local, Blob("")))
  {
    TwoSegmentsAreAWorld();
    var s, h := SEALED_THEN_OPEN, [FIRST_VERSION, TWO_SEGMENTS];
    assert EntryFits(s, FIRST_VERSION[0]);
    assert World(s, h) by { assert [TWO_SEGMENTS][0] == TWO_SEGMENTS; }
    r := Step(OpenReader(FILTER, 1, LSN_MAX), Nothing(FIRST_VERSION));
    o := Nothing(TWO_SEGMENTS).(version := 2, newest := 2, lookup := 1, find := Ready(Ok(FindSegment(FIRST_VERSION, 1))));
  }

  // ---------------------------------------------------------------- one open segment

  const OPEN_SEGMENT := Space([1], [Loglet([OTHER, OTHER, WANTED, WANTED], 4, 4, 0, false, false)])

  const ONE_SEGMENT: LiveChain := [Chains.Entry(1, 0, Replicated, ReplicatedParams(0))]

  const LOCAL_SEGMENT: LiveChain := [Chains.Entry(1, 0, Local, Blob(""))]

  lemma LocalSegmentIsAWorld()
    ensures World(OPEN_SEGMENT, [LOCAL_SEGMENT])
    ensures FindSegment(LOCAL_SEGMENT, 1) == Found(Segment(1, None, 0, Local, Blob("")))
  {
    assert EntryFits(OPEN_SEGMENT, LOCAL_SEGMENT[0]);
  }

  lemma OneSegmentIsAWorld(start: Lsn)
    requires start >= 1
    ensures World(OPEN_SEGMENT, [ONE_SEGMENT])
    ensures FindSegment(ONE_SEGMENT, start) == Found(Segment(1, None, 0, Replicated, ReplicatedParams(0)))
  {
    assert EntryFits(OPEN_SEGMENT, ONE_SEGMENT[0]);
  }

  /** A stream bounded by LSN 1 delivers the record at LSN 3. */
  lemma StreamOvershootsEnd() returns (os: seq<Sight>, o: Sight)
    ensures World(OPEN_SEGMENT, [LOCAL_SEGMENT])
    ensures LegalRun(OPEN_SEGMENT, [LOCAL_SEGMENT], OpenReader(FILTER, 1, 1), os)
    ensures var r := Steps(OpenReader(FILTER, 1, 1), os);
            && Legal(OPEN_SEGMENT, [LOCAL_SEGMENT], r, o)
            && OutcomeOf(TurnOf(r.stream, o)) == Some(Item(Entries.Entry(3, Data(WANTED))))
  {
    LocalSegmentIsAWorld();
    RecordPastEnd();
    OpeningRuns(OPEN_SEGMENT, FILTER, LOCAL_SEGMENT, 1, 1, []);
    os := Opening(LOCAL_SEGMENT, 1) + [];
    o := THIRD_RECORD;
  }

  const THIRD_RECORD :=
    Nothing(LOCAL_SEGMENT).(skipTo := 3, tail := Ready(Some(TailState.Open(4))), record := InnerEntry(Entries.Entry(3, Data(WANTED))))

  lemma RecordPastEnd()
    ensures FindSegment(LOCAL_SEGMENT, 1).Found? && StreamBounds(FindSegment(LOCAL_SEGMENT, 1).segment, 1).Some?
    ensures var r := Opened(FILTER, LOCAL_SEGMENT, 1, 1);
            && Legal(OPEN_SEGMENT, [LOCAL_SEGMENT], r, THIRD_RECORD)
            && OutcomeOf(TurnOf(r.stream, THIRD_RECORD)) == Some(Item(Entries.Entry(3, Data(WANTED))))
  {
    LocalSegmentIsAWorld();
    var f := FILTER;
    assert !Matches(OTHER.keys, f);
    assert NonMatching(OPEN_SEGMENT, f, 0, 1) && NonMatching(OPEN_SEGMENT, f, 0, 2);
  }

  /** Without a filter, a stream bounded by LSN 2 delivers the record at LSN 4 after a data-loss gap over
      the first three. */
  lemma WideGapOvershootsEnd() returns (os: seq<Sight>, o: Sight)
    ensures World(OPEN_SEGMENT, [ONE_SEGMENT])
    ensures LegalRun(OPEN_SEGMENT, [ONE_SEGMENT], OpenReader(Any, 1, 2), os)
    ensures var r := Steps(OpenReader(Any, 1, 2), os);
            && Legal(OPEN_SEGMENT, [ONE_SEGMENT], r, o)
            && OutcomeOf(TurnOf(r.stream, o)) == Some(Item(Entries.Entry(4, Data(WANTED))))
  {
    OneSegmentIsAWorld(1);
    var s, c := OPEN_SEGMENT, ONE_SEGMENT;
    var gap := Nothing(c).(tail := Ready(Some(TailState.Open(5))), record := InnerEntry(Entries.Entry(1, DataLoss(3))));
    LossThenRecord(gap);
    OneMore(s, [c], Opened(Any, c, 1, 2), gap);
    OpeningRuns(s, Any, c, 1, 2, [gap]);
    os := Opening(c, 1) + [gap];
    o := Nothing(c).(skipTo := 4, record := InnerEntry(Entries.Entry(4, Data(WANTED))));
  }

  lemma LossThenRecord(gap: Sight)
    requires gap == Nothing(ONE_SEGMENT).(tail := Ready(Some(TailState.Open(5))), record := InnerEntry(Entries.Entry(1, DataLoss(3))))
    ensures FindSegment(ONE_SEGMENT, 1).Found? && StreamBounds(FindSegment(ONE_SEGMENT, 1).segment, 1).Some?
    ensures var r, o := Opened(Any, ONE_SEGMENT, 1, 2), Nothing(ONE_SEGMENT).(skipTo := 4, record := InnerEntry(Entries.Entry(4, Data(WANTED))));
            && Legal(OPEN_SEGMENT, [ONE_SEGMENT], r, gap)
            && Legal(OPEN_SEGMENT, [ONE_SEGMENT], Step(r, gap), o)
            && OutcomeOf(TurnOf(Step(r, gap).stream, o)) == Some(Item(Entries.Entry(4, Data(WANTED))))
  {
    OneSegmentIsAWorld(1);
  }

  /** After a read error an inner stream may end: polled once more, an unfiltered stream of the whole log
      ends in an open segment although a record lies ahead and nothing was lost. */
  lemma ReadErrorEndsStream() returns (os: seq<Sight>, o: Sight)
    ensures World(OPEN_SEGMENT, [LOCAL_SEGMENT])
    ensures LegalRun(OPEN_SEGMENT, [LOCAL_SEGMENT], OpenReader(Any, 1, LSN_MAX), os)
    ensures var r := Steps(OpenReader(Any, 1, LSN_MAX), os);
            && Legal(OPEN_SEGMENT, [LOCAL_SEGMENT], r, o)
            && OutcomeOf(TurnOf(r.stream, o)) == Some(Finished)
            && r.stream.readPointer == 1 && r.trace == [] && r.failed
    ensures Holds(OPEN_SEGMENT, 1, 0, OTHER)
  {
    LocalSegmentIsAWorld();
    ErrorThenEnd();
    OneMore(OPEN_SEGMENT, [LOCAL_SEGMENT], Opened(Any, LOCAL_SEGMENT, 1, LSN_MAX), READ_ERROR);
    OpeningRuns(OPEN_SEGMENT, Any, LOCAL_SEGMENT, 1, LSN_MAX, [READ_ERROR]);
    os, o := Opening(LOCAL_SEGMENT, 1) + [READ_ERROR], READ_ERROR.(record := InnerEnd);
  }

  const READ_ERROR := Nothing(LOCAL_SEGMENT).(tail := Ready(Some(TailState.Open(5))), record := InnerError)

  lemma ErrorThenEnd()
    ensures FindSegment(LOCAL_SEGMENT, 1).Found? && StreamBounds(FindSegment(LOCAL_SEGMENT, 1).segment, 1).Some?
    ensures var r := Opened(Any, LOCAL_SEGMENT, 1, LSN_MAX); var q := Step(r, READ_ERROR);
            && Legal(OPEN_SEGMENT, [LOCAL_SEGMENT], r, READ_ERROR)
            && Legal(OPEN_SEGMENT, [LOCAL_SEGMENT], q, READ_ERROR.(record := InnerEnd))
            && OutcomeOf(TurnOf(q.stream, READ_ERROR.(record := InnerEnd))) == Some(Finished)
            && q.stream.readPointer == 1 && q.trace == [] && q.failed
  {
    LocalSegmentIsAWorld();
  }

  /** A stream that waits for the tail of an open segment is told of the shutdown; polled once more, it
      panics. */
  lemma RepollAfterShutdownPanics() returns (os: seq<Sight>, o: Sight)
    ensures World(OPEN_SEGMENT, [ONE_SEGMENT])
    ensures LegalRun(OPEN_SEGMENT, [ONE_SEGMENT], OpenReader(FILTER, 1, LSN_MAX), os)
    ensures var r := Steps(OpenReader(FILTER, 1, LSN_MAX), os);
            && Legal(OPEN_SEGMENT, [ONE_SEGMENT], r, o)
            && ShutDown(r.stream) && OutcomeOf(TurnOf(r.stream, o)) == Some(Panicked)
  {
    OneSegmentIsAWorld(1);
    ShutdownThenPanic();
    OneMore(OPEN_SEGMENT, [ONE_SEGMENT], Opened(FILTER, ONE_SEGMENT, 1, LSN_MAX), SHUT_DOWN);
    OpeningRuns(OPEN_SEGMENT, FILTER, ONE_SEGMENT, 1, LSN_MAX, [SHUT_DOWN]);
    os, o := Opening(ONE_SEGMENT, 1) + [SHUT_DOWN], Nothing(ONE_SEGMENT);
  }

  const SHUT_DOWN := Nothing(ONE_SEGMENT).(metadata := Ready(false))

  lemma ShutdownThenPanic()
    ensures FindSegment(ONE_SEGMENT, 1).Found? && StreamBounds(FindSegment(ONE_SEGMENT, 1).segment, 1).Some?
    ensures var r := Opened(FILTER, ONE_SEGMENT, 1, LSN_MAX); var q := Step(r, SHUT_DOWN);
            && Legal(OPEN_SEGMENT, [ONE_SEGMENT], r, SHUT_DOWN) && Legal(OPEN_SEGMENT, [ONE_SEGMENT], q, Nothing(ONE_SEGMENT))
            && ShutDown(q.stream) && OutcomeOf(TurnOf(q.stream, Nothing(ONE_SEGMENT))) == Some(Panicked)
  {
    OneSegmentIsAWorld(1);
  }

  /** A filtered gap over two LSNs leaves the read pointer inside it: the stretches do not tile. */
  lemma WideGapBreaksTiling() returns (os: seq<Sight>)
    ensures World(OPEN_SEGMENT, [ONE_SEGMENT])
    ensures LegalRun(OPEN_SEGMENT, [ONE_SEGMENT], OpenReader(FILTER, 1, LSN_MAX), os)
    ensures var r := Steps(OpenReader(FILTER, 1, LSN_MAX), os);
            && r.trace == [Delivered(Entries.Entry(1, Filtered(2)))]
            && r.stream.readPointer == 2
            && !Tiles(1, r.trace, r.stream.readPointer)
  {
    OneSegmentIsAWorld(1);
    GapFallsBehind();
    OneMore(OPEN_SEGMENT, [ONE_SEGMENT], Opened(FILTER, ONE_SEGMENT, 1, LSN_MAX), WIDE_GAP);
    OpeningRuns(OPEN_SEGMENT, FILTER, ONE_SEGMENT, 1, LSN_MAX, [WIDE_GAP]);
    os := Opening(ONE_SEGMENT, 1) + [WIDE_GAP];
  }

  const WIDE_GAP :=
    Nothing(ONE_SEGMENT).(tail := Ready(Some(TailState.Open(4))), record := InnerEntry(Entries.Entry(1, Filtered(2))))

  lemma GapFallsBehind()
    ensures FindSegment(ONE_SEGMENT, 1).Found? && StreamBounds(FindSegment(ONE_SEGMENT, 1).segment, 1).Some?
    ensures var r := Opened(FILTER, ONE_SEGMENT, 1, LSN_MAX); var q := Step(r, WIDE_GAP);
            && Legal(OPEN_SEGMENT, [ONE_SEGMENT], r, WIDE_GAP)
            && q.trace == [Delivered(Entries.Entry(1, Filtered(2)))] && q.stream.readPointer == 2
            && !Tiles(1, q.trace, q.stream.readPointer)
  {
    OneSegmentIsAWorld(1);
    var f := FILTER;
    assert !Matches(OTHER.keys, f);
    assert NonMatching(OPEN_SEGMENT, f, 0, 1) && NonMatching(OPEN_SEGMENT, f, 0, 2);
  }

  /** Starting more than a 32-bit offset past the base of an open segment panics. */
  lemma FarStartPanics() returns (os: seq<Sight>, o: Sight)
    ensures World(OPEN_SEGMENT, [ONE_SEGMENT])
    ensures LegalRun(OPEN_SEGMENT, [ONE_SEGMENT], OpenReader(FILTER, OFFSET_MAX + 1, LSN_MAX), os)
    ensures var r := Steps(OpenReader(FILTER, OFFSET_MAX + 1, LSN_MAX), os);
            && Legal(OPEN_SEGMENT, [ONE_SEGMENT], r, o)
            && TooFar(r.stream) && OutcomeOf(TurnOf(r.stream, o)) == Some(Panicked)
  {
    var start := OFFSET_MAX + 1;
    OneSegmentIsAWorld(start);
    var s, c := OPEN_SEGMENT, ONE_SEGMENT;
    var n := Nothing(c);
    var found := n.(find := Ready(Ok(FindSegment(c, start))));
    var r0 := OpenReader(FILTER, start, LSN_MAX);
    var r1 := Step(r0, n);
    OneMore(s, [c], r1, found);
    Prepend(s, [c], r0, n, [found]);
    os, o := [n] + [found], n;
  }
}
