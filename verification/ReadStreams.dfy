/** `LogReadStream`: the eight-state machine behind a reader of the virtual log. `TurnOf` is one
    turn of the loop in `poll_next` as a function of the stream and of what it sees. */
module ReadStreams {
  import opened Outcomes
  import opened Addresses
  import opened Entries
  import opened Chains
  import opened Loglets

  /** `LogletReadStreamWrapper`: the segment it reads (with the tail it has learnt), the position
      of the inner stream, the last offset the inner stream was created for, if bounded, and whether the
      inner stream has reported an error. */
  datatype Substream = Substream(segment: Segment, inner: Offset, to: Option<Offset>, broken: bool)

  datatype State =
    | New
    | FindingLoglet
    | CreatingSubstream(segment: Segment)
    | Reading(safeKnownTail: Option<Lsn>, tailWatch: bool, trimChecked: nat)
    | AwaitingReconfiguration
    | AwaitingOrSealChain
    | SealingChain
    | Terminated

  /** The future that waits for the next version of the logs metadata. */
  datatype Watch = Unset | Waiting(target: nat) | Completed(target: nat, ok: bool)

  datatype Stream = Stream(
    readPointer: Lsn,
    endLsn: Lsn,
    filter: KeyFilter,
    checkedVersion: nat,
    watch: Watch,
    state: State,
    substream: Option<Substream>)

  datatype ReadError = UnknownLog | LogletError | Shutdown

  /** What one call of `poll_next` gives its caller. `Panicked` stands for every panic, failed
      assertion, `expect` and `unreachable!` on the way. */
  datatype Outcome = NotReady | Item(entry: Entries.Entry) | Failed(error: ReadError) | Finished | Panicked

  type LogletEntry = e: Entries.Entry | 0 <= e.seqno <= OFFSET_MAX && 0 <= To(e) <= OFFSET_MAX
    witness Entries.Entry(1, TrimGap(1))

  datatype InnerPoll = InnerPending | InnerEnd | InnerError | InnerEntry(entry: LogletEntry)

  /** Everything one turn may observe: the logs version it loads and its chain, the newest version its
      node has shown by the end of the turn, and the answer of each future or stream it may poll.
      `lookup` is the version the loglet lookup read, which may be older than the one loaded; `skipTo`
      is where the inner stream stands after passing over records its own filter dropped. */
  datatype Sight = Sight(
    version: nat,
    chain: Option<LiveChain>,
    newest: nat,
    lookup: nat,
    find: Poll<Result<MaybeSegment, ReadError>>,
    create: Poll<bool>,
    tail: Poll<Option<TailState>>,
    skipTo: Offset,
    record: InnerPoll,
    metadata: Poll<bool>,
    patienceLost: bool,
    sealDone: bool)

  datatype Decision = NoChange | NewSegment | TailLsnSet(sealedTail: Lsn) | Trimmed(nextBase: Lsn)

  /** `LogReadStream::create`. */
  function Create(filter: KeyFilter, start: Lsn, end: Lsn): Stream {
    Stream(Max(OLDEST, start), end, filter, 0, Unset, New, None)
  }

  /** `check_chain`, given where the chain places the read pointer. */
  function CheckChain(found: MaybeSegment, index: nat, kind: Kind): Decision {
    match found
    case Found(segment) =>
      if segment.index != index || segment.kind != kind then NewSegment
      else if segment.tail.Some? then TailLsnSet(segment.tail.value)
      else NoChange
    case Trim(nextBase) => Trimmed(nextBase)
  }

  /** `deliver_trim_gap`. */
  function DeliverTrimGap(s: Stream, nextBase: Lsn): Turn<Stream, Outcome> {
    Return(s.(readPointer := nextBase, substream := None, state := FindingLoglet),
           Item(Entries.Entry(s.readPointer, TrimGap(PrevLsn(nextBase)))))
  }

  /** Polling the metadata watch: a future that is missing or already completed panics. */
  function AwaitMetadata(s: Stream, o: Sight): Turn<Stream, Outcome> {
    match s.watch
    case Unset => Return(s, Panicked)
    case Completed(_, _) => Return(s, Panicked)
    case Waiting(target) =>
      match o.metadata
      case Pending => Return(s, NotReady)
      case Ready(ok) =>
        var t := s.(watch := Completed(target, ok));
        if ok then Again(t) else Return(t, Failed(Shutdown))
  }

  function Stop(s: Stream, outcome: Outcome): Turn<Stream, Outcome> {
    Return(s.(substream := None, state := Terminated), outcome)
  }

  function FindTurn(s: Stream, o: Sight): Turn<Stream, Outcome> {
    match o.find
    case Pending => Return(s, NotReady)
    case Ready(Ok(Found(segment))) => Again(s.(state := CreatingSubstream(segment)))
    case Ready(Ok(Trim(nextBase))) => DeliverTrimGap(s, nextBase)
    case Ready(Err(e)) => Return(s.(state := Terminated), Failed(e))
  }

  /** The offsets `create_read_stream_with_tail` translates to; `None` if either translation panics. */
  function StreamBounds(segment: Segment, from: Lsn): Option<(Offset, Option<Offset>)> {
    match IntoOffset(from, segment.base)
    case None => None
    case Some(start) =>
      match segment.tail
      case None => Some((start, None))
      case Some(tail) =>
        match IntoOffset(PrevLsn(tail), segment.base)
        case None => None
        case Some(to) => Some((start, Some(to)))
  }

  function CreateTurn(s: Stream, o: Sight): Turn<Stream, Outcome>
    requires s.state.CreatingSubstream?
  {
    var segment := s.state.segment;
    match StreamBounds(segment, s.readPointer)
    case None => Return(s, Panicked)
    case Some((start, to)) =>
      match o.create
      case Pending => Return(s, NotReady)
      case Ready(false) => Return(s.(state := Terminated), Failed(LogletError))
      case Ready(true) =>
        var inner := if segment.kind == SealMarker then OLDEST else start;
        Again(s.(substream := Some(Substream(segment, inner, to, false)),
                 state := Reading(segment.tail, segment.tail.None?, 0)))
  }

  /** `LogletReadStreamWrapper::poll_next` and what the reader does with the answer. */
  function SubstreamTurn(s: Stream, o: Sight): Turn<Stream, Outcome>
    requires s.substream.Some?
  {
    var sub := s.substream.value;
    var position := OffsetBy(sub.segment.base, sub.inner);
    if sub.segment.tail.Some? && position.None? then Return(s, Panicked)
    else if sub.segment.tail.Some? && position.value >= sub.segment.tail.value then Stop(s, Finished)
    else
      match o.record
      case InnerPending => AwaitMetadata(s.(substream := Some(sub.(inner := o.skipTo))), o)
      case InnerEnd => Stop(s, Finished)
      case InnerError => Return(s.(substream := Some(sub.(broken := true))), Failed(LogletError))
      case InnerEntry(e) =>
        match WithBaseLsn(e, sub.segment.base)
        case None => Return(s, Panicked)
        case Some(g) =>
          var pointer := CalculateReadPointer(g);
          var t := s.(readPointer := pointer, substream := Some(sub.(inner := NextOffset(To(e)))));
          if pointer <= s.readPointer then Return(s, Panicked)
          else if g.payload.Data? && !Matches(g.payload.record.keys, s.filter) then Again(t)
          else Return(t, Item(g))
  }

  /** `watch_tail` through the wrapper. */
  function WatchedTail(segment: Segment, tail: TailState): Option<Lsn> {
    if Max(tail.offset, OLDEST) > OFFSET_MAX then None
    else OffsetBy(segment.base, Max(tail.offset, OLDEST))
  }

  /** The read position of an open segment is at or past what is known to be safe. */
  function TailTurn(s: Stream, tailIndex: nat, o: Sight): Turn<Stream, Outcome>
    requires s.state.Reading? && s.substream.Some?
  {
    var sub := s.substream.value;
    if tailIndex > sub.segment.index then Again(s.(state := AwaitingReconfiguration))
    else if !s.state.tailWatch then Return(s, Panicked)
    else
      match o.tail
      case Pending => AwaitMetadata(s, o)
      case Ready(None) => Stop(s, Failed(Shutdown))
      case Ready(Some(tail)) =>
        match WatchedTail(sub.segment, tail)
        case None => Return(s, Panicked)
        case Some(lsn) =>
          if tail.Sealed? then Again(s.(state := AwaitingOrSealChain))
          else SubstreamTurn(s.(state := s.state.(safeKnownTail := Some(lsn))), o)
  }

  /** Reading once the chain is known to hold the read pointer. */
  function LiveTurn(s: Stream, tailIndex: nat, o: Sight): Turn<Stream, Outcome>
    requires s.state.Reading? && s.substream.Some?
  {
    match s.substream.value.segment.tail
    case Some(tail) =>
      if s.readPointer >= tail then Again(s.(substream := None, state := FindingLoglet))
      else SubstreamTurn(s, o)
    case None =>
      if s.state.safeKnownTail.None? || s.readPointer >= s.state.safeKnownTail.value
      then TailTurn(s, tailIndex, o)
      else SubstreamTurn(s, o)
  }

  /** `always` asks for the chain to be searched on every turn instead of once per version. */
  function ReadingTurn(s: Stream, found: MaybeSegment, tailIndex: nat, o: Sight, always: bool): Turn<Stream, Outcome>
    requires s.state.Reading?
  {
    if s.substream.None? then Return(s, Panicked)
    else if always || s.state.trimChecked != o.version then
      match found
      case Trim(nextBase) => DeliverTrimGap(s, nextBase)
      case Found(_) => LiveTurn(s.(state := s.state.(trimChecked := o.version)), tailIndex, o)
    else LiveTurn(s, tailIndex, o)
  }

  /** The two states that wait for the chain to change under an open segment. */
  function StalledTurn(s: Stream, found: MaybeSegment, o: Sight): Turn<Stream, Outcome> {
    if s.substream.None? then Return(s, Panicked)
    else
      var sub := s.substream.value;
      match CheckChain(found, sub.segment.index, sub.segment.kind)
      case NewSegment => Again(s.(substream := None, state := FindingLoglet))
      case TailLsnSet(tail) =>
        Again(s.(substream := Some(sub.(segment := sub.segment.(tail := Some(tail)))),
                 state := Reading(Some(tail), false, 0)))
      case Trimmed(nextBase) => DeliverTrimGap(s, nextBase)
      case NoChange =>
        if s.state.AwaitingOrSealChain? && o.patienceLost then Again(s.(state := SealingChain))
        else AwaitMetadata(s, o)
  }

  /** Noting a newer version replaces the metadata watch. */
  function Checked(s: Stream, version: nat): Stream {
    if s.checkedVersion < version then s.(checkedVersion := version, watch := Waiting(version + 1)) else s
  }

  /** `found` is where the chain places the read pointer and `tailIndex` its newest segment. */
  function StateTurn(s: Stream, found: MaybeSegment, tailIndex: nat, o: Sight, always: bool): Turn<Stream, Outcome> {
    match s.state
    case New => Again(s.(state := FindingLoglet))
    case FindingLoglet => FindTurn(s, o)
    case CreatingSubstream(_) => CreateTurn(s, o)
    case Reading(_, _, _) => ReadingTurn(s, found, tailIndex, o, always)
    case AwaitingReconfiguration => StalledTurn(s, found, o)
    case AwaitingOrSealChain => StalledTurn(s, found, o)
    case SealingChain => if o.sealDone then Again(s.(state := AwaitingOrSealChain)) else Return(s, NotReady)
    case Terminated => Return(s, Finished)
  }

  function AnyTurn(s: Stream, o: Sight, always: bool): Turn<Stream, Outcome> {
    if s.readPointer == LSN_MAX || s.readPointer > s.endLsn then Return(s.(state := Terminated), Finished)
    else
      match o.chain
      case None => Stop(s, Failed(UnknownLog))
      case Some(chain) =>
        StateTurn(Checked(s, o.version), FindSegment(chain, s.readPointer), TailIndex(chain), o, always)
  }

  /** One turn of the loop. */
  function TurnOf(s: Stream, o: Sight): Turn<Stream, Outcome> { AnyTurn(s, o, false) }

  /** One turn of a plainer loop that searches the chain on every turn. */
  function PlainTurn(s: Stream, o: Sight): Turn<Stream, Outcome> { AnyTurn(s, o, true) }

  /** A whole call: turns until one returns. Running out of sights is a call that never returns. */
  function PollNext(s: Stream, sights: seq<Sight>): (Stream, Option<Outcome>)
    decreases |sights|
  {
    if sights == [] then (s, None)
    else
      match TurnOf(s, sights[0])
      case Again(t) => PollNext(t, sights[1..])
      case Return(t, outcome) => (t, Some(outcome))
  }
}
