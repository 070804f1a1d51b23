/** `LogReadStream` as the object it is: `poll_next` loops over its states and updates its fields in
    place. Every turn is the turn of the pure state machine. */
module PollNext {
  import opened Outcomes
  import opened Addresses
  import opened Entries
  import opened Chains
  import opened Loglets
  import opened ReadStreams

  class LogReadStream {
    var readPointer: Lsn
    const endLsn: Lsn
    const filter: KeyFilter
    var checkedVersion: nat
    var watch: Watch
    var state: State
    var substream: Option<Substream>

    constructor (filter: KeyFilter, start: Lsn, end: Lsn)
      ensures View() == Create(filter, start, end)
    {
      readPointer, endLsn, this.filter := Max(OLDEST, start), end, filter;
      checkedVersion, watch, state, substream := 0, Unset, New, None;
    }

    function View(): Stream
      reads this
    {
      Stream(readPointer, endLsn, filter, checkedVersion, watch, state, substream)
    }

    /** A turn took the stream from `was` to its present fields and returned `r`, or goes on. */
    ghost predicate Took(turn: Turn<Stream, Outcome>, r: Option<Outcome>)
      reads this
    {
      turn == match r case None => Again(View()) case Some(outcome) => Return(View(), outcome)
    }

    method TrimGapNow(nextBase: Lsn) returns (r: Option<Outcome>)
      modifies this
      ensures Took(DeliverTrimGap(old(View()), nextBase), r)
    {
      var gap := Entries.Entry(readPointer, TrimGap(PrevLsn(nextBase)));
      readPointer := nextBase;
      substream := None;
      state := FindingLoglet;
      return Some(Item(gap));
    }

    /** Polls the metadata watch; a new version sends the loop round again. */
    method PollWatch(o: Sight) returns (r: Option<Outcome>)
      modifies this`watch
      ensures Took(AwaitMetadata(old(View()), o), r)
    {
      match watch
      case Unset => return Some(Panicked);
      case Completed(_, _) => return Some(Panicked);
      case Waiting(target) =>
        match o.metadata
        case Pending => return Some(NotReady);
        case Ready(ok) =>
          watch := Completed(target, ok);
          return if ok then None else Some(Failed(Shutdown));
    }

    method CreateNow(o: Sight) returns (r: Option<Outcome>)
      requires state.CreatingSubstream?
      modifies this
      ensures Took(CreateTurn(old(View()), o), r)
    {
      var segment := state.segment;
      var bounds := StreamBounds(segment, readPointer);
      if bounds.None? { return Some(Panicked); }
      var (start, to) := bounds.value;
      match o.create
      case Pending => return Some(NotReady);
      case Ready(ok) =>
        if !ok {
          state := Terminated;
          return Some(Failed(LogletError));
        }
        substream := Some(Substream(segment, if segment.kind == SealMarker then OLDEST else start, to, false));
        state := Reading(segment.tail, segment.tail.None?, 0);
        return None;
    }

    /** Polls the substream and hands on what it gives. */
    method PollSubstream(o: Sight) returns (r: Option<Outcome>)
      requires substream.Some?
      modifies this
      ensures Took(SubstreamTurn(old(View()), o), r)
    {
      var sub := substream.value;
      if sub.segment.tail.Some? {
        var position := OffsetBy(sub.segment.base, sub.inner);
        if position.None? { return Some(Panicked); }
        if position.value >= sub.segment.tail.value {
          substream, state := None, Terminated;
          return Some(Finished);
        }
      }
      match o.record
      case InnerPending =>
        substream := Some(sub.(inner := o.skipTo));
        r := PollWatch(o);
      case InnerEnd =>
        substream, state := None, Terminated;
        return Some(Finished);
      case InnerError =>
        substream := Some(sub.(broken := true));
        return Some(Failed(LogletError));
      case InnerEntry(e) =>
        var g := WithBaseLsn(e, sub.segment.base);
        if g.None? { return Some(Panicked); }
        var pointer := CalculateReadPointer(g.value);
        if pointer <= readPointer { return Some(Panicked); }
        readPointer := pointer;
        substream := Some(sub.(inner := NextOffset(To(e))));
        if g.value.payload.Data? && !Matches(g.value.payload.record.keys, filter) { return None; }
        return Some(Item(g.value));
    }

    method ReadNow(found: MaybeSegment, tailIndex: nat, o: Sight) returns (r: Option<Outcome>)
      requires state.Reading?
      modifies this
      ensures Took(ReadingTurn(old(View()), found, tailIndex, o, false), r)
    {
      if substream.None? { return Some(Panicked); }
      if state.trimChecked != o.version {
        match found {
          case Trim(nextBase) =>
            r := TrimGapNow(nextBase);
            return;
          case Found(_) => state := state.(trimChecked := o.version);
        }
      }
      var segment := substream.value.segment;
      match segment.tail {
        case Some(tail) =>
          if readPointer >= tail {
            substream, state := None, FindingLoglet;
            return None;
          }
        case None =>
          if state.safeKnownTail.None? || readPointer >= state.safeKnownTail.value {
            if tailIndex > segment.index {
              state := AwaitingReconfiguration;
              return None;
            }
            if !state.tailWatch { return Some(Panicked); }
            match o.tail {
              case Pending =>
                r := PollWatch(o);
                return;
              case Ready(None) =>
                substream, state := None, Terminated;
                return Some(Failed(Shutdown));
              case Ready(Some(tail)) =>
                var lsn := WatchedTail(segment, tail);
                if lsn.None? { return Some(Panicked); }
                if tail.Sealed? {
                  state := AwaitingOrSealChain;
                  return None;
                }
                state := state.(safeKnownTail := lsn);
            }
          }
      }
      r := PollSubstream(o);
    }

    method WaitForChain(found: MaybeSegment, o: Sight) returns (r: Option<Outcome>)
      modifies this
      ensures Took(StalledTurn(old(View()), found, o), r)
    {
      if substream.None? { return Some(Panicked); }
      var sub := substream.value;
      match CheckChain(found, sub.segment.index, sub.segment.kind) {
        case NewSegment =>
          substream, state := None, FindingLoglet;
          return None;
        case TailLsnSet(tail) =>
          substream := Some(sub.(segment := sub.segment.(tail := Some(tail))));
          state := Reading(Some(tail), false, 0);
          return None;
        case Trimmed(nextBase) => r := TrimGapNow(nextBase);
        case NoChange =>
          if state.AwaitingOrSealChain? && o.patienceLost {
            state := SealingChain;
            return None;
          }
          r := PollWatch(o);
      }
    }

    /** One turn of the loop. */
    method TurnNow(o: Sight) returns (r: Option<Outcome>)
      modifies this
      ensures Took(TurnOf(old(View()), o), r)
    {
      if readPointer == LSN_MAX || readPointer > endLsn {
        state := Terminated;
        return Some(Finished);
      }
      if o.chain.None? {
        substream, state := None, Terminated;
        return Some(Failed(UnknownLog));
      }
      var chain := o.chain.value;
      if checkedVersion < o.version {
        checkedVersion := o.version;
        watch := Waiting(o.version + 1);
      }
      match state {
        case New =>
          state := FindingLoglet;
          return None;
        case FindingLoglet =>
          match o.find {
            case Pending => return Some(NotReady);
            case Ready(Ok(Found(segment))) =>
              state := CreatingSubstream(segment);
              return None;
            case Ready(Ok(Trim(nextBase))) => r := TrimGapNow(nextBase);
            case Ready(Err(e)) =>
              state := Terminated;
              return Some(Failed(e));
          }
        case CreatingSubstream(_) => r := CreateNow(o);
        case Reading(_, _, _) => r := ReadNow(FindSegment(chain, readPointer), TailIndex(chain), o);
        case AwaitingReconfiguration => r := WaitForChain(FindSegment(chain, readPointer), o);
        case AwaitingOrSealChain => r := WaitForChain(FindSegment(chain, readPointer), o);
        case SealingChain =>
          if !o.sealDone { return Some(NotReady); }
          state := AwaitingOrSealChain;
          return None;
        case Terminated => return Some(Finished);
      }
    }

    /** `poll_next`: turns until one returns; `None` if what it sees runs out first. */
    method Poll(sights: seq<Sight>) returns (r: Option<Outcome>)
      modifies this
      ensures (View(), r) == ReadStreams.PollNext(old(View()), sights)
    {
      var k := 0;
      assert sights[0..] == sights;
      while k < |sights|
        invariant 0 <= k <= |sights|
        invariant ReadStreams.PollNext(old(View()), sights) == ReadStreams.PollNext(View(), sights[k..])
      {
        assert sights[k..][1..] == sights[k + 1..];
        r := TurnNow(sights[k]);
        if r.Some? { return; }
        k := k + 1;
      }
      return None;
    }
  }
}
