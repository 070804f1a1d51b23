/** Sealing, extending and finding the tail (`BifrostAdmin`, `find_tail`): calls that await other
    components, so anything may happen to the log between two of their lines. Each awaited answer is
    an argument, and `Moment`s say when it was given. */
module Admin {
  import opened Outcomes
  import opened Addresses
  import opened Chains
  import opened ChainCommands
  import opened Loglets
  import opened VirtualLog
  import opened ReadStreams
  import opened Readers
  import opened ReaderTraces
  import opened System

  datatype Failure =
    | ShuttingDown
    | LogletFailure(retryable: bool)
    | Mismatch(expected: nat, found: nat)
    | SealIncomplete
    | ChainFailure(error: ChainCommands.Error)

  /** The answers one `seal_inner` awaits: the chain its node knows, the loglet's answers to `seal` and
      `find_tail`, and the chain writer's answer to the seal command. */
  datatype SealSight = SealSight(
    view: LiveChain,
    seal: Result<(), Failure>,
    tail: Result<TailState, Failure>,
    chain: Answer)

  /** When answers were given: the call loaded its metadata, asked, and was answered. */
  datatype Moment = Moment(loaded: Sys, asked: Sys, answered: Sys)

  ghost predicate InTime(m: Moment) {
    && SysInv(m.loaded) && SysInv(m.asked) && SysInv(m.answered)
    && Evolves(m.loaded, m.asked) && Evolves(m.asked, m.answered)
  }

  /** The contract of a loglet's `find_tail`. A sealed answer fixes the durable tail. A consistent open
      answer means that the loglet was not yet fixed when asked, and covers all committed by then. */
  ghost predicate TailAnswer(m: Moment, g: Segment, tail: TailState, consistent: bool) {
    if g.kind == SealMarker then tail == Sealed(OLDEST)
    else
      && Known(m.asked.core.space, g.index) && Known(m.answered.core.space, g.index)
      && var before, after := m.asked.core.space.loglets[g.index], m.answered.core.space.loglets[g.index];
         match tail
         case Sealed(o) => after.frozen && o == after.committed + 1
         case Open(o) => OLDEST <= o <= after.committed + 1 && (consistent ==> !before.frozen && o >= before.committed + 1)
  }

  /** An affirmative answer to a seal command is the tail at which the segment ended. */
  ghost predicate SealAnswer(m: Moment, index: nat, a: Answer) {
    a.Ok? ==> EndsAt(m.answered.core.space, index, a.value)
  }

  ghost predicate LegalSeal(m: Moment, index: nat, o: SealSight) {
    && InTime(m)
    && o.view in m.loaded.history
    && (o.tail.Ok? ==> TailAnswer(m, Tail(o.view), o.tail.value, true))
    && SealAnswer(m, index, o.chain)
  }

  /** `LogletWrapper::find_tail` on a segment whose tail the chain does not know. */
  function TailLsn(g: Segment, tail: TailState): int { g.base + tail.offset - OLDEST }

  function OnLsns(g: Segment, tail: TailState): TailState {
    if tail.Open? then Open(TailLsn(g, tail)) else Sealed(TailLsn(g, tail))
  }

  // ---------------------------------------------------------------- what tail answers mean

  /** The tail segment of any chain version. */
  lemma TailSegmentIsOk(y: Sys, c: LiveChain)
    requires SysInv(y) && c in y.history
    ensures SegmentOk(y.core.space, Tail(c)) && Tail(c).tail.None?
    ensures IsSealed(c) <==> Tail(c).kind == SealMarker
  {
  }

  lemma SegmentOkIsStable(s: Space, t: Space, g: Segment)
    requires Grows(s, t) && SegmentOk(s, g)
    ensures SegmentOk(t, g)
  {
  }

  /** A sealed answer, on a marker or a real loglet, is where the segment ends for good. */
  lemma SealedTailIsTheEnd(m: Moment, c: LiveChain, tail: TailState, consistent: bool)
    requires InTime(m) && c in m.loaded.history && TailAnswer(m, Tail(c), tail, consistent) && tail.Sealed?
    ensures OLDEST <= TailLsn(Tail(c), tail) <= LSN_MAX
    ensures EndsAt(m.answered.core.space, Tail(c).index, TailLsn(Tail(c), tail))
    ensures IsSealed(c) ==> TailLsn(Tail(c), tail) == Last(c).base
  {
  }

  /** A consistent open answer lies above every record acknowledged before it was asked for: an
      older segment would have been fixed, so the segment was the newest one at that time. */
  lemma OpenTailIsAboveAcks(m: Moment, c: LiveChain, tail: TailState, k: nat)
    requires InTime(m) && c in m.loaded.history && TailAnswer(m, Tail(c), tail, true) && tail.Open?
    requires k in m.asked.acked
    ensures LastLsn(m.asked.core.space, m.asked.tickets[k]) < TailLsn(Tail(c), tail)
  {
    var g, s, t := Tail(c), m.asked.core.space, m.asked.tickets[k];
    TailSegmentIsOk(m.loaded, c);
    SegmentOkIsStable(m.loaded.core.space, s, g);
    assert Durable(s, t);
    SegmentsAreOrdered(s, t.segment, g.index);
  }

  // ---------------------------------------------------------------- seal

  /** What the answers of a legal seal say about the address space at its end. */
  predicate SealTells(s: Space, index: nat, o: SealSight) {
    && (o.tail.Ok? && o.tail.value.Sealed? ==>
          var lsn := TailLsn(Tail(o.view), o.tail.value);
          0 <= lsn <= LSN_MAX && EndsAt(s, TailIndex(o.view), lsn))
    && (o.chain.Ok? ==> EndsAt(s, index, o.chain.value))
  }

  lemma LegalSealTells(m: Moment, index: nat, o: SealSight)
    requires LegalSeal(m, index, o)
    ensures SealTells(m.answered.core.space, index, o)
  {
    if o.tail.Ok? && o.tail.value.Sealed? { SealedTailIsTheEnd(m, o.view, o.tail.value, true); }
  }

  /** The seal got as far as learning a sealed tail of the expected segment. */
  predicate LearnsSeal(index: nat, forced: Option<Lsn>, o: SealSight) {
    index == TailIndex(o.view) && o.seal.Ok? && (forced.Some? || (o.tail.Ok? && o.tail.value.Sealed?))
  }

  /** `seal_inner`: seals the tail segment if it is the expected one and, when asked to, records the
      seal in the chain. Returns what it learnt of the tail and the command it sent, if any. Without a
      forced tail, a sealed answer is where the segment ends and the command carries its evidence. */
  method SealInner(index: nat, record: bool, permanent: bool, forced: Option<Lsn>, o: SealSight, ghost s: Space)
    returns (r: Result<TailState, Failure>, sent: Option<ChainOp>)
    requires forced.None? ==> SealTells(s, index, o)
    ensures r.Ok? && r.value.Sealed? && forced.None? ==>
              0 <= r.value.offset <= LSN_MAX && EndsAt(s, index, r.value.offset)
    ensures sent.Some? && forced.None? ==> Evidence(s, sent.value)
    ensures sent.Some? <==> record && LearnsSeal(index, forced, o)
    ensures sent.Some? ==> sent.value.SealChain? && sent.value.last == index && sent.value.permanent == permanent
    ensures sent.Some? && forced.Some? ==> sent.value.tail == forced.value
    ensures r.Ok? && r.value.Sealed? <==> LearnsSeal(index, forced, o) && (record ==> o.chain.Ok?)
    ensures r.Ok? && r.value.Sealed? && record ==> o.chain == Ok(r.value.offset)
    ensures r.Ok? && r.value.Open? <==>
              index == TailIndex(o.view) && o.seal.Ok? && forced.None? && o.tail.Ok? && o.tail.value.Open?
  {
    sent := None;
    var g := Tail(o.view);
    if index != g.index { return Err(Mismatch(index, g.index)), None; }
    if o.seal.Err? { return Err(o.seal.error), None; }
    var tail: TailState;
    match forced {
      case Some(lsn) => tail := Sealed(lsn);
      case None =>
        if o.tail.Err? { return Err(o.tail.error), None; }
        tail := OnLsns(g, o.tail.value);
    }
    if record && tail.Sealed? {
      sent := Some(SealChain(index, tail.offset, permanent));
      match o.chain
      case Err(e) => return Err(ChainFailure(e)), sent;
      case Ok(lsn) => return Ok(Sealed(lsn)), sent;
    }
    return Ok(tail), None;
  }

  /** `seal`. */
  method Seal(index: nat, permanent: bool, forced: Option<Lsn>, o: SealSight, ghost s: Space)
    returns (r: Result<Lsn, Failure>, sent: Option<ChainOp>)
    requires forced.None? ==> SealTells(s, index, o)
    ensures r.Ok? && forced.None? ==> EndsAt(s, index, r.value)
    ensures sent.Some? && forced.None? ==> Evidence(s, sent.value)
    ensures r.Ok? <==> LearnsSeal(index, forced, o) && o.chain.Ok?
    ensures r.Ok? ==> o.chain == Ok(r.value)
    ensures sent.Some? <==> LearnsSeal(index, forced, o)
  {
    var inner;
    inner, sent := SealInner(index, true, permanent, forced, o, s);
    match inner
    case Err(e) => r := Err(e);
    case Ok(tail) => r := if tail.Sealed? then Ok(tail.offset) else Err(SealIncomplete);
  }

  // ---------------------------------------------------------------- seal and extend

  /** What `seal_and_extend_chain` promises: the only extension it ever asks for starts where the
      sealed segment ends, and it succeeds only when that extension did. */
  ghost predicate SealedAndExtended(ss: seq<Space>, index: nat, provider: Provider, params: Params, os: seq<SealSight>,
                                    extended: Answer, r: Option<Result<Lsn, Failure>>, sent: Option<ChainOp>, used: nat)
    requires |ss| == |os|
  {
    && used <= |ss| && (r.Some? ==> used > 0)
    && (sent.Some? ==>
          && r.Some? && sent.value.Extend? && sent.value.last == index && Evidence(ss[used - 1], sent.value)
          && sent.value.extension == provider && sent.value.extParams == params)
    && (r.Some? ==> (sent.Some? <==> LearnsSeal(index, None, os[used - 1])))
    && (r.Some? ==> (r.value.Ok? <==> sent.Some? && extended.Ok?))
    && (r.Some? && r.value.Ok? ==> r.value.value == sent.value.base)
    && (forall k :: 0 <= k < |os| && (r.None? || k < used - 1) ==> StillOpen(index, os[k]))
  }

  /** The tail segment is the expected one and is not sealed yet. */
  predicate StillOpen(index: nat, o: SealSight) {
    index == TailIndex(o.view) && o.seal.Ok? && o.tail.Ok? && o.tail.value.Open?
  }

  method SealAndExtendLoop(index: nat, provider: Provider, params: Params, os: seq<SealSight>, extended: Answer, ghost ss: seq<Space>)
    returns (r: Option<Result<Lsn, Failure>>, sent: Option<ChainOp>, used: nat)
    requires |ss| == |os| && forall k :: 0 <= k < |os| ==> SealTells(ss[k], index, os[k])
    ensures SealedAndExtended(ss, index, provider, params, os, extended, r, sent, used)
  {
    for k := 0 to |os|
      invariant forall j :: 0 <= j < k ==> StillOpen(index, os[j])
    {
      used := k + 1;
      var inner, _ := SealInner(index, false, false, None, os[k], ss[k]);
      match inner {
        case Err(e) => return Some(Err(e)), None, used;
        case Ok(Open(_)) => // not sealed yet: sleep and try again
        case Ok(Sealed(lsn)) =>
          sent := Some(Extend(index, lsn, provider, params));
          match extended {
            case Err(e) => return Some(Err(ChainFailure(e))), sent, used;
            case Ok(_) => return Some(Ok(lsn)), sent, used;
          }
      }
    }
    return None, None, |os|;
  }

  ghost function Ends(ms: seq<Moment>): seq<Space> {
    seq(|ms|, k requires 0 <= k < |ms| => ms[k].answered.core.space)
  }

  /** `seal_and_extend_chain`, for every legal sequence of answers: retries until the segment is sealed,
      then extends the chain. `None` means that the call has not returned yet. */
  method SealAndExtend(index: nat, provider: Provider, params: Params, os: seq<SealSight>, extended: Answer, ghost ms: seq<Moment>)
    returns (r: Option<Result<Lsn, Failure>>, sent: Option<ChainOp>, used: nat)
    requires |ms| == |os| && forall k :: 0 <= k < |os| ==> LegalSeal(ms[k], index, os[k])
    ensures SealedAndExtended(Ends(ms), index, provider, params, os, extended, r, sent, used)
  {
    forall k | 0 <= k < |os| ensures SealTells(Ends(ms)[k], index, os[k]) { LegalSealTells(ms[k], index, os[k]); }
    r, sent, used := SealAndExtendLoop(index, provider, params, os, extended, Ends(ms));
  }

  // ---------------------------------------------------------------- find the tail

  /** What one turn of the loop in `find_tail` awaits; `again` says whether the retry policy allows
      another attempt. */
  datatype TailSight = TailSight(view: LiveChain, tail: Result<TailState, Failure>, sealing: SealSight, again: bool)

  /** A turn that loaded its metadata after `begin`, with the moment of the nested seal. */
  ghost predicate LegalTail(begin: Sys, m: Moment, sealed: Moment, consistent: bool, o: TailSight) {
    && SysInv(begin) && Evolves(begin, m.loaded) && InTime(m)
    && o.view in m.loaded.history
    && (o.tail.Ok? ==> TailAnswer(m, Tail(o.view), o.tail.value, consistent))
    && LegalSeal(sealed, TailIndex(o.view), o.sealing)
  }

  /** Every record acknowledged in `y` lies below `lsn`. */
  ghost predicate AboveAcks(y: Sys, lsn: int) {
    forall k :: k in y.acked && k < |y.tickets| && Known(y.core.space, y.tickets[k].segment) ==>
      LastLsn(y.core.space, y.tickets[k]) < lsn
  }

  /** What the answers of a legal turn say: at the end of the turn a sealed tail is the end of the
      segment, and a consistent open tail is above all that was acknowledged before the call. */
  ghost predicate TailTells(begin: Sys, s: Space, sealed: Space, consistent: bool, o: TailSight) {
    && (o.tail.Ok? ==>
          var lsn := TailLsn(Tail(o.view), o.tail.value);
          && (o.tail.value.Sealed? ==>
                && 0 <= lsn <= LSN_MAX && EndsAt(s, TailIndex(o.view), lsn)
                && (IsSealed(o.view) ==> lsn == Last(o.view).base))
          && (o.tail.value.Open? && consistent ==> AboveAcks(begin, lsn)))
    && SealTells(sealed, TailIndex(o.view), o.sealing)
  }

  lemma OpenTailIsAboveEarlierAcks(begin: Sys, m: Moment, c: LiveChain, tail: TailState)
    requires SysInv(begin) && Evolves(begin, m.loaded)
    requires InTime(m) && c in m.loaded.history && TailAnswer(m, Tail(c), tail, true) && tail.Open?
    ensures AboveAcks(begin, TailLsn(Tail(c), tail))
  {
    EvolvesIsTransitive(begin, m.loaded, m.asked);
    forall k | k in begin.acked ensures LastLsn(begin.core.space, begin.tickets[k]) < TailLsn(Tail(c), tail) {
      OpenTailIsAboveAcks(m, c, tail, k);
      TicketIsStable(begin.core.space, m.asked.core.space, begin.tickets[k]);
    }
  }

  lemma LegalTailTells(begin: Sys, m: Moment, sealed: Moment, consistent: bool, o: TailSight)
    requires LegalTail(begin, m, sealed, consistent, o)
    ensures TailTells(begin, m.answered.core.space, sealed.answered.core.space, consistent, o)
  {
    LegalSealTells(sealed, TailIndex(o.view), o.sealing);
    if o.tail.Ok? {
      if o.tail.value.Sealed? { SealedTailIsTheEnd(m, o.view, o.tail.value, consistent); }
      else if consistent { OpenTailIsAboveEarlierAcks(begin, m, o.view, o.tail.value); }
    }
  }

  /** The loglet is sealed but the chain read with it is not. */
  predicate NeedsSealing(consistent: bool, o: TailSight) {
    o.tail.Ok? && o.tail.value.Sealed? && consistent && !IsSealed(o.view)
  }

  /** The loop goes round again: after a retryable failure, or after sealing the chain. */
  predicate Retries(consistent: bool, o: TailSight) {
    if o.tail.Err? then o.tail.error.LogletFailure? && o.tail.error.retryable && o.again
    else NeedsSealing(consistent, o) &&
         (o.again || (LearnsSeal(TailIndex(o.view), None, o.sealing) && o.sealing.chain.Ok?))
  }

  /** What `find_tail` promises. A consistent open answer is above everything acknowledged before the
      call; a consistent sealed answer is exactly the tail recorded by the marker of the version it
      read, never a seal known to the loglet alone; the chain is only ever sealed where it ends. */
  ghost predicate TailFound(begin: Sys, ss: seq<Space>, ts: seq<Space>, consistent: bool, os: seq<TailSight>,
                            r: Option<Result<TailState, Failure>>, used: nat, sent: seq<ChainOp>)
    requires |ss| == |ts| == |os|
  {
    && used <= |os|
    && (r.Some? ==> used > 0 && !Retries(consistent, os[used - 1]))
    && (forall k :: 0 <= k < |os| && (r.None? || k < used - 1) ==> Retries(consistent, os[k]))
    && (r.Some? ==> (r.value.Ok? <==> os[used - 1].tail.Ok? && !NeedsSealing(consistent, os[used - 1])))
    && (r.Some? && r.value.Ok? ==>
          var tail, view := r.value.value, os[used - 1].view;
          && tail == OnLsns(Tail(view), os[used - 1].tail.value)
          && (tail.Open? && consistent ==> AboveAcks(begin, tail.offset))
          && (tail.Sealed? ==> 0 <= tail.offset <= LSN_MAX && EndsAt(ss[used - 1], TailIndex(view), tail.offset))
          && (tail.Sealed? && consistent ==> IsSealed(view) && tail.offset == Last(view).base))
    && (forall op :: op in sent ==> exists k :: 0 <= k < |ts| && Evidence(ts[k], op))
  }

  method FindTailLoop(consistent: bool, os: seq<TailSight>, ghost begin: Sys, ghost ss: seq<Space>, ghost ts: seq<Space>)
    returns (r: Option<Result<TailState, Failure>>, used: nat, sent: seq<ChainOp>)
    requires |ss| == |ts| == |os|
    requires forall k :: 0 <= k < |os| ==> TailTells(begin, ss[k], ts[k], consistent, os[k])
    ensures TailFound(begin, ss, ts, consistent, os, r, used, sent)
  {
    sent := [];
    for k := 0 to |os|
      invariant forall op :: op in sent ==> exists j :: 0 <= j < |ts| && Evidence(ts[j], op)
      invariant forall j :: 0 <= j < k ==> Retries(consistent, os[j])
    {
      used := k + 1;
      var o := os[k];
      match o.tail {
        case Err(e) =>
          if !(e.LogletFailure? && e.retryable) || !o.again { return Some(Err(e)), used, sent; }
        case Ok(tail) =>
          if tail.Sealed? && consistent && !IsSealed(o.view) {
            var sealed, op := Seal(TailIndex(o.view), false, None, o.sealing, ts[k]);
            if op.Some? { sent := sent + [op.value]; }
            if sealed.Err? && !o.again { return Some(Err(sealed.error)), used, sent; }
          } else {
            return Some(Ok(OnLsns(Tail(o.view), tail))), used, sent;
          }
      }
    }
    return None, |os|, sent;
  }

  /** `find_tail`, for every legal sequence of answers. */
  method FindTail(consistent: bool, os: seq<TailSight>, ghost begin: Sys, ghost ms: seq<Moment>, ghost ts: seq<Moment>)
    returns (r: Option<Result<TailState, Failure>>, used: nat, sent: seq<ChainOp>)
    requires |ms| == |ts| == |os|
    requires forall k :: 0 <= k < |os| ==> LegalTail(begin, ms[k], ts[k], consistent, os[k])
    ensures TailFound(begin, Ends(ms), Ends(ts), consistent, os, r, used, sent)
  {
    forall k | 0 <= k < |os| ensures TailTells(begin, Ends(ms)[k], Ends(ts)[k], consistent, os[k]) {
      LegalTailTells(begin, ms[k], ts[k], consistent, os[k]);
    }
    r, used, sent := FindTailLoop(consistent, os, begin, Ends(ms), Ends(ts));
  }
}
