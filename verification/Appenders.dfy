/** `Appender`: a cached tail segment, retried appends and the two loops that wait for a newer
    segment. */
module Appenders {
  import opened Outcomes
  import opened Addresses
  import opened Chains
  import opened Loglets
  import opened VirtualLog
  import opened Readers
  import opened System

  /** What appending a batch to the loglet of a segment may answer. */
  datatype AppendAnswer = Appended(offset: Offset) | NeedsReconfiguration | Retryable | Terminal | Shutdown

  datatype AppendError = LoadFailed | LogletFailed | ShuttingDown

  /** What else one turn of the retry loop awaits: the chain loaded when no segment is cached, whether a
      retryable error leads to reconfiguration, and the chains shown to the loop that waits for it,
      ending in an error or in a wait that goes on. */
  datatype Attempt = Attempt(load: Result<LiveChain, AppendError>, recover: bool, views: seq<LiveChain>, stop: Option<AppendError>)

  /** The first tail segment newer than `index` among the chains shown. */
  function FirstNewer(views: seq<LiveChain>, index: nat): Option<Segment> {
    if views == [] then None
    else if TailIndex(views[0]) > index then Some(Tail(views[0]))
    else FirstNewer(views[1..], index)
  }

  /** The loop of `on_sealed_loglet` and `perform_reconfiguration`: returns the first tail newer than
      the sealed segment, whether that is a real segment or a seal marker. */
  method AwaitNewerSegment(views: seq<LiveChain>, index: nat) returns (g: Option<Segment>)
    ensures g == FirstNewer(views, index)
    ensures g.Some? ==> g.value.index > index && exists v :: v in views && g.value == Tail(v)
    ensures g.None? ==> forall v :: v in views ==> TailIndex(v) <= index
  {
    var k := 0;
    while k < |views|
      invariant 0 <= k <= |views| && FirstNewer(views, index) == FirstNewer(views[k..], index)
      invariant forall j :: 0 <= j < k ==> TailIndex(views[j]) <= index
    {
      if TailIndex(views[k]) > index { return Some(Tail(views[k])); }
      assert views[k..][1..] == views[k + 1..];
      k := k + 1;
    }
    return None;
  }

  /** Whatever attempt succeeds on a segment at or after `segment` answers above `lsn`. */
  ghost predicate AnswersAbove(append: (nat, Segment) -> AppendAnswer, segment: int, lsn: int) {
    forall k, g :: append(k, g).Appended? && g.index >= segment ==>
      0 < append(k, g).offset && lsn < g.base + append(k, g).offset - OLDEST <= LSN_MAX
  }

  predicate AnsweredWith(a: AppendAnswer, g: Segment, lsn: int) {
    a.Appended? && g.base + a.offset - OLDEST == lsn
  }

  // ---------------------------------------------------------------- why answers lie above

  /** The answers one call may get, made at `begin` and over by `end`: a success is a batch of that segment,
      handed in during the call and acknowledged, and answers with the LSN of the batch's last record. */
  ghost predicate LegalCall(begin: Sys, end: Sys, append: (nat, Segment) -> AppendAnswer, ticket: (nat, Segment) -> nat) {
    && SysInv(begin) && SysInv(end) && Evolves(begin, end)
    && forall k, g :: append(k, g).Appended? ==>
         && |begin.tickets| <= ticket(k, g) && ticket(k, g) in end.acked
         && end.tickets[ticket(k, g)].segment == g.index
         && AnsweredWith(append(k, g), g, LastLsn(end.core.space, end.tickets[ticket(k, g)]))
         && append(k, g).offset > 0
  }

  /** The segment and the LSN of the last success, which was acknowledged under ticket `last`, if any. */
  ghost predicate Remembers(y: Sys, last: Option<nat>, segment: int, lsn: int) {
    match last
    case None => segment == -1 && lsn == INVALID
    case Some(t) =>
      && t in y.acked && t < |y.tickets| && Durable(y.core.space, y.tickets[t])
      && y.tickets[t].segment == segment && LastLsn(y.core.space, y.tickets[t]) == lsn
  }

  lemma RemembersIsStable(y: Sys, z: Sys, last: Option<nat>, segment: int, lsn: int)
    requires Evolves(y, z) && Remembers(y, last, segment, lsn)
    ensures Remembers(z, last, segment, lsn)
  {
    if last.Some? { TicketIsStable(y.core.space, z.core.space, y.tickets[last.value]); }
  }

  /** In every run, later appends to the same or a later segment answer above earlier ones. */
  lemma LegalAnswersLieAbove(begin: Sys, end: Sys, append: (nat, Segment) -> AppendAnswer, ticket: (nat, Segment) -> nat,
                             last: Option<nat>, segment: int, lsn: int)
    requires LegalCall(begin, end, append, ticket) && Remembers(begin, last, segment, lsn)
    ensures AnswersAbove(append, segment, lsn)
  {
    RemembersIsStable(begin, end, last, segment, lsn);
    forall k, g | append(k, g).Appended? && g.index >= segment
      ensures 0 < append(k, g).offset && lsn < g.base + append(k, g).offset - OLDEST <= LSN_MAX
    {
      if last.Some? { AcknowledgedAreDisjoint(end, last.value, ticket(k, g)); }
      assert Durable(end.core.space, end.tickets[ticket(k, g)]);
      SegmentBoundsHold(end.core.space, g.index, g.index);
    }
  }

  /** The reasons to give up on a batch: no chain, a terminal answer, or an error while waiting for a
      newer segment. */
  predicate GivesUp(a: Attempt, k: nat, cache: Option<Segment>, append: (nat, Segment) -> AppendAnswer, e: AppendError) {
    if cache.None? then a.load == Err(e)
    else
      match append(k, cache.value)
      case Appended(_) => false
      case Terminal => e == LogletFailed
      case Shutdown => e == ShuttingDown
      case NeedsReconfiguration => a.stop == Some(e)
      case Retryable => a.recover && a.stop == Some(e)
  }

  ghost predicate Follows(y: Sys, zs: seq<Sys>, i: nat) { i < |zs| && Evolves(y, zs[i]) }

  /** Calls one after the other, the log moving on during and between them. */
  ghost predicate LegalCalls(n: nat, appends: nat -> (nat, Segment) -> AppendAnswer, begins: seq<Sys>, ends: seq<Sys>,
                             tickets: nat -> (nat, Segment) -> nat) {
    && |begins| == |ends| == n
    && (forall i {:trigger LegalCall(begins[i], ends[i], appends(i), tickets(i))} :: 0 <= i < n ==>
          LegalCall(begins[i], ends[i], appends(i), tickets(i)))
    && (forall i {:trigger Follows(ends[i], begins, i + 1)} :: 0 <= i < n - 1 ==> Follows(ends[i], begins, i + 1))
  }

  predicate Succeeded(r: Option<Result<Lsn, AppendError>>) { r.Some? && r.value.Ok? }

  /** The LSNs of the successful calls strictly rise above `lo`, up to `hi`. */
  predicate Rising(rs: seq<Option<Result<Lsn, AppendError>>>, lo: int, hi: int) {
    && (forall i :: 0 <= i < |rs| && Succeeded(rs[i]) ==> lo < rs[i].value.value <= hi)
    && (forall i, j :: 0 <= i < j < |rs| && Succeeded(rs[i]) && Succeeded(rs[j]) ==> rs[i].value.value < rs[j].value.value)
  }

  lemma RisingGrows(rs: seq<Option<Result<Lsn, AppendError>>>, lo: int, hi: int, r: Option<Result<Lsn, AppendError>>, now: int)
    requires Rising(rs, lo, hi) && lo <= hi && if Succeeded(r) then hi < r.value.value == now else hi == now
    ensures Rising(rs + [r], lo, now)
  {
  }

  class Appender {
    var cache: Option<Segment>
    /** Segment, LSN and ticket of the last successful append. */
    ghost var segment: int
    ghost var lsn: int
    ghost var last: Option<nat>

    ghost predicate Valid()
      reads this
    {
      if cache.None? then segment == -1 else segment <= cache.value.index
    }

    constructor ()
      ensures Valid() && cache.None? && segment == -1 && lsn == INVALID && last.None?
    {
      cache, segment, lsn, last := None, -1, INVALID, None;
    }

    /** `append_batch_erased`, for every legal sequence of answers. The cached index never decreases, and a
        successful append is acknowledged under its own ticket and answers above every earlier one,
        across seals, recoveries and markers. `None`: still retrying. */
    method AppendBatch(attempts: seq<Attempt>, append: (nat, Segment) -> AppendAnswer,
                       ghost begin: Sys, ghost end: Sys, ghost ticket: (nat, Segment) -> nat)
      returns (r: Option<Result<Lsn, AppendError>>)
      requires Valid() && LegalCall(begin, end, append, ticket) && Remembers(begin, last, segment, lsn)
      modifies this
      ensures Valid() && Remembers(end, last, segment, lsn)
      ensures old(cache).Some? ==> cache.Some? && old(cache).value.index <= cache.value.index
      ensures Succeeded(r) ==> old(lsn) < lsn == r.value.value && last.Some? && last.value >= |begin.tickets|
      ensures !Succeeded(r) ==> lsn == old(lsn) && segment == old(segment) && last == old(last)
    {
      LegalAnswersLieAbove(begin, end, append, ticket, last, segment, lsn);
      RemembersIsStable(begin, end, last, segment, lsn);
      var k;
      r, k := AppendLoop(attempts, append);
      if Succeeded(r) {
        last := Some(ticket(k, cache.value));
        assert Durable(end.core.space, end.tickets[last.value]);
      }
    }

    /** Any number of calls one after the other, the log moving on during and between them: the LSNs of the
        successful ones strictly rise. A call that has not returned is the last. */
    method AppendAll(calls: seq<seq<Attempt>>, appends: nat -> (nat, Segment) -> AppendAnswer,
                     ghost begins: seq<Sys>, ghost ends: seq<Sys>, ghost tickets: nat -> (nat, Segment) -> nat)
      returns (results: seq<Option<Result<Lsn, AppendError>>>)
      requires Valid() && LegalCalls(|calls|, appends, begins, ends, tickets)
      requires calls != [] ==> Remembers(begins[0], last, segment, lsn)
      modifies this
      ensures Valid() && |results| <= |calls|
      ensures old(cache).Some? ==> cache.Some? && old(cache).value.index <= cache.value.index
      ensures Rising(results, old(lsn), lsn)
    {
      results := [];
      var i := 0;
      while i < |calls|
        invariant 0 <= i <= |calls| && |results| == i && Valid() && old(lsn) <= lsn
        invariant i < |calls| ==> Remembers(begins[i], last, segment, lsn)
        invariant old(cache).Some? ==> cache.Some? && old(cache).value.index <= cache.value.index
        invariant Rising(results, old(lsn), lsn)
      {
        results := AppendNext(calls, appends, begins, ends, tickets, i, results, old(lsn));
        if results[i].None? { return; }
        i := i + 1;
      }
    }

    /** Call `i`, the ones before it having returned. */
    method AppendNext(calls: seq<seq<Attempt>>, appends: nat -> (nat, Segment) -> AppendAnswer,
                      ghost begins: seq<Sys>, ghost ends: seq<Sys>, ghost tickets: nat -> (nat, Segment) -> nat,
                      i: nat, before: seq<Option<Result<Lsn, AppendError>>>, ghost lo: int)
      returns (results: seq<Option<Result<Lsn, AppendError>>>)
      requires Valid() && LegalCalls(|calls|, appends, begins, ends, tickets) && i < |calls|
      requires Remembers(begins[i], last, segment, lsn) && lo <= lsn && Rising(before, lo, lsn)
      modifies this
      ensures Valid() && |results| == |before| + 1 && before <= results
      ensures old(cache).Some? ==> cache.Some? && old(cache).value.index <= cache.value.index
      ensures lo <= lsn && Rising(results, lo, lsn)
      ensures i + 1 < |calls| ==> Remembers(begins[i + 1], last, segment, lsn)
    {
      assert LegalCall(begins[i], ends[i], appends(i), tickets(i));
      var r := AppendBatch(calls[i], appends(i), begins[i], ends[i], tickets(i));
      RisingGrows(before, lo, old(lsn), r, lsn);
      results := before + [r];
      if i + 1 < |calls| {
        assert Follows(ends[i], begins, i + 1);
        RemembersIsStable(ends[i], begins[i + 1], last, segment, lsn);
      }
    }

    method AppendLoop(attempts: seq<Attempt>, append: (nat, Segment) -> AppendAnswer)
      returns (r: Option<Result<Lsn, AppendError>>, won: nat)
      requires Valid() && AnswersAbove(append, segment, lsn)
      modifies this`cache, this`segment, this`lsn
      ensures Valid()
      ensures old(cache).Some? ==> cache.Some? && old(cache).value.index <= cache.value.index
      ensures r.Some? && r.value.Ok? ==>
                && old(lsn) < lsn == r.value.value && cache.Some? && segment == cache.value.index
                && won < |attempts| && AnsweredWith(append(won, cache.value), cache.value, lsn)
      ensures !(r.Some? && r.value.Ok?) ==> lsn == old(lsn) && segment == old(segment)
      ensures r.Some? && r.value.Err? ==> exists k :: 0 <= k < |attempts| && GivesUp(attempts[k], k, cache, append, r.value.error)
    {
      for k := 0 to |attempts|
        invariant Valid() && lsn == old(lsn) && segment == old(segment)
        invariant old(cache).Some? ==> cache.Some? && old(cache).value.index <= cache.value.index
      {
        var a := attempts[k];
        if cache.None? {
          match a.load {
            case Err(e) => return Some(Err(e)), k;
            case Ok(view) => cache := Some(Tail(view));
          }
        }
        var g := cache.value;
        match append(k, g) {
          case Appended(offset) =>
            segment, lsn := g.index, g.base + offset - OLDEST;
            return Some(Ok(g.base + offset - OLDEST)), k;
          case Terminal => return Some(Err(LogletFailed)), k;
          case Shutdown => return Some(Err(ShuttingDown)), k;
          case NeedsReconfiguration =>
            var stopped := Reconfigure(a);
            if stopped { return if a.stop.Some? then Some(Err(a.stop.value)) else None, k; }
          case Retryable =>
            if a.recover {
              var stopped := Reconfigure(a);
              if stopped { return if a.stop.Some? then Some(Err(a.stop.value)) else None, k; }
            }
        }
      }
      return None, |attempts|;
    }

    /** Replaces the cached segment by a newer one, or keeps it when the wait ends otherwise. */
    method Reconfigure(a: Attempt) returns (stopped: bool)
      requires Valid() && cache.Some?
      modifies this`cache
      ensures Valid() && cache.Some?
      ensures stopped ==> cache == old(cache)
      ensures !stopped ==> cache == FirstNewer(a.views, old(cache).value.index) && old(cache).value.index < cache.value.index
    {
      var g := AwaitNewerSegment(a.views, cache.value.index);
      stopped := g.None?;
      if g.Some? { cache := g; }
    }
  }
}
