/** The background appender: producers enqueue operations and lease memory for them, one task batches
    them, appends each batch and then resolves the commit tokens it holds. */
module BackgroundAppenders {
  import opened Outcomes
  import opened Entries

  datatype Op =
    | Enqueue(record: Record, size: nat, lease: nat)
    | EnqueueWithNotification(record: Record, size: nat, lease: nat, token: nat)
    | Canary(token: nat)

  function CostInBytes(op: Op): nat { if op.Canary? then 0 else op.size }

  function LeaseOf(op: Op): nat { if op.Canary? then 0 else op.lease }

  function RecordOf(op: Op): seq<Record> { if op.Canary? then [] else [op.record] }

  function TokenOf(op: Op): seq<nat> { if op.Enqueue? then [] else [op.token] }

  // ---------------------------------------------------------------- the first operations of a sequence

  /** The records of the first `n` operations, in order. */
  function RecordsUpTo(ops: seq<Op>, n: nat): seq<Record>
    requires n <= |ops|
  {
    if n == 0 then [] else RecordsUpTo(ops, n - 1) + RecordOf(ops[n - 1])
  }

  /** The tokens of the first `n` operations, in order. */
  function TokensUpTo(ops: seq<Op>, n: nat): seq<nat>
    requires n <= |ops|
  {
    if n == 0 then [] else TokensUpTo(ops, n - 1) + TokenOf(ops[n - 1])
  }

  function CostUpTo(ops: seq<Op>, n: nat): nat
    requires n <= |ops|
  {
    if n == 0 then 0 else CostUpTo(ops, n - 1) + CostInBytes(ops[n - 1])
  }

  function LeasedUpTo(ops: seq<Op>, n: nat): nat
    requires n <= |ops|
  {
    if n == 0 then 0 else LeasedUpTo(ops, n - 1) + LeaseOf(ops[n - 1])
  }

  function Records(ops: seq<Op>): seq<Record> { RecordsUpTo(ops, |ops|) }

  function Tokens(ops: seq<Op>): seq<nat> { TokensUpTo(ops, |ops|) }

  lemma Regroup<T>(a: seq<T>, b: seq<T>, c: seq<T>)
    ensures (a + b) + c == a + (b + c)
  {
  }

  lemma {:induction false} SameRecords(ops: seq<Op>, op: Op, n: nat)
    requires n <= |ops|
    ensures RecordsUpTo(ops + [op], n) == RecordsUpTo(ops, n) && TokensUpTo(ops + [op], n) == TokensUpTo(ops, n)
  {
    if n > 0 { SameRecords(ops, op, n - 1); }
  }

  lemma {:induction false} SameSums(ops: seq<Op>, op: Op, n: nat)
    requires n <= |ops|
    ensures CostUpTo(ops + [op], n) == CostUpTo(ops, n) && LeasedUpTo(ops + [op], n) == LeasedUpTo(ops, n)
  {
    if n > 0 { SameSums(ops, op, n - 1); }
  }

  lemma {:induction false} RecordsRise(ops: seq<Op>, i: nat, j: nat)
    requires i <= j <= |ops|
    ensures RecordsUpTo(ops, i) <= RecordsUpTo(ops, j)
  {
    if i < j { RecordsRise(ops, i, j - 1); }
  }

  lemma {:induction false} LeasesRise(ops: seq<Op>, i: nat, j: nat)
    requires i <= j <= |ops|
    ensures LeasedUpTo(ops, i) <= LeasedUpTo(ops, j)
  {
    if i < j { LeasesRise(ops, i, j - 1); }
  }

  // ---------------------------------------------------------------- what a trail promises

  datatype Act = Appended(records: seq<Record>) | Resolved(token: nat)

  function AppendOf(a: Act): seq<Record> { if a.Appended? then a.records else [] }

  function ResolutionOf(a: Act): seq<nat> { if a.Resolved? then [a.token] else [] }

  /** The records appended by the first `k` acts of a trail, in order. */
  function AppendedUpTo(trail: seq<Act>, k: nat): seq<Record>
    requires k <= |trail|
  {
    if k == 0 then [] else AppendedUpTo(trail, k - 1) + AppendOf(trail[k - 1])
  }

  /** The tokens resolved by the first `k` acts of a trail, in order. */
  function ResolvedUpTo(trail: seq<Act>, k: nat): seq<nat>
    requires k <= |trail|
  {
    if k == 0 then [] else ResolvedUpTo(trail, k - 1) + ResolutionOf(trail[k - 1])
  }

  function AppendedBy(trail: seq<Act>): seq<Record> { AppendedUpTo(trail, |trail|) }

  function ResolvedBy(trail: seq<Act>): seq<nat> { ResolvedUpTo(trail, |trail|) }

  lemma {:induction false} SameActs(trail: seq<Act>, act: Act, k: nat)
    requires k <= |trail|
    ensures AppendedUpTo(trail + [act], k) == AppendedUpTo(trail, k) && ResolvedUpTo(trail + [act], k) == ResolvedUpTo(trail, k)
  {
    if k > 0 { SameActs(trail, act, k - 1); }
  }

  /** Tokens are the places of their operations in the order of enqueueing. */
  predicate Numbered(ops: seq<Op>) { forall p :: 0 <= p < |ops| && !ops[p].Enqueue? ==> ops[p].token == p }

  /** If act `k` resolves a token, all records enqueued at or before the token's own operation had been
      appended before. */
  predicate ResolvedInTime(trail: seq<Act>, ops: seq<Op>, k: nat) {
    k < |trail| && trail[k].Resolved? ==>
      var p := trail[k].token;
      p < |ops| && !ops[p].Enqueue? && RecordsUpTo(ops, p + 1) <= AppendedUpTo(trail, k)
  }

  ghost predicate AllInTime(trail: seq<Act>, ops: seq<Op>) { forall k: nat :: ResolvedInTime(trail, ops, k) }

  /** The trail has appended the records of the first `n` operations and resolved the tokens, in order, and
      every token in time. */
  ghost predicate Trails(trail: seq<Act>, ops: seq<Op>, n: nat, tokens: seq<nat>) {
    && n <= |ops|
    && AppendedBy(trail) == RecordsUpTo(ops, n)
    && ResolvedBy(trail) == tokens
    && AllInTime(trail, ops)
  }

  lemma OneMoreAct(trail: seq<Act>, act: Act)
    ensures AppendedBy(trail + [act]) == AppendedBy(trail) + AppendOf(act)
    ensures ResolvedBy(trail + [act]) == ResolvedBy(trail) + ResolutionOf(act)
  {
    SameActs(trail, act, |trail|);
  }

  lemma StaysInTime(trail: seq<Act>, act: Act, ops: seq<Op>)
    requires AllInTime(trail, ops) && ResolvedInTime(trail + [act], ops, |trail|)
    ensures AllInTime(trail + [act], ops)
  {
    forall k: nat ensures ResolvedInTime(trail + [act], ops, k) {
      if k < |trail| {
        assert ResolvedInTime(trail, ops, k);
        SameActs(trail, act, k);
      }
    }
  }

  lemma InTimeGrows(trail: seq<Act>, ops: seq<Op>, op: Op)
    requires AllInTime(trail, ops)
    ensures AllInTime(trail, ops + [op])
  {
    forall k: nat ensures ResolvedInTime(trail, ops + [op], k) {
      assert ResolvedInTime(trail, ops, k);
      if k < |trail| && trail[k].Resolved? { SameRecords(ops, op, trail[k].token + 1); }
    }
  }

  /** Appending the records of the operations up to `m` in one act. */
  lemma TrailsAppend(trail: seq<Act>, ops: seq<Op>, n: nat, m: nat, tokens: seq<nat>, records: seq<Record>)
    requires Trails(trail, ops, n, tokens) && m <= |ops| && RecordsUpTo(ops, m) == RecordsUpTo(ops, n) + records
    ensures Trails(trail + [Appended(records)], ops, m, tokens)
  {
    OneMoreAct(trail, Appended(records));
    StaysInTime(trail, Appended(records), ops);
  }

  /** Resolving the token of one of the first `n` operations. */
  lemma TrailsResolve(trail: seq<Act>, ops: seq<Op>, n: nat, tokens: seq<nat>, token: nat)
    requires Trails(trail, ops, n, tokens) && token < n && !ops[token].Enqueue?
    ensures Trails(trail + [Resolved(token)], ops, n, tokens + [token])
  {
    OneMoreAct(trail, Resolved(token));
    SameActs(trail, Resolved(token), |trail|);
    RecordsRise(ops, token + 1, n);
    StaysInTime(trail, Resolved(token), ops);
  }

  /** Tokens of the first `n` operations. */
  predicate AreTokens(ops: seq<Op>, n: nat, tokens: seq<nat>)
    requires n <= |ops|
  {
    forall i :: 0 <= i < |tokens| ==> tokens[i] < n && !ops[tokens[i]].Enqueue?
  }

  /** The operations from `lo` up to `n` have these records and these tokens. */
  predicate Holds(ops: seq<Op>, lo: nat, n: nat, records: seq<Record>, tokens: seq<nat>) {
    && lo <= n <= |ops|
    && RecordsUpTo(ops, n) == RecordsUpTo(ops, lo) + records
    && TokensUpTo(ops, n) == TokensUpTo(ops, lo) + tokens
    && AreTokens(ops, n, tokens)
  }

  lemma OneMoreOp(ops: seq<Op>, lo: nat, n: nat, records: seq<Record>, tokens: seq<nat>)
    requires Holds(ops, lo, n, records, tokens) && n < |ops| && Numbered(ops)
    ensures Holds(ops, lo, n + 1, records + RecordOf(ops[n]), tokens + TokenOf(ops[n]))
  {
    Regroup(RecordsUpTo(ops, lo), records, RecordOf(ops[n]));
    Regroup(TokensUpTo(ops, lo), tokens, TokenOf(ops[n]));
    OneMoreToken(ops, n, tokens);
  }

  lemma OneMoreToken(ops: seq<Op>, n: nat, tokens: seq<nat>)
    requires n < |ops| && Numbered(ops) && AreTokens(ops, n, tokens)
    ensures AreTokens(ops, n + 1, tokens + TokenOf(ops[n]))
  {
  }

  // ---------------------------------------------------------------- batches

  /** The part is what stands in the sequence from `lo` up to `hi`. */
  predicate Lays(ops: seq<Op>, lo: nat, hi: nat, part: seq<Op>) {
    lo <= hi <= |ops| && |part| == hi - lo && forall j {:trigger ops[j]} :: lo <= j < hi ==> ops[j] == part[j - lo]
  }

  function CostBetween(ops: seq<Op>, lo: nat, hi: nat): int
    requires lo <= hi <= |ops|
  {
    CostUpTo(ops, hi) - CostUpTo(ops, lo)
  }

  function LeasedBetween(ops: seq<Op>, lo: nat, hi: nat): int
    requires lo <= hi <= |ops|
  {
    LeasedUpTo(ops, hi) - LeasedUpTo(ops, lo)
  }

  /** A batch fits both limits, or holds a single operation. */
  predicate Fits(ops: seq<Op>, lo: nat, hi: nat, limit: nat, maxBatch: nat)
    requires lo <= hi <= |ops|
  {
    hi - lo <= 1 || (CostBetween(ops, lo, hi) <= limit && hi - lo <= maxBatch)
  }

  /** Act `k` appends the records of the operations from `lo` up to `hi`, a batch that fits. */
  predicate AppendsBatch(trail: seq<Act>, ops: seq<Op>, limit: nat, maxBatch: nat, k: nat, lo: nat, hi: nat) {
    && k < |trail| && lo <= hi <= |ops| && Fits(ops, lo, hi, limit, maxBatch)
    && AppendedUpTo(trail, k) == RecordsUpTo(ops, lo) && AppendedUpTo(trail, k + 1) == RecordsUpTo(ops, hi)
  }

  ghost predicate FitsAt(trail: seq<Act>, ops: seq<Op>, limit: nat, maxBatch: nat, k: nat) {
    k < |trail| && trail[k].Appended? ==> exists lo: nat, hi: nat :: AppendsBatch(trail, ops, limit, maxBatch, k, lo, hi)
  }

  /** Every append of the trail is one of a batch that fits. */
  ghost predicate AllFit(trail: seq<Act>, ops: seq<Op>, limit: nat, maxBatch: nat) {
    forall k: nat :: FitsAt(trail, ops, limit, maxBatch, k)
  }

  lemma BatchGrows(trail: seq<Act>, ops: seq<Op>, op: Op, limit: nat, maxBatch: nat, k: nat, lo: nat, hi: nat)
    requires AppendsBatch(trail, ops, limit, maxBatch, k, lo, hi)
    ensures AppendsBatch(trail, ops + [op], limit, maxBatch, k, lo, hi)
  {
    SameRecords(ops, op, lo);
    SameRecords(ops, op, hi);
    SameSums(ops, op, lo);
    SameSums(ops, op, hi);
  }

  lemma FitsGrow(trail: seq<Act>, ops: seq<Op>, op: Op, limit: nat, maxBatch: nat)
    requires AllFit(trail, ops, limit, maxBatch)
    ensures AllFit(trail, ops + [op], limit, maxBatch)
  {
    forall k: nat ensures FitsAt(trail, ops + [op], limit, maxBatch, k) {
      assert FitsAt(trail, ops, limit, maxBatch, k);
      if k < |trail| && trail[k].Appended? {
        var lo: nat, hi: nat :| AppendsBatch(trail, ops, limit, maxBatch, k, lo, hi);
        BatchGrows(trail, ops, op, limit, maxBatch, k, lo, hi);
      }
    }
  }

  lemma FitsStay(trail: seq<Act>, act: Act, ops: seq<Op>, limit: nat, maxBatch: nat)
    requires AllFit(trail, ops, limit, maxBatch) && FitsAt(trail + [act], ops, limit, maxBatch, |trail|)
    ensures AllFit(trail + [act], ops, limit, maxBatch)
  {
    forall k: nat ensures FitsAt(trail + [act], ops, limit, maxBatch, k) {
      assert FitsAt(trail, ops, limit, maxBatch, k);
      if k < |trail| && trail[k].Appended? {
        var lo: nat, hi: nat :| AppendsBatch(trail, ops, limit, maxBatch, k, lo, hi);
        SameActs(trail, act, k);
        SameActs(trail, act, k + 1);
        assert AppendsBatch(trail + [act], ops, limit, maxBatch, k, lo, hi);
      }
    }
  }

  /** Appending the records of a batch that fits. */
  lemma FitsAppend(trail: seq<Act>, ops: seq<Op>, limit: nat, maxBatch: nat, n: nat, m: nat, records: seq<Record>)
    requires AllFit(trail, ops, limit, maxBatch) && n <= m <= |ops| && Fits(ops, n, m, limit, maxBatch)
    requires AppendedBy(trail) == RecordsUpTo(ops, n) && RecordsUpTo(ops, m) == RecordsUpTo(ops, n) + records
    ensures AllFit(trail + [Appended(records)], ops, limit, maxBatch)
  {
    SameActs(trail, Appended(records), |trail|);
    assert AppendsBatch(trail + [Appended(records)], ops, limit, maxBatch, |trail|, n, m);
    FitsStay(trail, Appended(records), ops, limit, maxBatch);
  }

  /** Where the operations are, all of them ever enqueued being `ops`: those up to `done` are flushed, those
      up to `gone` lost to a failed append, those up to `taken` in flight, those up to `batched` in the batch,
      and the others in the queue. */
  datatype Marks = Marks(done: nat, gone: nat, taken: nat, batched: nat)

  predicate Ordered(ops: seq<Op>, m: Marks) { m.done <= m.gone <= m.taken <= m.batched <= |ops| }

  predicate Placed(ops: seq<Op>, m: Marks, inFlight: seq<Op>, batch: seq<Op>, queue: seq<Op>) {
    && Ordered(ops, m)
    && Lays(ops, m.gone, m.taken, inFlight)
    && Lays(ops, m.taken, m.batched, batch)
    && Lays(ops, m.batched, |ops|, queue)
  }

  /** The bytes of the batch and of what is in flight. */
  function BytesOf(ops: seq<Op>, m: Marks): int
    requires Ordered(ops, m)
  {
    CostBetween(ops, m.gone, m.batched)
  }

  /** The leases of all operations that are not flushed or lost. */
  function LeasesOf(ops: seq<Op>, m: Marks): int
    requires Ordered(ops, m)
  {
    LeasedBetween(ops, m.gone, |ops|)
  }

  lemma PlacedPush(ops: seq<Op>, m: Marks, inFlight: seq<Op>, batch: seq<Op>, queue: seq<Op>, op: Op)
    requires Placed(ops, m, inFlight, batch, queue)
    ensures Placed(ops + [op], m, inFlight, batch, queue + [op])
  {
  }

  lemma PlacedTake(ops: seq<Op>, m: Marks, inFlight: seq<Op>, batch: seq<Op>, queue: seq<Op>)
    requires Placed(ops, m, inFlight, batch, queue) && queue != []
    ensures Placed(ops, m.(batched := m.batched + 1), inFlight, batch + [queue[0]], queue[1..])
    ensures ops[m.batched] == queue[0]
  {
    assert ops[m.batched] == queue[0];
  }

  lemma SumsPush(ops: seq<Op>, m: Marks, op: Op, limit: nat, maxBatch: nat)
    requires Ordered(ops, m)
    ensures BytesOf(ops + [op], m) == BytesOf(ops, m) && LeasesOf(ops + [op], m) == LeasesOf(ops, m) + LeaseOf(op)
    ensures Fits(ops + [op], m.gone, m.taken, limit, maxBatch) == Fits(ops, m.gone, m.taken, limit, maxBatch)
    ensures Fits(ops + [op], m.taken, m.batched, limit, maxBatch) == Fits(ops, m.taken, m.batched, limit, maxBatch)
  {
    SameSums(ops, op, m.gone);
    SameSums(ops, op, m.taken);
    SameSums(ops, op, m.batched);
    SameSums(ops, op, |ops|);
  }

  lemma TrailsPush(trail: seq<Act>, ops: seq<Op>, n: nat, op: Op)
    requires n <= |ops| && Trails(trail, ops, n, TokensUpTo(ops, n))
    ensures Trails(trail, ops + [op], n, TokensUpTo(ops + [op], n))
  {
    SameRecords(ops, op, n);
    InTimeGrows(trail, ops, op);
  }

  // ---------------------------------------------------------------- producers

  datatype EnqueueError = Closed | Full | TooLarge

  /** The calls of `LogSender`; sizes are the estimated encoded sizes. */
  datatype Send =
    | Plain(record: Record, size: nat)
    | Unchecked(record: Record, size: nat)
    | Unaccounted(record: Record, size: nat)
    | Notifying(record: Record, size: nat)
    | Many(items: seq<(Record, nat)>, checked: bool)
    | NotifyCommitted

  /** What happens around one receive: producers send before it and while an append it leads to is in flight,
      and the worker may be cancelled or left without producers. */
  datatype Event = Event(sends: seq<Send>, during: seq<Send>, cancelled: bool, abandoned: bool)

  /** Why a single send is turned away. */
  function Refusal(s: Send, closed: bool, available: bool, limit: nat): Option<EnqueueError>
    requires !s.Many?
  {
    if s.Unaccounted? && s.size > limit then Some(TooLarge)
    else if closed then Some(Closed)
    else if (s.Plain? || s.Notifying? || s.Unchecked?) && !available then Some(Full)
    else if (s.Plain? || s.Notifying?) && s.size > limit then Some(TooLarge)
    else None
  }

  /** The operation a single send puts into the queue; `token` is its place. */
  function OpOf(s: Send, token: nat): Op
    requires !s.Many?
  {
    match s
    case Plain(record, size) => Enqueue(record, size, size)
    case Unchecked(record, size) => Enqueue(record, size, size)
    case Unaccounted(record, size) => Enqueue(record, size, 0)
    case Notifying(record, size) => EnqueueWithNotification(record, size, size, token)
    case NotifyCommitted => Canary(token)
  }

  function OpsOf(items: seq<(Record, nat)>): seq<Op> {
    seq(|items|, k requires 0 <= k < |items| => Enqueue(items[k].0, items[k].1, items[k].1))
  }

  lemma OneMoreItem(ops: seq<Op>, items: seq<(Record, nat)>, n: nat)
    requires n < |items|
    ensures ops + OpsOf(items[..n + 1]) == ops + OpsOf(items[..n]) + [Enqueue(items[n].0, items[n].1, items[n].1)]
  {
  }

  lemma {:induction false} PrefixSame(ops: seq<Op>, more: seq<Op>, n: nat)
    requires ops <= more && n <= |ops|
    ensures RecordsUpTo(more, n) == RecordsUpTo(ops, n) && TokensUpTo(more, n) == TokensUpTo(ops, n)
  {
    if n > 0 { PrefixSame(ops, more, n - 1); }
  }

  class BackgroundAppender {
    const limit: nat
    const maxBatch: nat
    const capacity: Option<nat>
    var queue: seq<Op>
    var closed: bool
    var batch: seq<Op>
    var bytes: nat
    var inFlight: seq<Op>
    var sent: nat
    var used: nat
    var trail: seq<Act>
    ghost var enqueued: seq<Op>
    ghost var marks: Marks

    /** Every operation ever enqueued is flushed, lost to a failed append, in flight, in the batch or in the
        queue, in that order, and the trail is that of the flushed ones. Reserved bytes are exactly the leases
        of what is in flight or still to come. */
    ghost predicate Valid()
      reads this
    {
      && Placed(enqueued, marks, inFlight, batch, queue)
      && sent == |enqueued| && Numbered(enqueued)
      && bytes == BytesOf(enqueued, marks) && (capacity.Some? ==> used == LeasesOf(enqueued, marks))
      && Fits(enqueued, marks.gone, marks.taken, limit, maxBatch)
      && Fits(enqueued, marks.taken, marks.batched, limit, maxBatch)
      && Trails(trail, enqueued, marks.done, TokensUpTo(enqueued, marks.done))
      && AllFit(trail, enqueued, limit, maxBatch)
    }

    /** Nothing lost and nothing in flight. */
    ghost predicate Idle() reads this { marks.done == marks.gone == marks.taken }

    constructor (limit: nat, maxBatch: nat, capacity: Option<nat>)
      ensures Valid() && Idle() && !closed && enqueued == [] && queue == [] && batch == [] && used == 0
      ensures this.limit == limit && this.maxBatch == maxBatch && this.capacity == capacity
    {
      this.limit, this.maxBatch, this.capacity := limit, maxBatch, capacity;
      queue, closed, batch, bytes, inFlight, sent, used, trail := [], false, [], 0, [], 0, 0, [];
      enqueued, marks := [], Marks(0, 0, 0, 0);
    }

    predicate Available() reads this { capacity.None? || used < capacity.value }

    /** The pool is within one record of its capacity. */
    predicate Bounded() reads this { capacity.Some? ==> used <= Max(capacity.value - 1, 0) + limit }

    method Push(op: Op)
      requires Valid() && (!op.Enqueue? ==> op.token == sent)
      modifies this`queue, this`enqueued, this`used, this`sent
      ensures Valid() && queue == old(queue) + [op] && enqueued == old(enqueued) + [op]
      ensures used == if capacity.Some? then old(used) + LeaseOf(op) else old(used)
    {
      PlacedPush(enqueued, marks, inFlight, batch, queue, op);
      SumsPush(enqueued, marks, op, limit, maxBatch);
      TrailsPush(trail, enqueued, marks.done, op);
      FitsGrow(trail, enqueued, op, limit, maxBatch);
      sent := sent + 1;
      queue := queue + [op];
      enqueued := enqueued + [op];
      if capacity.Some? { used := used + LeaseOf(op); }
    }

    /** `admit`. */
    method Admit() returns (r: Option<EnqueueError>)
      ensures r == if closed then Some(Closed) else if !Available() then Some(Full) else None
    {
      if closed { return Some(Closed); }
      return if Available() then None else Some(Full);
    }

    /** `enqueue`, `enqueue_unchecked`, `enqueue_unaccounted`, `enqueue_with_notification` and
        `notify_committed`. Size-checked sends keep the pool within one record of its capacity. */
    method SubmitOne(s: Send) returns (r: Option<EnqueueError>)
      requires Valid() && !s.Many?
      modifies this`queue, this`enqueued, this`used, this`sent
      ensures Valid() && r == Refusal(s, closed, old(Available()), limit)
      ensures r.Some? ==> enqueued == old(enqueued) && queue == old(queue) && used == old(used)
      ensures r.None? ==> enqueued == old(enqueued) + [OpOf(s, old(sent))] && queue == old(queue) + [OpOf(s, old(sent))]
      ensures Modest(s) && old(Bounded()) ==> Bounded()
    {
      r := Check(s);
      if r.None? { Push(OpOf(s, sent)); }
    }

    /** The checks a single send goes through. */
    method Check(s: Send) returns (r: Option<EnqueueError>)
      requires !s.Many?
      ensures r == Refusal(s, closed, Available(), limit)
    {
      match s
      case Plain(_, size) => r := AdmitSized(size);
      case Unchecked(_, _) => r := Admit();
      case Unaccounted(_, size) => r := if size > limit then Some(TooLarge) else if closed then Some(Closed) else None;
      case Notifying(_, size) => r := AdmitSized(size);
      case NotifyCommitted => r := if closed then Some(Closed) else None;
    }

    method AdmitSized(size: nat) returns (r: Option<EnqueueError>)
      ensures r == if closed then Some(Closed) else if !Available() then Some(Full) else if size > limit then Some(TooLarge) else None
    {
      r := Admit();
      if r.None? && size > limit { r := Some(TooLarge); }
    }

    /** `enqueue_many` and `enqueue_many_unchecked`: admitted as one, enqueued one at a time; records
        before the first oversized one stay in the queue. */
    method SubmitMany(items: seq<(Record, nat)>, checked: bool) returns (r: Option<EnqueueError>, n: nat)
      requires Valid()
      modifies this`queue, this`enqueued, this`used, this`sent
      ensures Valid() && n <= |items| && (r.None? <==> n == |items|)
      ensures enqueued == old(enqueued) + OpsOf(items[..n]) && queue == old(queue) + OpsOf(items[..n])
      ensures r == Some(TooLarge) ==> checked && items[n].1 > limit
      ensures n > 0 ==> !closed && old(Available())
    {
      n := 0;
      if items == [] { return None, 0; }
      r := Admit();
      if r.None? { r, n := EnqueueAll(items, checked); }
    }

    method EnqueueAll(items: seq<(Record, nat)>, checked: bool) returns (r: Option<EnqueueError>, n: nat)
      requires Valid()
      modifies this`queue, this`enqueued, this`used, this`sent
      ensures Valid() && n <= |items| && (r.None? <==> n == |items|)
      ensures enqueued == old(enqueued) + OpsOf(items[..n]) && queue == old(queue) + OpsOf(items[..n])
      ensures r.Some? ==> r == Some(TooLarge) && checked && items[n].1 > limit
    {
      n := 0;
      while n < |items|
        invariant n <= |items| && Valid()
        invariant enqueued == old(enqueued) + OpsOf(items[..n]) && queue == old(queue) + OpsOf(items[..n])
      {
        if checked && items[n].1 > limit { return Some(TooLarge), n; }
        OneMoreItem(old(enqueued), items, n);
        OneMoreItem(old(queue), items, n);
        Push(Enqueue(items[n].0, items[n].1, items[n].1));
        n := n + 1;
      }
      r := None;
    }

    /** Any call of a producer. */
    method Submit(s: Send)
      requires Valid()
      modifies this`queue, this`enqueued, this`used, this`sent
      ensures Valid() && old(enqueued) <= enqueued && old(queue) <= queue && (closed ==> queue == old(queue))
      ensures Modest(s) && old(Bounded()) ==> Bounded()
    {
      if s.Many? {
        var _, n := SubmitMany(s.items, s.checked);
      } else {
        var _ := SubmitOne(s);
      }
    }

    /** What producers send. */
    method Arrive(sends: seq<Send>)
      requires Valid()
      modifies this`queue, this`enqueued, this`used, this`sent
      ensures Valid() && old(enqueued) <= enqueued && old(queue) <= queue
      ensures closed || sends == [] ==> queue == old(queue)
      ensures (forall s :: s in sends ==> Modest(s)) && old(Bounded()) ==> Bounded()
    {
      for k := 0 to |sends|
        invariant Valid() && old(enqueued) <= enqueued && old(queue) <= queue
        invariant closed || k == 0 ==> queue == old(queue)
        invariant (forall s :: s in sends ==> Modest(s)) && old(Bounded()) ==> Bounded()
      {
        assert sends[k] in sends;
        Submit(sends[k]);
      }
    }

    // -------------------------------------------------------------- the worker

    predicate CanFit(op: Op)
      reads this
    {
      bytes + CostInBytes(op) <= limit && |batch| < maxBatch
    }

    /** Takes the next operation off the queue and into the batch, which must fit it or be empty. */
    method Take()
      requires Valid() && queue != [] && Idle() && (CanFit(queue[0]) || batch == [])
      modifies this`queue, this`batch, this`bytes, this`marks
      ensures Valid() && Idle() && batch == old(batch) + [old(queue[0])] && queue == old(queue[1..])
    {
      var op := queue[0];
      PlacedTake(enqueued, marks, inFlight, batch, queue);
      bytes := bytes + CostInBytes(op);
      batch := batch + [op];
      queue := queue[1..];
      marks := marks.(batched := marks.batched + 1);
    }

    /** Splits the operations of a batch into what to append and whom to notify. */
    static method Split(b: seq<Op>, ghost ops: seq<Op>, ghost lo: nat, ghost hi: nat)
      returns (records: seq<Record>, tokens: seq<nat>)
      requires Lays(ops, lo, hi, b) && Numbered(ops)
      ensures Holds(ops, lo, hi, records, tokens)
    {
      records, tokens := [], [];
      for k := 0 to |b|
        invariant Holds(ops, lo, lo + k, records, tokens)
      {
        assert ops[lo + k] == b[k];
        OneMoreOp(ops, lo, lo + k, records, tokens);
        records, tokens := records + RecordOf(b[k]), tokens + TokenOf(b[k]);
      }
    }

    /** Gives back the leases of a batch. */
    static method Release(held: nat, b: seq<Op>, ghost ops: seq<Op>, ghost lo: nat, ghost hi: nat) returns (r: nat)
      requires Lays(ops, lo, hi, b) && LeasedBetween(ops, lo, hi) <= held
      ensures r == held - LeasedBetween(ops, lo, hi)
    {
      r := held;
      for k := 0 to |b|
        invariant r == held - LeasedBetween(ops, lo, lo + k)
      {
        assert ops[lo + k] == b[k];
        LeasesRise(ops, lo + k + 1, hi);
        r := r - LeaseOf(b[k]);
      }
    }

    /** Appends the records of a batch, if it has any. */
    method Append(acts: seq<Act>, records: seq<Record>, ghost ops: seq<Op>, ghost n: nat, ghost m: nat, ghost tokens: seq<nat>)
      returns (r: seq<Act>)
      requires Trails(acts, ops, n, tokens) && n <= m <= |ops| && RecordsUpTo(ops, m) == RecordsUpTo(ops, n) + records
      requires AllFit(acts, ops, limit, maxBatch) && Fits(ops, n, m, limit, maxBatch)
      ensures Trails(r, ops, m, tokens) && AllFit(r, ops, limit, maxBatch) && acts <= r
    {
      r := acts;
      if records != [] {
        TrailsAppend(acts, ops, n, m, tokens, records);
        FitsAppend(acts, ops, limit, maxBatch, n, m, records);
        r := acts + [Appended(records)];
      }
    }

    /** Resolves the tokens of a batch whose records have all been appended. */
    method Resolve(acts: seq<Act>, tokens: seq<nat>, ghost ops: seq<Op>, ghost n: nat, ghost before: seq<nat>)
      returns (r: seq<Act>)
      requires Trails(acts, ops, n, before) && AreTokens(ops, n, tokens) && AllFit(acts, ops, limit, maxBatch)
      ensures Trails(r, ops, n, before + tokens) && AllFit(r, ops, limit, maxBatch) && acts <= r
    {
      r := acts;
      for i := 0 to |tokens|
        invariant Trails(r, ops, n, before + tokens[..i]) && AllFit(r, ops, limit, maxBatch) && acts <= r
      {
        FitsStay(r, Resolved(tokens[i]), ops, limit, maxBatch);
        TrailsResolve(r, ops, n, before + tokens[..i], tokens[i]);
        assert before + tokens[..i + 1] == before + tokens[..i] + [tokens[i]];
        r := r + [Resolved(tokens[i])];
      }
      assert tokens[..|tokens|] == tokens;
    }

    /** Takes the batch out to be appended; its leases stay reserved. */
    method StartAppend() returns (records: seq<Record>, tokens: seq<nat>)
      requires Valid() && Idle()
      modifies this`batch, this`inFlight, this`marks
      ensures Valid() && InFlight(records, tokens) && inFlight == old(batch) && batch == []
      ensures records == [] <==> !old(HasRecords())
      ensures marks == old(marks).(taken := old(marks.batched))
    {
      records, tokens := Split(batch, enqueued, marks.taken, marks.batched);
      inFlight, batch, marks := batch, [], marks.(taken := marks.batched);
    }

    /** What is in flight has these records and tokens. */
    ghost predicate InFlight(records: seq<Record>, tokens: seq<nat>)
      requires Valid()
      reads this
    {
      && marks.done == marks.gone && marks.taken == marks.batched
      && Holds(enqueued, marks.done, marks.taken, records, tokens)
    }

    /** The append succeeded: the leases are dropped, then the tokens are resolved. */
    method FinishAppend(records: seq<Record>, tokens: seq<nat>)
      requires Valid() && InFlight(records, tokens)
      modifies this`inFlight, this`bytes, this`used, this`trail, this`marks
      ensures Valid() && Idle() && inFlight == [] && used <= old(used) && old(trail) <= trail
      ensures marks.done == marks.batched == old(marks.batched)
    {
      ghost var before := TokensUpTo(enqueued, marks.done);
      var acts := Append(trail, records, enqueued, marks.done, marks.taken, before);
      DropLeases();
      trail := Resolve(acts, tokens, enqueued, marks.taken, before);
      inFlight, bytes := [], 0;
      marks := Marks(marks.taken, marks.taken, marks.taken, marks.batched);
    }

    method DropLeases()
      requires Valid() && marks.taken == marks.batched
      modifies this`used
      ensures capacity.Some? ==> used == LeasedBetween(enqueued, marks.taken, |enqueued|)
      ensures used <= old(used)
    {
      LeasesRise(enqueued, marks.gone, marks.taken);
      LeasesRise(enqueued, marks.taken, |enqueued|);
      if capacity.Some? { used := Release(used, inFlight, enqueued, marks.gone, marks.taken); }
    }

    /** The append failed: the leases are dropped with the batch, and nothing is resolved. */
    method AbandonAppend()
      requires Valid() && marks.taken == marks.batched
      modifies this`inFlight, this`bytes, this`used, this`marks
      ensures Valid() && inFlight == [] && used <= old(used)
      ensures marks == old(marks).(gone := old(marks.taken))
    {
      DropLeases();
      inFlight, bytes, marks := [], 0, marks.(gone := marks.taken);
    }

    /** `process_appends`: appends the records of the batch while producers go on sending, then drops their
        leases and resolves its tokens. A failed append loses the batch, resolves nothing and ends the
        worker. */
    method ProcessAppends(ok: bool, during: seq<Send>) returns (appended: bool)
      requires Valid() && Idle()
      modifies this
      ensures Valid() && batch == [] && inFlight == [] && closed == old(closed)
      ensures old(enqueued) <= enqueued && old(queue) <= queue && (closed || during == [] ==> queue == old(queue))
      ensures appended <==> ok || !old(HasRecords())
      ensures appended ==> Idle() && marks.done == marks.batched == old(marks.batched) && old(trail) <= trail
      ensures !appended ==> trail == old(trail) && marks.done == old(marks.done)
      ensures (forall s :: s in during ==> Modest(s)) && old(Bounded()) ==> Bounded()
    {
      var records, tokens := StartAppend();
      appended := ok || records == [];
      SendBatch(appended, during, records, tokens);
    }

    method SendBatch(appended: bool, during: seq<Send>, records: seq<Record>, tokens: seq<nat>)
      requires Valid() && InFlight(records, tokens)
      modifies this
      ensures Valid() && inFlight == [] && batch == old(batch) && closed == old(closed)
      ensures old(enqueued) <= enqueued && old(queue) <= queue && (closed || during == [] ==> queue == old(queue))
      ensures appended ==> Idle() && marks.done == marks.batched == old(marks.batched) && old(trail) <= trail
      ensures !appended ==> trail == old(trail) && marks.done == old(marks.done)
      ensures (forall s :: s in during ==> Modest(s)) && old(Bounded()) ==> Bounded()
    {
      AwaitAppend(during, records, tokens);
      EndAppend(appended, records, tokens);
    }

    /** The batch holds records. */
    ghost predicate HasRecords()
      requires Valid()
      reads this
    {
      RecordsUpTo(enqueued, marks.batched) != RecordsUpTo(enqueued, marks.taken)
    }

    /** While an append is in flight producers go on sending. */
    method AwaitAppend(during: seq<Send>, records: seq<Record>, ghost tokens: seq<nat>)
      requires Valid() && InFlight(records, tokens)
      modifies this`queue, this`enqueued, this`used, this`sent
      ensures Valid() && InFlight(records, tokens)
      ensures old(enqueued) <= enqueued && old(queue) <= queue && (closed || during == [] ==> queue == old(queue))
      ensures (forall s :: s in during ==> Modest(s)) && old(Bounded()) ==> Bounded()
    {
      if records != [] {
        Arrive(during);
        PrefixSame(old(enqueued), enqueued, marks.done);
        PrefixSame(old(enqueued), enqueued, marks.taken);
      }
    }

    method EndAppend(appended: bool, records: seq<Record>, tokens: seq<nat>)
      requires Valid() && InFlight(records, tokens)
      modifies this`inFlight, this`bytes, this`used, this`trail, this`marks
      ensures Valid() && inFlight == [] && used <= old(used)
      ensures appended ==> Idle() && marks.done == marks.batched == old(marks.batched) && old(trail) <= trail
      ensures !appended ==> trail == old(trail) && marks == old(marks).(gone := old(marks.taken))
    {
      if appended { FinishAppend(records, tokens); } else { AbandonAppend(); }
    }

    /** Takes the next operation into the batch, flushing first when it does not fit. */
    method TakeOrFlush(ok: bool, during: seq<Send>) returns (appended: bool)
      requires Valid() && Idle() && queue != []
      modifies this
      ensures Valid() && old(enqueued) <= enqueued && closed == old(closed)
      ensures if appended then Idle() else !ok && batch == [] && inFlight == []
      ensures (forall s :: s in during ==> Modest(s)) && old(Bounded()) ==> Bounded()
    {
      appended := true;
      if CanFit(queue[0]) { Take(); } else { appended := FlushThenTake(ok, during); }
    }

    method FlushThenTake(ok: bool, during: seq<Send>) returns (appended: bool)
      requires Valid() && Idle() && queue != []
      modifies this
      ensures Valid() && old(enqueued) <= enqueued && closed == old(closed)
      ensures if appended then Idle() else !ok && batch == [] && inFlight == []
      ensures (forall s :: s in during ==> Modest(s)) && old(Bounded()) ==> Bounded()
    {
      appended := ProcessAppends(ok, during);
      if appended { Take(); }
    }

    /** `run`: `Some(true)` after a clean drain, `Some(false)` after a failed append, `None` while it goes
        on. A clean drain has appended every record ever enqueued and resolved every token; whenever the
        worker waits for input its batch is empty. `appends(k)` says whether an append at event `k`
        succeeds. */
    method Run(events: seq<Event>, appends: nat -> bool) returns (r: Option<bool>, waiting: bool)
      requires Valid() && Idle() && batch == [] && !closed
      modifies this
      ensures Valid() && old(enqueued) <= enqueued
      ensures waiting ==> r.None? && batch == [] && Idle()
      ensures r == Some(true) ==> AppendedBy(trail) == Records(enqueued) && ResolvedBy(trail) == Tokens(enqueued)
      ensures r == Some(false) ==> exists k :: 0 <= k <= |events| && !appends(k)
      ensures AppendedBy(trail) <= Records(enqueued)
      ensures forall k: nat :: ResolvedInTime(trail, enqueued, k) && FitsAt(trail, enqueued, limit, maxBatch, k)
      ensures AllModest(events) && old(Bounded()) ==> Bounded()
    {
      r, waiting := RunLoop(events, appends);
      RecordsRise(enqueued, marks.done, |enqueued|);
    }

    /** One receive, in the outer loop or, `filling` the batch, in the inner one. */
    method Turn(e: Event, ok: bool, filling: bool, gone: bool) returns (next: Next)
      requires Valid() && Idle() && (!filling ==> batch == [])
      modifies this
      ensures Valid() && old(enqueued) <= enqueued
      ensures next.GoOn? ==> Idle() && (!next.filling ==> batch == [])
      ensures next == Ended(true) ==> queue == [] && batch == [] && Idle()
      ensures next == Ended(false) ==> !ok
      ensures EventIsModest(e) && old(Bounded()) ==> Bounded()
    {
      if !gone { Arrive(e.sends); }
      var left := gone || e.abandoned;
      next := Receive(e.cancelled, ok, filling, left, if left then [] else e.during);
    }

    method Receive(cancelled: bool, ok: bool, filling: bool, left: bool, during: seq<Send>) returns (next: Next)
      requires Valid() && Idle() && (!filling ==> batch == []) && (left ==> during == [])
      modifies this
      ensures Valid() && old(enqueued) <= enqueued
      ensures next.GoOn? ==> Idle() && (!next.filling ==> batch == [])
      ensures next == Ended(true) ==> queue == [] && batch == [] && Idle()
      ensures next == Ended(false) ==> !ok
      ensures (forall s :: s in during ==> Modest(s)) && old(Bounded()) ==> Bounded()
    {
      if !filling && cancelled && !closed {
        closed := true; // stop accepting, drain what is queued
        next := GoOn(false, left);
      } else if queue != [] {
        var appended := TakeOrFlush(ok, during);
        next := if appended then GoOn(true, left) else Ended(false);
      } else {
        next := Flush(ok, filling, left, during);
      }
    }

    /** Nothing more for now, or at all. */
    method Flush(ok: bool, filling: bool, left: bool, during: seq<Send>) returns (next: Next)
      requires Valid() && Idle() && queue == [] && (!filling ==> batch == []) && (left ==> during == [])
      modifies this
      ensures Valid() && old(enqueued) <= enqueued
      ensures next.GoOn? ==> Idle() && (!next.filling ==> batch == [])
      ensures next == Ended(true) ==> queue == [] && batch == [] && Idle()
      ensures next == Ended(false) ==> !ok
      ensures (forall s :: s in during ==> Modest(s)) && old(Bounded()) ==> Bounded()
    {
      if closed || left || filling {
        var appended := ProcessAppends(ok, during);
        next := if !appended || closed || left then Ended(appended) else GoOn(false, left);
      } else {
        next := GoOn(false, left); // waits
      }
    }

    method RunLoop(events: seq<Event>, appends: nat -> bool) returns (r: Option<bool>, waiting: bool)
      requires Valid() && Idle() && batch == []
      modifies this
      ensures Valid() && old(enqueued) <= enqueued
      ensures waiting ==> r.None? && batch == [] && Idle()
      ensures r == Some(true) ==> queue == [] && batch == [] && Idle()
      ensures r == Some(false) ==> exists k :: 0 <= k <= |events| && !appends(k)
      ensures AllModest(events) && old(Bounded()) ==> Bounded()
    {
      var gone, filling := false, false;
      ghost var modest := AllModest(events) && Bounded();
      for k := 0 to |events|
        invariant Valid() && Idle() && old(enqueued) <= enqueued
        invariant !filling ==> batch == []
        invariant modest ==> Bounded()
      {
        assert events[k] in events;
        var next := Turn(events[k], appends(k), filling, gone);
        match next
        case Ended(ok) => return Some(ok), false;
        case GoOn(f, g) => filling, gone := f, g;
      }
      return None, !filling;
    }
  }

  datatype Next = GoOn(filling: bool, gone: bool) | Ended(ok: bool)

  predicate EventIsModest(e: Event) { forall s :: s in e.sends + e.during ==> Modest(s) }

  predicate AllModest(events: seq<Event>) { forall e :: e in events ==> EventIsModest(e) }

  /** A size-checked single send, or one that leases nothing. */
  predicate Modest(s: Send) { s.Plain? || s.Notifying? || s.Unaccounted? || s.NotifyCommitted? }
}
