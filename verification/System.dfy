/** One log of the cluster as a step system: loglets obeying their contract, the versioned chain
    changed by batches of commands, appends, acknowledgements and readers, in any interleaving. */
module System {
  import opened Outcomes
  import opened Addresses
  import opened Entries
  import opened Chains
  import opened ChainCommands
  import ChainWriter
  import opened Loglets
  import opened VirtualLog
  import opened ReadStreams
  import opened Readers
  import opened ReaderTraces
  import opened ReaderLimits

  /** A batch handed to a loglet: the offsets `[first, first + |records|)` it was given. */
  datatype Ticket = Ticket(segment: nat, first: nat, records: seq<Record>)

  /** `history` holds every version of the chain, `pending` every command ever submitted: a command may
      be written at any later time, or not at all. */
  datatype Sys = Sys(
    core: Core,
    history: seq<LiveChain>,
    tickets: seq<Ticket>,
    acked: set<nat>,
    pending: set<ChainOp>,
    readers: seq<Reader>)

  function FirstLsn(s: Space, t: Ticket): int
    requires Known(s, t.segment)
  {
    s.bases[t.segment] + t.first - OLDEST
  }

  /** The LSN an append answers with: that of the last record of its batch. */
  function LastLsn(s: Space, t: Ticket): int
    requires Known(s, t.segment)
  {
    FirstLsn(s, t) + |t.records| - 1
  }

  predicate TicketOk(s: Space, t: Ticket) {
    && Known(s, t.segment) && |t.records| > 0 && t.first >= OLDEST
    && t.first - 1 + |t.records| <= |s.loglets[t.segment].log|
    && s.loglets[t.segment].log[t.first - 1..t.first - 1 + |t.records|] == t.records
  }

  predicate Durable(s: Space, t: Ticket) {
    TicketOk(s, t) && t.first - 1 + |t.records| <= s.loglets[t.segment].committed
  }

  /** Two batches of one segment, the earlier first. */
  predicate InOrder(t: Ticket, u: Ticket) {
    t.segment == u.segment ==> t.first + |t.records| <= u.first
  }

  ghost predicate TicketsInv(s: Space, ts: seq<Ticket>) {
    && (forall k :: 0 <= k < |ts| ==> TicketOk(s, ts[k]))
    && (forall j, k :: 0 <= j < k < |ts| ==> InOrder(ts[j], ts[k]))
  }

  ghost predicate ReaderInv(s: Space, h: seq<LiveChain>, r: Reader) {
    StreamInv(s, h, r) && TraceInv(s, r) && EndInv(r) && DoneInv(s, r)
  }

  ghost predicate VersionsInv(y: Sys) {
    && CoreInv(y.core)
    && World(y.core.space, y.history)
    && y.history[|y.history| - 1] == y.core.chain
  }

  ghost predicate SysInv(y: Sys) {
    && VersionsInv(y)
    && TicketsInv(y.core.space, y.tickets)
    && (forall k :: k in y.acked ==> k < |y.tickets| && Durable(y.core.space, y.tickets[k]))
    && (forall op :: op in y.pending ==> Evidence(y.core.space, op))
    && (forall r :: r in y.readers ==> ReaderInv(y.core.space, y.history, r))
  }

  /** How the cluster may have changed between two observations. */
  ghost predicate Evolves(y: Sys, z: Sys) {
    && Grows(y.core.space, z.core.space)
    && y.history <= z.history && y.tickets <= z.tickets && y.acked <= z.acked
    && |y.readers| <= |z.readers|
  }

  // ---------------------------------------------------------------- steps

  datatype Step =
    | LogletStep(loglet: nat, event: Event)
    | Append(segment: nat, records: seq<Record>)
    | Acknowledge(ticket: nat)
    | Submit(op: ChainOp)
    | WriteChain(ops: seq<ChainOp>)
    | StartReader(filter: KeyFilter, from: Lsn, to: Lsn)
    | Read(reader: nat, sight: Sight)

  /** A command is submitted only with its evidence, and a metadata write applies submitted commands. */
  ghost predicate Allowed(y: Sys, step: Step) {
    match step
    case LogletStep(i, e) => !e.Enqueue? && EventAllowed(y.core.space, i, e)
    case Append(i, records) => records != [] && EventAllowed(y.core.space, i, Enqueue(records))
    case Acknowledge(k) => k < |y.tickets| && Durable(y.core.space, y.tickets[k])
    case Submit(op) => Evidence(y.core.space, op)
    case WriteChain(ops) => forall op :: op in ops ==> op in y.pending
    case StartReader(_, _, _) => true
    case Read(k, o) => k < |y.readers| && Legal(y.core.space, y.history, y.readers[k], o)
  }

  function After(y: Sys, step: Step): Sys
    requires WellFormed(y.core.chain)
    requires step.LogletStep? ==> Known(y.core.space, step.loglet)
    requires step.Append? ==> Known(y.core.space, step.segment)
    requires step.Read? ==> step.reader < |y.readers|
  {
    match step
    case LogletStep(i, e) => y.(core := y.core.(space := OnLoglet(y.core.space, i, e)))
    case Append(i, records) =>
      y.(core := y.core.(space := OnLoglet(y.core.space, i, Enqueue(records))),
         tickets := y.tickets + [Ticket(i, |y.core.space.loglets[i].log| + OLDEST, records)])
    case Acknowledge(k) => y.(acked := y.acked + {k})
    case Submit(op) => y.(pending := y.pending + {op})
    case WriteChain(ops) =>
      ApplyAllKeepsShape(y.core, ops);
      var core := ApplyAll(y.core, ops);
      y.(core := core, history := y.history + [core.chain])
    case StartReader(filter, from, to) => y.(readers := y.readers + [OpenReader(filter, from, to)])
    case Read(k, o) => y.(readers := y.readers[k := Readers.Step(y.readers[k], o)])
  }

  lemma {:induction false} ApplyAllKeepsShape(k: Core, ops: seq<ChainOp>)
    requires WellFormed(k.chain)
    ensures WellFormed(ApplyAll(k, ops).chain)
    decreases |ops|
  {
    if ops != [] {
      EditKeepsShape(k.chain, ops[0]);
      ApplyAllKeepsShape(Apply(k, ops[0]), ops[1..]);
    }
  }

  // ---------------------------------------------------------------- what growth preserves

  lemma TicketsAreStable(s: Space, t: Space, ts: seq<Ticket>)
    requires Grows(s, t) && TicketsInv(s, ts)
    ensures TicketsInv(t, ts)
  {
  }

  lemma TicketIsStable(s: Space, t: Space, k: Ticket)
    requires Grows(s, t) && TicketOk(s, k)
    ensures TicketOk(t, k) && FirstLsn(s, k) == FirstLsn(t, k)
    ensures Durable(s, k) ==> Durable(t, k)
  {
  }

  lemma WorldIsStable(s: Space, t: Space, h: seq<LiveChain>)
    requires World(s, h) && Grows(s, t) && Book(t) && TrimClosed(t)
    ensures World(t, h)
  {
    forall v | 0 <= v < |h| ensures ChainFits(t, h[v]) { ChainFitsIsStable(s, t, h[v]); }
  }

  lemma ReaderIsStable(s: Space, t: Space, h: seq<LiveChain>, g: seq<LiveChain>, r: Reader)
    requires Grows(s, t) && h <= g && Book(t) && ReaderInv(s, h, r)
    ensures ReaderInv(t, g, r)
  {
    StreamIsStable(s, t, h, g, r);
    TraceIsStable(s, t, r);
    DoneIsStable(s, t, r);
  }

  /** Growing space and new versions keep everything but the versions themselves. */
  lemma GrowthKeeps(y: Sys, core: Core, history: seq<LiveChain>)
    requires SysInv(y) && Grows(y.core.space, core.space) && y.history <= history
    requires VersionsInv(y.(core := core, history := history))
    ensures SysInv(y.(core := core, history := history)) && Evolves(y, y.(core := core, history := history))
  {
    var s, t := y.core.space, core.space;
    TicketsAreStable(s, t, y.tickets);
    forall k | k in y.acked ensures Durable(t, y.tickets[k]) { TicketIsStable(s, t, y.tickets[k]); }
    forall op | op in y.pending ensures Evidence(t, op) { EvidenceIsStable(s, t, op); }
    forall r | r in y.readers ensures ReaderInv(t, history, r) { ReaderIsStable(s, t, y.history, history, r); }
  }

  // ---------------------------------------------------------------- every step keeps the invariant

  lemma SpaceStepKeeps(y: Sys, i: nat, e: Event)
    requires SysInv(y) && EventAllowed(y.core.space, i, e)
    ensures var z := y.(core := y.core.(space := OnLoglet(y.core.space, i, e))); SysInv(z) && Evolves(y, z)
  {
    var core := y.core.(space := OnLoglet(y.core.space, i, e));
    EventKeepsCore(y.core, i, e);
    WorldIsStable(y.core.space, core.space, y.history);
    GrowthKeeps(y, core, y.history);
    assert y.(core := core, history := y.history) == y.(core := core);
  }

  lemma AppendKeeps(y: Sys, i: nat, records: seq<Record>)
    requires SysInv(y) && Allowed(y, Append(i, records))
    ensures SysInv(After(y, Append(i, records))) && Evolves(y, After(y, Append(i, records)))
  {
    SpaceStepKeeps(y, i, Enqueue(records));
    var l := y.core.space.loglets[i];
    var s := OnLoglet(y.core.space, i, Enqueue(records));
    var t := Ticket(i, |l.log| + OLDEST, records);
    assert TicketOk(s, t);
    assert TicketsInv(s, y.tickets + [t]) by {
      forall k | 0 <= k < |y.tickets| ensures InOrder(y.tickets[k], t) { assert TicketOk(y.core.space, y.tickets[k]); }
    }
  }

  lemma NewVersionKeepsWorld(y: Sys, core: Core)
    requires SysInv(y) && CoreInv(core) && Grows(y.core.space, core.space)
    requires NotBefore(y.core.chain, core.chain)
    ensures World(core.space, y.history + [core.chain])
  {
    var h := y.history + [core.chain];
    WorldIsStable(y.core.space, core.space, y.history);
    forall u, v | 0 <= u <= v < |h| ensures NotBefore(h[u], h[v]) {
      if v == |y.history| && u < v { assert NotBefore(h[u], y.core.chain); }
    }
  }

  lemma WriteKeeps(y: Sys, ops: seq<ChainOp>)
    requires SysInv(y) && Allowed(y, WriteChain(ops))
    ensures SysInv(After(y, WriteChain(ops))) && Evolves(y, After(y, WriteChain(ops)))
  {
    var core := ApplyAll(y.core, ops);
    ApplyAllKeepsCore(y.core, ops);
    NewVersionKeepsWorld(y, core);
    GrowthKeeps(y, core, y.history + [core.chain]);
  }

  lemma ReaderStepKeeps(s: Space, h: seq<LiveChain>, r: Reader, o: Sight)
    requires World(s, h) && ReaderInv(s, h, r) && Legal(s, h, r, o)
    ensures ReaderInv(s, h, Readers.Step(r, o))
  {
    StepKeepsStream(s, h, r, o);
    StepKeepsTrace(s, h, r, o);
    StepKeepsEnd(s, h, r, o);
    StepKeepsDone(s, h, r, o);
  }

  lemma ReplacedReaderKeeps(y: Sys, k: nat, q: Reader)
    requires SysInv(y) && k < |y.readers| && ReaderInv(y.core.space, y.history, q)
    ensures SysInv(y.(readers := y.readers[k := q]))
  {
  }

  lemma ReadKeeps(y: Sys, k: nat, o: Sight)
    requires SysInv(y) && Allowed(y, Read(k, o))
    ensures SysInv(After(y, Read(k, o)))
  {
    assert y.readers[k] in y.readers;
    ReaderStepKeeps(y.core.space, y.history, y.readers[k], o);
    ReplacedReaderKeeps(y, k, Readers.Step(y.readers[k], o));
  }

  lemma OpenedReaderIsFine(s: Space, h: seq<LiveChain>, filter: KeyFilter, from: Lsn, to: Lsn)
    ensures ReaderInv(s, h, OpenReader(filter, from, to))
  {
  }

  lemma GrowsIsReflexive(s: Space)
    requires |s.bases| == |s.loglets|
    ensures Grows(s, s)
  {
  }

  /** Every step of every component keeps the whole invariant. */
  lemma StepKeeps(y: Sys, step: Step)
    requires SysInv(y) && Allowed(y, step)
    ensures SysInv(After(y, step)) && Evolves(y, After(y, step))
  {
    GrowsIsReflexive(y.core.space);
    match step
    case LogletStep(i, e) => SpaceStepKeeps(y, i, e);
    case Append(i, records) => AppendKeeps(y, i, records);
    case Acknowledge(k) =>
    case Submit(op) =>
    case WriteChain(ops) => WriteKeeps(y, ops);
    case StartReader(filter, from, to) => OpenedReaderIsFine(y.core.space, y.history, filter, from, to);
    case Read(k, o) => ReadKeeps(y, k, o);
  }

  // ---------------------------------------------------------------- whole runs

  /** A new log: one empty segment. */
  function Initial(provider: Provider, params: Params): Sys {
    Sys(Core(NewChain(provider, params), Space([OLDEST], [FRESH])), [NewChain(provider, params)], [], {}, {}, [])
  }

  lemma InitialIsFine(provider: Provider, params: Params)
    ensures SysInv(Initial(provider, params))
  {
  }

  ghost predicate Runs(y: Sys, steps: seq<Step>, z: Sys)
    requires SysInv(y)
    decreases |steps|
  {
    if steps == [] then y == z
    else
      && Allowed(y, steps[0])
      && (StepKeeps(y, steps[0]); Runs(After(y, steps[0]), steps[1..], z))
  }

  lemma EvolvesIsTransitive(x: Sys, y: Sys, z: Sys)
    requires Evolves(x, y) && Evolves(y, z)
    ensures Evolves(x, z)
  {
  }

  lemma {:induction false} RunKeeps(y: Sys, steps: seq<Step>, z: Sys)
    requires SysInv(y) && Runs(y, steps, z)
    ensures SysInv(z) && Evolves(y, z)
    decreases |steps|
  {
    if steps == [] {
      GrowsIsReflexive(y.core.space);
    } else {
      StepKeeps(y, steps[0]);
      RunKeeps(After(y, steps[0]), steps[1..], z);
      EvolvesIsTransitive(y, After(y, steps[0]), z);
    }
  }

  // ---------------------------------------------------------------- durability

  /** A chain version that covers the address finds segment `i` there, and puts any tail it knows for
      that segment past the address. */
  ghost predicate VersionAgrees(s: Space, c: LiveChain, x: Lsn, i: nat) {
    && Known(s, i)
    && (c[0].base <= x && i <= TailIndex(c) ==>
          && FindSegment(c, x).Found?
          && FindSegment(c, x).segment.index == i
          && FindSegment(c, x).segment.base == s.bases[i])
    && (forall p :: 0 <= p < |c| - 1 && c[p].index == i ==> x < c[p + 1].base)
  }

  /** Record `d` of the batch is held at its LSN by its own segment, in every chain version. */
  ghost predicate AtItsPlace(y: Sys, t: Ticket, d: nat) {
    && Known(y.core.space, t.segment) && d < |t.records|
    && var x := FirstLsn(y.core.space, t) + d;
       && 0 <= x <= LSN_MAX
       && Holds(y.core.space, x, t.segment, t.records[d])
       && (forall v :: 0 <= v < |y.history| ==> VersionAgrees(y.core.space, y.history[v], x, t.segment))
  }

  lemma AckedStaysInside(y: Sys, k: nat, d: nat)
    requires SysInv(y) && k in y.acked && d < |y.tickets[k].records|
    ensures AtItsPlace(y, y.tickets[k], d)
  {
    var s, t := y.core.space, y.tickets[k];
    SegmentBoundsHold(s, t.segment, t.segment);
    var x := FirstLsn(s, t) + d;
    var log := s.loglets[t.segment].log;
    assert log[t.first - 1..t.first - 1 + |t.records|][d] == log[t.first - 1 + d];
    forall v | 0 <= v < |y.history| ensures VersionAgrees(s, y.history[v], x, t.segment) {
      HeldIsFound(s, y.history[v], x, t.segment, t.records[d]);
    }
  }

  lemma HeldIsFound(s: Space, c: LiveChain, x: Lsn, i: nat, r: Record)
    requires Book(s) && ChainFits(s, c) && Holds(s, x, i, r)
    ensures VersionAgrees(s, c, x, i)
  {
  }

  /** No run loses or moves an acknowledged record: it keeps its LSNs and its contents, inside its own
      segment, through every later reconfiguration. */
  lemma AcknowledgedIsForever(y: Sys, steps: seq<Step>, z: Sys, k: nat)
    requires SysInv(y) && Runs(y, steps, z) && k in y.acked
    ensures SysInv(z) && k in z.acked && z.tickets[k] == y.tickets[k]
    ensures FirstLsn(z.core.space, z.tickets[k]) == FirstLsn(y.core.space, y.tickets[k])
    ensures forall d :: 0 <= d < |z.tickets[k].records| ==> AtItsPlace(z, z.tickets[k], d)
  {
    RunKeeps(y, steps, z);
    TicketIsStable(y.core.space, z.core.space, y.tickets[k]);
    forall d | 0 <= d < |z.tickets[k].records| ensures AtItsPlace(z, z.tickets[k], d) { AckedStaysInside(z, k, d); }
  }

  /** No two acknowledged batches share an LSN. */
  lemma AcknowledgedAreDisjoint(y: Sys, j: nat, k: nat)
    requires SysInv(y) && j in y.acked && k in y.acked && j < k
    ensures var s := y.core.space;
            || LastLsn(s, y.tickets[j]) < FirstLsn(s, y.tickets[k])
            || LastLsn(s, y.tickets[k]) < FirstLsn(s, y.tickets[j])
    ensures y.tickets[j].segment <= y.tickets[k].segment ==>
              LastLsn(y.core.space, y.tickets[j]) < FirstLsn(y.core.space, y.tickets[k])
  {
    assert InOrder(y.tickets[j], y.tickets[k]);
    SegmentsAreOrdered(y.core.space, y.tickets[j].segment, y.tickets[k].segment);
  }

  // ---------------------------------------------------------------- answers of the chain writer

  lemma {:induction false} ApplyAllSplits(k: Core, ops: seq<ChainOp>, p: nat)
    requires WellFormed(k.chain) && p <= |ops|
    ensures WellFormed(ApplyAll(k, ops[..p]).chain)
    ensures ApplyAll(k, ops) == ApplyAll(ApplyAll(k, ops[..p]), ops[p..])
    decreases p
  {
    ApplyAllKeepsShape(k, ops[..p]);
    if p == 0 {
      assert ops[0..] == ops;
    } else {
      EditKeepsShape(k.chain, ops[0]);
      ApplyAllSplits(Apply(k, ops[0]), ops[1..], p - 1);
      assert ops[..p][1..] == ops[1..][..p - 1] && ops[1..][p - 1..] == ops[p..];
    }
  }

  /** The chain a batch leaves behind is the one its commands make one after the other. */
  lemma {:induction false} BatchesAreEdits(k: Core, ops: seq<ChainOp>)
    requires WellFormed(k.chain)
    ensures ApplyAll(k, ops).chain == EditAll(k.chain, ops)
    decreases |ops|
  {
    if ops != [] {
      EditKeepsShape(k.chain, ops[0]);
      BatchesAreEdits(Apply(k, ops[0]), ops[1..]);
    }
  }

  /** The answer command `p` of a batch gets. */
  function AnswerTo(k: Core, ops: seq<ChainOp>, p: nat): Answer
    requires WellFormed(k.chain) && p < |ops|
  {
    ApplyAllKeepsShape(k, ops[..p]);
    Edit(ApplyAll(k, ops[..p]).chain, ops[p]).1
  }

  /** A batch written for all logs is, for each log, one step that writes that log's commands. */
  lemma MetadataWriteIsAStep(y: Sys, m: ChainWriter.LogMap, cmds: seq<ChainWriter.Command>, l: nat)
    requires SysInv(y) && ChainWriter.AllWellFormed(m) && l in m && m[l] == y.core.chain
    requires forall op :: op in ChainWriter.OpsOf(l, cmds) ==> op in y.pending
    ensures var step := WriteChain(ChainWriter.OpsOf(l, cmds));
            && Allowed(y, step)
            && l in ChainWriter.ExecuteAll(m, cmds).0
            && After(y, step).core.chain == ChainWriter.ExecuteAll(m, cmds).0[l]
  {
    ChainWriter.LogsAreIndependent(m, cmds, l);
    BatchesAreEdits(y.core, ChainWriter.OpsOf(l, cmds));
  }

  /** And its answers are those of that step. */
  lemma MetadataAnswersAreTheSteps(k: Core, m: ChainWriter.LogMap, cmds: seq<ChainWriter.Command>, p: nat)
    requires WellFormed(k.chain) && ChainWriter.AllWellFormed(m) && p < |cmds|
    requires cmds[p].log in m && m[cmds[p].log] == k.chain && ChainWriter.Answers(cmds[p])
    ensures var ops, q := ChainWriter.OpsOf(cmds[p].log, cmds), |ChainWriter.OpsOf(cmds[p].log, cmds[..p])|;
            && q < |ops| && ops[q] == cmds[p].op && |ChainWriter.ExecuteAll(m, cmds).1| == |cmds|
            && ChainWriter.ExecuteAll(m, cmds).1[p] == Some(AnswerTo(k, ops, q))
  {
    var l := cmds[p].log;
    var before := ChainWriter.OpsOf(l, cmds[..p]);
    ChainWriter.AnswersAreIndependent(m, cmds, p);
    ChainWriter.OpsOfSplits(l, cmds[..p], cmds[p..]);
    assert cmds == cmds[..p] + cmds[p..];
    var ops := ChainWriter.OpsOf(l, cmds);
    assert ops[..|before|] == before && ops[|before|] == ChainWriter.OpsOf(l, cmds[p..])[0];
    BatchesAreEdits(k, before);
  }

  lemma SealAnswersTheEnd(k: Core, op: ChainOp)
    requires CoreInv(k) && Evidence(k.space, op) && op.SealChain? && Edit(k.chain, op).1.Ok?
    ensures EndsAt(k.space, op.last, Edit(k.chain, op).1.value)
  {
  }

  lemma PartsOfABatch(k: Core, ops: seq<ChainOp>, p: nat)
    requires CoreInv(k) && p <= |ops| && forall op :: op in ops ==> Evidence(k.space, op)
    ensures var m := ApplyAll(k, ops[..p]);
            && CoreInv(m) && (forall op :: op in ops ==> Evidence(m.space, op))
            && Grows(m.space, ApplyAll(k, ops).space)
  {
    var m := ApplyAll(k, ops[..p]);
    ApplyAllKeepsCore(k, ops[..p]);
    forall op | op in ops ensures Evidence(m.space, op) { EvidenceIsStable(k.space, m.space, op); }
    ApplyAllSplits(k, ops, p);
    ApplyAllKeepsCore(m, ops[p..]);
  }

  /** A successful seal, wherever it stands in a batch and whatever follows it there, is answered with
      the end of the segment it names. */
  lemma SealIsAnsweredWithTheEnd(k: Core, ops: seq<ChainOp>, p: nat)
    requires CoreInv(k) && (forall op :: op in ops ==> Evidence(k.space, op)) && p < |ops| && ops[p].SealChain?
    requires AnswerTo(k, ops, p).Ok?
    ensures EndsAt(ApplyAll(k, ops).space, ops[p].last, AnswerTo(k, ops, p).value)
  {
    var m := ApplyAll(k, ops[..p]);
    PartsOfABatch(k, ops, p);
    SealAnswersTheEnd(m, ops[p]);
    EndsAtIsStable(m.space, ApplyAll(k, ops).space, ops[p].last, AnswerTo(k, ops, p).value);
  }

  // ---------------------------------------------------------------- readers and trims over whole runs

  /** A state some run of a fresh log leads to. */
  ghost predicate Reachable(z: Sys) {
    exists provider, params, steps :: StartsAt(provider, params, steps, z)
  }

  ghost predicate StartsAt(provider: Provider, params: Params, steps: seq<Step>, z: Sys) {
    InitialIsFine(provider, params);
    Runs(Initial(provider, params), steps, z)
  }

  lemma ReachableIsFine(z: Sys)
    requires Reachable(z)
    ensures SysInv(z)
  {
    var provider, params, steps :| StartsAt(provider, params, steps, z);
    InitialIsFine(provider, params);
    RunKeeps(Initial(provider, params), steps, z);
  }

  /** In every reachable state, every committed record that a reader's filter asks for and that it has
      passed was delivered as itself or lies in a reported trim or data-loss gap, no record was delivered
      twice, and what it left behind tiles the log from its start to its read pointer exactly when it
      delivered no wide gap. */
  lemma EveryReaderIsExact(z: Sys, k: nat, x: Lsn, i: nat, record: Record, a: nat, b: nat)
    requires Reachable(z) && k < |z.readers|
    ensures var r := z.readers[k];
            && (r.start <= x < r.stream.readPointer && Holds(z.core.space, x, i, record) && Matches(record.keys, r.stream.filter) ==>
                  exists j :: 0 <= j < |r.trace| && In(r.trace[j], x) && Accounts(r.trace[j], x, record))
            && (a < b < |r.trace| ==> From(r.trace[a]) < From(r.trace[b]))
            && (Tiles(r.start, r.trace, r.stream.readPointer) <==> NoneWide(r.trace))
  {
    ReachableIsFine(z);
    var r := z.readers[k];
    assert r in z.readers;
    TilesIffNoneWide(z.core.space, r.stream.filter, r.start, r.trace, r.stream.readPointer);
    if a < b < |r.trace| { TraceStartsRise(z.core.space, r, a, b); }
    if r.start <= x < r.stream.readPointer && Holds(z.core.space, x, i, record) && Matches(record.keys, r.stream.filter) {
      var j := PassedRecordsAreAccountedFor(z.core.space, r, x, i, record);
    }
  }

  lemma TraceStartsRise(s: Space, r: Reader, a: nat, b: nat)
    requires TraceInv(s, r) && a < b < |r.trace|
    ensures From(r.trace[a]) < From(r.trace[b])
  {
    forall c | c in r.trace ensures From(c) <= UpTo(c) { assert CoverSound(s, r.stream.filter, c); }
    StartsRise(r.start, r.trace, r.stream.readPointer, a, b);
  }

  /** In every reachable state, a reader that has returned no error ends on its next turn only past its end
      LSN, or where the next record does not match its filter or was reported lost. */
  lemma ReadersEndInOrder(z: Sys, k: nat, o: Sight)
    requires Reachable(z) && k < |z.readers| && Legal(z.core.space, z.history, z.readers[k], o) && !z.readers[k].failed
    requires OutcomeOf(TurnOf(z.readers[k].stream, o)) == Some(Finished)
    ensures var t := z.readers[k].stream;
            || t.readPointer == LSN_MAX || t.readPointer > t.endLsn
            || (Unmatched(z.core.space, t.filter, t.readPointer) && !t.filter.Any?)
            || LossReported(z.readers[k].trace, t.readPointer)
  {
    ReachableIsFine(z);
    assert z.readers[k] in z.readers;
    FinishedIsExplained(z.core.space, z.history, z.readers[k], o);
    if z.readers[k].stream.filter.Any? { WantedIsNotUnmatched(z.core.space, Any, z.readers[k].stream.readPointer); }
  }

  /** In every reachable state, two readers that delivered a record at one LSN delivered the same one,
      and it is the one the current chain holds there, if it still reaches down to that LSN. */
  lemma AnyTwoReadersAgree(z: Sys, j: nat, k: nat, x: Lsn, a: Record, b: Record) returns (i: nat)
    requires Reachable(z) && j < |z.readers| && k < |z.readers| && Gave(z.readers[j], x, a) && Gave(z.readers[k], x, b)
    ensures a == b && Holds(z.core.space, x, i, a)
    ensures |z.core.chain| > 0
    ensures z.core.chain[0].base <= x ==>
              FindSegment(z.core.chain, x).Found? && FindSegment(z.core.chain, x).segment.index == i
  {
    ReachableIsFine(z);
    assert z.readers[j] in z.readers && z.readers[k] in z.readers;
    i := ReadersAgree(z.core.space, z.core.chain, z.readers[j], z.readers[k], x, a, b);
  }

  /** In every reachable state, whatever lies before the head of any version of the chain has been
      trimmed in its loglet, and the trimmed addresses are downward closed. */
  lemma RemovedWasTrimmed(z: Sys, v: nat, x: Lsn, y: Lsn)
    requires Reachable(z) && v < |z.history|
    ensures OLDEST <= x < z.history[v][0].base ==> AddressTrimmed(z.core.space, x)
    ensures OLDEST <= x <= y && AddressTrimmed(z.core.space, y) ==> AddressTrimmed(z.core.space, x)
  {
    ReachableIsFine(z);
    var s := z.core.space;
    if OLDEST <= x < z.history[v][0].base { BelowHeadIsTrimmed(s, z.history[v], x); }
    if OLDEST <= x <= y && AddressTrimmed(s, y) {
      var j: nat :| TrimmedAt(s, j, y);
      SegmentsAreOrdered(s, j, j);
      var i := Locate(s, x, j);
      assert i < j ==> FullyTrimmed(s, i);
      assert TrimmedAt(s, i, x);
    }
  }

  /** In every reachable state, a reader panics on its next turn exactly when it starts more than a
      32-bit offset past the base of the segment it lands in, or polls a metadata watch that has
      already reported shutdown. */
  lemma ReadersPanicIff(z: Sys, k: nat, o: Sight)
    requires Reachable(z) && k < |z.readers| && Legal(z.core.space, z.history, z.readers[k], o)
    ensures OutcomeOf(TurnOf(z.readers[k].stream, o)) == Some(Panicked) <==> Panics(z.history, z.readers[k], o)
    ensures TooFar(z.readers[k].stream) ==> z.readers[k].stream.readPointer == z.readers[k].start
  {
    ReachableIsFine(z);
    assert z.readers[k] in z.readers;
    PanicsIff(z.core.space, z.history, z.readers[k], o);
  }
}
