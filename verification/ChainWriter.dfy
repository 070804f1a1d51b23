/** `LogChainWriter`: drains queued commands for any logs into one batch and applies the batch to the
    logs metadata in one read-modify-write, re-running it from scratch after every conflict. */
module ChainWriter {
  import opened Outcomes
  import opened Addresses
  import opened Chains
  import opened ChainCommands

  type LogMap = map<nat, Chain>

  datatype Logs = Logs(version: nat, chains: LogMap)

  datatype Command = Command(log: nat, op: ChainOp)

  const MAX_BATCH_SIZE := 1024

  ghost predicate AllWellFormed(m: LogMap) { forall l :: l in m ==> WellFormed(m[l]) }

  // ---------------------------------------------------------------- one command at a time

  predicate Answers(cmd: Command) { !cmd.op.TrimTo? }

  /** One command on its own: the new chains and, unless it is a prefix trim, its answer. */
  function Execute(m: LogMap, cmd: Command): (LogMap, Option<Answer>)
    requires AllWellFormed(m)
  {
    if cmd.op.AddLog? then
      if cmd.log in m then (m, Some(Ok(INVALID)))
      else if cmd.op.provider == Replicated && !cmd.op.params.ReplicatedParams? then (m, Some(Err(Builder(ParamsSerde))))
      else (m[cmd.log := NewChain(cmd.op.provider, cmd.op.params)], Some(Ok(INVALID)))
    else if cmd.log !in m then (m, if Answers(cmd) then Some(Err(UnknownLogId)) else None)
    else
      var (c, a) := Edit(m[cmd.log], cmd.op);
      (m[cmd.log := c], if Answers(cmd) then Some(a) else None)
  }

  lemma ExecuteKeepsShape(m: LogMap, cmd: Command)
    requires AllWellFormed(m)
    ensures AllWellFormed(Execute(m, cmd).0)
    ensures forall l :: l in m ==> l in Execute(m, cmd).0 && (l != cmd.log ==> Execute(m, cmd).0[l] == m[l])
  {
    if cmd.log in m { EditKeepsShape(m[cmd.log], cmd.op); }
    else if cmd.op.AddLog? { NewChainIsWellFormed(cmd.op.provider, cmd.op.params); }
  }

  /** The commands one after the other, each on the result of the one before. */
  function ExecuteAll(m: LogMap, cmds: seq<Command>): (LogMap, seq<Option<Answer>>)
    requires AllWellFormed(m)
    decreases |cmds|
  {
    if cmds == [] then (m, [])
    else
      ExecuteKeepsShape(m, cmds[0]);
      var (n, a) := Execute(m, cmds[0]);
      var (k, rest) := ExecuteAll(n, cmds[1..]);
      (k, [a] + rest)
  }

  lemma {:induction false} ExecuteAllKeepsShape(m: LogMap, cmds: seq<Command>)
    requires AllWellFormed(m)
    ensures AllWellFormed(ExecuteAll(m, cmds).0) && |ExecuteAll(m, cmds).1| == |cmds|
    ensures forall k :: 0 <= k < |cmds| ==> (ExecuteAll(m, cmds).1[k].Some? <==> Answers(cmds[k]))
    decreases |cmds|
  {
    if cmds != [] {
      ExecuteKeepsShape(m, cmds[0]);
      ExecuteAllKeepsShape(Execute(m, cmds[0]).0, cmds[1..]);
    }
  }

  /** However commands are coalesced into batches, the chains and every answer are those of applying
      them one batch after the other, hence one at a time. */
  lemma {:induction false} CoalescingIsSequential(m: LogMap, a: seq<Command>, b: seq<Command>)
    requires AllWellFormed(m)
    ensures AllWellFormed(ExecuteAll(m, a).0)
    ensures ExecuteAll(m, a + b).0 == ExecuteAll(ExecuteAll(m, a).0, b).0
    ensures ExecuteAll(m, a + b).1 == ExecuteAll(m, a).1 + ExecuteAll(ExecuteAll(m, a).0, b).1
    decreases |a|
  {
    ExecuteAllKeepsShape(m, a);
    if a == [] {
      assert a + b == b;
    } else {
      ExecuteKeepsShape(m, a[0]);
      CoalescingIsSequential(Execute(m, a[0]).0, a[1..], b);
      assert (a + b)[1..] == a[1..] + b;
      var (n, r) := Execute(m, a[0]);
      var first, second := ExecuteAll(n, a[1..]).1, ExecuteAll(ExecuteAll(n, a[1..]).0, b).1;
      assert ([r] + first) + second == [r] + (first + second);
    }
  }

  /** The commands of one log, in order. */
  function OpsOf(l: nat, cmds: seq<Command>): seq<ChainOp>
    decreases |cmds|
  {
    if cmds == [] then []
    else (if cmds[0].log == l then [cmds[0].op] else []) + OpsOf(l, cmds[1..])
  }

  lemma {:induction false} OpsOfSplits(l: nat, a: seq<Command>, b: seq<Command>)
    ensures OpsOf(l, a + b) == OpsOf(l, a) + OpsOf(l, b)
    decreases |a|
  {
    if a == [] {
      assert a + b == b;
    } else {
      OpsOfSplits(l, a[1..], b);
      assert (a + b)[1..] == a[1..] + b;
    }
  }

  /** Logs do not interfere: a batch does to an existing log exactly what the log's own commands do. */
  lemma {:induction false} LogsAreIndependent(m: LogMap, cmds: seq<Command>, l: nat)
    requires AllWellFormed(m) && l in m
    ensures l in ExecuteAll(m, cmds).0 && ExecuteAll(m, cmds).0[l] == EditAll(m[l], OpsOf(l, cmds))
    decreases |cmds|
  {
    if cmds != [] {
      ExecuteKeepsShape(m, cmds[0]);
      LogsAreIndependent(Execute(m, cmds[0]).0, cmds[1..], l);
      if cmds[0].log == l { assert OpsOf(l, cmds)[1..] == OpsOf(l, cmds[1..]); }
      else { assert OpsOf(l, cmds) == OpsOf(l, cmds[1..]); }
    }
  }

  /** Nor do their answers: a command of an existing log is answered by the chain that the log's own earlier
      commands made. */
  lemma AnswersAreIndependent(m: LogMap, cmds: seq<Command>, p: nat)
    requires AllWellFormed(m) && p < |cmds| && cmds[p].log in m && Answers(cmds[p])
    ensures |ExecuteAll(m, cmds).1| == |cmds|
    ensures var d := EditAll(m[cmds[p].log], OpsOf(cmds[p].log, cmds[..p]));
            |d| > 0 && ExecuteAll(m, cmds).1[p] == Some(Edit(d, cmds[p].op).1)
  {
    var l := cmds[p].log;
    ExecuteAllKeepsShape(m, cmds);
    ExecuteAllKeepsShape(m, cmds[..p]);
    LogsAreIndependent(m, cmds[..p], l);
    OneMore(m, cmds, p);
    CoalescingIsSequential(m, cmds[..p + 1], cmds[p + 1..]);
    assert cmds == cmds[..p + 1] + cmds[p + 1..];
  }

  // ---------------------------------------------------------------- the builder

  class LogsBuilder {
    var chains: LogMap

    constructor (m: LogMap)
      ensures chains == m
    {
      chains := m;
    }

    method AddLog(log: nat, provider: Provider, params: Params) returns (r: Answer)
      requires AllWellFormed(chains)
      modifies this
      ensures (chains, Some(r)) == Execute(old(chains), Command(log, ChainOp.AddLog(provider, params)))
    {
      if log in chains { return Ok(INVALID); } // already there: not an error
      if provider == Replicated && !params.ReplicatedParams? { return Err(Builder(ParamsSerde)); }
      chains := chains[log := NewChain(provider, params)];
      return Ok(INVALID);
    }

    method ExtendLogChain(log: nat, last: nat, base: Lsn, provider: Provider, params: Params) returns (r: Answer)
      requires AllWellFormed(chains)
      modifies this
      ensures (chains, Some(r)) == Execute(old(chains), Command(log, Extend(last, base, provider, params)))
    {
      if log !in chains { return Err(UnknownLogId); }
      var c := chains[log];
      assert chains[log := c] == chains;
      if TailIndex(c) != last { return Err(SegmentMismatch(last, TailIndex(c))); }
      match AppendSegment(c, base, provider, params)
      case Err(e) => return Err(Builder(e));
      case Ok(d) =>
        chains := chains[log := d];
        return Ok(INVALID);
    }

    method SealLogChain(log: nat, last: nat, tail: Lsn, permanent: bool) returns (r: Answer)
      requires AllWellFormed(chains)
      modifies this
      ensures (chains, Some(r)) == Execute(old(chains), Command(log, SealChain(last, tail, permanent)))
    {
      if log !in chains { return Err(UnknownLogId); }
      var c := chains[log];
      assert chains[log := c] == chains;
      if TailIndex(c) != last { return Err(SegmentMismatch(last, TailIndex(c))); }
      match Seal(c, tail, permanent)
      case Err(e) => return Err(Builder(e));
      case Ok((d, at)) =>
        chains := chains[log := d];
        return Ok(at);
    }

    method TrimChainPrefix(log: nat, point: Lsn)
      requires AllWellFormed(chains)
      modifies this
      ensures (chains, None) == Execute(old(chains), Command(log, TrimTo(point)))
    {
      if log in chains { chains := chains[log := TrimPrefix(chains[log], NextLsn(point))]; }
    }
  }

  // ---------------------------------------------------------------- the metadata register

  /** Every value the logs metadata ever had, oldest first, with rising versions. */
  ghost predicate Versioned(versions: seq<Logs>) {
    && (forall k :: 0 <= k < |versions| ==> AllWellFormed(versions[k].chains))
    && (forall j, k :: 0 <= j < k < |versions| ==> versions[j].version < versions[k].version)
  }

  datatype Put = Written | Conflict | Broken

  /** What may go wrong with a write: it does not reach the store, or the store's answer is lost. */
  datatype Fault = NoFault | Unreached | AnswerLost

  /** The versioned register behind the logs metadata. Others write it too; `ours` marks what this writer
      has written. */
  class Register {
    var versions: seq<Logs>
    ghost var ours: set<nat>

    ghost predicate Valid()
      reads this
    {
      Versioned(versions)
    }

    constructor ()
      ensures Valid() && versions == [] && ours == {}
    {
      versions, ours := [], {};
    }

    /** The value a node knows of: it lags behind by some versions, or knows none yet. */
    method Get(lag: nat) returns (r: Option<Logs>)
      ensures r.None? <==> lag >= |versions|
      ensures r.Some? ==> r.value in versions && r.value == versions[|versions| - 1 - lag]
    {
      if lag >= |versions| { return None; }
      return Some(versions[|versions| - 1 - lag]);
    }

    /** Writes of others, each a successful read-modify-write of its own. */
    method OthersWrite(maps: seq<LogMap>)
      requires Valid() && forall m :: m in maps ==> AllWellFormed(m)
      modifies this`versions
      ensures Valid() && old(versions) <= versions && |versions| == |old(versions)| + |maps|
      ensures forall k :: 0 <= k < |maps| ==> versions[|old(versions)| + k].chains == maps[k]
    {
      for k := 0 to |maps|
        invariant Valid() && old(versions) <= versions && |versions| == |old(versions)| + k
        invariant forall j :: 0 <= j < k ==> versions[|old(versions)| + j].chains == maps[j]
      {
        var n := if versions == [] then 1 else versions[|versions| - 1].version + 1;
        assert maps[k] in maps;
        versions := versions + [Logs(n, maps[k])];
      }
    }

    /** The conditional write: takes effect exactly if it reaches the store and the register still has the
        expected version. With a fault its caller learns neither. */
    method PutIf(expected: nat, value: Logs, fault: Fault) returns (r: Put)
      requires Valid() && AllWellFormed(value.chains) && value.version > expected
      modifies this
      ensures Valid()
      ensures var took := !fault.Unreached? && old(versions) != [] && old(versions[|versions| - 1].version) == expected;
              && versions == (if took then old(versions) + [value] else old(versions))
              && ours == (if took then old(ours) + {|old(versions)|} else old(ours))
              && r == (if !fault.NoFault? then Broken else if took then Written else Conflict)
    {
      if fault.Unreached? { return Broken; }
      if versions == [] || versions[|versions| - 1].version != expected { return if fault.NoFault? then Conflict else Broken; }
      ours := ours + {|versions|};
      versions := versions + [value];
      return if fault.NoFault? then Written else Broken;
    }
  }

  // ---------------------------------------------------------------- the writer

  /** A queued command with the result staged for it by the latest run of the batch. */
  datatype Staged = Staged(cmd: Command, result: Option<Answer>)

  /** One try at the register: what others write before the writer's node looks and how far the node lags
      behind, what they write before its put, what goes wrong with the put, and whether a conflict or a
      fault is retried. */
  datatype Try = Try(before: seq<LogMap>, lag: nat, between: seq<LogMap>, fault: Fault, again: bool)

  /** The put finds the version it expects: the node is up to date and nobody writes before it. */
  predicate FindsItsVersion(t: Try) { t.lag == 0 && t.between == [] }

  predicate Undisturbed(t: Try) { FindsItsVersion(t) && t.fault.NoFault? }

  /** The put takes effect and its answer is lost. */
  predicate LandsUnseen(t: Try) { FindsItsVersion(t) && t.fault.AnswerLost? }

  /** One of the first `n` tries lands unseen. */
  predicate SomeUnseen(tries: seq<Try>, n: nat)
    requires n <= |tries|
  {
    n > 0 && (LandsUnseen(tries[n - 1]) || SomeUnseen(tries, n - 1))
  }

  predicate NoneUnseen(tries: seq<Try>) { forall t :: t in tries ==> !LandsUnseen(t) }

  lemma {:induction false} NoneIsNotSome(tries: seq<Try>, n: nat)
    requires NoneUnseen(tries) && n <= |tries|
    ensures !SomeUnseen(tries, n)
  {
    if n > 0 {
      assert tries[n - 1] in tries;
      NoneIsNotSome(tries, n - 1);
    }
  }

  ghost predicate LegalTries(tries: seq<Try>) {
    forall t, m :: t in tries && (m in t.before || m in t.between) ==> AllWellFormed(m)
  }

  function Commands(b: seq<Staged>): seq<Command> { seq(|b|, k requires 0 <= k < |b| => b[k].cmd) }

  /** The staged results are those of this run: trims have none. */
  predicate StagedAre(b: seq<Staged>, results: seq<Option<Answer>>) {
    |b| == |results| && forall k :: 0 <= k < |b| ==> Answers(b[k].cmd) ==> b[k].result == results[k]
  }

  /** Version number `n` of the register is the batch applied to the value just before it. */
  ghost predicate WroteAt(versions: seq<Logs>, n: nat, cmds: seq<Command>) {
    && 0 < n < |versions|
    && AllWellFormed(versions[n - 1].chains)
    && versions[n] == Logs(versions[n - 1].version + 1, ExecuteAll(versions[n - 1].chains, cmds).0)
  }

  /** A batch with the place of the version it wrote, if it was written, and its answers. */
  datatype Flush = Flush(cmds: seq<Command>, at: Option<nat>, answers: seq<Option<Answer>>)

  predicate AllFail(cmds: seq<Command>, answers: seq<Option<Answer>>, e: Error) {
    && |answers| == |cmds|
    && forall k :: 0 <= k < |cmds| ==> answers[k] == (if Answers(cmds[k]) then Some(Err(e)) else None)
  }

  /** A written batch is answered with the results of its commands, one by one, on the version it replaced;
      a batch that was not written fails every command with someone waiting. */
  ghost predicate FlushOk(versions: seq<Logs>, f: Flush) {
    match f.at
    case Some(n) => WroteAt(versions, n, f.cmds) && f.answers == ExecuteAll(versions[n - 1].chains, f.cmds).1
    case None => exists e :: AllFail(f.cmds, f.answers, e)
  }

  function AllCommands(fs: seq<Flush>): seq<Command> {
    if fs == [] then [] else AllCommands(fs[..|fs| - 1]) + fs[|fs| - 1].cmds
  }

  function AllAnswers(fs: seq<Flush>): seq<Option<Answer>> {
    if fs == [] then [] else AllAnswers(fs[..|fs| - 1]) + fs[|fs| - 1].answers
  }

  function PlaceOf(f: Flush): set<nat> { if f.at.Some? then {f.at.value} else {} }

  class LogChainWriter {
    var buffer: seq<Staged>

    constructor () ensures buffer == [] { buffer := []; }

    /** `recv_many`: takes at most a full batch off the queue. */
    method Receive(queue: seq<Command>) returns (rest: seq<Command>)
      requires buffer == []
      modifies this
      ensures Commands(buffer) + rest == queue && |buffer| <= MAX_BATCH_SIZE
      ensures buffer == [] <==> queue == []
      ensures forall k :: 0 <= k < |buffer| ==> buffer[k].result.None?
    {
      var n := Min(|queue|, MAX_BATCH_SIZE);
      buffer := seq(n, k requires 0 <= k < n => Staged(queue[k], None));
      rest := queue[n..];
      assert Commands(buffer) == queue[..n];
    }

    /** The closure of the read-modify-write: runs the batch on a builder, overwriting whatever an
        earlier run staged. */
    method Modify(builder: LogsBuilder)
      requires AllWellFormed(builder.chains)
      modifies this, builder
      ensures Commands(buffer) == old(Commands(buffer))
      ensures builder.chains == ExecuteAll(old(builder.chains), Commands(buffer)).0
      ensures StagedAre(buffer, ExecuteAll(old(builder.chains), Commands(buffer)).1)
    {
      ghost var m, cmds := builder.chains, Commands(buffer);
      ghost var results: seq<Option<Answer>> := [];
      var k := 0;
      assert cmds[..0] == [];
      while k < |buffer|
        invariant 0 <= k <= |buffer| && Commands(buffer) == cmds
        invariant (builder.chains, results) == ExecuteAll(m, cmds[..k])
        invariant AllWellFormed(builder.chains) && |results| == k
        invariant forall j :: 0 <= j < k ==> Answers(cmds[j]) ==> buffer[j].result == results[j]
      {
        var cmd := buffer[k].cmd;
        ghost var was := builder.chains;
        var staged := buffer[k].result;
        match cmd.op {
          case AddLog(provider, params) =>
            var r := builder.AddLog(cmd.log, provider, params);
            staged := Some(r);
          case Extend(last, base, provider, params) =>
            var r := builder.ExtendLogChain(cmd.log, last, base, provider, params);
            staged := Some(r);
          case SealChain(last, tail, permanent) =>
            var r := builder.SealLogChain(cmd.log, last, tail, permanent);
            staged := Some(r);
          case TrimTo(point) => builder.TrimChainPrefix(cmd.log, point);
        }
        OneMore(m, cmds, k);
        ExecuteKeepsShape(was, cmd);
        results := results + [Execute(was, cmd).1];
        buffer := buffer[k := Staged(cmd, staged)];
        k := k + 1;
        assert Commands(buffer) == cmds;
      }
      assert cmds[..|cmds|] == cmds;
    }

    method RunBatch(m: LogMap) returns (chains: LogMap)
      requires AllWellFormed(m)
      modifies this
      ensures Commands(buffer) == old(Commands(buffer)) && AllWellFormed(chains)
      ensures chains == ExecuteAll(m, Commands(buffer)).0 && StagedAre(buffer, ExecuteAll(m, Commands(buffer)).1)
    {
      var builder := new LogsBuilder(m);
      Modify(builder);
      ExecuteAllKeepsShape(m, Commands(buffer));
      chains := builder.chains;
    }

    /** One try of `read_modify_write`: runs the batch from scratch on what the node knows, and puts it. `None`:
        try again. `wrote` is the place of the version it left in the register, known to it or not. */
    method OneTry(reg: Register, t: Try) returns (r: Option<Result<Logs, Error>>, ghost wrote: set<nat>)
      requires reg.Valid() && LegalTries([t])
      modifies this, reg
      ensures Commands(buffer) == old(Commands(buffer))
      ensures reg.Valid() && old(reg.versions) <= reg.versions && reg.ours == old(reg.ours) + wrote
      ensures wrote == {} || (wrote == {|reg.versions| - 1} && |old(reg.versions)| < |reg.versions|)
      ensures AllWrote(reg.versions, wrote, |old(reg.versions)|, Commands(buffer))
      ensures wrote != {} <==> r != Some(Err(NotProvisioned)) && FindsItsVersion(t) && !t.fault.Unreached?
      ensures r.Some? && r.value.Ok? <==> wrote != {} && t.fault.NoFault?
      ensures r.Some? && r.value.Ok? ==>
                var n := |reg.versions| - 1;
                reg.versions[n] == r.value.value && StagedAre(buffer, ExecuteAll(reg.versions[n - 1].chains, Commands(buffer)).1)
      ensures r == Some(Err(NotProvisioned)) <==> |old(reg.versions)| + |t.before| <= t.lag
    {
      wrote := {};
      assert t in [t];
      reg.OthersWrite(t.before);
      var known := reg.Get(t.lag);
      if known.None? { return Some(Err(NotProvisioned)), {}; }
      var was := known.value;
      var chains := RunBatch(was.chains);
      ghost var looked := reg.versions;
      reg.OthersWrite(t.between);
      LatestIffUndisturbed(looked, reg.versions, t);
      var put := reg.PutIf(was.version, Logs(was.version + 1, chains), t.fault);
      if FindsItsVersion(t) && !t.fault.Unreached? { wrote := {|reg.versions| - 1}; }
      match put
      case Written => r := Some(Ok(Logs(was.version + 1, chains)));
      case Conflict => r := if t.again then None else Some(Err(WriteFailed));
      case Broken => r := if t.again then None else Some(Err(WriteFailed));
    }

    /** `read_modify_write` of the batch. Every version it leaves in the register, known to it or not, is the
        batch applied to the version just before, whatever others wrote meanwhile. A success answers for the
        last of them; a failure has left one exactly if an answer of the store was lost to a put that found
        its version. `used` counts the tries that got to put. */
    method ReadModifyWrite(reg: Register, tries: seq<Try>) returns (r: Result<Logs, Error>, ghost wrote: set<nat>, ghost used: nat)
      requires reg.Valid() && LegalTries(tries)
      modifies this, reg
      ensures Commands(buffer) == old(Commands(buffer))
      ensures reg.Valid() && old(reg.versions) <= reg.versions && reg.ours == old(reg.ours) + wrote
      ensures AllWrote(reg.versions, wrote, |old(reg.versions)|, Commands(buffer))
      ensures used <= |tries|
      ensures r.Err? ==> (wrote != {} <==> SomeUnseen(tries, used))
      ensures tries != [] && Undisturbed(tries[0]) && |old(reg.versions)| + |tries[0].before| > 0 ==> r.Ok?
      ensures r.Ok? ==>
                var n := |reg.versions| - 1;
                && n in wrote && (wrote == {n} <==> !SomeUnseen(tries, used))
                && reg.versions[n] == r.value
                && StagedAre(buffer, ExecuteAll(reg.versions[n - 1].chains, Commands(buffer)).1)
    {
      wrote, used := {}, 0;
      ghost var cmds := Commands(buffer);
      for k := 0 to |tries|
        invariant Commands(buffer) == cmds && used == k
        invariant reg.Valid() && old(reg.versions) <= reg.versions && reg.ours == old(reg.ours) + wrote
        invariant AllWrote(reg.versions, wrote, |old(reg.versions)|, cmds)
        invariant wrote != {} <==> SomeUnseen(tries, k)
        invariant k == 0 ==> reg.versions == old(reg.versions)
        invariant k > 0 && Undisturbed(tries[0]) ==> |old(reg.versions)| + |tries[0].before| == 0
      {
        ghost var before := reg.versions;
        assert tries[k] in tries;
        var answer, more := OneTry(reg, tries[k]);
        MoreWrote(before, reg.versions, wrote, more, |old(reg.versions)|, cmds);
        wrote := wrote + more;
        if answer == Some(Err(NotProvisioned)) { return Err(NotProvisioned), wrote, used; }
        used := k + 1;
        if answer.Some? { return answer.value, wrote, used; }
      }
      return Err(WriteFailed), wrote, used;
    }

    /** One turn of `run_inner`: writes the batch, then completes every command with its staged result or
        fails every command that has someone waiting. Completing always finds a staged result. */
    method ProcessBatch(reg: Register, tries: seq<Try>) returns (f: Flush, ghost wrote: set<nat>)
      requires reg.Valid() && LegalTries(tries)
      modifies this, reg
      ensures buffer == [] && f.cmds == old(Commands(buffer)) && |f.answers| == |f.cmds|
      ensures reg.Valid() && old(reg.versions) <= reg.versions && FlushOk(reg.versions, f)
      ensures reg.ours == old(reg.ours) + wrote && AllWrote(reg.versions, wrote, |old(reg.versions)|, f.cmds)
      ensures PlaceOf(f) <= wrote && (f.at.Some? ==> f.at.value == |reg.versions| - 1)
      ensures NoneUnseen(tries) ==> wrote == PlaceOf(f)
    {
      var cmds := Commands(buffer);
      var r;
      ghost var used;
      r, wrote, used := ReadModifyWrite(reg, tries);
      if NoneUnseen(tries) { NoneIsNotSome(tries, used); }
      assert |buffer| == |cmds| && forall k :: 0 <= k < |buffer| ==> buffer[k].cmd == cmds[k];
      if r.Ok? {
        var n := |reg.versions| - 1;
        ExecuteAllKeepsShape(reg.versions[n - 1].chains, cmds);
        var answers := CompleteAll(ExecuteAll(reg.versions[n - 1].chains, cmds).1);
        f := Flush(cmds, Some(n), answers);
      } else {
        var answers := FailAll(r.error);
        f := Flush(cmds, None, answers);
        assert AllFail(cmds, answers, r.error);
      }
    }

    /** `run_inner` until the queue is closed and drained. Every batch, in order, is answered from the version
        it replaced or fails as a whole. The versions of ours in the register are exactly those that the
        batches wrote, in order, each a batch applied to the version before it; a batch wrote other versions
        than the one it is answered for only if an answer of the store was lost. `tries(n)` is what the
        register shows while `n` commands are left. */
    method RunInner(reg: Register, queue: seq<Command>, tries: nat -> seq<Try>)
      returns (answers: seq<Option<Answer>>, flushes: seq<Flush>, ghost wrote: seq<set<nat>>)
      requires buffer == [] && reg.Valid() && forall n :: LegalTries(tries(n))
      modifies this, reg
      ensures reg.Valid() && old(reg.versions) <= reg.versions
      ensures AllCommands(flushes) == queue && AllAnswers(flushes) == answers
      ensures forall f :: f in flushes ==> FlushOk(reg.versions, f)
      ensures |wrote| == |flushes| && reg.ours == old(reg.ours) + Union(wrote)
      ensures InOrder(wrote, |old(reg.versions)|) && WritesOk(reg.versions, flushes, wrote)
      ensures (forall n :: NoneUnseen(tries(n))) ==> forall i :: 0 <= i < |wrote| ==> wrote[i] == PlaceOf(flushes[i])
    {
      answers, flushes, wrote := [], [], [];
      var rest := queue;
      while true
        invariant buffer == [] && reg.Valid() && old(reg.versions) <= reg.versions
        invariant AllCommands(flushes) + rest == queue && AllAnswers(flushes) == answers
        invariant forall f :: f in flushes ==> FlushOk(reg.versions, f)
        invariant |wrote| == |flushes| && reg.ours == old(reg.ours) + Union(wrote)
        invariant InOrder(wrote, |old(reg.versions)|) && WritesOk(reg.versions, flushes, wrote)
        invariant (forall n :: NoneUnseen(tries(n))) ==> forall i :: 0 <= i < |wrote| ==> wrote[i] == PlaceOf(flushes[i])
        decreases |rest|
      {
        ghost var done, versions := flushes, reg.versions;
        rest := Receive(rest);
        if buffer == [] { break; }
        var f, more := ProcessBatch(reg, tries(|rest|));
        answers, flushes := answers + f.answers, flushes + [f];
        OneMoreFlush(done, f);
        TakenOff(AllCommands(done), f.cmds, rest);
        OneMoreWrite(versions, reg.versions, done, wrote, f, more, |old(reg.versions)|);
        UnionAdds(wrote, more);
        wrote := wrote + [more];
        forall g | g in done ensures FlushOk(reg.versions, g) { FlushOkIsStable(versions, reg.versions, g); }
      }
    }

    method CompleteAll(ghost results: seq<Option<Answer>>) returns (answers: seq<Option<Answer>>)
      requires StagedAre(buffer, results)
      requires forall k :: 0 <= k < |results| ==> (results[k].Some? <==> Answers(buffer[k].cmd))
      modifies this
      ensures buffer == [] && answers == results
    {
      answers := [];
      while buffer != []
        invariant |answers| + |buffer| == |results| && buffer == old(buffer)[|answers|..] && answers == results[..|answers|]
        decreases |buffer|
      {
        var s := buffer[0];
        assert s == old(buffer)[|answers|];
        answers := answers + [if Answers(s.cmd) then Some(s.result.value) else None];
        buffer := buffer[1..];
      }
    }

    method FailAll(e: Error) returns (answers: seq<Option<Answer>>)
      modifies this
      ensures buffer == [] && |answers| == old(|buffer|)
      ensures forall k :: 0 <= k < |answers| ==> answers[k] == (if Answers(old(buffer)[k].cmd) then Some(Err(e)) else None)
    {
      answers := [];
      while buffer != []
        invariant |answers| + |buffer| == old(|buffer|) && buffer == old(buffer)[|answers|..]
        invariant forall k :: 0 <= k < |answers| ==> answers[k] == (if Answers(old(buffer)[k].cmd) then Some(Err(e)) else None)
        decreases |buffer|
      {
        var s := buffer[0];
        assert s == old(buffer)[|answers|];
        answers := answers + [if Answers(s.cmd) then Some(Err(e)) else None];
        buffer := buffer[1..];
      }
    }
  }

  /** Batches wrote their versions in the order of the queue. */
  predicate InOrder(ws: seq<set<nat>>, from: nat) {
    && (forall i, p :: 0 <= i < |ws| && p in ws[i] ==> from <= p)
    && (forall i, j, p, q :: 0 <= i < j < |ws| && p in ws[i] && q in ws[j] ==> p < q)
  }

  function Union(ws: seq<set<nat>>): set<nat> { if ws == [] then {} else Union(ws[..|ws| - 1]) + ws[|ws| - 1] }

  lemma UnionAdds(ws: seq<set<nat>>, w: set<nat>)
    ensures Union(ws + [w]) == Union(ws) + w
  {
    assert (ws + [w])[..|ws|] == ws;
  }

  /** The puts of ours that took effect, seen or not, each wrote the batch. */
  ghost predicate AllWrote(versions: seq<Logs>, ps: set<nat>, from: nat, cmds: seq<Command>) {
    forall p :: p in ps ==> from <= p && WroteAt(versions, p, cmds)
  }

  lemma MoreWrote(a: seq<Logs>, b: seq<Logs>, ps: set<nat>, more: set<nat>, from: nat, cmds: seq<Command>)
    requires a <= b && AllWrote(a, ps, from, cmds) && AllWrote(b, more, from, cmds)
    ensures AllWrote(b, ps + more, from, cmds)
  {
    forall p | p in ps ensures WroteAt(b, p, cmds) { assert WroteAt(a, p, cmds); }
  }

  /** Every batch wrote what it is answered for, and nothing but itself. */
  ghost predicate WritesOk(versions: seq<Logs>, fs: seq<Flush>, ws: seq<set<nat>>) {
    && |ws| == |fs|
    && forall i :: 0 <= i < |ws| ==> AllWrote(versions, ws[i], 0, fs[i].cmds) && PlaceOf(fs[i]) <= ws[i]
  }

  lemma OneMoreWrite(a: seq<Logs>, b: seq<Logs>, fs: seq<Flush>, ws: seq<set<nat>>, f: Flush, w: set<nat>, from: nat)
    requires a <= b && from <= |a| && WritesOk(a, fs, ws) && InOrder(ws, from)
    requires AllWrote(b, w, |a|, f.cmds) && PlaceOf(f) <= w
    ensures WritesOk(b, fs + [f], ws + [w]) && InOrder(ws + [w], from)
  {
    forall i | 0 <= i < |ws| ensures AllWrote(b, ws[i], 0, fs[i].cmds) { MoreWrote(a, b, ws[i], {}, 0, fs[i].cmds); }
    forall i, p | 0 <= i < |ws| && p in ws[i] ensures p < |a| { assert WroteAt(a, p, fs[i].cmds); }
  }

  /** The value a node knows is the latest one at the put exactly if it found its version. */
  lemma LatestIffUndisturbed(looked: seq<Logs>, now: seq<Logs>, t: Try)
    requires Versioned(now) && looked <= now && |now| == |looked| + |t.between| && t.lag < |looked|
    ensures looked[|looked| - 1 - t.lag].version == now[|now| - 1].version <==> FindsItsVersion(t)
    ensures FindsItsVersion(t) ==> looked[|looked| - 1 - t.lag] == now[|now| - 1]
  {
    var i := |looked| - 1 - t.lag;
    assert looked[i] == now[i];
    if i < |now| - 1 { assert now[i].version < now[|now| - 1].version; }
  }

  /** A batch that landed unseen is tried again on its own result: an extension is then refused for the index
      it has itself replaced, while a seal is answered the same. */
  lemma TriedTwice(c: Chain, op: ChainOp)
    requires WellFormed(c) && Edit(c, op).1.Ok?
    ensures var d := Edit(c, op).0;
            && |d| > 0
            && (op.Extend? ==> Edit(d, op) == (d, Err(SegmentMismatch(op.last, op.last + 1))))
            && (op.SealChain? || op.TrimTo? ==> Edit(d, op) == (d, Edit(c, op).1))
  {
    EditKeepsShape(c, op);
  }

  lemma FlushOkIsStable(a: seq<Logs>, b: seq<Logs>, f: Flush)
    requires a <= b && FlushOk(a, f)
    ensures FlushOk(b, f)
  {
  }

  lemma OneMoreFlush(fs: seq<Flush>, f: Flush)
    ensures AllCommands(fs + [f]) == AllCommands(fs) + f.cmds && AllAnswers(fs + [f]) == AllAnswers(fs) + f.answers
  {
    assert (fs + [f])[..|fs|] == fs;
  }

  lemma TakenOff(done: seq<Command>, cmds: seq<Command>, rest: seq<Command>)
    ensures (done + cmds) + rest == done + (cmds + rest)
  {
  }

  lemma OneMore(m: LogMap, cmds: seq<Command>, k: nat)
    requires AllWellFormed(m) && k < |cmds|
    ensures AllWellFormed(ExecuteAll(m, cmds[..k]).0)
    ensures var (n, rs) := ExecuteAll(m, cmds[..k]);
            var (n2, a) := Execute(n, cmds[k]);
            ExecuteAll(m, cmds[..k + 1]) == (n2, rs + [a])
  {
    CoalescingIsSequential(m, cmds[..k], [cmds[k]]);
    assert cmds[..k + 1] == cmds[..k] + [cmds[k]];
    assert [cmds[k]][1..] == [];
    ExecuteAllKeepsShape(m, cmds[..k]);
    var n := ExecuteAll(m, cmds[..k]).0;
    ExecuteKeepsShape(n, cmds[k]);
    var (n2, a) := Execute(n, cmds[k]);
    assert ExecuteAll(n2, [cmds[k]][1..]) == (n2, []);
    assert [a] + [] == [a];
  }
}
