/** The conditional edits of the log-chain writer, one command at a time: `extend_log_chain`,
    `seal_log_chain` and `trim_prefix` of one log, and `add_log` over all logs. */
module ChainCommands {
  import opened Outcomes
  import opened Addresses
  import opened Chains

  datatype ChainOp =
    | AddLog(provider: Provider, params: Params)
    | Extend(last: nat, base: Lsn, extension: Provider, extParams: Params)
    | SealChain(last: nat, tail: Lsn, permanent: bool)
    | TrimTo(point: Lsn)

  datatype Error =
    | UnknownLogId
    | SegmentMismatch(expected: nat, found: nat)
    | Builder(error: BuilderError)
    | NotProvisioned
    | WriteFailed

  /** `()` answers are `Ok(INVALID)`; a seal answers with the authoritative tail. */
  type Answer = Result<Lsn, Error>

  /** One command on the chain of its own log. */
  function Edit(c: Chain, op: ChainOp): (Chain, Answer)
    requires |c| > 0
  {
    match op
    case AddLog(_, _) => (c, Ok(INVALID))
    case Extend(last, base, provider, params) =>
      if TailIndex(c) != last then (c, Err(SegmentMismatch(last, TailIndex(c))))
      else
        (match AppendSegment(c, base, provider, params)
         case Ok(d) => (d, Ok(INVALID))
         case Err(e) => (c, Err(Builder(e))))
    case SealChain(last, tail, permanent) =>
      if TailIndex(c) != last then (c, Err(SegmentMismatch(last, TailIndex(c))))
      else
        (match Seal(c, tail, permanent)
         case Ok((d, at)) => (d, Ok(at))
         case Err(e) => (c, Err(Builder(e))))
    case TrimTo(point) => (TrimPrefix(c, NextLsn(point)), Ok(INVALID))
  }

  /** Every command keeps the chain well formed and never moves its stage back. The stage
      moves exactly when a seal or an extension takes effect, and such a command names the
      index the chain had: so over any sequence of commands each index is sealed at most
      once and extended at most once. */
  lemma EditKeepsShape(c: Chain, op: ChainOp)
    requires WellFormed(c)
    ensures var (d, _) := Edit(c, op);
            && WellFormed(d)
            && Stage(c) <= Stage(d)
            && TailIndex(c) <= TailIndex(d)
            && c[0].base <= d[0].base
            && (Stage(d) != Stage(c) ==> op.Extend? || op.SealChain?)
            && (op.Extend? && d != c ==> op.last == TailIndex(c) && TailIndex(d) == op.last + 1 && !IsSealed(d))
            && (op.SealChain? && d != c ==>
                  op.last == TailIndex(c) == TailIndex(d) && !IsSealed(c) && IsSealed(d))
  {
    match op
    case AddLog(_, _) =>
    case Extend(last, base, provider, params) =>
      if TailIndex(c) == last && AppendSegment(c, base, provider, params).Ok? {
        AppendKeepsShape(c, base, provider, params);
      }
    case SealChain(last, tail, permanent) =>
      if TailIndex(c) == last && Seal(c, tail, permanent).Ok? {
        SealKeepsShape(c, tail, permanent);
      }
    case TrimTo(point) => TrimKeepsShape(c, NextLsn(point));
  }

  // ---------------------------------------------------------------- whole runs of commands

  /** The chain after a run of commands, from whatever batches and writers they came. */
  function EditAll(c: Chain, ops: seq<ChainOp>): Chain
    requires WellFormed(c)
    decreases |ops|
  {
    if ops == [] then c
    else
      EditKeepsShape(c, ops[0]);
      EditAll(Edit(c, ops[0]).0, ops[1..])
  }

  lemma {:induction false} EditAllKeepsShape(c: Chain, ops: seq<ChainOp>)
    requires WellFormed(c)
    ensures WellFormed(EditAll(c, ops)) && Stage(c) <= Stage(EditAll(c, ops))
    ensures TailIndex(c) <= TailIndex(EditAll(c, ops)) && c[0].base <= EditAll(c, ops)[0].base
    decreases |ops|
  {
    if ops != [] {
      EditKeepsShape(c, ops[0]);
      EditAllKeepsShape(Edit(c, ops[0]).0, ops[1..]);
    }
  }

  lemma {:induction false} EditAllSplits(c: Chain, ops: seq<ChainOp>, more: seq<ChainOp>)
    requires WellFormed(c)
    ensures WellFormed(EditAll(c, ops)) && EditAll(c, ops + more) == EditAll(EditAll(c, ops), more)
    decreases |ops|
  {
    EditAllKeepsShape(c, ops);
    if ops == [] {
      assert ops + more == more;
    } else {
      EditKeepsShape(c, ops[0]);
      EditAllSplits(Edit(c, ops[0]).0, ops[1..], more);
      assert (ops + more)[1..] == ops[1..] + more;
    }
  }

  /** Command `p` of the run seals or extends the chain, and the chain changes. */
  ghost predicate Reconfigures(c: Chain, ops: seq<ChainOp>, p: nat)
    requires WellFormed(c) && p < |ops|
  {
    EditAllKeepsShape(c, ops[..p]);
    var d := EditAll(c, ops[..p]);
    (ops[p].Extend? || ops[p].SealChain?) && Edit(d, ops[p]).0 != d
  }

  /** Reconfigurations by the index they name, a seal before an extension. */
  function Rank(op: ChainOp): int
    requires op.Extend? || op.SealChain?
  {
    2 * op.last + if op.Extend? then 1 else 0
  }

  /** Over a whole run, commands that reconfigure the chain strictly rise in rank: each index is sealed
      at most once, extended at most once, and never sealed after it was extended. */
  lemma ReconfigurationsRise(c: Chain, ops: seq<ChainOp>, a: nat, b: nat)
    requires WellFormed(c) && a < b < |ops| && Reconfigures(c, ops, a) && Reconfigures(c, ops, b)
    ensures Rank(ops[a]) < Rank(ops[b])
  {
    var d := EditAll(c, ops[..a]);
    EditAllKeepsShape(c, ops[..a]);
    EditKeepsShape(d, ops[a]);
    var e := Edit(d, ops[a]).0;
    assert ops[..a + 1] == ops[..a] + [ops[a]] && ops[..b] == ops[..a + 1] + ops[a + 1..b];
    EditAllSplits(c, ops[..a], [ops[a]]);
    assert EditAll(c, ops[..a + 1]) == e;
    EditAllSplits(c, ops[..a + 1], ops[a + 1..b]);
    EditAllKeepsShape(e, ops[a + 1..b]);
    EditKeepsShape(EditAll(c, ops[..b]), ops[b]);
  }

  /** One index may see two reconfigurations: the marker of a seal keeps the index it seals, so the
      extension that replaces it names the same one. */
  lemma SealThenExtendBothChange(provider: Provider, tail: Lsn)
    requires tail > OLDEST
    ensures var c := NewChain(provider, Blob(""));
            var ops := [SealChain(0, tail, false), Extend(0, tail, Local, Blob(""))];
            WellFormed(c) && Reconfigures(c, ops, 0) && Reconfigures(c, ops, 1)
  {
  }
}
