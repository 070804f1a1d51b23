/** The chain of segments of one log (`Chain`) and the edits the builder makes to it
    (`ChainBuilder`). The source keeps a B-tree from base LSN to loglet configuration;
    here it is the sequence of its entries in key order. */
module Chains {
  import opened Outcomes
  import opened Addresses

  datatype Kind = Local | InMemory | Replicated | SealMarker

  type Provider = k: Kind | k != SealMarker witness Local

  /** Loglet parameters by what their bytes decode to. */
  datatype Params = Blob(text: string) | ReplicatedParams(loglet: nat) | SealParams(permanent: bool)

  datatype Entry = Entry(base: Lsn, index: nat, kind: Kind, params: Params)

  type Chain = seq<Entry>

  type LiveChain = c: Chain | |c| > 0 witness [Entry(OLDEST, 0, Local, Blob(""))]

  /** A segment as handed out by the chain: its entry and, unless it is the last one, the
      base of its successor. */
  datatype Segment = Segment(base: Lsn, tail: Option<Lsn>, index: nat, kind: Kind, params: Params)

  datatype MaybeSegment = Found(segment: Segment) | Trim(nextBase: Lsn)

  datatype BuilderError =
    | ChainPermanentlySealed
    | LogAlreadyExists
    | ParamsSerde
    | SegmentConflict(base: Lsn)

  // ---------------------------------------------------------------- shape

  /** `e` may stand before `f`: a smaller base and index, except that a seal marker may share
      the index of the segment it seals; a marker stands before nothing. */
  predicate Precedes(e: Entry, f: Entry) {
    && e.kind != SealMarker
    && e.base < f.base
    && e.index <= f.index
    && (f.kind != SealMarker ==> e.index < f.index)
  }

  /** Never empty, starting at OLDEST or later, entries in order, markers decodable. */
  ghost predicate WellFormed(c: Chain) {
    && |c| > 0
    && c[0].base >= OLDEST
    && (c[|c| - 1].kind == SealMarker ==> c[|c| - 1].params.SealParams?)
    && (forall i, j :: 0 <= i < j < |c| ==> Precedes(c[i], c[j]))
  }

  function Last(c: Chain): Entry
    requires |c| > 0
  {
    c[|c| - 1]
  }

  function TailIndex(c: Chain): nat
    requires |c| > 0
  {
    Last(c).index
  }

  predicate IsSealed(c: Chain)
    requires |c| > 0
  {
    Last(c).kind == SealMarker
  }

  /** `Chain::new`. */
  function NewChain(provider: Provider, params: Params): Chain {
    [Entry(OLDEST, 0, provider, params)]
  }

  function SegmentAt(c: Chain, i: nat): Segment
    requires i < |c|
  {
    Segment(c[i].base, if i + 1 < |c| then Some(c[i + 1].base) else None, c[i].index, c[i].kind, c[i].params)
  }

  /** `Chain::tail`: the last entry, always reported without a tail LSN. */
  function Tail(c: Chain): (s: Segment)
    requires |c| > 0
  {
    SegmentAt(c, |c| - 1)
  }

  // ---------------------------------------------------------------- lookup

  /** Position of the last entry whose base is at most `lsn`, or -1 (the backward search). */
  function LastAtOrBelow(c: Chain, lsn: Lsn): (p: int)
    ensures -1 <= p < |c|
    ensures p >= 0 ==> c[p].base <= lsn
    ensures forall i :: p < i < |c| ==> c[i].base > lsn
  {
    if |c| == 0 then -1
    else if c[|c| - 1].base <= lsn then |c| - 1
    else LastAtOrBelow(c[..|c| - 1], lsn)
  }

  /** `find_segment_for_lsn`. */
  function FindSegment(c: Chain, lsn: Lsn): (m: MaybeSegment)
    requires |c| > 0
  {
    var p := LastAtOrBelow(c, Max(lsn, OLDEST));
    if p < 0 then Trim(c[0].base) else Found(SegmentAt(c, p))
  }

  /** The lookup finds the one segment whose interval holds the LSN, and answers `Trim`
      exactly below the head. */
  lemma FindSegmentIsTheHolder(c: Chain, lsn: Lsn)
    requires WellFormed(c) && lsn >= OLDEST
    ensures FindSegment(c, lsn).Trim? <==> lsn < c[0].base
    ensures FindSegment(c, lsn).Trim? ==> FindSegment(c, lsn).nextBase == c[0].base > lsn
    ensures FindSegment(c, lsn).Found? ==>
              var s := FindSegment(c, lsn).segment;
              && s.base <= lsn
              && (s.tail.Some? ==> lsn < s.tail.value)
    ensures forall i :: 0 <= i < |c| && c[i].base <= lsn && (i + 1 < |c| ==> lsn < c[i + 1].base) ==>
              FindSegment(c, lsn) == Found(SegmentAt(c, i))
  {
  }

  lemma BasesOrdered(c: Chain, i: int, j: int)
    requires WellFormed(c)
    ensures 0 <= i <= j < |c| ==> c[i].base <= c[j].base
  {
  }

  /** Where the lookup lands, for callers that need the position. */
  lemma FindSegmentPosition(c: Chain, lsn: Lsn) returns (p: nat)
    requires WellFormed(c) && FindSegment(c, lsn).Found?
    ensures p < |c| && FindSegment(c, lsn).segment == SegmentAt(c, p)
    ensures c[p].base <= Max(lsn, OLDEST)
    ensures p + 1 < |c| ==> Max(lsn, OLDEST) < c[p + 1].base
  {
    p := LastAtOrBelow(c, Max(lsn, OLDEST));
  }

  // ---------------------------------------------------------------- edits

  /** `append_segment`. A base equal to the last one replaces that (empty) segment, or the
      seal marker, with the next index. */
  function AppendSegment(c: Chain, base: Lsn, provider: Provider, params: Params): Result<Chain, BuilderError>
    requires |c| > 0
  {
    var last := Last(c);
    if last.kind == SealMarker && !last.params.SealParams? then Err(ParamsSerde)
    else if last.kind == SealMarker && last.params.permanent then Err(ChainPermanentlySealed)
    else if last.kind == SealMarker && base != last.base then Err(SegmentConflict(last.base))
    else if last.base < base then
      if provider == Replicated && !params.ReplicatedParams? then Err(ParamsSerde)
      else Ok(c + [Entry(base, last.index + 1, provider, params)])
    else if last.base == base then
      if last.kind == Replicated && !last.params.ReplicatedParams? then Err(ParamsSerde)
      else if provider == Replicated && !params.ReplicatedParams? then Err(ParamsSerde)
      else Ok(c[..|c| - 1] + [Entry(base, last.index + 1, provider, params)])
    else Err(SegmentConflict(last.base))
  }

  /** `seal`: returns the sealed tail with the edited chain. On a sealed chain the asked
      tail is ignored. The marker takes the index of the segment it seals. */
  function Seal(c: Chain, tail: Lsn, permanent: bool): Result<(Chain, Lsn), BuilderError>
    requires |c| > 0
  {
    var last := Last(c);
    var marker := Entry(tail, last.index, SealMarker, SealParams(permanent));
    if last.kind == SealMarker then Ok((c, last.base))
    else if last.base < tail then Ok((c + [marker], tail))
    else if last.base == tail then
      if last.kind == Replicated && !last.params.ReplicatedParams? then Err(ParamsSerde)
      else Ok((c[..|c| - 1] + [marker], tail))
    else Err(SegmentConflict(last.base))
  }

  /** `trim_prefix`: drops the segments before the one holding `until` (exclusive). */
  function TrimPrefix(c: Chain, until: Lsn): Chain
    requires |c| > 0
  {
    var p := LastAtOrBelow(c, Max(until, OLDEST));
    if p < 0 then c else c[p..]
  }

  // ---------------------------------------------------------------- what every edit keeps

  /** Progress of a chain's reconfiguration: two stages per index, open then sealed. */
  function Stage(c: Chain): nat
    requires |c| > 0
  {
    2 * TailIndex(c) + if IsSealed(c) then 1 else 0
  }

  lemma NewChainIsWellFormed(provider: Provider, params: Params)
    ensures WellFormed(NewChain(provider, params))
    ensures Stage(NewChain(provider, params)) == 0
  {
  }

  lemma AppendKeepsShape(c: Chain, base: Lsn, provider: Provider, params: Params)
    requires WellFormed(c)
    requires AppendSegment(c, base, provider, params).Ok?
    ensures var d := AppendSegment(c, base, provider, params).value;
            && WellFormed(d)
            && TailIndex(d) == TailIndex(c) + 1 && !IsSealed(d)
            && Stage(d) > Stage(c)
            && Last(d).base == base
            && c[0].base == d[0].base
            && |d| == (if Last(c).base < base then |c| + 1 else |c|)
            && (forall i :: 0 <= i < |d| - 1 ==> i < |c| && d[i] == c[i])
  {
  }

  lemma SealKeepsShape(c: Chain, tail: Lsn, permanent: bool)
    requires WellFormed(c)
    requires Seal(c, tail, permanent).Ok?
    ensures var (d, at) := Seal(c, tail, permanent).value;
            && WellFormed(d)
            && TailIndex(d) == TailIndex(c) && IsSealed(d)
            && Last(d).base == at
            && c[0].base == d[0].base
            && (IsSealed(c) ==> d == c)
            && (!IsSealed(c) ==> at == tail && Stage(d) == Stage(c) + 1)
            && (forall i :: 0 <= i < |d| - 1 ==> i < |c| && d[i] == c[i])
  {
  }

  /** Trimming keeps a non-empty suffix that starts with the segment holding `until`. */
  lemma TrimKeepsShape(c: Chain, until: Lsn)
    requires WellFormed(c)
    ensures var d := TrimPrefix(c, until);
            && WellFormed(d)
            && Stage(d) == Stage(c) && Last(d) == Last(c)
            && c[0].base <= d[0].base
            && |d| <= |c| && d == c[|c| - |d|..]
            && (d != c ==> d[0].base <= Max(until, OLDEST))
            && (|d| > 1 ==> d[1].base > Max(until, OLDEST) || d == c)
  {
  }
}
