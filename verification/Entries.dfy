/** Records, key filters and log entries, and the re-basing of a loglet's entries onto
    the virtual log. */
module Entries {
  import opened Outcomes
  import opened Addresses

  datatype Keys = NoKeys | Single(key: nat) | Pair(first: nat, second: nat) | Range(start: nat, end: nat)

  datatype KeyFilter = Any | Include(key: nat) | Within(start: nat, end: nat)

  datatype Record = Record(keys: Keys, body: nat)

  predicate Matches(keys: Keys, query: KeyFilter) {
    match (keys, query)
    case (NoKeys, _) => true
    case (_, Any) => true
    case (Single(k1), Include(k2)) => k1 == k2
    case (Single(k), Within(lo, hi)) => lo <= k <= hi
    case (Pair(a, b), Include(k)) => k == a || k == b
    case (Pair(a, b), Within(lo, hi)) => lo <= a <= hi || lo <= b <= hi
    case (Range(lo, hi), Include(k)) => lo <= k <= hi
    case (Range(lo1, hi1), Within(lo2, hi2)) => lo1 <= hi2 && hi1 >= lo2
  }

  /** The payload of an entry; the end `to` of a gap is inclusive. */
  datatype Payload = Data(record: Record) | TrimGap(to: int) | DataLoss(to: int) | Filtered(to: int)

  datatype Entry = Entry(seqno: int, payload: Payload)

  /** Last sequence number the entry covers. */
  function To(e: Entry): int {
    if e.payload.Data? then e.seqno else e.payload.to
  }

  /** `next_sequence_number` for entries on LSNs. */
  function NextSequenceNumber(e: Entry): Lsn
    requires 0 <= To(e) <= LSN_MAX
  {
    NextLsn(To(e))
  }

  /** `calculate_read_pointer`: only trim gaps are fast-forwarded over. */
  function CalculateReadPointer(e: Entry): Lsn
    requires 0 <= e.seqno <= LSN_MAX && 0 <= To(e) <= LSN_MAX
  {
    NextLsn(if e.payload.TrimGap? then e.payload.to else e.seqno)
  }

  /** A gap of another kind that covers more than one sequence number. */
  predicate IsWideGap(e: Entry) {
    !e.payload.TrimGap? && To(e) > e.seqno
  }

  predicate IsOffsetEntry(e: Entry) {
    OLDEST <= e.seqno <= To(e) < OFFSET_MAX
  }

  /** `with_base_lsn`; `None` when the translation overflows. */
  function WithBaseLsn(e: Entry, base: Lsn): Option<Entry>
    requires 0 <= e.seqno <= OFFSET_MAX && 0 <= To(e) <= OFFSET_MAX
  {
    match (OffsetBy(base, e.seqno), OffsetBy(base, To(e)))
    case (Some(s), Some(t)) =>
      Some(Entry(s, match e.payload
                    case Data(r) => Data(r)
                    case TrimGap(_) => TrimGap(t)
                    case DataLoss(_) => DataLoss(t)
                    case Filtered(_) => Filtered(t)))
    case _ => None
  }

  /** Re-basing shifts the covered interval, the next sequence number and the advanced read
      pointer by the same amount, keeps the payload, and fails only on overflow. */
  lemma WithBaseLsnShifts(e: Entry, base: Lsn)
    requires IsOffsetEntry(e)
    ensures WithBaseLsn(e, base).None? <==> base + To(e) - OLDEST > LSN_MAX
    ensures WithBaseLsn(e, base).Some? && base + To(e) <= LSN_MAX ==>
              var g := WithBaseLsn(e, base).value;
              && OffsetBy(base, NextOffset(e.seqno)) == Some(g.seqno + 1)
              && OffsetBy(base, NextOffset(To(e))) == Some(NextSequenceNumber(g))
              && (g.payload.Data? ==> g.payload == e.payload)
              && IsWideGap(g) == IsWideGap(e)
  {
  }

  /** The read pointer lands just past the entry exactly when the entry is not a wide gap. */
  lemma ReadPointerLagsIffWide(e: Entry)
    requires 0 <= e.seqno <= To(e) < LSN_MAX
    ensures CalculateReadPointer(e) == NextSequenceNumber(e) <==> !IsWideGap(e)
    ensures e.seqno < CalculateReadPointer(e) <= NextSequenceNumber(e)
  {
  }
}
