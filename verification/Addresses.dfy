/** LSNs of the virtual log, offsets inside one loglet, and the translation between
    the two (`LsnExt` and `SequenceNumber`). A checked operation that panics in the
    source yields `None` here. */
module Addresses {
  import opened Outcomes

  const LSN_MAX: int := 0xFFFF_FFFF_FFFF_FFFF
  const OFFSET_MAX: int := 0xFFFF_FFFF
  /** 0 is INVALID and 1 is OLDEST, for LSNs and for loglet offsets alike. */
  const INVALID := 0
  const OLDEST := 1

  type Lsn = x: int | 0 <= x <= LSN_MAX
  type Offset = x: int | 0 <= x <= OFFSET_MAX

  /** Saturating successor and predecessor of an LSN. */
  function NextLsn(x: Lsn): Lsn { if x == LSN_MAX then LSN_MAX else x + 1 }
  function PrevLsn(x: Lsn): Lsn { if x == 0 then 0 else x - 1 }

  /** Saturating successor of an offset. */
  function NextOffset(o: Offset): Offset { if o == OFFSET_MAX then OFFSET_MAX else o + 1 }

  function OffsetBy(base: Lsn, offset: Offset): Option<Lsn> {
    if offset < OLDEST then None
    else if base + (offset - OLDEST) > LSN_MAX then None
    else Some(base + (offset - OLDEST))
  }

  function IntoOffset(lsn: Lsn, base: Lsn): Option<Offset> {
    if !(base > INVALID) || !(lsn >= base) then None
    else if lsn - base + OLDEST > OFFSET_MAX then None
    else Some(lsn - base + OLDEST)
  }

  /** The two translations are inverse bijections between the offsets a segment can
      hold and the LSNs it covers: each is defined on exactly the other's image. */
  lemma TranslationsAreInverse(base: Lsn, lsn: Lsn, offset: Offset)
    requires base > INVALID
    ensures IntoOffset(lsn, base) == Some(offset) <==> offset >= OLDEST && OffsetBy(base, offset) == Some(lsn)
    ensures IntoOffset(lsn, base).None? <==> lsn < base || lsn > base + OFFSET_MAX - OLDEST
    ensures OffsetBy(base, offset).None? <==> offset == INVALID || offset - OLDEST > LSN_MAX - base
  {
  }

  /** Both directions keep strict order. */
  lemma TranslationsAreMonotone(base: Lsn, o1: Offset, o2: Offset)
    requires OffsetBy(base, o1).Some? && OffsetBy(base, o2).Some?
    ensures o1 < o2 <==> OffsetBy(base, o1).value < OffsetBy(base, o2).value
  {
  }

  /** `LogletWrapper::trim`: the offset handed to the loglet, `Some(None)` for the
      no-op on INVALID, `None` for the panic in `into_offset`. */
  function TrimOffset(base: Lsn, request: Lsn): Option<Option<Offset>> {
    if request == INVALID then Some(None)
    else
      match IntoOffset(Min(request, OFFSET_MAX), base)
      case None => None
      case Some(o) => Some(Some(o))
  }

  /** Trimming a segment panics exactly when the request or the 32-bit ceiling lies below
      its base; otherwise it never trims past the request, and it is exact up to the
      ceiling. */
  lemma TrimOffsetIsExact(base: Lsn, request: Lsn)
    requires request > INVALID
    ensures TrimOffset(base, request).None? <==> base == INVALID || base > Min(request, OFFSET_MAX)
    ensures TrimOffset(base, request).Some? ==>
              && TrimOffset(base, request).value.Some?
              && OffsetBy(base, TrimOffset(base, request).value.value) == Some(Min(request, OFFSET_MAX))
    ensures TrimOffset(base, request).Some? && request <= OFFSET_MAX ==>
              OffsetBy(base, TrimOffset(base, request).value.value) == Some(request)
  {
  }
}
