/** The loglet contract (`trait Loglet`): one ordered sequence of records with a durable
    prefix, a released prefix that readers may see, a trimmed prefix, a seal and the first
    sealed tail report, after which nothing more is committed. */
module Loglets {
  import opened Outcomes
  import opened Addresses
  import opened Entries

  /** `committed`, `released` and `trimmed` are the last offset of each prefix. `sealed` is set
      by `seal()`; `frozen` by the first `TailState::Sealed` answer. */
  datatype Loglet = Loglet(log: seq<Record>, committed: nat, released: nat, trimmed: nat, sealed: bool, frozen: bool)

  const FRESH := Loglet([], 0, 0, 0, false, false)

  predicate Valid(l: Loglet) {
    && l.released <= l.committed <= |l.log| < OFFSET_MAX
    && l.trimmed <= l.committed
    && (l.frozen ==> l.sealed)
  }

  /** How a loglet may have changed between two observations. */
  predicate Le(l: Loglet, m: Loglet) {
    && l.log <= m.log
    && l.committed <= m.committed && l.released <= m.released && l.trimmed <= m.trimmed
    && (l.sealed ==> m.sealed)
    && (l.frozen ==> m.frozen && m.committed == l.committed)
  }

  datatype Event =
    | Enqueue(records: seq<Record>)
    | Commit(upTo: nat)
    | Release(upTo: nat)
    | SealLoglet
    | ReportSealed(upTo: nat)
    | TrimLoglet(upTo: nat)

  /** When the contract allows an event. Appends may still commit after `seal()`, but never
      after the first sealed tail; that answer fixes the durable tail. */
  predicate Enabled(l: Loglet, e: Event) {
    match e
    case Enqueue(records) => |l.log| + |records| < OFFSET_MAX
    case Commit(n) => !l.frozen && l.committed <= n <= |l.log|
    case Release(n) => l.released <= n <= l.committed
    case SealLoglet => true
    case ReportSealed(n) => l.sealed && (if l.frozen then n == l.committed else l.committed <= n <= |l.log|)
    case TrimLoglet(_) => true
  }

  function Happens(l: Loglet, e: Event): Loglet {
    match e
    case Enqueue(records) => l.(log := l.log + records)
    case Commit(n) => l.(committed := n)
    case Release(n) => l.(released := n)
    case SealLoglet => l.(sealed := true)
    case ReportSealed(n) => l.(committed := n, frozen := true)
    case TrimLoglet(n) => l.(trimmed := Max(l.trimmed, Min(n, l.committed)))
  }

  lemma HappensKeepsContract(l: Loglet, e: Event)
    requires Valid(l) && Enabled(l, e)
    ensures Valid(Happens(l, e)) && Le(l, Happens(l, e))
  {
  }

  datatype TailState = Open(offset: int) | Sealed(offset: int)
}
