/** The watchdog: it counts preference tokens through a command queue, collects trim requests and
    reconfigures preferred logs a few at a time. */
module Watchdogs {
  import opened Outcomes
  import opened Addresses
  import opened Chains

  datatype Command = Acquire(log: nat) | Release(log: nat) | LogTrimmed(log: nat, requested: Lsn)

  /** A preferred log: how many tokens hold it and the segment its improvement task is about, if any. */
  datatype PreferredLog = PreferredLog(refCnt: nat, inFlight: Option<nat>)

  /** How many more tokens of a log the queued commands add. */
  function Net(q: seq<Command>, log: nat): int {
    if q == [] then 0
    else Net(q[..|q| - 1], log) + Delta(q[|q| - 1], log)
  }

  function Delta(c: Command, log: nat): int {
    if c.log != log || c.LogTrimmed? then 0 else if c.Acquire? then 1 else -1
  }

  lemma {:induction false} NetTakesFirst(q: seq<Command>, log: nat)
    requires q != []
    ensures Net(q, log) == Delta(q[0], log) + Net(q[1..], log)
    decreases |q|
  {
    var n := |q| - 1;
    if n > 0 {
      NetTakesFirst(q[..n], log);
      assert q[..n][1..] == q[1..][..n - 1];
    }
  }

  function CountOf(preferred: map<nat, PreferredLog>, log: nat): nat {
    if log in preferred then preferred[log].refCnt else 0
  }

  /** What the watchdog will have counted once it has handled the first `n` queued commands. */
  function Level(preferred: map<nat, PreferredLog>, q: seq<Command>, n: nat, log: nat): int
    requires n <= |q|
  {
    CountOf(preferred, log) + Net(q[..n], log)
  }

  /** The count of every log never runs below zero on the way, and ends at the live tokens. */
  ghost predicate Balanced(preferred: map<nat, PreferredLog>, q: seq<Command>, live: multiset<nat>) {
    && (forall log, n :: 0 <= n <= |q| ==> Level(preferred, q, n, log) >= 0)
    && (forall log :: Level(preferred, q, |q|, log) == live[log])
  }

  lemma SendKeepsBalance(preferred: map<nat, PreferredLog>, q: seq<Command>, live: multiset<nat>, c: Command, now: multiset<nat>)
    requires Balanced(preferred, q, live)
    requires forall log :: now[log] == live[log] + Delta(c, log)
    ensures Balanced(preferred, q + [c], now)
  {
    var r := q + [c];
    assert r[..|q|] == q && r[..|r|] == r && q[..|q|] == q;
    forall log, n | 0 <= n <= |r| ensures Level(preferred, r, n, log) >= 0 {
      if n <= |q| {
        assert r[..n] == q[..n] && Level(preferred, q, n, log) >= 0;
      } else {
        assert Level(preferred, q, |q|, log) == live[log] && now[log] >= 0;
      }
    }
    forall log ensures Level(preferred, r, |r|, log) == now[log] { assert Level(preferred, q, |q|, log) == live[log]; }
  }

  /** The first queued release always finds its log listed with a positive count. */
  lemma ReleaseFindsCount(preferred: map<nat, PreferredLog>, q: seq<Command>, live: multiset<nat>)
    requires Balanced(preferred, q, live) && q != [] && q[0].Release?
    ensures CountOf(preferred, q[0].log) >= 1
  {
    assert Level(preferred, q, 1, q[0].log) >= 0;
    assert q[..1][..0] == [];
    assert Net(q[..1], q[0].log) == -1;
  }

  /** Handling the first command moves its effect from the queue into the count. */
  lemma HandleKeepsBalance(preferred: map<nat, PreferredLog>, q: seq<Command>, live: multiset<nat>, now: map<nat, PreferredLog>)
    requires Balanced(preferred, q, live) && q != []
    requires forall log :: CountOf(now, log) == CountOf(preferred, log) + Delta(q[0], log)
    ensures Balanced(now, q[1..], live)
  {
    var r := q[1..];
    forall log, n | 0 <= n <= |r|
      ensures Level(now, r, n, log) == Level(preferred, q, n + 1, log) >= 0
    {
      NetTakesFirst(q[..n + 1], log);
      assert q[..n + 1][1..] == r[..n];
    }
  }

  // ---------------------------------------------------------------- improvement rounds

  /** What one round sees of a log: whether it is due, its tail segment, whether its task has finished,
      whether the configured provider can be asked and would improve it, and whether a task can start. */
  datatype Look = Look(due: bool, tail: Option<(nat, Kind)>, finished: bool, provider: bool, improvable: bool, spawned: bool)

  datatype Verdict = Leave(p: PreferredLog) | Act(p: PreferredLog, segment: nat)

  /** What a round does with one log before acting on it. */
  function Judge(p: PreferredLog, look: Look, configured: Kind): Verdict {
    if !look.due || look.tail.None? then Leave(p)
    else
      var (segment, kind) := look.tail.value;
      if p.inFlight.Some? && p.inFlight.value >= segment then
        Leave(if look.finished then p.(inFlight := None) else p)
      else
        var q := p.(inFlight := None);
        if kind == SealMarker then Leave(q)
        else if kind != configured then Act(q, segment)
        else if look.provider && look.improvable then Act(q, segment)
        else Leave(q)
  }

  /** A third of the preferred logs, rounded up. */
  function Allowed(n: nat): nat { (n + 2) / 3 }

  predicate NoUnfinishedCurrentTask(p: PreferredLog, segment: nat) {
    p.inFlight.None? || p.inFlight.value < segment
  }

  class Watchdog {
    var preferred: map<nat, PreferredLog>
    var pendingTrims: map<nat, Lsn>
    var inbound: seq<Command>
    ghost var live: multiset<nat>

    /** A log is listed exactly when its count is positive, and counts balance with the live tokens. */
    ghost predicate Valid()
      reads this
    {
      && (forall log :: log in preferred ==> preferred[log].refCnt > 0)
      && Balanced(preferred, inbound, live)
    }

    constructor ()
      ensures Valid() && preferred == map[] && inbound == [] && live == multiset{}
    {
      preferred, pendingTrims, inbound, live := map[], map[], [], multiset{};
    }

    /** `PreferenceToken::new` and `clone`. */
    method AcquireToken(log: nat)
      requires Valid()
      modifies this`inbound, this`live
      ensures Valid() && live == old(live) + multiset{log} && inbound == old(inbound) + [Acquire(log)]
    {
      SendKeepsBalance(preferred, inbound, live, Acquire(log), live + multiset{log});
      inbound := inbound + [Acquire(log)];
      live := live + multiset{log};
    }

    /** Dropping a token. */
    method DropToken(log: nat)
      requires Valid() && log in live
      modifies this`inbound, this`live
      ensures Valid() && live == old(live) - multiset{log} && inbound == old(inbound) + [Release(log)]
    {
      SendKeepsBalance(preferred, inbound, live, Release(log), live - multiset{log});
      inbound := inbound + [Release(log)];
      live := live - multiset{log};
    }

    method StoreTrimRequest(log: nat, requested: Lsn)
      modifies this`pendingTrims
      ensures pendingTrims == old(pendingTrims)[log := if log in old(pendingTrims) then Max(old(pendingTrims)[log], requested) else requested]
    {
      if log in pendingTrims {
        if pendingTrims[log] < requested { pendingTrims := pendingTrims[log := requested]; }
      } else {
        pendingTrims := pendingTrims[log := requested];
      }
      assert log in old(pendingTrims) ==> old(pendingTrims)[log := old(pendingTrims)[log]] == old(pendingTrims);
    }

    /** `handle_command` on the next queued command. A release always finds its log listed, so the
        saturating decrement never saturates. */
    method HandleNext()
      requires Valid() && inbound != []
      modifies this`preferred, this`pendingTrims, this`inbound
      ensures Valid() && inbound == old(inbound[1..])
      ensures old(inbound[0]).Release? ==> old(inbound[0]).log in old(preferred)
      ensures forall log :: CountOf(preferred, log) == CountOf(old(preferred), log) + Delta(old(inbound[0]), log)
    {
      var c := inbound[0];
      match c {
      case Acquire(log) =>
        if log in preferred {
          preferred := preferred[log := preferred[log].(refCnt := preferred[log].refCnt + 1)];
        } else {
          preferred := preferred[log := PreferredLog(1, None)];
        }
      case Release(log) =>
        ReleaseFindsCount(preferred, inbound, live);
        if log in preferred {
          var left := if preferred[log].refCnt == 0 then 0 else preferred[log].refCnt - 1;
          if left == 0 {
            preferred := preferred - {log};
          } else {
            preferred := preferred[log := preferred[log].(refCnt := left)];
          }
        }
      case LogTrimmed(log, requested) => StoreTrimRequest(log, requested);
      }
      HandleKeepsBalance(old(preferred), inbound, live, preferred);
      inbound := inbound[1..];
    }

    /** `improve_logs`, over the preferred logs in some order. A round acts on at most a third of them,
        rounded up, and leaves every count as it is. */
    method ImproveLogs(order: seq<nat>, looks: nat -> Look, configured: Kind) returns (actioned: seq<nat>)
      requires Valid() && |order| == |preferred| && forall l :: l in order ==> l in preferred
      requires forall j, k :: 0 <= j < k < |order| ==> order[j] != order[k]
      modifies this`preferred
      ensures Valid() && preferred.Keys == old(preferred.Keys)
      ensures |actioned| <= Allowed(|old(preferred)|)
      ensures forall l :: l in preferred ==> RoundOk(old(preferred)[l], preferred[l], looks(l), l in actioned)
    {
      var now;
      now, actioned := Round(preferred, order, looks, configured);
      SameCounts(preferred, now, inbound, live);
      preferred := now;
    }
  }

  lemma SameCounts(was: map<nat, PreferredLog>, now: map<nat, PreferredLog>, q: seq<Command>, live: multiset<nat>)
    requires Balanced(was, q, live) && was.Keys == now.Keys && forall l :: l in was ==> was[l].refCnt == now[l].refCnt
    ensures Balanced(now, q, live)
  {
    forall log, n | 0 <= n <= |q| ensures Level(now, q, n, log) == Level(was, q, n, log) {}
  }

  /** What a round may do to a log: its count stays, and a task is recorded only by acting on it, for its
      current tail, and only when it has no unfinished task about that tail. */
  predicate RoundOk(was: PreferredLog, now: PreferredLog, look: Look, acted: bool) {
    && now.refCnt == was.refCnt
    && (now.inFlight.Some? && now != was ==>
          && acted && look.due && look.tail.Some? && now.inFlight.value == look.tail.value.0
          && look.tail.value.1 != SealMarker
          && NoUnfinishedCurrentTask(was, look.tail.value.0))
  }

  /** What a round makes of one log, and whether it acts on it. */
  function Treat(p: PreferredLog, look: Look, configured: Kind): (PreferredLog, bool) {
    match Judge(p, look, configured)
    case Leave(q) => (q, false)
    case Act(q, segment) => (if look.spawned then q.(inFlight := Some(segment)) else q, true)
  }

  lemma TreatIsOk(p: PreferredLog, look: Look, configured: Kind)
    ensures RoundOk(p, Treat(p, look, configured).0, look, Treat(p, look, configured).1)
  {
  }

  method Round(preferred: map<nat, PreferredLog>, order: seq<nat>, looks: nat -> Look, configured: Kind)
    returns (now: map<nat, PreferredLog>, actioned: seq<nat>)
    requires |order| == |preferred| && forall l :: l in order ==> l in preferred
    requires forall j, k :: 0 <= j < k < |order| ==> order[j] != order[k]
    ensures now.Keys == preferred.Keys && |actioned| <= Allowed(|preferred|)
    ensures forall l :: l in preferred ==> RoundOk(preferred[l], now[l], looks(l), l in actioned)
  {
    var allowed := Allowed(|preferred|);
    now, actioned := preferred, [];
    var k := 0;
    while k < |order|
      invariant 0 <= k <= |order| && (k < |order| ==> |actioned| < allowed) && |actioned| <= allowed
      invariant now.Keys == preferred.Keys
      invariant forall j :: k <= j < |order| ==> now[order[j]] == preferred[order[j]]
      invariant forall l :: l in preferred ==> RoundOk(preferred[l], now[l], looks(l), l in actioned)
    {
      var l := order[k];
      assert l in order;
      TreatIsOk(preferred[l], looks(l), configured);
      var (p, acted) := Treat(now[l], looks(l), configured);
      if acted { actioned := actioned + [l]; }
      now := now[l := p];
      // stop at a third of the logs, or when no task can be started any more
      if acted && (!looks(l).spawned || |actioned| >= allowed) { break; }
      k := k + 1;
    }
  }

  /** The handle that marks or forgets this node's preference, at most one token at a time. */
  class PreferenceControl {
    const log: nat
    const watchdog: Watchdog
    var held: bool

    constructor (watchdog: Watchdog, log: nat)
      ensures this.log == log && this.watchdog == watchdog && !held
    {
      this.watchdog, this.log, held := watchdog, log, false;
    }

    method MarkAsPreferred()
      requires watchdog.Valid()
      modifies this, watchdog
      ensures watchdog.Valid() && held
      ensures watchdog.live == old(watchdog.live) + if old(held) then multiset{} else multiset{log}
      ensures watchdog.preferred == old(watchdog.preferred)
    {
      if !held {
        watchdog.AcquireToken(log);
        held := true;
      }
    }

    method ForgetPreference()
      requires watchdog.Valid() && (held ==> log in watchdog.live)
      modifies this, watchdog
      ensures watchdog.Valid() && !held
      ensures watchdog.live == old(watchdog.live) - if old(held) then multiset{log} else multiset{}
      ensures watchdog.preferred == old(watchdog.preferred)
    {
      if held {
        watchdog.DropToken(log);
        held := false;
      }
    }
  }
}
