/** Worker registrations and heartbeats, and the choice of a worker for a lease. */
module WorkerRegistry {
  import opened Tables
  import opened JobTables

  const MAX_FUTURE_CLOCK_SKEW: Time := 300_000_000_000

  datatype Event =
    | Registration(worker: Uuid, instance: string, operations: set<string>, maxConcurrency: int, startedAt: Time)
    | Heartbeat(worker: Uuid, instance: string, operations: set<string>, status: WorkerStatus,
                maxConcurrency: int, observedAt: Time)

  /** The upsert made by a registration: only a strictly later start replaces an incarnation. */
  function Register(workers: map<Uuid, Worker>, e: Event): map<Uuid, Worker>
    requires e.Registration?
  {
    if e.worker !in workers then
      workers[e.worker := Worker(e.instance, e.operations, Starting, e.maxConcurrency, e.startedAt, e.startedAt, None, None)]
    else if e.startedAt > workers[e.worker].startedAt then
      workers[e.worker := Worker(e.instance, e.operations, Starting, e.maxConcurrency, e.startedAt, e.startedAt, None,
                                 workers[e.worker].lastAssignedAt)]
    else workers
  }

  /** A heartbeat counts only for the incarnation that sent it, and never goes back in time. */
  function Beat(workers: map<Uuid, Worker>, e: Event, now: Time): map<Uuid, Worker>
    requires e.Heartbeat?
  {
    if e.worker in workers && workers[e.worker].instance == e.instance && workers[e.worker].observedAt <= e.observedAt then
      workers[e.worker := workers[e.worker].(
        operations := e.operations, status := e.status, maxConcurrency := e.maxConcurrency,
        observedAt := e.observedAt, lastHeartbeatAt := Some(now))]
    else workers
  }

  /** One worker message; a timestamp too far in the future is refused. */
  function Receive(workers: map<Uuid, Worker>, e: Event, now: Time): map<Uuid, Worker> {
    match e
    case Registration(_, _, _, _, startedAt) =>
      if startedAt > now + MAX_FUTURE_CLOCK_SKEW then workers else Register(workers, e)
    case Heartbeat(_, _, _, _, _, observedAt) =>
      if observedAt > now + MAX_FUTURE_CLOCK_SKEW then workers else Beat(workers, e, now)
  }

  predicate IsEligible(w: Worker, required: set<string>, cutoff: Time) {
    && (w.status == Ready || w.status == Busy)
    && w.lastHeartbeatAt.Some? && w.lastHeartbeatAt.value >= cutoff
    && required <= w.operations
  }

  predicate HasRoom(workers: map<Uuid, Worker>, attempts: map<Uuid, Attempt>, w: Uuid)
    requires w in workers
  {
    |HeldBy(attempts, w)| < workers[w].maxConcurrency
  }

  /** `ORDER BY last_assigned_at NULLS FIRST, worker_id` */
  predicate AssignedBefore(workers: map<Uuid, Worker>, v: Uuid, w: Uuid)
    requires v in workers && w in workers
  {
    match (workers[v].lastAssignedAt, workers[w].lastAssignedAt)
    case (None, None) => v < w
    case (None, Some(_)) => true
    case (Some(_), None) => false
    case (Some(s), Some(t)) => s < t || (s == t && v < w)
  }

  /** A worker the query can return: eligible and not locked by another transaction. */
  predicate IsCandidate(workers: map<Uuid, Worker>, required: set<string>, cutoff: Time, locked: set<Uuid>, w: Uuid) {
    w in workers && w !in locked && IsEligible(workers[w], required, cutoff)
  }

  /** The worker a lease should go to: the candidate with room that was assigned longest ago. */
  ghost predicate IsChoice(workers: map<Uuid, Worker>, attempts: map<Uuid, Attempt>, required: set<string>,
                           cutoff: Time, locked: set<Uuid>, w: Uuid)
  {
    && IsCandidate(workers, required, cutoff, locked, w) && HasRoom(workers, attempts, w)
    && forall v | v != w && IsCandidate(workers, required, cutoff, locked, v) && HasRoom(workers, attempts, v) ::
         AssignedBefore(workers, w, v)
  }

  ghost function Choose(workers: map<Uuid, Worker>, attempts: map<Uuid, Attempt>, required: set<string>,
                        cutoff: Time, locked: set<Uuid>): Option<Uuid>
  {
    if exists w :: IsChoice(workers, attempts, required, cutoff, locked, w) then
      var w :| IsChoice(workers, attempts, required, cutoff, locked, w);
      Some(w)
    else None
  }

  /** The order is total, so a non-empty set of workers has a first one. */
  lemma FirstExists(workers: map<Uuid, Worker>, s: set<Uuid>) returns (w: Uuid)
    requires s <= workers.Keys && s != {}
    ensures w in s && forall v | v in s && v != w :: AssignedBefore(workers, w, v)
    decreases s
  {
    assert exists x :: x in s;
    var x :| x in s;
    var rest := s - {x};
    if rest == {} {
      assert s == {x};
      w := x;
    } else {
      var y := FirstExists(workers, rest);
      w := if AssignedBefore(workers, x, y) then x else y;
      forall v | v in s && v != w ensures AssignedBefore(workers, w, v) {
        assert v == x || v == y || AssignedBefore(workers, y, v);
      }
    }
  }

  /**
   * The choice fails only when every candidate is full, and otherwise names a worker that is
   * eligible and has room for one more attempt.
   */
  lemma ChooseIsComplete(workers: map<Uuid, Worker>, attempts: map<Uuid, Attempt>, required: set<string>,
                         cutoff: Time, locked: set<Uuid>)
    ensures
      match Choose(workers, attempts, required, cutoff, locked)
      case None =>
        forall w | IsCandidate(workers, required, cutoff, locked, w) :: !HasRoom(workers, attempts, w)
      case Some(w) =>
        && IsCandidate(workers, required, cutoff, locked, w)
        && |HeldBy(attempts, w)| + 1 <= workers[w].maxConcurrency
  {
    var free := set w | w in workers && IsCandidate(workers, required, cutoff, locked, w) && HasRoom(workers, attempts, w);
    if free != {} {
      var w := FirstExists(workers, free);
      assert IsChoice(workers, attempts, required, cutoff, locked, w);
    } else {
      forall w | IsCandidate(workers, required, cutoff, locked, w) ensures !HasRoom(workers, attempts, w) {
        assert w !in free;
      }
    }
  }

  lemma ChoiceIsUnique(workers: map<Uuid, Worker>, attempts: map<Uuid, Attempt>, required: set<string>,
                       cutoff: Time, locked: set<Uuid>, v: Uuid, w: Uuid)
    requires IsChoice(workers, attempts, required, cutoff, locked, v)
    requires IsChoice(workers, attempts, required, cutoff, locked, w)
    ensures v == w
  {
  }

  /** The selection transaction over the registry's rows. */
  class Registry {
    var workers: map<Uuid, Worker>

    constructor ()
      ensures workers == map[]
    {
      workers := map[];
    }

    /** The registry as a transaction finds it. */
    constructor Load(rows: map<Uuid, Worker>)
      ensures workers == rows
    {
      workers := rows;
    }

    method ApplyRegistration(e: Event, now: Time) returns (ok: bool)
      requires e.Registration?
      modifies this
      ensures workers == Receive(old(workers), e, now)
      ensures ok <==> e.startedAt <= now + MAX_FUTURE_CLOCK_SKEW
      ensures forall w | w != e.worker :: w in workers <==> w in old(workers)
      ensures forall w | w in old(workers) && w != e.worker :: workers[w] == old(workers)[w]
      ensures e.worker in old(workers) ==>
        && e.worker in workers
        && (workers[e.worker] != old(workers)[e.worker] ==> e.startedAt > old(workers)[e.worker].startedAt)
        && workers[e.worker].startedAt >= old(workers)[e.worker].startedAt
        && workers[e.worker].lastAssignedAt == old(workers)[e.worker].lastAssignedAt
      ensures ok && (e.worker in old(workers) ==> e.startedAt > old(workers)[e.worker].startedAt) ==>
        && e.worker in workers
        && workers[e.worker].instance == e.instance && workers[e.worker].startedAt == workers[e.worker].observedAt == e.startedAt
        && workers[e.worker].lastHeartbeatAt.None? && workers[e.worker].status == Starting
        && workers[e.worker].operations == e.operations && workers[e.worker].maxConcurrency == e.maxConcurrency
        && (e.worker !in old(workers) ==> workers[e.worker].lastAssignedAt.None?)
    {
      if e.startedAt > now + MAX_FUTURE_CLOCK_SKEW {
        return false;
      }
      if e.worker !in workers {
        workers := workers[e.worker := Worker(e.instance, e.operations, Starting, e.maxConcurrency,
                                              e.startedAt, e.startedAt, None, None)];
      } else {
        var row := workers[e.worker];
        if e.startedAt > row.startedAt {
          row := row.(instance := e.instance, operations := e.operations);
          row := row.(status := Starting, maxConcurrency := e.maxConcurrency);
          row := row.(startedAt := e.startedAt, observedAt := e.startedAt, lastHeartbeatAt := None);
          workers := workers[e.worker := row];
        }
      }
      return true;
    }

    method ApplyHeartbeat(e: Event, now: Time) returns (ok: bool)
      requires e.Heartbeat?
      modifies this
      ensures workers == Receive(old(workers), e, now)
      ensures ok <==> e.observedAt <= now + MAX_FUTURE_CLOCK_SKEW
      ensures workers.Keys == old(workers).Keys
      ensures forall w | w in workers ::
        && workers[w].observedAt >= old(workers)[w].observedAt && workers[w].instance == old(workers)[w].instance
        && workers[w].startedAt == old(workers)[w].startedAt && workers[w].lastAssignedAt == old(workers)[w].lastAssignedAt
        && (workers[w] != old(workers)[w] ==>
              && ok && w == e.worker && e.instance == workers[w].instance && e.observedAt == workers[w].observedAt
              && e.status == workers[w].status && e.operations == workers[w].operations
              && e.maxConcurrency == workers[w].maxConcurrency && workers[w].lastHeartbeatAt == Some(now))
      ensures
        && ok && e.worker in old(workers)
        && old(workers)[e.worker].instance == e.instance && old(workers)[e.worker].observedAt <= e.observedAt ==>
          && workers[e.worker].observedAt == e.observedAt && workers[e.worker].lastHeartbeatAt == Some(now)
          && workers[e.worker].status == e.status && workers[e.worker].operations == e.operations
          && workers[e.worker].maxConcurrency == e.maxConcurrency
    {
      if e.observedAt > now + MAX_FUTURE_CLOCK_SKEW {
        return false;
      }
      if e.worker in workers {
        var row := workers[e.worker];
        if row.instance == e.instance && row.observedAt <= e.observedAt {
          row := row.(operations := e.operations, status := e.status, maxConcurrency := e.maxConcurrency);
          row := row.(observedAt := e.observedAt, lastHeartbeatAt := Some(now));
          workers := workers[e.worker := row];
        }
      }
      return true;
    }

    /** Tries candidates in assignment order, excluding the full ones, until one has room. */
    method SelectForLease(attempts: map<Uuid, Attempt>, required: set<string>, now: Time, ttl: Time, locked: set<Uuid>)
      returns (choice: Option<Uuid>)
      modifies this
      ensures choice == Choose(old(workers), attempts, required, now - ttl, locked)
      ensures match choice
              case None => workers == old(workers)
              case Some(w) =>
                && w in old(workers)
                && workers == old(workers)[w := old(workers)[w].(lastAssignedAt := Some(now))]
    {
      var cutoff := now - ttl;
      ghost var rows := workers;
      var excluded: set<Uuid> := {};
      while true
        invariant workers == rows && excluded <= workers.Keys
        invariant forall w | w in excluded ::
                    IsCandidate(workers, required, cutoff, locked, w) && !HasRoom(workers, attempts, w)
        invariant forall w | w in workers && w !in excluded && IsCandidate(workers, required, cutoff, locked, w) ::
                    forall x | x in excluded :: AssignedBefore(workers, x, w)
        decreases workers.Keys - excluded
      {
        var pool := set w | w in workers && w !in excluded && IsCandidate(workers, required, cutoff, locked, w);
        if pool == {} {
          forall w ensures !IsChoice(workers, attempts, required, cutoff, locked, w) {
            assert w !in pool;
          }
          return None;
        }
        var _ := FirstExists(workers, pool);
        var w :| w in pool && forall v | v in pool && v != w :: AssignedBefore(workers, w, v);
        if |HeldBy(attempts, w)| >= workers[w].maxConcurrency {
          excluded := excluded + {w};
        } else {
          forall v | v != w && IsCandidate(workers, required, cutoff, locked, v) && HasRoom(workers, attempts, v)
            ensures AssignedBefore(workers, w, v)
          {
            assert v in pool;
          }
          assert IsChoice(workers, attempts, required, cutoff, locked, w);
          forall v | IsChoice(workers, attempts, required, cutoff, locked, v) ensures v == w {
            ChoiceIsUnique(workers, attempts, required, cutoff, locked, v, w);
          }
          workers := workers[w := workers[w].(lastAssignedAt := Some(now))];
          return Some(w);
        }
      }
    }
  }
}
