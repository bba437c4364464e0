/**
  The fields of the service's `Inner` that decide who is the agent, and the
  methods that change them. A method that lets go of the lock midway is written
  as two. Threads between two critical sections are ghost fields.
*/
module LeaseService {
  import opened Prelude
  import opened Lease

  class Inner {
    var lease: Option<Grant>
    var leaseGeneration: nat
    var process: Option<nat>
    var processGeneration: nat
    var agent: Option<Agent>
    var stopping: bool
    var lifecycle: Lifecycle
    var failures: nat
    ghost var waiting: set<nat>
    ghost var retiring: Option<Retiring>
    ghost var watched: set<nat>
    ghost var readers: set<nat>
    ghost var exiting: set<nat>
    ghost var starters: nat

    ghost function View(): Hold
      reads this
    {
      Hold(lease, leaseGeneration, process, processGeneration, agent, stopping, lifecycle, failures,
           waiting, retiring, watched, readers, exiting, starters)
    }

    ghost predicate Valid()
      reads this
    {
      Safe(View())
    }

    constructor ()
      ensures Valid() && View() == AT_REST
    {
      lease, leaseGeneration, process, processGeneration := None, 0, None, 0;
      agent, stopping, lifecycle, failures := None, false, Starting, 0;
      waiting, retiring, watched, readers, exiting, starters := {}, None, {}, {}, {}, 1;
    }

    /** The lease is granted: the child leaves the record and the agent is told goodbye. */
    method GrantTo(connection: nat)
      requires Valid() && !stopping && lease.None?
      modifies this
      ensures View() == Granting(old(View()), connection) && Valid()
    {
      GrantingSafe(View(), connection);
      leaseGeneration := leaseGeneration + 1;
      lease := Some(Grant(connection, leaseGeneration));
      processGeneration := processGeneration + 1;
      if process.Some? {
        retiring := Some(Retiring(connection, process.value));
      } else {
        watched := watched + {leaseGeneration};
      }
      process := None;
      agent := None;
      lifecycle := Starting;
    }

    method LeaseAcquire(connection: nat, abortWorking: bool, sent: bool) returns (answer: Answer)
      requires Valid() && Enabled(View(), DoAcquire(connection, abortWorking, sent))
      modifies this
      ensures (View(), answer) == Acquire(old(View()), connection, abortWorking, sent) && Valid()
    {
      StepSafe(View(), DoAcquire(connection, abortWorking, sent));
      if stopping {
        return Refused;
      }
      if lease.Some? {
        return if lease.value.connection == connection then Held(lease.value.generation) else Refused;
      }
      if lifecycle.Failed? {
        return Refused;
      }
      if lifecycle.Working? {
        if !abortWorking {
          return Refused;
        }
        if !sent {
          agent := None;
        }
        waiting := waiting + {connection};
        return Waits;
      }
      GrantTo(connection);
      return Granted(leaseGeneration);
    }

    /** The lock is held again; someone else may have been faster. */
    method LeaseAcquireAgain(connection: nat) returns (answer: Answer)
      requires Valid() && connection in waiting
      modifies this
      ensures (View(), answer) == AcquireAgain(old(View()), connection) && Valid()
    {
      StepSafe(View(), DoAcquireAgain(connection));
      waiting := waiting - {connection};
      if stopping || lease.Some? {
        return Refused;
      }
      GrantTo(connection);
      return Granted(leaseGeneration);
    }

    method EndLease()
      requires Valid() && lease.Some? && (retiring.Some? ==> stopping)
      modifies this
      ensures View() == Lease.EndLease(old(View())) && Valid()
    {
      var held := lease.value;
      lease := None;
      if agent.Some? && agent.value.lease == Some(held.generation) {
        agent := None;
      }
      if stopping {
        return;
      }
      lifecycle := Starting;
      starters := starters + 1;
    }

    /** `control_lease_release`, and what a closed control connection amounts to. */
    method LeaseRelease(connection: nat) returns (released: bool)
      requires Valid() && Enabled(View(), DoRelease(connection))
      modifies this
      ensures View() == Release(old(View()), connection) && Valid()
      ensures released == (old(lease).Some? && old(lease).value.connection == connection)
    {
      if lease.Some? && lease.value.connection == connection {
        EndLease();
        return true;
      }
      return false;
    }

    /** One heartbeat check; true when there is nothing left to watch. */
    method SweepLease(generation: nat, expired: bool) returns (done: bool)
      requires Valid() && generation in watched
      modifies this
      ensures View() == Sweep(old(View()), generation, expired) && Valid()
      ensures done == (generation !in watched)
    {
      StepSafe(View(), DoSweep(generation, expired));
      if lease.None? || lease.value.generation != generation {
        watched := watched - {generation};
        return true;
      }
      if !expired {
        return false;
      }
      EndLease();
      watched := watched - {generation};
      return true;
    }

    method AdmitAgent(connection: nat, named: Option<nat>) returns (admitted: bool)
      requires Valid()
      modifies this
      ensures View() == Admit(old(View()), connection, named) && Valid()
      ensures admitted == MayJoin(old(View()), named)
    {
      StepSafe(View(), DoAdmit(connection, named));
      if lease.Some? {
        if named != Some(lease.value.generation) {
          return false;
        }
      } else if named.Some? {
        return false;
      }
      if agent.Some? {
        return false;
      }
      agent := Some(Agent(connection, named));
      if named.Some? {
        lifecycle := Idle;
      }
      return true;
    }

    method UnregisterAgent(connection: nat)
      requires Valid()
      modifies this
      ensures View() == Unregister(old(View()), connection) && Valid()
    {
      if agent.Some? && agent.value.connection == connection {
        agent := None;
      }
    }

    /** Records a new child, unless one is recorded or a terminal holds the lease. */
    method StartAgent(starts: bool)
      requires Valid() && starters > 0
      modifies this
      ensures View() == Lease.StartAgent(old(View()), starts) && Valid()
    {
      StepSafe(View(), DoStartAgent(starts));
      starters := starters - 1;
      if stopping || process.Some? || lease.Some? {
        return;
      }
      processGeneration := processGeneration + 1;
      if !starts {
        failures := failures + 1;
        lifecycle := Failed;
        return;
      }
      process := Some(processGeneration);
      readers := readers + {processGeneration};
      lifecycle := Starting;
    }

    /** The exit of one child, up to where the lock is released to reap it. */
    method AgentEnded(child: nat) returns (restart: bool)
      requires Valid() && child in readers
      modifies this
      ensures View() == Lease.AgentEnded(old(View()), child) && Valid()
      ensures restart == (old(processGeneration) == child && !old(stopping))
    {
      readers := readers - {child};
      if processGeneration != child {
        return false;
      }
      process := None;
      if stopping {
        return false;
      }
      exiting := exiting + {child};
      return true;
    }

    method AgentReaped(child: nat, healthy: bool) returns (restart: bool)
      requires Valid() && child in exiting
      modifies this
      ensures View() == Lease.AgentReaped(old(View()), child, healthy) && Valid()
      ensures restart == (failures < MAX_FAILURES)
    {
      exiting := exiting - {child};
      if healthy {
        failures := 0;
      }
      failures := failures + 1;
      if failures >= MAX_FAILURES {
        lifecycle := Failed;
        return false;
      }
      lifecycle := Starting;
      starters := starters + 1;
      return true;
    }

    /** What any agent says of itself, unless the service has given up. */
    method Activity(working: bool)
      requires Valid() && agent.Some?
      modifies this
      ensures View() == Lease.Activity(old(View()), working) && Valid()
    {
      if lifecycle == Failed {
        return;
      }
      lifecycle := if working then Working else Idle;
    }

    method Shutdown()
      requires Valid()
      modifies this
      ensures View() == Lease.Shutdown(old(View())) && Valid()
    {
      stopping := true;
      lease := None;
      process := None;
    }
  }
}
