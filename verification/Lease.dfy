/** The terminal lease (host/service/src/service.rs): one agent, held by a managed child or by a terminal. Granting a
    lease and reporting a child's exit both let go of the lock midway, so each is several steps here, and the threads
    that are between two of their steps are part of the state. */
module Lease {
  import opened Prelude

  const MAX_FAILURES: nat := 3

  datatype Lifecycle = Starting | Working | Idle | Failed

  datatype Grant = Grant(connection: nat, generation: nat)

  datatype Agent = Agent(connection: nat, lease: Option<nat>)

  /** A child taken from the record and being stopped for this control connection. */
  datatype Retiring = Retiring(connection: nat, child: nat)

  datatype Hold = Hold(
    lease: Option<Grant>, leaseGeneration: nat,
    process: Option<nat>, processGeneration: nat,
    agent: Option<Agent>, stopping: bool, lifecycle: Lifecycle, failures: nat,
    waiting: set<nat>,             // control connections whose acquire waits for the open turn
    retiring: Option<Retiring>,    // the acquire that is stopping the child
    watched: set<nat>,             // lease generations whose heartbeat thread runs
    readers: set<nat>,             // children whose exit is not reported yet
    exiting: set<nat>,             // children between the halves of their exit report, being reaped
    starters: nat)                 // threads about to start a child

  const AT_REST: Hold := Hold(None, 0, None, 0, None, false, Starting, 0, {}, None, {}, {}, {}, 1)

  // ---- acquiring ----

  datatype Answer = Refused | Held(generation: nat) | Waits | Granted(generation: nat)

  function Granting(h: Hold, connection: nat): Hold {
    var generation := h.leaseGeneration + 1;
    h.(lease := Some(Grant(connection, generation)), leaseGeneration := generation,
       processGeneration := h.processGeneration + 1,
       process := None, agent := None, lifecycle := Starting,
       retiring := if h.process.Some? then Some(Retiring(connection, h.process.value)) else h.retiring,
       watched := if h.process.Some? then h.watched else h.watched + {generation})
  }

  /** `control_lease_acquire` up to its reply, or up to where it lets go of the lock. */
  function Acquire(h: Hold, connection: nat, abortWorking: bool, sent: bool): (Hold, Answer) {
    if h.stopping then (h, Refused)
    else if h.lease.Some? then
      (h, if h.lease.value.connection == connection then Held(h.lease.value.generation) else Refused)
    else if h.lifecycle.Failed? || (h.lifecycle.Working? && !abortWorking) then (h, Refused)
    else if h.lifecycle.Working? then
      (h.(waiting := h.waiting + {connection}, agent := if sent then h.agent else None), Waits)
    else (Granting(h, connection), Granted(h.leaseGeneration + 1))
  }

  /** The rest of it, after the turn settled or the wait ran out. */
  function AcquireAgain(h: Hold, connection: nat): (Hold, Answer)
    requires connection in h.waiting
  {
    var back := h.(waiting := h.waiting - {connection});
    if h.stopping || h.lease.Some? then (back, Refused)
    else (Granting(back, connection), Granted(h.leaseGeneration + 1))
  }

  /** The child is down: the reply goes out and the heartbeat thread starts. */
  function ChildStopped(h: Hold): Hold
    requires h.retiring.Some?
  {
    h.(retiring := None,
       watched := if h.lease.Some? then h.watched + {h.lease.value.generation} else h.watched)
  }

  // ---- ending ----

  function EndLease(h: Hold): Hold
    requires h.lease.Some?
  {
    var ended := h.(lease := None,
                    agent := if h.agent.Some? && h.agent.value.lease == Some(h.lease.value.generation)
                             then None else h.agent);
    if h.stopping then ended else ended.(lifecycle := Starting, starters := h.starters + 1)
  }

  /** `control_lease_release` and `control_disconnected`: only the holder ends it. */
  function Release(h: Hold, connection: nat): Hold {
    if h.lease.Some? && h.lease.value.connection == connection then EndLease(h) else h
  }

  /** One heartbeat check of one generation. */
  function Sweep(h: Hold, generation: nat, expired: bool): Hold {
    if h.lease.None? || h.lease.value.generation != generation then h.(watched := h.watched - {generation})
    else if !expired then h
    else EndLease(h).(watched := h.watched - {generation})
  }

  // ---- the agent connection ----

  predicate MayJoin(h: Hold, lease: Option<nat>) {
    && h.agent.None?
    && match h.lease
       case Some(held) => lease == Some(held.generation)
       case None => lease.None?
  }

  function Admit(h: Hold, connection: nat, lease: Option<nat>): Hold {
    if !MayJoin(h, lease) then h
    else h.(agent := Some(Agent(connection, lease)), lifecycle := if lease.Some? then Idle else h.lifecycle)
  }

  function Unregister(h: Hold, connection: nat): Hold {
    if h.agent.Some? && h.agent.value.connection == connection then h.(agent := None) else h
  }

  // ---- the managed child ----

  function StartAgent(h: Hold, starts: bool): Hold
    requires h.starters > 0
  {
    var g := h.(starters := h.starters - 1);
    if h.stopping || h.process.Some? || h.lease.Some? then g
    else if !starts then
      g.(processGeneration := h.processGeneration + 1, failures := h.failures + 1, lifecycle := Failed)
    else g.(processGeneration := h.processGeneration + 1, process := Some(h.processGeneration + 1),
            readers := h.readers + {h.processGeneration + 1}, lifecycle := Starting)
  }

  /** `agent_ended` until it lets go of the lock to reap the child. */
  function AgentEnded(h: Hold, child: nat): Hold {
    var told := h.(readers := h.readers - {child});
    if h.processGeneration != child then told
    else told.(process := None, exiting := if h.stopping then h.exiting else h.exiting + {child})
  }

  /** The rest of it; the lease may have been granted in between. */
  function AgentReaped(h: Hold, child: nat, healthy: bool): Hold
    requires child in h.exiting
  {
    var failures := (if healthy then 0 else h.failures) + 1;
    var g := h.(exiting := h.exiting - {child}, failures := failures);
    if failures >= MAX_FAILURES then g.(lifecycle := Failed)
    else g.(lifecycle := Starting, starters := h.starters + 1)
  }

  /** `Activity`: the terminal's only way to be counted, unless the service has given up on its agent. */
  function Activity(h: Hold, working: bool): Hold {
    if h.lifecycle.Failed? then h else h.(lifecycle := if working then Working else Idle)
  }

  function Shutdown(h: Hold): Hold {
    h.(stopping := true, lease := None, process := None)
  }

  // ---- steps ----

  datatype Step =
    | DoAcquire(connection: nat, abortWorking: bool, sent: bool)
    | DoAcquireAgain(connection: nat)
    | DoChildStopped
    | DoRelease(connection: nat)
    | DoSweep(generation: nat, expired: bool)
    | DoAdmit(connection: nat, lease: Option<nat>)
    | DoUnregister(connection: nat)
    | DoSendFails
    | DoStartAgent(starts: bool)
    | DoAgentEnded(child: nat)
    | DoAgentReaped(child: nat, healthy: bool)
    | DoActivity(working: bool)
    | DoEvent(to: Lifecycle)
    | DoShutdown

  /** A connection whose request is still being served sends nothing else. */
  predicate Busy(h: Hold, connection: nat) {
    connection in h.waiting || (h.retiring.Some? && h.retiring.value.connection == connection)
  }

  predicate Enabled(h: Hold, step: Step) {
    match step
    case DoAcquire(connection, _, _) => !Busy(h, connection)
    case DoAcquireAgain(connection) => connection in h.waiting
    case DoChildStopped => h.retiring.Some?
    case DoRelease(connection) => !Busy(h, connection)
    case DoSweep(generation, _) => generation in h.watched
    case DoStartAgent(_) => h.starters > 0
    case DoAgentEnded(child) => child in h.readers
    case DoAgentReaped(child, _) => child in h.exiting
    case DoActivity(_) => h.agent.Some?
    case _ => true
  }

  function Perform(h: Hold, step: Step): Hold
    requires Enabled(h, step)
  {
    match step
    case DoAcquire(connection, abortWorking, sent) => Acquire(h, connection, abortWorking, sent).0
    case DoAcquireAgain(connection) => AcquireAgain(h, connection).0
    case DoChildStopped => ChildStopped(h)
    case DoRelease(connection) => Release(h, connection)
    case DoSweep(generation, expired) => Sweep(h, generation, expired)
    case DoAdmit(connection, lease) => Admit(h, connection, lease)
    case DoUnregister(connection) => Unregister(h, connection)
    case DoSendFails => h.(agent := None)
    case DoStartAgent(starts) => StartAgent(h, starts)
    case DoAgentEnded(child) => AgentEnded(h, child)
    case DoAgentReaped(child, healthy) => AgentReaped(h, child, healthy)
    case DoActivity(working) => Activity(h, working)
    case DoEvent(to) => h.(lifecycle := to)
    case DoShutdown => Shutdown(h)
  }

  predicate AllEnabled(h: Hold, steps: seq<Step>)
    decreases |steps|
  {
    steps == [] || (Enabled(h, steps[0]) && AllEnabled(Perform(h, steps[0]), steps[1..]))
  }

  function Run(h: Hold, steps: seq<Step>): Hold
    requires AllEnabled(h, steps)
    decreases |steps|
  {
    if steps == [] then h else Run(Perform(h, steps[0]), steps[1..])
  }

  /** The generations a run grants, in order. */
  function Grants(h: Hold, steps: seq<Step>): seq<nat>
    requires AllEnabled(h, steps)
    decreases |steps|
  {
    if steps == [] then []
    else
      var next := Perform(h, steps[0]);
      (if next.leaseGeneration != h.leaseGeneration then [next.leaseGeneration] else []) + Grants(next, steps[1..])
  }

  // ---- the invariant ----

  /** Who may be the agent, while the service is not stopping. */
  ghost predicate Fenced(h: Hold) {
    match h.lease
    case Some(held) =>
      && held.generation == h.leaseGeneration
      && h.process.None?
      && (h.agent.Some? ==> h.agent.value.lease == Some(held.generation))
    case None => h.agent.Some? ==> h.agent.value.lease.None?
  }

  /** The recorded child is the newest, one being stopped excludes a recorded one, one being reaped is older. */
  ghost predicate OneChild(h: Hold) {
    && (h.process.Some? ==> h.process.value == h.processGeneration)
    && (!h.stopping && h.processGeneration in h.readers ==> h.process.Some?)
    && (forall c :: c in h.exiting ==>
          && c <= h.processGeneration && c !in h.readers
          && (h.process.Some? ==> c < h.process.value)
          && (h.retiring.Some? ==> c < h.retiring.value.child))
    && (forall r :: r in h.readers ==> r <= h.processGeneration)
    && (h.retiring.Some? ==> h.process.None? && h.retiring.value.child < h.processGeneration)
    && (h.retiring.Some? && !h.stopping ==>
          h.lease.Some? && h.lease.value.connection == h.retiring.value.connection
          && h.lease.value.generation !in h.watched)
    && (h.stopping ==> h.lease.None? && h.process.None?)
    && (forall g :: g in h.watched ==> g <= h.leaseGeneration)
  }

  ghost predicate Safe(h: Hold) { OneChild(h) && (!h.stopping ==> Fenced(h)) }

  lemma GrantingSafe(h: Hold, connection: nat)
    requires Safe(h) && !h.stopping && h.lease.None?
    ensures Safe(Granting(h, connection))
  {
  }

  lemma EndingSafe(h: Hold)
    requires Safe(h) && h.lease.Some? && (h.retiring.Some? ==> h.stopping)
    ensures Safe(EndLease(h)) && EndLease(h).watched == h.watched
  {
  }

  lemma ChildSafe(h: Hold, step: Step)
    requires Safe(h) && Enabled(h, step) && (step.DoStartAgent? || step.DoAgentEnded? || step.DoAgentReaped?)
    ensures Safe(Perform(h, step))
  {
  }

  lemma AcquireSafe(h: Hold, connection: nat, abortWorking: bool, sent: bool)
    requires Safe(h)
    ensures Safe(Acquire(h, connection, abortWorking, sent).0)
    ensures connection in h.waiting ==> Safe(AcquireAgain(h, connection).0)
  {
    hide Granting;
    if !h.stopping && h.lease.None? {
      GrantingSafe(h, connection);
      GrantingSafe(h.(waiting := h.waiting - {connection}), connection);
    }
  }

  lemma StepSafe(h: Hold, step: Step)
    requires Safe(h) && Enabled(h, step)
    ensures Safe(Perform(h, step))
  {
    hide Acquire, AcquireAgain, EndLease, StartAgent, AgentEnded, AgentReaped;
    if h.lease.Some? && (h.retiring.Some? ==> h.stopping) {
      EndingSafe(h);
    }
    match step
    case DoAcquire(connection, abortWorking, sent) => AcquireSafe(h, connection, abortWorking, sent);
    case DoAcquireAgain(connection) => AcquireSafe(h, connection, true, true);
    case DoStartAgent(_) => ChildSafe(h, step);
    case DoAgentEnded(_) => ChildSafe(h, step);
    case DoAgentReaped(_, _) => ChildSafe(h, step);
    case _ =>
  }

  lemma {:induction false} RunSafe(h: Hold, steps: seq<Step>)
    requires Safe(h) && AllEnabled(h, steps)
    ensures Safe(Run(h, steps))
    decreases |steps|
  {
    if steps != [] {
      StepSafe(h, steps[0]);
      RunSafe(Perform(h, steps[0]), steps[1..]);
    }
  }

  /**
    Over every interleaving: a lease held at `g` leaves no recorded child and
    no agent but one admitted under `g`; without a lease the agent names none;
    and of all children alive at most one has not reported its exit, the
    newest: it is recorded, or being stopped for a lease.
  */
  lemma LeaseFences(steps: seq<Step>)
    requires AllEnabled(AT_REST, steps)
    ensures var h := Run(AT_REST, steps);
      && (!h.stopping && h.lease.Some? ==>
            h.process.None? && (h.agent.Some? ==> h.agent.value.lease == Some(h.lease.value.generation)))
      && (!h.stopping && h.lease.None? && h.agent.Some? ==> h.agent.value.lease.None?)
      && (forall a, b :: a in Alive(h) && b in Alive(h) && a < b ==> a in h.exiting)
  {
    RunSafe(AT_REST, steps);
  }

  // ---- how many children there are ----

  /** The children that are not known to be gone: recorded, being stopped for a lease, or being reaped. */
  function Alive(h: Hold): set<nat> {
    (if h.process.Some? then {h.process.value} else {})
    + (if h.retiring.Some? then {h.retiring.value.child} else {}) + h.exiting
  }

  /** A start that records a new child. */
  predicate Records(h: Hold, step: Step) {
    step == DoStartAgent(true) && !h.stopping && h.process.None? && h.lease.None?
  }

  /**
    Only a recorded start adds a child, and the children it finds alive are
    exactly those being reaped: two are alive together if and only if a start
    did not wait for an exit.
  */
  lemma OverlapIff(h: Hold, step: Step)
    requires Safe(h) && !h.stopping && Enabled(h, step)
    ensures var next := Perform(h, step);
      && (Records(h, step) <==> !(Alive(next) <= Alive(h)))
      && (Records(h, step) ==> Alive(h) == h.exiting && Alive(next) == h.exiting + {h.processGeneration + 1})
  {
    if Records(h, step) {
      assert h.processGeneration + 1 !in Alive(h);
      assert h.processGeneration + 1 in Alive(Perform(h, step));
    }
  }

  /** It happens: a lease that comes and goes between the halves of an exit lets a start overtake it. */
  const OVERTAKING: seq<Step> :=
    [DoStartAgent(true), DoEvent(Idle), DoAgentEnded(1), DoAcquire(7, false, true), DoRelease(7), DoStartAgent(true)]

  lemma ChildrenOverlap()
    ensures AllEnabled(AT_REST, OVERTAKING) && Alive(Run(AT_REST, OVERTAKING)) == {1, 3}
  {
    hide Perform, AllEnabled, Run;
    var ended := Hold(None, 0, None, 1, None, false, Idle, 0, {}, None, {}, {}, {1}, 0);
    var granted := Hold(Some(Grant(7, 1)), 1, None, 2, None, false, Starting, 0, {}, None, {1}, {}, {1}, 0);
    var started := Hold(None, 1, Some(3), 3, None, false, Starting, 0, {}, None, {1}, {3}, {1}, 0);
    FirstChildEnds(ended);
    SecondChildStarts(ended, granted, started);
    assert OVERTAKING[0..] == OVERTAKING;
  }

  lemma FirstChildEnds(ended: Hold)
    requires ended == Hold(None, 0, None, 1, None, false, Idle, 0, {}, None, {}, {}, {1}, 0)
    ensures AllEnabled(ended, OVERTAKING[3..]) ==>
      AllEnabled(AT_REST, OVERTAKING[0..]) && Run(AT_REST, OVERTAKING[0..]) == Run(ended, OVERTAKING[3..])
  {
    hide AllEnabled, Run;
    var h := Hold(None, 0, Some(1), 1, None, false, Starting, 0, {}, None, {}, {1}, {}, 0);
    OneStep(AT_REST, OVERTAKING, 0);
    assert Perform(AT_REST, OVERTAKING[0]) == h;
    OneStep(h, OVERTAKING, 1);
    OneStep(h.(lifecycle := Idle), OVERTAKING, 2);
    assert Perform(h.(lifecycle := Idle), OVERTAKING[2]) == ended;
  }

  lemma SecondChildStarts(ended: Hold, granted: Hold, started: Hold)
    requires ended == Hold(None, 0, None, 1, None, false, Idle, 0, {}, None, {}, {}, {1}, 0)
    requires granted == Hold(Some(Grant(7, 1)), 1, None, 2, None, false, Starting, 0, {}, None, {1}, {}, {1}, 0)
    requires started == Hold(None, 1, Some(3), 3, None, false, Starting, 0, {}, None, {1}, {3}, {1}, 0)
    ensures AllEnabled(ended, OVERTAKING[3..]) && Run(ended, OVERTAKING[3..]) == started
  {
    hide AllEnabled, Run, Perform, Enabled;
    var released := granted.(lease := None, starters := 1);
    GrantedBetween(ended, granted);
    ReleasedBetween(granted, released);
    StartedBetween(released, started);
    OneStep(ended, OVERTAKING, 3);
    OneStep(granted, OVERTAKING, 4);
    OneStep(released, OVERTAKING, 5);
  }

  lemma GrantedBetween(ended: Hold, granted: Hold)
    requires ended == Hold(None, 0, None, 1, None, false, Idle, 0, {}, None, {}, {}, {1}, 0)
    requires granted == Hold(Some(Grant(7, 1)), 1, None, 2, None, false, Starting, 0, {}, None, {1}, {}, {1}, 0)
    ensures Enabled(ended, OVERTAKING[3]) && Perform(ended, OVERTAKING[3]) == granted
  {
  }

  lemma ReleasedBetween(granted: Hold, released: Hold)
    requires granted == Hold(Some(Grant(7, 1)), 1, None, 2, None, false, Starting, 0, {}, None, {1}, {}, {1}, 0)
    requires released == granted.(lease := None, starters := 1)
    ensures Enabled(granted, OVERTAKING[4]) && Perform(granted, OVERTAKING[4]) == released
  {
  }

  lemma StartedBetween(released: Hold, started: Hold)
    requires released == Hold(None, 1, None, 2, None, false, Starting, 0, {}, None, {1}, {}, {1}, 1)
    requires started == Hold(None, 1, Some(3), 3, None, false, Starting, 0, {}, None, {1}, {3}, {1}, 0)
    ensures Enabled(released, OVERTAKING[5]) && Perform(released, OVERTAKING[5]) == started
  {
  }

  lemma OneStep(h: Hold, steps: seq<Step>, i: nat)
    requires i < |steps| && Enabled(h, steps[i])
    ensures var next := Perform(h, steps[i]);
      && (AllEnabled(h, steps[i..]) <==> AllEnabled(next, steps[i + 1..]))
      && (AllEnabled(next, steps[i + 1..]) ==> Run(h, steps[i..]) == Run(next, steps[i + 1..]))
    ensures i + 1 == |steps| ==> AllEnabled(h, steps[i..]) && Run(h, steps[i..]) == Perform(h, steps[i])
  {
    hide Perform, Enabled;
    assert steps[i..][0] == steps[i] && steps[i..][1..] == steps[i + 1..];
  }

  // ---- generations ----

  lemma StepGrows(h: Hold, step: Step)
    requires Safe(h) && Enabled(h, step)
    ensures var next := Perform(h, step);
      && h.leaseGeneration <= next.leaseGeneration <= h.leaseGeneration + 1
      && h.processGeneration <= next.processGeneration
      && (next.lease.Some? && next.lease != h.lease ==> next.leaseGeneration == h.leaseGeneration + 1)
      && (next.leaseGeneration > h.leaseGeneration ==>
            next.lease.Some? && next.lease.value.generation == next.leaseGeneration)
  {
  }

  /** Strictly increasing, from above `floor`. */
  ghost predicate Increasing(floor: nat, all: seq<nat>) {
    (forall i :: 0 <= i < |all| ==> floor < all[i]) && (forall i, j :: 0 <= i < j < |all| ==> all[i] < all[j])
  }

  lemma Prepended(floor: nat, first: nat, rest: seq<nat>)
    requires floor <= first && Increasing(first, rest)
    ensures Increasing(floor, (if first != floor then [first] else []) + rest)
  {
  }

  /** Every grant of a run is newer than every grant before it. */
  lemma {:induction false} GrantsIncrease(h: Hold, steps: seq<Step>)
    requires Safe(h) && AllEnabled(h, steps)
    ensures Increasing(h.leaseGeneration, Grants(h, steps))
    decreases |steps|
  {
    if steps != [] {
      StepGrows(h, steps[0]);
      StepSafe(h, steps[0]);
      var next := Perform(h, steps[0]);
      GrantsIncrease(next, steps[1..]);
      Prepended(h.leaseGeneration, next.leaseGeneration, Grants(next, steps[1..]));
    }
  }

  /** A generation that was granted and is not the live one. */
  predicate Past(h: Hold, generation: nat) {
    generation <= h.leaseGeneration && (h.lease.None? || h.lease.value.generation != generation)
  }

  /** Once a lease has ended, no hello that names it is ever the agent again. */
  lemma {:induction false} PastNeverAdmitted(h: Hold, steps: seq<Step>, generation: nat, connection: nat)
    requires Safe(h) && AllEnabled(h, steps) && Past(h, generation)
    ensures var later := Run(h, steps);
      && Past(later, generation)
      && Admit(later, connection, Some(generation)) == later
    decreases |steps|
  {
    if steps != [] {
      StepSafe(h, steps[0]);
      StepGrows(h, steps[0]);
      PastNeverAdmitted(Perform(h, steps[0]), steps[1..], generation, connection);
    }
  }

  // ---- exit reports ----

  /** An exit report takes the child it names or none: never one that started later. */
  lemma ExitTakesItsOwn(h: Hold, child: nat)
    requires Safe(h)
    ensures var after := AgentEnded(h, child);
      && (h.process.Some? && after.process.None? ==> h.process == Some(child))
      && (h.process.Some? && h.process.value != child ==> after.process == h.process && after.exiting == h.exiting)
  {
  }

  /** Over a whole run: the report of a child that was replaced changes no recorded child. */
  lemma {:induction false} StaleExitIsIgnored(h: Hold, steps: seq<Step>, child: nat)
    requires Safe(h) && AllEnabled(h, steps) && child < h.processGeneration
    ensures var later := Run(h, steps);
      AgentEnded(later, child) == later.(readers := later.readers - {child})
    decreases |steps|
  {
    if steps != [] {
      StepSafe(h, steps[0]);
      StepGrows(h, steps[0]);
      StaleExitIsIgnored(Perform(h, steps[0]), steps[1..], child);
    }
  }

  /** A terminal that holds the lease is connected and idle at its prompt. */
  predicate IdleTerminal(h: Hold) {
    !h.stopping && h.lease.Some? && h.agent.Some? && h.lifecycle.Idle?
  }

  /** Nothing but halves of exit reports. */
  predicate OnlyExits(steps: seq<Step>) {
    forall s :: s in steps ==> s.DoAgentEnded? || s.DoAgentReaped?
  }

  /** Whatever exit halves are still to come, the terminal is shown as idle. */
  ghost predicate StaysShown(h: Hold) {
    forall steps :: AllEnabled(h, steps) && OnlyExits(steps) ==> Run(h, steps).lifecycle.Idle?
  }

  /** While a lease is held a first half finds no child to take, so no second half can follow it. */
  lemma {:induction false} NoExitsLeft(h: Hold, steps: seq<Step>)
    requires Safe(h) && !h.stopping && h.lease.Some? && h.exiting == {}
    requires AllEnabled(h, steps) && OnlyExits(steps)
    ensures Run(h, steps).lifecycle == h.lifecycle
    decreases |steps|
  {
    if steps != [] {
      StepSafe(h, steps[0]);
      assert steps[0] in steps;
      NoExitsLeft(Perform(h, steps[0]), steps[1..]);
    }
  }

  /**
    The second half of an exit report does not look at the lease. An idle
    terminal stays shown as idle through every exit half still to come if and
    only if no child is between the halves of its report.
  */
  lemma TerminalShownIff(h: Hold)
    requires Safe(h) && IdleTerminal(h)
    ensures StaysShown(h) <==> h.exiting == {}
  {
    if h.exiting == {} {
      forall steps | AllEnabled(h, steps) && OnlyExits(steps) ensures Run(h, steps).lifecycle.Idle? {
        NoExitsLeft(h, steps);
      }
    } else {
      var child :| child in h.exiting;
      LateReportHides(h, child, true);
    }
  }

  /** One late report: starting, or failed for good as far as the terminal can tell. */
  lemma LateReportHides(h: Hold, child: nat, healthy: bool)
    requires child in h.exiting
    ensures var steps := [DoAgentReaped(child, healthy)];
      && AllEnabled(h, steps) && OnlyExits(steps)
      && Run(h, steps).lifecycle == (if !healthy && h.failures + 1 >= MAX_FAILURES then Failed else Starting)
  {
    var steps := [DoAgentReaped(child, healthy)];
    assert steps[0..] == steps;
    OneStep(h, steps, 0);
  }

  /** Once shown as failed, nothing the terminal reports is taken note of. */
  lemma {:induction false} FailedIsDeaf(h: Hold, steps: seq<Step>)
    requires h.lifecycle.Failed? && AllEnabled(h, steps) && forall s :: s in steps ==> s.DoActivity?
    ensures Run(h, steps) == h
    decreases |steps|
  {
    if steps != [] {
      assert steps[0] in steps;
      FailedIsDeaf(h, steps[1..]);
    }
  }

  /**
    The condition can be read off at the grant: if no child was between the
    halves of its report then, none is for as long as that lease lasts.
  */
  lemma {:induction false} SettledForTheLease(h: Hold, steps: seq<Step>)
    requires Safe(h) && !h.stopping && h.lease.Some? && h.exiting == {} && AllEnabled(h, steps)
    ensures var later := Run(h, steps); !later.stopping && later.lease == h.lease ==> later.exiting == {}
    decreases |steps|
  {
    if steps != [] {
      var next := Perform(h, steps[0]);
      StepSafe(h, steps[0]);
      StepGrows(h, steps[0]);
      if next.stopping {
        StoppingStays(next, steps[1..]);
      } else if next.lease == h.lease {
        SettledForTheLease(next, steps[1..]);
      } else {
        PastNeverAdmitted(next, steps[1..], h.lease.value.generation, 0);
      }
    }
  }

  lemma {:induction false} StoppingStays(h: Hold, steps: seq<Step>)
    requires h.stopping && AllEnabled(h, steps)
    ensures Run(h, steps).stopping
    decreases |steps|
  {
    if steps != [] {
      StoppingStays(Perform(h, steps[0]), steps[1..]);
    }
  }

  /**
    Over whole runs: whenever a terminal granted at `h` is idle at its prompt
    under that lease, it stays shown as idle, if no child was between the
    halves of its report at the grant; and in every state it does exactly if
    none is there.
  */
  lemma ShownOverRuns(before: seq<Step>, after: seq<Step>)
    requires AllEnabled(AT_REST, before) && AllEnabled(Run(AT_REST, before), after)
    ensures var h := Run(AT_REST, before);
      var later := Run(h, after);
      && (IdleTerminal(later) ==> (StaysShown(later) <==> later.exiting == {}))
      && (!h.stopping && h.lease.Some? && h.exiting == {} && later.lease == h.lease && IdleTerminal(later) ==>
            StaysShown(later))
  {
    hide StaysShown, Safe;
    RunSafe(AT_REST, before);
    var h := Run(AT_REST, before);
    RunSafe(h, after);
    if IdleTerminal(Run(h, after)) {
      TerminalShownIff(Run(h, after));
    }
    if !h.stopping && h.lease.Some? && h.exiting == {} {
      SettledForTheLease(h, after);
    }
  }
}
