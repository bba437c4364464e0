/** What each field of the lease service depends on, read from the outside: which steps end a lease and which grant
    one, who becomes the agent and who ceases to be, when a child is recorded, counted and started again. */
module LeaseChanges {
  import opened Prelude
  import opened Lease

  // ---- the lease ----

  /** What ends a lease: its own connection, a missed heartbeat of its own generation, or the service's end. */
  predicate Ends(held: Grant, step: Step) {
    match step
    case DoRelease(connection) => connection == held.connection
    case DoSweep(generation, expired) => generation == held.generation && expired
    case DoShutdown => true
    case _ => false
  }

  /** Who is granted the lease: an acquire of an agent that is not answering, or one that waited for its turn. */
  predicate Begins(h: Hold, step: Step) {
    && h.lease.None? && !h.stopping
    && ((step.DoAcquire? && !h.lifecycle.Failed? && !h.lifecycle.Working?) || step.DoAcquireAgain?)
  }

  /**
    A held lease changes in a step if and only if that step ends it, and then
    it is gone. Unless the service stops too, the terminal's agent goes with
    it and a thread is left to start the child. A heartbeat that is not missed
    changes nothing at all.
  */
  lemma LeaseEndsIff(h: Hold, step: Step)
    requires Safe(h) && Enabled(h, step) && h.lease.Some?
    ensures var next := Perform(h, step);
      && (next.lease != h.lease <==> Ends(h.lease.value, step))
      && (Ends(h.lease.value, step) ==> next.lease.None? && next.leaseGeneration == h.leaseGeneration)
      && (Ends(h.lease.value, step) && !step.DoShutdown? ==>
            next.agent.None? && next.lifecycle.Starting? && next.starters == h.starters + 1)
      && (step == DoSweep(h.lease.value.generation, false) ==> next == h)
  {
  }

  /** A free lease is granted in exactly these steps: to their connection, under a new generation, with nobody in. */
  lemma LeaseBeginsIff(h: Hold, step: Step)
    requires Enabled(h, step) && h.lease.None?
    ensures var next := Perform(h, step);
      && (next.lease.Some? <==> Begins(h, step))
      && (Begins(h, step) ==>
            && next.lease == Some(Grant(step.connection, h.leaseGeneration + 1))
            && next.leaseGeneration == h.leaseGeneration + 1
            && next.agent.None? && next.process.None? && next.lifecycle.Starting?
            && next.processGeneration == h.processGeneration + 1
            && (if h.process.Some? then next.retiring == Some(Retiring(step.connection, h.process.value))
                else next.retiring == h.retiring && next.leaseGeneration in next.watched))
  {
  }

  /** What the connection is told is what is so. */
  lemma AcquireAnswers(h: Hold, connection: nat, abortWorking: bool, sent: bool, g: nat)
    requires Safe(h)
    ensures var (next, answer) := Acquire(h, connection, abortWorking, sent);
      && (answer == Held(g) <==> h.lease == Some(Grant(connection, g)))
      && (answer == Granted(g) <==> h.lease.None? && next.lease == Some(Grant(connection, g)))
      && (answer.Waits? <==> h.lease.None? && !h.stopping && h.lifecycle.Working? && abortWorking)
      && (answer.Waits? ==> connection in next.waiting)
      && (answer.Refused? || answer.Held? ==> next == h)
    ensures connection in h.waiting ==>
      var (next, answer) := AcquireAgain(h, connection);
      && (answer == Granted(g) <==> h.lease.None? && next.lease == Some(Grant(connection, g)))
      && (answer.Granted? || answer.Refused?) && connection !in next.waiting
  {
  }

  /** Over every run: a lease is still held, as it was granted, if and only if nothing has ended it. */
  lemma {:induction false} HeldUntilEnded(h: Hold, steps: seq<Step>)
    requires Safe(h) && AllEnabled(h, steps) && h.lease.Some?
    ensures Run(h, steps).lease == h.lease <==> forall s :: s in steps ==> !Ends(h.lease.value, s)
    decreases |steps|
  {
    hide Safe, Perform, Enabled;
    if steps != [] {
      var held, next := h.lease.value, Perform(h, steps[0]);
      StepSafe(h, steps[0]);
      LeaseEndsIff(h, steps[0]);
      assert steps[0] in steps;
      if Ends(held, steps[0]) {
        Superseded(h);
        PastNeverAdmitted(next, steps[1..], held.generation, 0);
      } else {
        HeldUntilEnded(next, steps[1..]);
        assert forall s :: s in steps <==> s == steps[0] || s in steps[1..];
      }
    }
  }

  lemma Superseded(h: Hold)
    requires Safe(h) && h.lease.Some?
    ensures h.lease.value.generation == h.leaseGeneration
  {
  }

  /** In every state of every run somebody looks after a held lease: its heartbeat thread, or the acquire still
      stopping the child, after which the heartbeat thread runs. */
  ghost predicate LookedAfter(h: Hold) {
    h.lease.Some? ==>
      h.lease.value.generation in h.watched
      || (h.retiring.Some? && h.retiring.value.connection == h.lease.value.connection)
  }

  lemma StepLookedAfter(h: Hold, step: Step)
    requires Safe(h) && Enabled(h, step) && LookedAfter(h)
    ensures LookedAfter(Perform(h, step))
  {
  }

  lemma {:induction false} RunLookedAfter(h: Hold, steps: seq<Step>)
    requires Safe(h) && LookedAfter(h) && AllEnabled(h, steps)
    ensures Safe(Run(h, steps)) && LookedAfter(Run(h, steps))
    decreases |steps|
  {
    hide Perform, Safe, LookedAfter;
    if steps != [] {
      StepSafe(h, steps[0]);
      StepLookedAfter(h, steps[0]);
      RunLookedAfter(Perform(h, steps[0]), steps[1..]);
    }
  }

  /**
    So a terminal that stops answering is always found out: at any time of any
    run, a missed heartbeat can be noticed at once, or as soon as the child is
    down, and noticing it ends the lease.
  */
  lemma DeadHolderIsFound(steps: seq<Step>)
    requires AllEnabled(AT_REST, steps) && Run(AT_REST, steps).lease.Some?
    ensures var h := Run(AT_REST, steps);
      var miss := DoSweep(h.lease.value.generation, true);
      || (Enabled(h, miss) && Perform(h, miss).lease.None?)
      || (Enabled(h, DoChildStopped) &&
          var down := Perform(h, DoChildStopped);
          down.lease == h.lease && Enabled(down, miss) && Perform(down, miss).lease.None?)
  {
    RunLookedAfter(AT_REST, steps);
  }

  // ---- the agent ----

  /** What takes the agent's connection away. */
  predicate Parts(h: Hold, step: Step) {
    || (h.agent.Some? && step == DoUnregister(h.agent.value.connection))
    || step.DoSendFails?
    || (h.lease.Some? && Ends(h.lease.value, step) && !step.DoShutdown?)
    || Begins(h, step)
    || (step.DoAcquire? && step.abortWorking && !step.sent
        && h.lease.None? && !h.stopping && h.lifecycle.Working?)
  }

  /** A hello is admitted while there is no agent: under the live lease it must name it, without one it names none. */
  predicate Joins(h: Hold, step: Step) {
    && step.DoAdmit? && h.agent.None?
    && step.lease == (if h.lease.Some? then Some(h.lease.value.generation) else None)
  }

  /** The agent comes and goes in exactly these steps, and is never replaced while it is there. */
  lemma AgentChangesIff(h: Hold, step: Step)
    requires Safe(h) && Enabled(h, step)
    ensures var next := Perform(h, step);
      && (Parts(h, step) ==> next.agent.None?)
      && (Joins(h, step) ==>
            next.agent == Some(Agent(step.connection, step.lease)) && (step.lease.Some? ==> next.lifecycle.Idle?))
      && (!Parts(h, step) && !Joins(h, step) ==> next.agent == h.agent)
  {
    if h.lease.Some? {
      LeaseEndsIff(h, step);
    } else {
      LeaseBeginsIff(h, step);
    }
  }

  // ---- the child ----

  /** A start that may record a child and cannot. */
  predicate StartFails(h: Hold, step: Step) {
    step == DoStartAgent(false) && !h.stopping && h.process.None? && h.lease.None?
  }

  /**
    A child is recorded in exactly the starts that find none recorded and no
    lease, under the next generation; it leaves the record in exactly a grant,
    its own exit, or the service's end. Child generations advance at every start
    that may record one, and at every grant, so that older exits are stale.
  */
  lemma ChildChangesIff(h: Hold, step: Step)
    requires Safe(h) && Enabled(h, step)
    ensures var next := Perform(h, step);
      if Records(h, step) then
        && next.process == Some(h.processGeneration + 1) && next.processGeneration == h.processGeneration + 1
        && next.lifecycle.Starting? && next.failures == h.failures
      else if Begins(h, step) || step.DoShutdown?
              || (h.process.Some? && step == DoAgentEnded(h.process.value)) then
        next.process.None?
      else next.process == h.process
    ensures Perform(h, step).processGeneration
         == h.processGeneration + if Records(h, step) || StartFails(h, step) || Begins(h, step) then 1 else 0
  {
    if h.lease.None? {
      LeaseBeginsIff(h, step);
    } else {
      LeaseEndsIff(h, step);
    }
  }

  /**
    The service gives up on its child by itself in exactly two cases: it could
    not start one, or this exit is the third since the last child that had been
    healthy. After any other reported exit it starts a child again.
  */
  lemma GivesUpIff(h: Hold, step: Step)
    requires Safe(h) && Enabled(h, step) && !h.lifecycle.Failed? && !step.DoEvent?
    ensures var next := Perform(h, step);
      && (next.lifecycle.Failed? <==>
            StartFails(h, step) || (step.DoAgentReaped? && !step.healthy && h.failures + 1 >= 3))
      && (next.failures != h.failures ==> step.DoAgentReaped? || StartFails(h, step))
      && (StartFails(h, step) ==> next.failures == h.failures + 1)
      && (step.DoAgentReaped? ==> next.failures == if step.healthy then 1 else h.failures + 1)
      && (step.DoAgentReaped? && !next.lifecycle.Failed? ==>
            next.lifecycle.Starting? && next.starters == h.starters + 1)
  {
  }

  /** A start is owed after exactly a lease that ended and an exit that did not end it all; each start pays one. */
  lemma StartsOwed(h: Hold, step: Step)
    requires Safe(h) && Enabled(h, step)
    ensures var next := Perform(h, step);
      next.starters ==
        if step.DoStartAgent? then h.starters - 1
        else if (h.lease.Some? && Ends(h.lease.value, step) && !step.DoShutdown?)
                || (step.DoAgentReaped? && next.failures < 3) then h.starters + 1
        else h.starters
  {
  }

  /** Every child that was started reports its exit once, in two halves if it was the recorded one. */
  lemma ExitsReported(h: Hold, step: Step, child: nat)
    requires Safe(h) && Enabled(h, step)
    ensures var next := Perform(h, step);
      && (child in next.readers <==>
            step != DoAgentEnded(child)
            && (child in h.readers || (Records(h, step) && child == h.processGeneration + 1)))
      && (child in next.exiting <==>
            !(step.DoAgentReaped? && step.child == child)
            && (child in h.exiting
                || (step == DoAgentEnded(child) && !h.stopping && child == h.processGeneration)))
  {
  }

  /** Who waits for the open turn, and whose heartbeats are watched: from a grant, or from when its child is down,
      until the check that finds the lease over or ends it. */
  lemma ThreadsKept(h: Hold, step: Step, connection: nat, g: nat)
    requires Safe(h) && Enabled(h, step)
    ensures var next := Perform(h, step);
      && (connection in next.waiting <==>
            || (connection in h.waiting && step != DoAcquireAgain(connection))
            || (step.DoAcquire? && step.connection == connection && step.abortWorking
                && h.lease.None? && !h.stopping && h.lifecycle.Working?))
      && (g in next.watched <==>
            || (g in h.watched
                && !(step.DoSweep? && step.generation == g
                     && (step.expired || h.lease.None? || h.lease.value.generation != g)))
            || (Begins(h, step) && h.process.None? && g == h.leaseGeneration + 1)
            || (step.DoChildStopped? && h.lease.Some? && g == h.lease.value.generation))
      && (if step.DoChildStopped? then next.retiring.None?
          else next.retiring == h.retiring || (Begins(h, step) && h.process.Some?))
  {
  }

  /** What the service shows of its agent, after every step. */
  lemma LifecycleShown(h: Hold, step: Step)
    requires Safe(h) && Enabled(h, step)
    ensures var next := Perform(h, step);
      next.lifecycle ==
        if step.DoEvent? then step.to
        else if step.DoActivity? && !h.lifecycle.Failed? then (if step.working then Working else Idle)
        else if Joins(h, step) && h.lease.Some? then Idle
        else if Records(h, step) || Begins(h, step) then Starting
        else if h.lease.Some? && Ends(h.lease.value, step) && !step.DoShutdown? then Starting
        else if StartFails(h, step) || (step.DoAgentReaped? && next.failures >= 3) then Failed
        else if step.DoAgentReaped? then Starting
        else h.lifecycle
  {
  }
}
