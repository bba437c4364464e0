/** The circuit breaker bounds proactive turns. Every started turn is counted for the logical run it was dispatched
    for. The breaker learns of it unless a report orphaned the event before the turn started; at most two of the turns
    it learns of repeat a run, so a sequence without such a report starts no run more than three times. */
module DeliveryCircuit {
  import opened Prelude
  import opened BriefingInbox
  import opened BriefingInboxLaws
  import opened BriefingFollows
  import opened ConversationRing
  import opened ConversationLaws
  import opened DeliveryProtocol
  import opened DeliverySlot
  import opened DeliveryHeld
  import opened DeliveryStores
  import opened DeliveryCarries
  import opened DeliveryRuns

  /**
    The turns of one sequence by the run each was dispatched for, those of them
    that were orphaned before they started, the run the active event was
    dispatched for, and whether a report has orphaned it since.
  */
  datatype Tally = Tally(starts: multiset<(string, string)>, orphans: multiset<(string, string)>,
                         granted: Option<(string, string)>, orphaned: bool)
  {
    /** The turns the breaker learned of. */
    function Known(): multiset<(string, string)> { starts - orphans }
  }

  const NO_TURNS: Tally := Tally(multiset{}, multiset{}, None, false)

  /** A turn starts when the active event is first heard of: by its start marker, or by its answer. */
  predicate StartsTurn(p: Protocol, step: Step) {
    && p.active.Some? && !p.started
    && ((step.DoStarted? && p.active == Some(step.event)) || (step.DoAnswer? && p.active == Some(step.event)))
  }

  /**
    A sequence ends when a dispatch that may run finds no row pending, when the
    owner says something that is accepted and leaves the circuit closed, and
    when the process dies.
  */
  predicate EndsSequence(p: Protocol, step: Step, next: Protocol) {
    match step
    case DoDispatch(_, _, _, _) =>
      && p.lifecycle.Idle? && p.surface.None? && p.active.None? && p.agent && !p.circuit
      && forall q :: q in p.inbox.mem.pending ==> !IsPending(p.inbox.mem.rows, q.runId)
    case DoSurfaceMessage(_, _, _, sent, _, _) => p.active.None? && p.agent && sent && !next.circuit
    case DoTerminalTurn(_, _, _, _) => p.agent && !next.circuit
    case DoCrash(_, _, _) => true
    case DoCrashMidAnswer(_, _, _, _, _) => true
    case _ => false
  }

  /** The logical run of the event that holds the slot. */
  function ActiveRun(p: Protocol): Option<(string, string)> {
    if p.active.None? then None else LogicalFor(p.inbox.mem, p.active.value)
  }

  /** The run the event that is active now was dispatched for. */
  function GrantedBy(t: Tally, p: Protocol, next: Protocol): Option<(string, string)> {
    if next.active.None? then None else if next.active == p.active then t.granted else ActiveRun(next)
  }

  function Tallied(t: Tally, p: Protocol, step: Step, next: Protocol): Tally {
    var u := t.(granted := GrantedBy(t, p, next),
                orphaned := next.active.Some? && next.active == p.active && (t.orphaned || Orphaning(p, step)));
    if EndsSequence(p, step, next) then u.(starts := multiset{}, orphans := multiset{})
    else if !StartsTurn(p, step) || t.granted.None? then u
    else
      var turn := multiset{t.granted.value};
      u.(starts := t.starts + turn, orphans := t.orphans + if t.orphaned then turn else multiset{})
  }

  /** The runs that started at least one turn. */
  function Distincts(starts: multiset<(string, string)>): set<(string, string)> { set r | r in starts }

  /** At most two of these turns repeat a run, so none is there more than three times. */
  ghost predicate FewRepeats(turns: multiset<(string, string)>) {
    && |Distincts(turns)| <= |turns| <= |Distincts(turns)| + 2
    && forall r :: turns[r] <= 1 + |turns| - |Distincts(turns)|
  }

  ghost predicate Bounded(p: Protocol, t: Tally) {
    && p.consecutive == |t.starts| && t.orphans <= t.starts
    && FewRepeats(t.Known())
    && (forall r :: r in t.Known() ==> r in p.runs)
    && (t.orphans == multiset{} ==> p.runs == Distincts(t.starts))
    && (t.orphaned ==> p.active.Some?)
  }

  /** What dispatch decided stays true until the turn starts, unless a report intervenes. */
  ghost predicate Decided(p: Protocol, t: Tally) {
    p.active.Some? ==>
      && t.granted.Some?
      && (!t.orphaned ==>
            && Held(p) && ActiveRun(p) == t.granted
            && (!p.started && t.granted.value in t.Known() ==> p.consecutive < MAX_CONSECUTIVE_PROACTIVE_TURNS))
  }

  lemma DistinctsGrow(starts: multiset<(string, string)>, run: (string, string))
    ensures Distincts(starts + multiset{run}) == Distincts(starts) + {run}
    ensures run in starts ==> Distincts(starts) + {run} == Distincts(starts)
  {
  }

  lemma OneMoreKnown(turns: multiset<(string, string)>, run: (string, string))
    requires FewRepeats(turns) && (run in turns ==> |turns| < MAX_CONSECUTIVE_PROACTIVE_TURNS)
    ensures FewRepeats(turns + multiset{run})
  {
    DistinctsGrow(turns, run);
    if run in turns {
      assert Distincts(turns) != {};
    }
  }

  lemma KnownAfter(t: Tally, turn: multiset<(string, string)>)
    requires t.orphans <= t.starts
    ensures (t.starts + turn) - (t.orphans + turn) == t.Known()
    ensures (t.starts + turn) - t.orphans == t.Known() + turn
    ensures t.orphans + turn <= t.starts + turn && t.orphans <= t.starts + turn
    ensures t.orphans + multiset{} == t.orphans && |t.Known()| <= |t.starts|
  {
  }

  lemma StartBounded(p: Protocol, step: Step, next: Protocol, t: Tally)
    requires Bounded(p, t) && Decided(p, t) && StartsTurn(p, step) && Counts(p, step, next)
    requires !EndsSequence(p, step, next)
    ensures Bounded(next, Tallied(t, p, step, next))
  {
    hide FewRepeats, ActiveRun, Held, Orphaning, EndsSequence, StartsTurn, Distincts;
    var run := t.granted.value;
    OrphansOrNone(t, run);
    KnownAfter(t, multiset{run});
    DistinctsGrow(t.starts, run);
    if !t.orphaned {
      OneMoreKnown(t.Known(), run);
    }
  }

  lemma OrphansOrNone(t: Tally, run: (string, string))
    ensures t.orphans + multiset{run} != multiset{}
  {
    assert run in t.orphans + multiset{run};
  }

  /** A step starts the counters afresh, counts one turn for its run, or leaves them. */
  ghost predicate Counts(p: Protocol, step: Step, next: Protocol) {
    if EndsSequence(p, step, next) then next.consecutive == 0 && next.runs == {}
    else if StartsTurn(p, step) then
      && p.active.Some? && !p.started && (next.active == p.active ==> next.started)
      && next.consecutive == p.consecutive + 1
      && next.runs == (if ActiveRun(p).Some? then p.runs + {ActiveRun(p).value} else p.runs)
    else
      && next.consecutive == p.consecutive && next.runs == p.runs
      && (next.active == p.active && p.active.Some? ==> next.started == p.started)
  }

  /** A step that gives the slot to an event: dispatch, for a run that may start a turn. */
  ghost predicate Grants(p: Protocol, next: Protocol) {
    && (p.active.Some? ==> next.active == p.active || next.active.None?)
    && (p.active.None? && next.active.Some? ==>
      && next.consecutive == p.consecutive && next.runs == p.runs
      && ActiveRun(next).Some?
      && (ActiveRun(next).value in p.runs ==> p.consecutive < MAX_CONSECUTIVE_PROACTIVE_TURNS))
  }

  /** While one event keeps the slot and its place in the queue, its logical run is the same. */
  lemma RunIsStable(p: Protocol, step: Step)
    requires Live(p) && Admissible(step)
    ensures var next := DeliveryProtocol.Perform(p, step).next;
      p.active.Some? && next.active == p.active && ActiveRun(p).Some?
          && HasEvent(next.inbox.mem.pending, next.active.value)
      ==> ActiveRun(next) == ActiveRun(p)
  {
    hide DeliveryProtocol.Perform, SlotSound, FilesSound;
    var next := DeliveryProtocol.Perform(p, step).next;
    StepCarries(p, step);
    if p.active.Some? && next.active == p.active && ActiveRun(p).Some?
       && HasEvent(next.inbox.mem.pending, next.active.value) {
      var a, b := p.inbox.mem, next.inbox.mem;
      var q := b.pending[EventAt(b.pending, p.active.value)];
      assert q in b.pending && HasEvent(a.pending, p.active.value);
      WakeFound(a.pending, q);
    }
  }

  lemma DispatchGrants(p: Protocol, reserves: bool, sent: bool, retries: bool, marks: bool)
    requires Sound(p.inbox.mem)
    ensures var next := Dispatch(p, reserves, sent, retries, marks);
      Grants(p, next) && Counts(p, DoDispatch(reserves, sent, retries, marks), next)
  {
    hide QueuedDeliveryFailed;
    var k := NextAt(p.inbox.mem);
    if k < |p.inbox.mem.pending| {
      var q := p.inbox.mem.pending[k];
      assert q in p.inbox.mem.pending;
      WakeFound(p.inbox.mem.pending, q);
      ReserveFollows(p.inbox.mem, q.wake.eventId);
    }
  }

  lemma CloseCounts(q: Protocol, event: string, acks: bool, marks: bool)
    ensures var next := Close(q, event, acks, marks).next;
      && next.consecutive == q.consecutive && next.runs == q.runs
      && (next.active == q.active ==> next.active.None? || next.started == q.started)
      && (next.active == q.active || next.active.None?)
  {
    hide QueuedDeliveryFailed, Acknowledge, DeliveryMessage;
  }

  lemma BeginCounts(p: Protocol, event: string)
    ensures var q := Begin(p, event);
      && q.started && q.inbox == p.inbox && q.active == p.active
      && (p.started ==> q == p)
      && (!p.started ==> q.consecutive == p.consecutive + 1)
      && (!p.started ==>
            q.runs == match LogicalFor(p.inbox.mem, event) case None => p.runs case Some(run) => p.runs + {run})
  {
    hide LogicalFor;
  }

  /** A turn starts at most once and never moves the slot to another event. */
  lemma AnswerCounts(p: Protocol, event: string, message: Message, records: bool, acks: bool, marks: bool)
    requires SlotSound(p)
    ensures var next := Answer(p, event, message, records, acks, marks).next;
      Counts(p, DoAnswer(event, message, records, acks, marks), next) && Grants(p, next)
  {
    hide Begin, Close, RecordDelivery, DeliveryOutcome, Owned, LogicalFor;
    BeginCounts(p, event);
    CloseCounts(Begin(p, event).(replay := RecordDelivery(p.replay, event, message, records)), event, acks, marks);
  }

  lemma SettleCounts(p: Protocol, event: string, closes: bool, retries: bool, marks: bool)
    requires SlotSound(p)
    ensures var next := Settle(p, event, closes, retries, marks).next;
      Counts(p, DoSettle(event, closes, retries, marks), next) && Grants(p, next)
    ensures var next := AgentLeft(p, retries, marks); Counts(p, DoAgentLeft(retries, marks), next) && Grants(p, next)
  {
    hide HandBack, RecoverDelivered, DeliveryMessage, Owned, LogicalFor;
    HandBackCounts(p, event, retries, marks);
    if p.active.Some? {
      HandBackCounts(p.(agent := false, started := false), p.active.value, retries, marks);
    }
  }

  lemma StepCounts(p: Protocol, step: Step)
    requires SlotSane(p)
    ensures var next := DeliveryProtocol.Perform(p, step).next; Counts(p, step, next) && Grants(p, next)
  {
    hide Dispatch, Answer, Settle, AgentLeft, QueuedDeliveryFailed, Upsert, UpsertOutcome, ResumeStopped, Owned, Sound;
    hide Counts, Grants;
    match step
    case DoDispatch(reserves, sent, retries, marks) => DispatchGrants(p, reserves, sent, retries, marks);
    case DoAnswer(event, message, records, acks, marks) => AnswerCounts(p, event, message, records, acks, marks);
    case DoSettle(event, closes, retries, marks) => SettleCounts(p, event, closes, retries, marks);
    case DoAgentLeft(retries, marks) => SettleCounts(p, "", true, retries, marks);
    case _ => OtherCounts(p, step);
  }

  lemma OtherCounts(p: Protocol, step: Step)
    requires !step.DoDispatch? && !step.DoAnswer? && !step.DoSettle? && !step.DoAgentLeft?
    ensures var next := DeliveryProtocol.Perform(p, step).next; Counts(p, step, next) && Grants(p, next)
  {
    hide QueuedDeliveryFailed, Upsert, UpsertOutcome, ResumeStopped, Open, RecoverDelivered, OpenHistory;
    hide RecordDelivery;
  }

  lemma TallyBounded(p: Protocol, step: Step, next: Protocol, t: Tally)
    requires Bounded(p, t) && Decided(p, t) && Counts(p, step, next)
    ensures Bounded(next, Tallied(t, p, step, next))
  {
    hide ActiveRun, FewRepeats, Held, Orphaning, EndsSequence, StartsTurn;
    if StartsTurn(p, step) && !EndsSequence(p, step, next) {
      StartBounded(p, step, next, t);
    }
    NoneIsFew();
  }

  lemma NoneIsFew()
    ensures FewRepeats(multiset{}) && NO_TURNS.Known() == multiset{} && Distincts(multiset{}) == {}
  {
    assert Distincts(multiset{}) == {};
  }

  /** A slot that has just been given away is held for a run that may start a turn. */
  lemma NewlyDecided(p: Protocol, step: Step, t: Tally)
    requires Live(p) && Admissible(step) && Bounded(p, t) && p.active.None?
    ensures var next := DeliveryProtocol.Perform(p, step).next; Decided(next, Tallied(t, p, step, next))
  {
    hide DeliveryProtocol.Perform, SlotSound, FilesSound, Sound, FewRepeats, Orphaning, Held, LogicalFor;
    var next := DeliveryProtocol.Perform(p, step).next;
    SlotSanely(p);
    StepCounts(p, step);
    if next.active.Some? {
      StepGrantsHeld(p, step);
    }
  }

  lemma SlotSanely(p: Protocol)
    requires Live(p)
    ensures SlotSane(p) && Sound(p.inbox.mem)
  {
    hide SlotSound, Sound, FilesSound;
  }

  lemma StepGrantsHeld(p: Protocol, step: Step)
    requires Sound(p.inbox.mem) && p.active.None?
    ensures var next := DeliveryProtocol.Perform(p, step).next; next.active.Some? ==> step.DoDispatch? && Held(next)
  {
    hide Dispatch, Sound, QueuedDeliveryFailed, Upsert, UpsertOutcome, ResumeStopped, Open, RecoverDelivered, Held;
    hide OpenHistory, RecordDelivery, HandBack, Close;
    if step.DoDispatch? {
      DispatchHolds(p, step.reserves, step.sent, step.retries, step.marks);
    }
  }

  lemma TallyDecided(p: Protocol, step: Step, t: Tally)
    requires Live(p) && Admissible(step) && Bounded(p, t) && Decided(p, t) && p.active.Some?
    ensures var next := DeliveryProtocol.Perform(p, step).next; Decided(next, Tallied(t, p, step, next))
  {
    hide DeliveryProtocol.Perform, SlotSound, FilesSound, Sound, FewRepeats, Orphaning, LogicalFor, Reserved;
    var next := DeliveryProtocol.Perform(p, step).next;
    SlotSanely(p);
    StepCounts(p, step);
    if !t.orphaned {
      OrphanedIff(p, step);
      RunIsStable(p, step);
    }
    NothingKnown();
  }

  lemma NothingKnown()
    ensures NO_TURNS.Known() == multiset{}
  {
  }

  /** One step keeps the tally exact and both bounds. */
  lemma StepTallied(p: Protocol, step: Step, t: Tally)
    requires Live(p) && Admissible(step) && Bounded(p, t) && Decided(p, t)
    ensures var next := DeliveryProtocol.Perform(p, step).next;
      var u := Tallied(t, p, step, next);
      Live(next) && Bounded(next, u) && Decided(next, u)
  {
    hide DeliveryProtocol.Perform, SlotSane, FilesSound, Bounded, Decided, Tallied, Counts;
    StepSane(p, step);
    StepFiles(p, step);
    StepCounts(p, step);
    TallyBounded(p, step, DeliveryProtocol.Perform(p, step).next, t);
    if p.active.Some? {
      TallyDecided(p, step, t);
    } else {
      NewlyDecided(p, step, t);
    }
  }

  ghost function Count(p: Protocol, t: Tally, steps: seq<Step>): (Protocol, Tally)
    decreases |steps|
  {
    if steps == [] then (p, t)
    else
      var next := DeliveryProtocol.Perform(p, steps[0]).next;
      Count(next, Tallied(t, p, steps[0], next), steps[1..])
  }

  lemma {:induction false} CountBounded(p: Protocol, t: Tally, steps: seq<Step>)
    requires Live(p) && Bounded(p, t) && Decided(p, t)
    requires forall s :: s in steps ==> Admissible(s)
    ensures var (q, u) := Count(p, t, steps); Live(q) && Bounded(q, u) && Decided(q, u)
    decreases |steps|
  {
    hide DeliveryProtocol.Perform, Live, Bounded, Decided, Tallied;
    if steps != [] {
      var next := DeliveryProtocol.Perform(p, steps[0]).next;
      StepTallied(p, steps[0], t);
      CountBounded(next, Tallied(t, p, steps[0], next), steps[1..]);
    }
  }

  // ---- runs in which no report comes between a dispatch and its start ----

  /** No step of this run orphans the active event before its turn has started. */
  ghost predicate Punctual(p: Protocol, steps: seq<Step>)
    decreases |steps|
  {
    steps == [] || (
      && !(Orphaning(p, steps[0]) && !p.started)
      && Punctual(DeliveryProtocol.Perform(p, steps[0]).next, steps[1..]))
  }

  /** Nothing has been orphaned but turns that had started. */
  predicate OnTime(p: Protocol, t: Tally) { t.orphans == multiset{} && (t.orphaned ==> p.started) }

  lemma StepOnTime(p: Protocol, step: Step, t: Tally)
    requires SlotSane(p) && OnTime(p, t) && !(Orphaning(p, step) && !p.started) && (t.orphaned ==> p.active.Some?)
    ensures var next := DeliveryProtocol.Perform(p, step).next; OnTime(next, Tallied(t, p, step, next))
  {
    hide DeliveryProtocol.Perform, SlotSane, ActiveRun;
    StepCounts(p, step);
    OrphaningIsActive(p, step);
    StepIdle(p, step);
  }

  lemma OrphaningIsActive(p: Protocol, step: Step)
    ensures Orphaning(p, step) ==> p.active.Some? && step.DoIngress?
    ensures Orphaning(p, step) ==> DeliveryProtocol.Perform(p, step).next.started == p.started
  {
  }

  /** A reset of the count does not undo a start. */
  lemma StepIdle(p: Protocol, step: Step)
    requires SlotSane(p)
    ensures var next := DeliveryProtocol.Perform(p, step).next;
      p.active.Some? && next.active == p.active && p.started ==> next.started
  {
    hide QueuedDeliveryFailed, Upsert, UpsertOutcome, ResumeStopped, Boot, HalfAnswered, RecordDelivery, Owned, Sound;
    hide LogicalFor, RecoverDelivered, HandBack, AgentLeft;
    match step
    case DoSettle(event, closes, retries, marks) =>
      if p.active.Some? {
        LeavingFrees(p, event, closes, retries, marks);
      }
    case DoAgentLeft(retries, marks) =>
      if p.active.Some? {
        LeavingFrees(p, "", true, retries, marks);
      }
    case DoCrash(opens, loads, recovers) => BootIsFree(p.inbox.disk, p.replay.disk, opens, loads, recovers);
    case DoCrashMidAnswer(event, message, opens, loads, recovers) =>
      var q := HalfAnswered(p, event, message);
      BootIsFree(q.inbox.disk, q.replay.disk, opens, loads, recovers);
    case _ =>
  }

  lemma {:induction false} CountOnTime(p: Protocol, t: Tally, steps: seq<Step>)
    requires Live(p) && Bounded(p, t) && Decided(p, t) && OnTime(p, t)
    requires forall s :: s in steps ==> Admissible(s)
    requires Punctual(p, steps)
    ensures var (q, u) := Count(p, t, steps); OnTime(q, u)
    decreases |steps|
  {
    hide DeliveryProtocol.Perform, SlotSane, FilesSound, Decided, Tallied, OnTime, FewRepeats;
    if steps != [] {
      var next := DeliveryProtocol.Perform(p, steps[0]).next;
      StepTallied(p, steps[0], t);
      StepOnTime(p, steps[0], t);
      CountOnTime(next, Tallied(t, p, steps[0], next), steps[1..]);
    }
  }

  /**
    Within one sequence of a whole run, the turns started are at most the
    distinct runs, two repeats, and the turns orphaned before they started; no
    run starts more than three besides its orphaned ones. If no step orphans
    the active event before its turn starts there are none, and both bounds
    hold outright.
  */
  lemma TurnsAreBounded(inbox: Inbox, replay: seq<Entry>, opens: bool, loads: bool, recovers: bool, steps: seq<Step>)
    requires Snapshot(replay)
    requires forall s :: s in steps ==> Admissible(s)
    ensures var start := Boot(inbox, replay, opens, loads, recovers);
      var (p, t) := Count(start, NO_TURNS, steps);
      && p.consecutive == |t.starts| && t.orphans <= t.starts
      && p.consecutive <= |Distincts(t.starts)| + 2 + |t.orphans|
      && (forall r :: t.starts[r] <= 3 + t.orphans[r])
      && (Punctual(start, steps) ==>
            p.consecutive <= |Distincts(t.starts)| + 2 && forall r :: t.starts[r] <= 3)
  {
    hide Live, DeliveryProtocol.Perform, Boot, Tallied, Decided;
    var start := Boot(inbox, replay, opens, loads, recovers);
    BootLive(inbox, replay, opens, loads, recovers);
    CountBounded(start, NO_TURNS, steps);
    var t := Count(start, NO_TURNS, steps).1;
    KnownTurns(t);
    if Punctual(start, steps) {
      CountOnTime(start, NO_TURNS, steps);
    }
  }

  /**
    The breaker: a dispatch whose writes and send succeed stops delivery if and
    only if it may run, three turns were started since the sequence began, and
    the next run to be dispatched is one the breaker knows to have started one.
  */
  lemma BreakerIff(p: Protocol, t: Tally, retries: bool, marks: bool, k: nat)
    requires Live(p) && Bounded(p, t) && !p.circuit && k < |p.inbox.mem.pending|
    requires IsPending(p.inbox.mem.rows, p.inbox.mem.pending[k].runId)
    requires forall i :: 0 <= i < k ==> !IsPending(p.inbox.mem.rows, p.inbox.mem.pending[i].runId)
    ensures var next := Dispatch(p, true, true, retries, marks);
      var run := RowOf(p.inbox.mem.rows, p.inbox.mem.pending[k].runId).Logical();
      && (next.circuit <==>
            && p.lifecycle.Idle? && p.surface.None? && p.active.None? && p.agent
            && |t.starts| >= 3 && run in p.runs)
      && (t.orphans == multiset{} ==> (run in p.runs <==> run in t.starts))
  {
    hide SlotSound, FilesSound, QueuedDeliveryFailed, FewRepeats, ReassignStore;
    var q := p.inbox.mem.pending[k];
    assert q in p.inbox.mem.pending;
    SoundWakes(p);
    WakeFound(p.inbox.mem.pending, q);
    assert NextAt(p.inbox.mem) == k;
  }

  lemma SoundWakes(p: Protocol)
    requires Live(p)
    ensures DistinctWakes(p.inbox.mem.pending)
  {
  }

  /** Over whole runs: an orderly dispatch stops delivery only in the fourth or a later turn of its sequence. */
  lemma BreakerWaits(inbox: Inbox, replay: seq<Entry>, opens: bool, loads: bool, recovers: bool, steps: seq<Step>,
                     retries: bool, marks: bool)
    requires Snapshot(replay)
    requires forall s :: s in steps ==> Admissible(s)
    ensures var start := Boot(inbox, replay, opens, loads, recovers);
      var (p, t) := Count(start, NO_TURNS, steps);
      !p.circuit && Dispatch(p, true, true, retries, marks).circuit ==>
        && |t.starts| >= 3
        && (Punctual(start, steps) ==>
              exists q :: q in p.inbox.mem.pending && IsPending(p.inbox.mem.rows, q.runId)
                          && RowOf(p.inbox.mem.rows, q.runId).Logical() in t.starts)
  {
    hide Live, DeliveryProtocol.Perform, Boot, Tallied, Decided;
    var start := Boot(inbox, replay, opens, loads, recovers);
    BootLive(inbox, replay, opens, loads, recovers);
    CountBounded(start, NO_TURNS, steps);
    var (p, t) := Count(start, NO_TURNS, steps);
    var k := NextAt(p.inbox.mem);
    if k < |p.inbox.mem.pending| && !p.circuit {
      BreakerIff(p, t, retries, marks, k);
      assert p.inbox.mem.pending[k] in p.inbox.mem.pending;
      if Punctual(start, steps) {
        CountOnTime(start, NO_TURNS, steps);
      }
    }
  }

  lemma KnownTurns(t: Tally)
    requires t.orphans <= t.starts && FewRepeats(t.Known())
    ensures |t.starts| == |t.Known()| + |t.orphans| && |Distincts(t.Known())| <= |Distincts(t.starts)|
    ensures forall r :: t.starts[r] == t.Known()[r] + t.orphans[r] && t.Known()[r] <= 3
  {
    assert t.starts == t.Known() + t.orphans;
    Within(Distincts(t.Known()), Distincts(t.starts));
  }

  lemma Within<T>(a: set<T>, b: set<T>)
    requires a <= b
    ensures |a| <= |b|
  {
    assert b == a + (b - a);
  }

  lemma BootLive(inbox: Inbox, replay: seq<Entry>, opens: bool, loads: bool, recovers: bool)
    requires Snapshot(replay)
    ensures var start := Boot(inbox, replay, opens, loads, recovers);
      Live(start) && Bounded(start, NO_TURNS) && Decided(start, NO_TURNS) && OnTime(start, NO_TURNS)
  {
    hide SlotSane, FilesSound, Open, OpenHistory, RecoverDelivered, Snapshot, ActiveRun;
    NoneIsFew();
    BootSane(inbox, replay, opens, loads, recovers);
    BootFiles(inbox, replay, opens, loads, recovers);
  }

  /**
    In every state of every run the slot is held exactly: unless a report has
    orphaned the active event, a row is in progress if and only if it is the
    active event's.
  */
  lemma ReservedExactly(inbox: Inbox, replay: seq<Entry>, opens: bool, loads: bool, recovers: bool, steps: seq<Step>,
                        id: string)
    requires Snapshot(replay)
    requires forall s :: s in steps ==> Admissible(s)
    ensures var (p, t) := Count(Boot(inbox, replay, opens, loads, recovers), NO_TURNS, steps);
      p.active.Some? && !t.orphaned ==>
        && HasEvent(p.inbox.mem.pending, p.active.value)
        && (Reserved(p.inbox.mem, id) <==> id == RunFor(p.inbox.mem.pending, p.active.value))
  {
    hide DeliveryProtocol.Perform, Boot, Tallied, SlotSane, FilesSound, Bounded;
    var start := Boot(inbox, replay, opens, loads, recovers);
    BootLive(inbox, replay, opens, loads, recovers);
    CountBounded(start, NO_TURNS, steps);
    var (p, t) := Count(start, NO_TURNS, steps);
    if p.active.Some? && !t.orphaned {
      HeldIsExact(p, id);
    }
  }
}
