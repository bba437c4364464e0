/** Both files of the service, over every step: the inbox snapshot and the replay snapshot each stay what a restarted
    process would accept and reproduce. */
module DeliveryStores {
  import opened Prelude
  import opened BriefingRows
  import opened BriefingInbox
  import opened BriefingReopenLaws
  import opened ConversationRing
  import opened ConversationLaws
  import opened DeliveryProtocol

  ghost predicate FilesSound(p: Protocol) { StoreSound(p.inbox) && HistorySound(p.replay) }

  lemma StopKeeps(s: Store, marks: bool)
    requires StoreSound(s)
    ensures StoreSound(QueuedDeliveryFailed(s, marks).0)
  {
    hide StoreSound, HistorySound;
    PerformKeeps(s, Op.Stop, marks);
  }

  lemma RetryKeeps(s: Store, event: string, retries: bool)
    requires StoreSound(s)
    ensures StoreSound(ReassignStore(s, event, Pending, retries).0)
  {
    hide StoreSound, HistorySound;
    PerformKeeps(s, Op.Retry(event), retries);
  }

  lemma IngressFiles(p: Protocol, row: Row, wake: Option<Wake>, stores: bool, marks: bool)
    requires FilesSound(p) && row.Counted()
    ensures FilesSound(Ingress(p, row, wake, stores, marks))
  {
    hide StoreSound, HistorySound;
    var said := AlreadySaid(p, row, wake);
    PerformKeeps(p.inbox, Op.Report(row, wake, said), stores);
    StopKeeps(Upsert(p.inbox, row, wake, said, stores), marks);
  }

  lemma DispatchFiles(p: Protocol, reserves: bool, sent: bool, retries: bool, marks: bool)
    requires FilesSound(p)
    ensures FilesSound(Dispatch(p, reserves, sent, retries, marks))
  {
    hide StoreSound, HistorySound, QueuedDeliveryFailed, ReassignStore, NextAt;
    StopKeeps(p.inbox, marks);
    forall event
      ensures StoreSound(ReassignStore(ReassignStore(p.inbox, event, InProgress, true).0, event, Pending, retries).0)
      ensures StoreSound(ReassignStore(p.inbox, event, InProgress, true).0) {
      PerformKeeps(p.inbox, Op.Reserve(event), true);
      RetryKeeps(ReassignStore(p.inbox, event, InProgress, true).0, event, retries);
    }
  }

  lemma AnswerFiles(p: Protocol, event: string, message: Message, records: bool, acks: bool, marks: bool)
    requires FilesSound(p)
    ensures FilesSound(Answer(p, event, message, records, acks, marks).next)
  {
    hide StoreSound, HistorySound, QueuedDeliveryFailed, Acknowledge, RecordDelivery, DeliveryOutcome, DeliveryMessage;
    RecordDeliveryKeeps(p.replay, event, message, records);
    PerformKeeps(p.inbox, Op.Ack(event), acks);
    StopKeeps(p.inbox, marks);
  }

  lemma HandBackFiles(p: Protocol, event: string, retries: bool, marks: bool)
    requires FilesSound(p)
    ensures FilesSound(HandBack(p, event, retries, marks))
  {
    hide StoreSound, HistorySound;
    RetryKeeps(p.inbox, event, retries);
    StopKeeps(p.inbox, marks);
  }

  lemma SettleFiles(p: Protocol, event: string, closes: bool, retries: bool, marks: bool)
    requires FilesSound(p)
    ensures FilesSound(Settle(p, event, closes, retries, marks).next)
  {
    hide StoreSound, HistorySound, RecoverDelivered, HandBack, DeliveryMessage;
    PerformKeeps(p.inbox, Op.Recover({event}), closes);
    HandBackFiles(p, event, retries, marks);
  }

  lemma OwnerTurnFiles(p: Protocol, surface: string, turn: string, text: string, resumes: bool, saves: bool)
    requires FilesSound(p)
    ensures FilesSound(OwnerTurn(p, surface, turn, text, resumes, saves).next)
  {
    hide StoreSound, HistorySound;
    PerformKeeps(p.inbox, Op.Resume, resumes);
    RecordKeeps(p.replay, UserMessage(surface, text), saves);
  }

  lemma ReplyFiles(p: Protocol, turn: Option<string>, text: string, offers: seq<Offer>, present: bool, saves: bool)
    requires FilesSound(p)
    ensures FilesSound(DeliveryProtocol.Reply(p, turn, text, offers, present, saves).next)
  {
    hide StoreSound, HistorySound;
    forall message ensures HistorySound(Record(p.replay, message, saves)) {
      RecordKeeps(p.replay, message, saves);
    }
  }

  /** Any inbox file and any replay the service wrote start a sound process. */
  lemma BootFiles(inbox: Inbox, replay: seq<Entry>, opens: bool, loads: bool, recovers: bool)
    requires Snapshot(replay)
    ensures FilesSound(Boot(inbox, replay, opens, loads, recovers))
    ensures Boot(inbox, replay, opens, loads, recovers).replay == History(OpenRing(replay), replay)
  {
    ReloadsItself(OpenRing(replay), loads);
    SavedIsSound(OpenRing(replay));
    OpenKeeps(inbox, opens);
    PerformKeeps(Open(inbox, opens), Op.Recover(Deliveries(replay)), recovers);
  }

  lemma AgentLeftFiles(p: Protocol, retries: bool, marks: bool)
    requires FilesSound(p)
    ensures FilesSound(AgentLeft(p, retries, marks))
  {
    hide StoreSound, HistorySound, HandBack;
    if p.active.Some? {
      HandBackFiles(p.(agent := false, started := false), p.active.value, retries, marks);
    }
  }

  lemma MessageFiles(p: Protocol, name: string, turn: string, text: string, sent: bool, resumes: bool, saves: bool)
    requires FilesSound(p)
    ensures FilesSound(SurfaceMessage(p, name, turn, text, sent, resumes, saves).next)
    ensures FilesSound(TerminalTurn(p, turn, text, resumes, saves).next)
  {
    hide StoreSound, HistorySound, OwnerTurn;
    OwnerTurnFiles(p, name, turn, text, resumes, saves);
    OwnerTurnFiles(p, TERMINAL_SURFACE, turn, text, resumes, saves);
  }

  lemma CrashFiles(p: Protocol, event: string, message: Message, opens: bool, loads: bool, recovers: bool)
    requires FilesSound(p)
    ensures FilesSound(Boot(p.inbox.disk, p.replay.disk, opens, loads, recovers))
    ensures var q := HalfAnswered(p, event, message);
      FilesSound(Boot(q.inbox.disk, q.replay.disk, opens, loads, recovers))
  {
    hide StoreSound, Boot, RecordDelivery;
    RecordDeliveryKeeps(p.replay, event, message, true);
    BootFiles(p.inbox.disk, p.replay.disk, opens, loads, recovers);
    BootFiles(p.inbox.disk, HalfAnswered(p, event, message).replay.disk, opens, loads, recovers);
  }

  lemma BeginFiles(p: Protocol, event: string)
    ensures Begin(p, event).inbox == p.inbox && Begin(p, event).replay == p.replay
  {
  }

  lemma OfferFiles(p: Protocol, id: string, saves: bool)
    requires FilesSound(p)
    ensures FilesSound(OfferTake(p, id, saves).next)
  {
    hide StoreSound, HistorySound, Take;
    TakeKeepsHistory(p.replay, id, saves);
  }

  /** Every step, whatever its writes do, leaves two files a restart accepts. */
  lemma StepFiles(p: Protocol, step: Step)
    requires FilesSound(p) && Admissible(step)
    ensures FilesSound(DeliveryProtocol.Perform(p, step).next)
  {
    hide StoreSound, HistorySound, Ingress, Dispatch, Answer, Settle, AgentLeft, SurfaceMessage, TerminalTurn;
    hide DeliveryProtocol.Reply, HalfAnswered, Boot, Take, Dismiss, Begin, OfferTake, LogicalFor;
    match step
    case DoIngress(row, wake, stores, marks) => IngressFiles(p, row, wake, stores, marks);
    case DoDispatch(reserves, sent, retries, marks) => DispatchFiles(p, reserves, sent, retries, marks);
    case DoStarted(event) => BeginFiles(p, event);
    case DoAnswer(event, message, records, acks, marks) => AnswerFiles(p, event, message, records, acks, marks);
    case DoSettle(event, closes, retries, marks) => SettleFiles(p, event, closes, retries, marks);
    case DoAgentJoined =>
    case DoAgentLost =>
    case DoAgentLeft(retries, marks) => AgentLeftFiles(p, retries, marks);
    case DoSurfaceMessage(name, turn, text, sent, resumes, saves) =>
      MessageFiles(p, name, turn, text, sent, resumes, saves);
    case DoTerminalTurn(turn, text, resumes, saves) => MessageFiles(p, "", turn, text, true, resumes, saves);
    case DoReply(answers, text, offers, present, saves) => ReplyFiles(p, answers, text, offers, present, saves);
    case DoAbort(sent) =>
    case DoTurnClosed =>
    case DoOfferTake(id, saves) => OfferFiles(p, id, saves);
    case DoDismiss(id, lands) => PerformKeeps(p.inbox, Op.DismissRun(id), lands);
    case DoLifecycle(to) =>
    case DoCrash(opens, loads, recovers) => CrashFiles(p, "", UserMessage("", ""), opens, loads, recovers);
    case DoCrashMidAnswer(event, message, opens, loads, recovers) =>
      CrashFiles(p, event, message, opens, loads, recovers);
  }
}
