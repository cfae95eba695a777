/** What a delivered row means: what its handle says about the agent run, and what may be posted at all. */
module TeamChatReplies {
  import opened Wrappers
  import opened TeamChatRow
  import opened TeamChatProtocol
  import opened TeamChatDelivery

  /** There is something to post: an ambient event gets a written answer only, a direct one a notice at least. */
  predicate HasReply(db: Db) {
    db.report == Completed(true) || (db.kind.Direct? && !db.report.Unfinished?)
  }

  /** What a handle stands for. */
  predicate Means(db: Db, handle: string) {
    || db.posts == 1
    || handle == UNCONFIRMED
    || (db.kind.Ambient? && db.report == Completed(false) && handle == SILENT)
    || (db.kind.Ambient? && db.report == Failure && handle == SILENT_FAILURE)
  }

  predicate Reasoned(db: Db) {
    && (db.row.handle.Some? ==> Means(db, db.row.handle.value))
    && (db.row.status.Delivering? || db.posts > 0 ==> HasReply(db))
    && (db.row.status.Delivered? ==> !db.report.Unfinished?)
  }

  /** Why the worker is where it is. */
  predicate Reason(db: Db, pc: RPc) {
    match pc
    case DeliverRead => db.report.Completed?
    case DeliverReserve(_) => HasReply(db)
    case DeliverFindPosted(_) => HasReply(db)
    case DeliverGiveUp(_) => HasReply(db)
    case DeliverReadHandle => HasReply(db)
    case DeliverSend => HasReply(db)
    case DeliverStore(_) => HasReply(db) && db.posts == 1
    case DeliverMark(handle) => Means(db, handle) && !db.report.Unfinished?
    case RetryMark(_, handle) => Means(db, handle) && !db.report.Unfinished?
    case _ => true
  }

  ghost predicate AllReasoned(w: World) {
    Reasoned(w.db) && forall b :: b in w.reconcilers ==> Reason(w.db, w.reconcilers[b])
  }

  lemma ReasonIsStable(db: Db, db': Db, pc: RPc)
    requires Shared(db') && Evolves(db, db') && Reason(db, pc)
    ensures Reason(db', pc)
  {
  }

  lemma RecoverReasons(db: Db, marked: bool, pc: RPc, c: Choice)
    requires Shared(db) && Reasoned(db) && Recovering(pc)
    ensures var t := Recover(db, marked, pc, c); Reasoned(t.db) && Reason(t.db, t.pc)
  {
  }

  lemma EngagementReasons(db: Db, pc: RPc, c: Choice)
    requires Shared(db) && Reasoned(db) && !Recovering(pc) && !Delivery(pc)
    ensures var t := Engagement(db, pc, c); Reasoned(t.db) && Reason(t.db, t.pc)
  {
  }

  lemma PostReasons(db: Db, pc: RPc, c: Choice)
    requires Shared(db) && Local(db, pc) && Reasoned(db) && Reason(db, pc) && Delivery(pc) && !Retrying(pc)
    ensures var t := Post(db, pc, c); Reasoned(t.db) && Reason(t.db, t.pc)
  {
  }

  lemma PutBackReasons(db: Db, pc: RPc, c: Choice)
    requires Shared(db) && Local(db, pc) && Reasoned(db) && Reason(db, pc) && Retrying(pc)
    ensures var t := PutBack(db, pc, c); Reasoned(t.db) && Reason(t.db, t.pc)
  {
  }

  lemma TurnReasons(db: Db, marked: bool, pc: RPc, c: Choice)
    requires Shared(db) && Local(db, pc) && Reasoned(db) && Reason(db, pc)
    ensures var t := Reconcile(db, marked, pc, c); Reasoned(t.db) && Reason(t.db, t.pc)
  {
    hide Recover, Engagement, Post, PutBack, Shared, Local, Reasoned, Reason;
    if Recovering(pc) {
      RecoverReasons(db, marked, pc, c);
    } else if !Delivery(pc) {
      EngagementReasons(db, pc, c);
    } else if Retrying(pc) {
      PutBackReasons(db, pc, c);
    } else {
      PostReasons(db, pc, c);
    }
  }

  lemma MainReasons(db: Db, h: Handler, c: Choice)
    requires Shared(db) && Reasoned(db)
    ensures Reasoned(HandleMain(db, h, c).db)
  {
  }

  lemma WakeReasons(db: Db, h: Handler, c: Choice)
    requires Shared(db) && Reasoned(db)
    ensures Reasoned(HandleWake(db, h, c).db) && Reasoned(HandleRenewal(db, h, c).db)
  {
  }

  lemma EnvironmentReasons(w: World, a: Action)
    requires Shared(w.db) && Reasoned(w.db) && !a.Reconciler? && !a.Step? && !a.StepWake? && !a.Renew?
    ensures Reasoned(Do(w, a).db)
  {
  }

  lemma StepReasons(w: World, a: Action)
    requires Inv(w) && AllReasoned(w)
    ensures Reasoned(Do(w, a).db)
  {
    hide Reconcile, HandleMain, HandleWake, HandleRenewal, Shared, Local, Reasoned, Reason;
    match a
    case Reconciler(b, c) => if b in w.reconcilers { TurnReasons(w.db, b in w.inFlight, w.reconcilers[b], c); }
    case Step(h, c) => if h in w.handlers { MainReasons(w.db, w.handlers[h], c); }
    case StepWake(h, c) => if h in w.handlers { WakeReasons(w.db, w.handlers[h], c); }
    case Renew(h, c) => if h in w.handlers { WakeReasons(w.db, w.handlers[h], c); }
    case _ => EnvironmentReasons(w, a);
  }

  lemma StepKeepsReasons(w: World, a: Action)
    requires Inv(w) && AllReasoned(w)
    ensures AllReasoned(Do(w, a))
  {
    hide Reconcile, HandleMain, HandleWake, HandleRenewal, Shared, Local, Evolves, Reasoned;
    StepKeeps(w, a);
    StepReasons(w, a);
    var w' := Do(w, a);
    forall b | b in w'.reconcilers ensures Reason(w'.db, w'.reconcilers[b]) {
      if a.Reconciler? && a.bridge == b {
        TurnReasons(w.db, b in w.inFlight, w.reconcilers[b], a.c);
      } else if w'.reconcilers[b] != Boot {
        ReasonIsStable(w.db, w'.db, w.reconcilers[b]);
      }
    }
  }

  lemma {:induction false} RunReasons(kind: Kind, actions: seq<Action>)
    ensures AllReasoned(Run(Initial(kind), actions))
  {
    if actions != [] {
      RunReasons(kind, actions[..|actions| - 1]);
      RunKeeps(kind, actions[..|actions| - 1]);
      StepKeepsReasons(Run(Initial(kind), actions[..|actions| - 1]), actions[|actions| - 1]);
    }
  }

  /** In every run a delivered row was posted, or its confirmation was lost, or its event is ambient and the run ended
      without an answer or failed, as its handle says. So an answered run is never left in silence. */
  lemma DeliveredMeansWhatItSays(kind: Kind, actions: seq<Action>)
    ensures var db := Run(Initial(kind), actions).db;
      db.row.status.Delivered? ==>
        && !db.report.Unfinished? && db.row.handle.Some?
        && (|| db.posts == 1
            || db.row.handle.value == UNCONFIRMED
            || (db.kind.Ambient? && db.report == Completed(false) && db.row.handle.value == SILENT)
            || (db.kind.Ambient? && db.report == Failure && db.row.handle.value == SILENT_FAILURE))
  {
    RunKeeps(kind, actions);
    RunReasons(kind, actions);
  }

  /** Nothing is posted, or reserved for posting, but the reply of a run that has one. */
  lemma OnlyRepliesArePosted(kind: Kind, actions: seq<Action>)
    ensures var db := Run(Initial(kind), actions).db;
      db.posts > 0 || db.row.status.Delivering? ==> db.report == Completed(true) || (db.kind.Direct? && !db.report.Unfinished?)
  {
    RunReasons(kind, actions);
  }
}
