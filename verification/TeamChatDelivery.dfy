/**
 Safety of delivery over every run: any number of bridges and handlers, any clock,
 crashes and failing calls anywhere.

 The proof is rely-guarantee. `Shared` holds of the database, `Local` of one reconciler's
 program counter, and `Evolves` is what any step may do to the database.
 */
module TeamChatDelivery {
  import opened Wrappers
  import opened TeamChatRow
  import opened TeamChatProtocol

  /** A handle that proves a post: it is one of the code's own sentinels, or exactly one post was made. */
  predicate Accounted(db: Db, handle: string) {
    Sentinel(handle) || db.posts == 1
  }

  predicate Shared(db: Db) {
    && (db.row.runId.Some? <==> Linked(db.row))
    && (db.row.runId.Some? ==> db.agent == db.row.runId)
    && (db.cancelled ==> db.agent.Some?)
    && (db.row.handle.Some? ==> Reserved(db.row) && Accounted(db, db.row.handle.value))
    && (db.row.status.Delivered? ==> db.row.handle.Some?)
    && (db.posts > 0 ==> Reserved(db.row))
    && db.posts <= 1
    // The agent marker never sits on a row that the queue has not claimed.
    && (db.row.reason.AgentOwned? ==> db.row.status.Queueing? || Linked(db.row))
    && (db.row.status.Observed? ==> db.kind.Ambient?)
  }

  /** The reconciler that may still post. */
  predicate Token(pc: RPc) {
    pc.DeliverReadHandle? || pc.DeliverSend?
  }

  ghost predicate Local(db: Db, pc: RPc) {
    match pc
    case QueueFindWakeSent(_, run) => db.agent == Some(run)
    case QueueCancelRun(_, run) => db.agent == Some(run)
    case QueueLink(_, run) => db.agent == Some(run)
    case DeliverRead => Linked(db.row)
    case DeliverReserve(_) => Linked(db.row)
    case DeliverReadHandle => Reserved(db.row) && db.posts == 0
    case DeliverSend => Reserved(db.row) && db.posts == 0
    case DeliverStore(handle) => Reserved(db.row) && Accounted(db, handle)
    case DeliverMark(handle) => Linked(db.row) && Accounted(db, handle)
    case RetryMark(_, handle) => Linked(db.row) && Accounted(db, handle) && db.row.handle.Some?
    case _ => true
  }

  function LinkRank(status: Status): nat {
    if status.Running? then 1 else if status.Delivering? then 2 else if status.Delivered? then 3 else 0
  }

  /** What every step of every actor keeps. */
  predicate Evolves(db: Db, db': Db) {
    && db'.kind == db.kind
    && (db.wake ==> db'.wake)
    && (db.agent.Some? ==> db'.agent == db.agent)
    && (db.cancelled ==> db'.cancelled)
    && (!db.report.Unfinished? ==> db'.report == db.report)
    && (Linked(db.row) ==> db'.row.runId == db.row.runId && LinkRank(db.row.status) <= LinkRank(db'.row.status))
    && (db.row.status.Ignored? ==> db'.row.status.Ignored?)
    && (db.row.handle.Some? ==> db'.row.handle.Some?)
    && (!db.row.status.Absent? ==> !db'.row.status.Absent?)
    && db.posts <= db'.posts
  }

  ghost predicate Inv(w: World) {
    && Shared(w.db)
    && (forall b :: b in w.reconcilers ==> Local(w.db, w.reconcilers[b]))
    && (forall b, b' :: b in w.reconcilers && b' in w.reconcilers && Token(w.reconcilers[b]) && Token(w.reconcilers[b']) ==> b == b')
  }

  /** Another actor's step leaves a program point valid, unless it posts under the point's nose. */
  lemma LocalIsStable(db: Db, db': Db, pc: RPc)
    requires Shared(db) && Shared(db') && Evolves(db, db') && Local(db, pc)
    requires Token(pc) ==> db'.posts == db.posts
    ensures Local(db', pc)
  {
  }

  lemma RecoverKeeps(db: Db, inFlight: bool, pc: RPc, c: Choice)
    requires Shared(db) && Local(db, pc) && Recovering(pc)
    ensures var t := Recover(db, inFlight, pc, c);
      Shared(t.db) && Local(t.db, t.pc) && Evolves(db, t.db) && t.db.posts == db.posts && !Token(t.pc)
  {
  }

  lemma EngagementKeeps(db: Db, pc: RPc, c: Choice)
    requires Shared(db) && Local(db, pc) && !Recovering(pc) && !Delivery(pc)
    ensures var t := Engagement(db, pc, c);
      Shared(t.db) && Local(t.db, t.pc) && Evolves(db, t.db) && t.db.posts == db.posts && !Token(t.pc)
  {
    EngagementStaysSound(db, pc, c);
    EngagementEvolves(db, pc, c);
    hide Shared, Local, Evolves;
  }

  lemma EngagementEvolves(db: Db, pc: RPc, c: Choice)
    requires Shared(db) && !Recovering(pc) && !Delivery(pc)
    ensures Evolves(db, Engagement(db, pc, c).db)
  {
  }

  lemma EngagementStaysSound(db: Db, pc: RPc, c: Choice)
    requires Shared(db) && Local(db, pc) && !Recovering(pc) && !Delivery(pc)
    ensures var t := Engagement(db, pc, c); Shared(t.db) && Local(t.db, t.pc)
  {
  }

  lemma PostKeeps(db: Db, pc: RPc, c: Choice)
    requires Shared(db) && Local(db, pc) && Delivery(pc) && !Retrying(pc)
    ensures var t := Post(db, pc, c);
      && Shared(t.db) && Local(t.db, t.pc) && Evolves(db, t.db)
      && (t.db.posts != db.posts ==> Token(pc))
      // The right to post is won from a running row, where nobody can hold it yet.
      && (Token(t.pc) ==> Token(pc) || (db.row.status.Running? && db.posts == 0))
  {
    PostStaysSound(db, pc, c);
    PostEvolves(db, pc, c);
    hide Evolves;
  }

  lemma PostEvolves(db: Db, pc: RPc, c: Choice)
    requires Shared(db) && Local(db, pc) && Delivery(pc) && !Retrying(pc)
    ensures Evolves(db, Post(db, pc, c).db)
  {
  }

  lemma PostStaysSound(db: Db, pc: RPc, c: Choice)
    requires Shared(db) && Local(db, pc) && Delivery(pc) && !Retrying(pc)
    ensures var t := Post(db, pc, c); Shared(t.db) && Local(t.db, t.pc)
  {
  }

  lemma PutBackKeeps(db: Db, pc: RPc, c: Choice)
    requires Shared(db) && Local(db, pc) && Retrying(pc)
    ensures var t := PutBack(db, pc, c);
      Shared(t.db) && Local(t.db, t.pc) && Evolves(db, t.db) && t.db.posts == db.posts && !Token(t.pc)
  {
  }

  lemma DeliverKeeps(db: Db, pc: RPc, c: Choice)
    requires Shared(db) && Local(db, pc) && Delivery(pc)
    ensures var t := Deliver(db, pc, c);
      && Shared(t.db) && Local(t.db, t.pc) && Evolves(db, t.db)
      && (t.db.posts != db.posts ==> Token(pc))
      && (Token(t.pc) ==> Token(pc) || (db.row.status.Running? && db.posts == 0))
  {
    hide Post, PutBack, Shared, Local, Evolves;
    if Retrying(pc) {
      PutBackKeeps(db, pc, c);
    } else {
      PostKeeps(db, pc, c);
    }
  }

  lemma MainKeeps(db: Db, h: Handler, c: Choice)
    requires Shared(db)
    ensures var t := HandleMain(db, h, c); Shared(t.db) && Evolves(db, t.db) && t.db.posts == db.posts
  {
    MainStaysSound(db, h, c);
  }

  lemma MainStaysSound(db: Db, h: Handler, c: Choice)
    requires Shared(db)
    ensures Shared(HandleMain(db, h, c).db)
  {
  }

  lemma WakeKeeps(db: Db, h: Handler, c: Choice)
    requires Shared(db)
    ensures var t := HandleWake(db, h, c); Shared(t.db) && Evolves(db, t.db) && t.db.posts == db.posts
  {
  }

  lemma RenewalKeeps(db: Db, h: Handler, c: Choice)
    requires Shared(db)
    ensures var t := HandleRenewal(db, h, c); Shared(t.db) && Evolves(db, t.db) && t.db.posts == db.posts
  {
  }

  lemma ReconcileKeeps(db: Db, inFlight: bool, pc: RPc, c: Choice)
    requires Shared(db) && Local(db, pc)
    ensures var t := Reconcile(db, inFlight, pc, c);
      && Shared(t.db) && Local(t.db, t.pc) && Evolves(db, t.db)
      && (t.db.posts != db.posts ==> Token(pc))
      && (Token(t.pc) ==> Token(pc) || (db.row.status.Running? && db.posts == 0))
  {
    hide Recover, Engagement, Deliver, Shared, Local, Evolves;
    if Recovering(pc) {
      RecoverKeeps(db, inFlight, pc, c);
    } else if Delivery(pc) {
      DeliverKeeps(db, pc, c);
    } else {
      EngagementKeeps(db, pc, c);
    }
  }

  /** A step that leaves the reconcilers alone and posts nothing keeps the invariant. */
  lemma QuietStepKeeps(w: World, w': World)
    requires Inv(w)
    requires Shared(w'.db) && Evolves(w.db, w'.db) && w'.db.posts == w.db.posts
    requires forall b :: b in w'.reconcilers ==> w'.reconcilers[b] == Boot || (b in w.reconcilers && w'.reconcilers[b] == w.reconcilers[b])
    ensures Inv(w')
  {
    forall b | b in w'.reconcilers
      ensures Local(w'.db, w'.reconcilers[b])
    {
      if w'.reconcilers[b] != Boot {
        LocalIsStable(w.db, w'.db, w.reconcilers[b]);
      }
    }
  }

  lemma ReconcilerStepKeeps(w: World, b: nat, c: Choice)
    requires Inv(w) && b in w.reconcilers
    ensures Inv(Do(w, Reconciler(b, c))) && Evolves(w.db, Do(w, Reconciler(b, c)).db)
  {
    hide Reconcile, Shared, Local, Evolves;
    var w' := Do(w, Reconciler(b, c));
    ReconcileKeeps(w.db, b in w.inFlight, w.reconcilers[b], c);
    forall x | x in w'.reconcilers
      ensures Local(w'.db, w'.reconcilers[x])
      ensures Token(w'.reconcilers[x]) && Token(w'.reconcilers[b]) ==> x == b
    {
      if x != b {
        LocalIsStable(w.db, w'.db, w.reconcilers[x]);
        if w.db.row.status.Running? {
          NoTokenOnARunningRow(w.db, w.reconcilers[x]);
        }
      }
    }
  }

  lemma NoTokenOnARunningRow(db: Db, pc: RPc)
    requires Local(db, pc) && db.row.status.Running?
    ensures !Token(pc)
  {
  }

  lemma HandlerStepKeeps(w: World, h: nat, c: Choice)
    requires Inv(w) && h in w.handlers
    ensures Inv(Do(w, Step(h, c))) && Evolves(w.db, Do(w, Step(h, c)).db)
    ensures Inv(Do(w, StepWake(h, c))) && Evolves(w.db, Do(w, StepWake(h, c)).db)
    ensures Inv(Do(w, Renew(h, c))) && Evolves(w.db, Do(w, Renew(h, c)).db)
  {
    MainKeeps(w.db, w.handlers[h], c);
    QuietStepKeeps(w, Do(w, Step(h, c)));
    WakeKeeps(w.db, w.handlers[h], c);
    QuietStepKeeps(w, Do(w, StepWake(h, c)));
    RenewalKeeps(w.db, w.handlers[h], c);
    QuietStepKeeps(w, Do(w, Renew(h, c)));
  }

  /** Time, arrivals, and bridges that come and go. */
  lemma EnvironmentKeeps(w: World, a: Action)
    requires Inv(w) && !a.Reconciler? && !a.Step? && !a.StepWake? && !a.Renew?
    ensures Inv(Do(w, a)) && Evolves(w.db, Do(w, a).db)
  {
    EnvironmentStaysSound(w, a);
    hide Shared, Local, Evolves;
    QuietStepKeeps(w, Do(w, a));
  }

  lemma EnvironmentStaysSound(w: World, a: Action)
    requires Shared(w.db) && !a.Reconciler? && !a.Step? && !a.StepWake? && !a.Renew?
    ensures Shared(Do(w, a).db) && Evolves(w.db, Do(w, a).db) && Do(w, a).db.posts == w.db.posts
  {
  }

  lemma EvolvesIsReflexive(db: Db)
    ensures Evolves(db, db)
  {
  }

  lemma StepKeeps(w: World, a: Action)
    requires Inv(w)
    ensures Inv(Do(w, a)) && Evolves(w.db, Do(w, a).db)
  {
    hide Inv, Evolves, Reconcile, HandleMain, HandleWake, HandleRenewal;
    EvolvesIsReflexive(w.db);
    match a
    case Reconciler(b, c) =>
      if b in w.reconcilers {
        ReconcilerStepKeeps(w, b, c);
      }
    case Step(h, c) =>
      if h in w.handlers {
        HandlerStepKeeps(w, h, c);
      }
    case StepWake(h, c) =>
      if h in w.handlers {
        HandlerStepKeeps(w, h, c);
      }
    case Renew(h, c) =>
      if h in w.handlers {
        HandlerStepKeeps(w, h, c);
      }
    case _ =>
      EnvironmentKeeps(w, a);
  }

  lemma {:induction false} RunKeeps(kind: Kind, actions: seq<Action>)
    ensures Inv(Run(Initial(kind), actions))
    decreases |actions|
  {
    if actions != [] {
      var before := actions[..|actions| - 1];
      RunKeeps(kind, before);
      StepKeeps(Run(Initial(kind), before), actions[|actions| - 1]);
    }
  }

  /** Completion and failure together post at most once, and a real handle proves exactly one post. */
  lemma AtMostOnePost(kind: Kind, actions: seq<Action>)
    ensures var db := Run(Initial(kind), actions).db;
      && db.posts <= 1
      && (db.row.status.Delivered? ==> db.row.handle.Some?)
      && (db.row.status.Delivered? && !Sentinel(db.row.handle.value) ==> db.posts == 1)
  {
    RunKeeps(kind, actions);
  }

  /** The linked run is there exactly from running onwards, and it is the run of the agent nonce. */
  lemma RunIdExactlyWhenLinked(kind: Kind, actions: seq<Action>)
    ensures var db := Run(Initial(kind), actions).db;
      && (db.row.runId.Some? <==> Linked(db.row))
      && (db.row.runId.Some? ==> db.agent == db.row.runId)
  {
    RunKeeps(kind, actions);
  }

  /** Two workers that both believe they hold the queue claim are about to link the same run. */
  lemma ClaimantsLinkTheSameRun(kind: Kind, actions: seq<Action>, b: nat, b': nat)
    requires var w := Run(Initial(kind), actions);
      b in w.reconcilers && b' in w.reconcilers && w.reconcilers[b].QueueLink? && w.reconcilers[b'].QueueLink?
    ensures var w := Run(Initial(kind), actions); w.reconcilers[b].run == w.reconcilers[b'].run
  {
    RunKeeps(kind, actions);
    var w := Run(Initial(kind), actions);
    assert Local(w.db, w.reconcilers[b]) && Local(w.db, w.reconcilers[b']);
  }

  /** No queue, recovery or wake step ever meets the agent marker on a row it could still take over. */
  lemma AgentMarkerOnlyOnClaimedRows(kind: Kind, actions: seq<Action>)
    ensures var row := Run(Initial(kind), actions).db.row;
      row.reason.AgentOwned? ==> !row.status.Deferred? && !row.status.Observed? && !row.status.Received?
  {
    RunKeeps(kind, actions);
  }

  lemma EvolvesIsTransitive(x: Db, y: Db, z: Db)
    requires Evolves(x, y) && Evolves(y, z)
    ensures Evolves(x, z)
  {
  }

  /**
   What a longer run cannot undo: the link to a run and its progress towards delivered,
   an ignored row, a committed wake, and the posts already made.
   */
  lemma {:induction false} ProgressIsPermanent(kind: Kind, earlier: seq<Action>, later: seq<Action>)
    ensures Evolves(Run(Initial(kind), earlier).db, Run(Initial(kind), earlier + later).db)
    decreases |later|
  {
    hide Do, Evolves, Inv;
    if later == [] {
      assert earlier + later == earlier;
      EvolvesIsReflexive(Run(Initial(kind), earlier).db);
    } else {
      var all, last := earlier + later, |later| - 1;
      assert all[..|all| - 1] == earlier + later[..last];
      ProgressIsPermanent(kind, earlier, later[..last]);
      RunKeeps(kind, earlier + later[..last]);
      StepKeeps(Run(Initial(kind), earlier + later[..last]), later[last]);
      EvolvesIsTransitive(Run(Initial(kind), earlier).db, Run(Initial(kind), all[..|all| - 1]).db, Run(Initial(kind), all).db);
    }
  }

  /** Ignored and delivered rows never change status again. */
  lemma FinalStatusesAbsorb(kind: Kind, earlier: seq<Action>, later: seq<Action>)
    ensures var row, row' := Run(Initial(kind), earlier).db.row, Run(Initial(kind), earlier + later).db.row;
      row.status.Ignored? || row.status.Delivered? ==> row'.status == row.status && row'.runId == row.runId
  {
    ProgressIsPermanent(kind, earlier, later);
    RunKeeps(kind, earlier);
    RunKeeps(kind, earlier + later);
  }
}
