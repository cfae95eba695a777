/**
 The stronger promise behind exclusivity: no event gets both a routine wake and an agent run,
 linked to its row or not, unless that run was cancelled again.

 The rules of TeamChatExclusivity are not enough. A process lost between creating the run and
 linking it leaves a run that nobody cancels, beside a row that still can go to a routine.
 */
module TeamChatOrphans {
  import opened Wrappers
  import opened TeamChatRow
  import opened TeamChatProtocol
  import opened TeamChatDelivery
  import opened TeamChatExclusivity
  import opened TeamChatDirect
  import opened TeamChatWitnesses

  // --- the invariant -----------------------------------------------------------------

  /** From the last look for a wake to the link. */
  predicate Committed(pc: RPc) {
    pc.QueueSend? || pc.QueueFindWakeSent? || pc.QueueLink?
  }

  /** There is a run only while it is being linked or once it is; and no wake is there while it is being linked. */
  ghost predicate Cared(w: World) {
    && (w.db.agent.Some? ==> Linked(w.db.row) || exists b :: b in w.reconcilers && Unlinked(w.reconcilers[b]))
    && (forall b :: b in w.reconcilers ==> !w.reconcilers[b].QueueCancelRun? && (Committed(w.reconcilers[b]) ==> !w.db.wake))
  }

  /** Another actor's step that neither takes the row from its run nor creates a run nor commits a wake. */
  lemma QuietKeepsCared(w: World, w': World)
    requires Cared(w) && w'.db.agent == w.db.agent && w'.db.wake == w.db.wake && (Linked(w.db.row) ==> Linked(w'.db.row))
    requires forall b :: b in w'.reconcilers ==> w'.reconcilers[b] == Boot || (b in w.reconcilers && w'.reconcilers[b] == w.reconcilers[b])
    requires forall b :: b in w.reconcilers && Unlinked(w.reconcilers[b]) ==> b in w'.reconcilers && w'.reconcilers[b] == w.reconcilers[b]
    ensures Cared(w')
  {
  }

  /** What one reconciler step does to the run and to the worker's place. */
  predicate TurnCares(db: Db, pc: RPc, t: Turn) {
    && t.db.wake == db.wake
    && !t.pc.QueueCancelRun? && (Committed(t.pc) ==> !t.db.wake)
    && (t.db.agent != db.agent ==> Unlinked(t.pc))
    && (Unlinked(pc) ==> Unlinked(t.pc) || Linked(t.db.row))
  }

  lemma RecoverCares(db: Db, marked: bool, pc: RPc, c: Choice)
    requires Recovering(pc)
    ensures TurnCares(db, pc, Recover(db, marked, pc, c))
  {
  }

  lemma DeliverCares(db: Db, pc: RPc, c: Choice)
    requires Delivery(pc)
    ensures TurnCares(db, pc, Deliver(db, pc, c))
  {
  }

  lemma EngagementCares(db: Db, pc: RPc, c: Choice)
    requires Local(db, pc) && QueueOk(db, pc) && Disciplined(pc, c) && !Recovering(pc) && !Delivery(pc)
    requires !pc.QueueCancelRun? && (Committed(pc) ==> !db.wake)
    ensures TurnCares(db, pc, Engagement(db, pc, c))
  {
  }

  lemma ReconcileCares(db: Db, marked: bool, pc: RPc, c: Choice)
    requires Local(db, pc) && QueueOk(db, pc) && Disciplined(pc, c)
    requires !pc.QueueCancelRun? && (Committed(pc) ==> !db.wake)
    ensures TurnCares(db, pc, Reconcile(db, marked, pc, c))
  {
    hide Recover, Engagement, Deliver;
    if Recovering(pc) {
      RecoverCares(db, marked, pc, c);
    } else if Delivery(pc) {
      DeliverCares(db, pc, c);
    } else {
      EngagementCares(db, pc, c);
    }
  }

  lemma ReconcilerKeepsCared(w: World, b: nat, c: Choice)
    requires Inv(w) && Exclusive(w) && Cared(w) && b in w.reconcilers && Disciplined(w.reconcilers[b], c)
    ensures Cared(Do(w, Reconciler(b, c)))
  {
    var w' := Do(w, Reconciler(b, c));
    ReconcileCares(w.db, b in w.inFlight, w.reconcilers[b], c);
    ReconcileKeeps(w.db, b in w.inFlight, w.reconcilers[b], c);
    assert w'.reconcilers.Keys == w.reconcilers.Keys;
  }

  /** A wake commits only while its handler holds the row, which leaves no room for a run. */
  lemma WakeKeepsCared(w: World, h: nat, c: Choice)
    requires Inv(w) && Exclusive(w) && Cared(w) && h in w.handlers
    ensures Cared(Do(w, StepWake(h, c)))
  {
    var w' := Do(w, StepWake(h, c));
    WakeKeeps(w.db, w.handlers[h], c);
    if w'.db.wake != w.db.wake {
      assert w.handlers[h].wake.Waking? && WakeOk(w.db, w.handlers[h]);
      assert forall b :: b in w.reconcilers ==> QueueOk(w.db, w.reconcilers[b]) && !HoldsClaim(w.reconcilers[b]);
    } else {
      QuietKeepsCared(w, w');
    }
  }

  lemma MainKeepsCared(w: World, h: nat, c: Choice)
    requires Inv(w) && Cared(w) && h in w.handlers
    ensures Cared(Do(w, Step(h, c)))
  {
    MainKeeps(w.db, w.handlers[h], c);
    MainLeavesRuns(w.db, w.handlers[h], c);
    QuietKeepsCared(w, Do(w, Step(h, c)));
  }

  lemma RenewalKeepsCared(w: World, h: nat, c: Choice)
    requires Inv(w) && Cared(w) && h in w.handlers
    ensures Cared(Do(w, Renew(h, c)))
  {
    RenewalKeeps(w.db, w.handlers[h], c);
    QuietKeepsCared(w, Do(w, Renew(h, c)));
  }

  lemma EnvironmentKeepsCared(w: World, a: Action)
    requires Inv(w) && Cared(w) && NoOrphan(w, a) && !a.Reconciler? && !a.Step? && !a.StepWake? && !a.Renew?
    ensures Cared(Do(w, a))
  {
    QuietKeepsCared(w, Do(w, a));
  }

  lemma StepKeepsCared(w: World, a: Action)
    requires Inv(w) && Exclusive(w) && Cared(w) && NoDatabaseFailure(w, a) && NoOrphan(w, a)
    ensures Cared(Do(w, a))
  {
    hide Inv, Exclusive, Cared, Reconcile, HandleMain, HandleWake, HandleRenewal;
    match a
    case Reconciler(b, c) =>
      if b in w.reconcilers {
        ReconcilerKeepsCared(w, b, c);
      }
    case StepWake(h, c) =>
      if h in w.handlers {
        WakeKeepsCared(w, h, c);
      }
    case Step(h, c) =>
      if h in w.handlers {
        MainKeepsCared(w, h, c);
      }
    case Renew(h, c) =>
      if h in w.handlers {
        RenewalKeepsCared(w, h, c);
      }
    case _ =>
      EnvironmentKeepsCared(w, a);
  }

  lemma MainLeavesRuns(db: Db, h: Handler, c: Choice)
    ensures HandleMain(db, h, c).db.wake == db.wake && HandleMain(db, h, c).db.agent == db.agent
  {
  }

  /** What keeps wake and agent run apart, linked or not. */
  predicate NoSecondAnswer(rules: Rules, kind: Kind) {
    Sufficient(rules, kind) && rules.noFailure && (rules.noOrphan || rules.noLoss)
  }

  lemma {:induction false} RunKeepsCared(rules: Rules, kind: Kind, actions: seq<Action>)
    requires NoSecondAnswer(rules, kind) && Obeys(rules, Initial(kind), actions)
    ensures Cared(Run(Initial(kind), actions))
  {
    if actions != [] {
      var before := actions[..|actions| - 1];
      RunKeepsCared(rules, kind, before);
      RunKeepsExclusive(rules, kind, before);
      RunKeeps(kind, before);
      StepKeepsCared(Run(Initial(kind), before), actions[|actions| - 1]);
    }
  }

  /** Under these rules a committed wake means that no agent run was ever created for the event. */
  lemma WakeMeansNoRun(rules: Rules, kind: Kind, actions: seq<Action>)
    requires NoSecondAnswer(rules, kind) && Obeys(rules, Initial(kind), actions)
    ensures var db := Run(Initial(kind), actions).db; db.wake ==> db.agent.None?
  {
    RunKeepsCared(rules, kind, actions);
    RunKeepsExclusive(rules, kind, actions);
    var w := Run(Initial(kind), actions);
    assert forall b :: b in w.reconcilers ==> QueueOk(w.db, w.reconcilers[b]);
  }

  // --- the witness -------------------------------------------------------------------

  /** The queue has created the run of a free row when its process is lost. */
  lemma LosesTheLink(rules: Rules, kind: Kind) returns (actions: seq<Action>, w: World)
    requires !rules.noOrphan && !rules.noLoss
    ensures Leads(rules, kind, actions, w) && w.db.kind == kind && w.db.clock == 0
    ensures w.reconcilers == map[] && w.inFlight == {} && w.handlers == map[]
    ensures w.db.row == Row(Queueing, AgentOwned, Some(QUEUE_RESERVATION_MS), None, None)
    ensures !w.db.wake && w.db.agent == Some(0) && !w.db.cancelled
  {
    hide Run, Obeys;
    var s, x := ReceivesOne(rules, kind);
    s, x := ReachesQueue(rules, kind, s, x, 1);
    s, x := CreatesRun(rules, kind, s, x, 1, 0);
    actions, w := Then(rules, kind, s, x, Crash(1));
  }

  lemma ResetTurns(db: Db)
    requires db.row.status.Queueing? && Expired(db.row.lease, db.clock)
    ensures Reconcile(db, false, Idle, FINE) == Turn(db, SelectExpired(db.clock))
    ensures Reconcile(db, false, SelectExpired(db.clock), FINE) == Turn(db, ResetClaims(db.clock))
    ensures Reconcile(db, false, ResetClaims(db.clock), FINE)
      == Turn(db.(row := db.row.(status := Received, reason := NoReason, lease := None)), SelectObserved(db.clock))
  {
  }

  /** The next process finds the claim expired and puts the row back. */
  lemma PutsBack(rules: Rules, kind: Kind, actions: seq<Action>, w: World) returns (actions': seq<Action>, w': World)
    requires Leads(rules, kind, actions, w) && w.reconcilers == map[] && w.inFlight == {} && w.handlers == map[]
    requires w.db.row == Row(Queueing, AgentOwned, Some(QUEUE_RESERVATION_MS), None, None) && w.db.clock == 0
    ensures Leads(rules, kind, actions', w')
    ensures w' == w.(db := w.db.(clock := QUEUE_RESERVATION_MS, row := NO_ROW.(status := Received)),
                     reconcilers := map[1 := SelectObserved(QUEUE_RESERVATION_MS)])
  {
    hide Run, Obeys, Reconcile;
    var s, x := Opens(rules, kind, actions, w, 1);
    s, x := Then(rules, kind, s, x, Tick(QUEUE_RESERVATION_MS));
    var db, now := x.db, QUEUE_RESERVATION_MS;
    ResetTurns(db);
    s, x := Twice(rules, kind, s, x, 1, FINE, Turn(db, SelectExpired(now)), FINE, Turn(db, ResetClaims(now)));
    actions', w' := Advance(rules, kind, s, x, 1, FINE);
    assert w'.reconcilers == map[1 := SelectObserved(now)];
  }

  /** A redelivery takes the received row over, and its routine wake is committed. */
  lemma RedeliveryWakes(rules: Rules, kind: Kind, actions: seq<Action>, w: World) returns (actions': seq<Action>, w': World)
    requires Leads(rules, kind, actions, w) && w.handlers == map[] && w.inFlight == {} && Started(w, 1)
    requires w.db.row == NO_ROW.(status := Received, lease := w.db.row.lease)
    ensures Leads(rules, kind, actions', w')
    ensures w'.db == w.db.(row := w'.db.row, wake := true)
  {
    hide Run, Obeys;
    var s, x := RedeliveryTakesOver(rules, kind, actions, w);
    s, x := Wakes(rules, kind, s, x, 1, 1, w.db.clock + HALF_HOUR);
    actions', w' := Then(rules, kind, s, x, StepWake(1, FINE));
  }

  /** A process lost at the link leaves a run that nobody cancels beside a routine wake, whatever else the rules forbid. */
  lemma LostProcessLeavesARun(kind: Kind) returns (actions: seq<Action>)
    ensures Obeys(ALL_RULES.(noOrphan := false, noLoss := false), Initial(kind), actions) && BothRun(Run(Initial(kind), actions).db)
  {
    hide Run, Obeys;
    var rules := ALL_RULES.(noOrphan := false, noLoss := false);
    var s, w := LosesTheLink(rules, kind);
    s, w := PutsBack(rules, kind, s, w);
    actions, w := RedeliveryWakes(rules, kind, s, w);
  }

  lemma FailedLinkTurns(db: Db)
    requires db.row == Row(Queueing, AgentOwned, Some(QUEUE_RESERVATION_MS), None, None) && db.clock == 0
    ensures var back := db.(row := NO_ROW.(status := Received, lease := Some(RETRY_MS)));
      && Reconcile(db, false, QueueLink(0, 0), FAILS) == Turn(db, RetryRead(Some(0)))
      && Reconcile(db, false, RetryRead(Some(0)), FINE) == Turn(db, RetryWrite(Some(0), Queueing))
      && Reconcile(db, false, RetryWrite(Some(0), Queueing), DELAYED) == Turn(back, SelectRunning(0))
  {
  }

  /** So does a link that fails before it takes effect: the row is received again, the run stays. */
  lemma FailedLinkLeavesARun(kind: Kind) returns (actions: seq<Action>)
    ensures Obeys(ALL_RULES.(noFailure := false), Initial(kind), actions) && BothRun(Run(Initial(kind), actions).db)
  {
    hide Run, Obeys, Reconcile;
    var rules := ALL_RULES.(noFailure := false);
    var s, w := ReceivesOne(rules, kind);
    s, w := ReachesQueue(rules, kind, s, w, 1);
    s, w := CreatesRun(rules, kind, s, w, 1, 0);
    var back := w.db.(row := NO_ROW.(status := Received, lease := Some(RETRY_MS)));
    FailedLinkTurns(w.db);
    s, w := Then(rules, kind, s, w, Reconciler(1, FAILS));
    s, w := Twice(rules, kind, s, w, 1, FINE, Turn(w.db, RetryWrite(Some(0), Queueing)), DELAYED, Turn(back, SelectRunning(0)));
    actions, w := RedeliveryWakes(rules, kind, s, w);
  }

  // --- exactly these rules -----------------------------------------------------------

  predicate EndsWithRun(kind: Kind, actions: seq<Action>) {
    BothRun(Run(Initial(kind), actions).db)
  }

  /** No event ever gets a wake beside an uncancelled agent run exactly when all these rules are kept. */
  lemma NoSecondAnswerExactlyUnderTheRules(rules: Rules, kind: Kind)
    ensures (forall actions :: Permits(rules, kind, actions) ==> !EndsWithRun(kind, actions)) <==> NoSecondAnswer(rules, kind)
  {
    if NoSecondAnswer(rules, kind) {
      forall actions | Permits(rules, kind, actions) ensures !EndsWithRun(kind, actions) {
        WakeMeansNoRun(rules, kind, actions);
      }
    } else {
      var actions := SomeRunLeavesARun(rules, kind);
      assert Permits(rules, kind, actions) && EndsWithRun(kind, actions);
    }
  }

  lemma SomeRunLeavesARun(rules: Rules, kind: Kind) returns (actions: seq<Action>)
    requires !NoSecondAnswer(rules, kind)
    ensures Obeys(rules, Initial(kind), actions) && EndsWithRun(kind, actions)
  {
    if !Sufficient(rules, kind) {
      actions := SomeRunEndsWithBoth(rules, kind);
    } else if !rules.noFailure {
      actions := FailedLinkLeavesARun(kind);
      ObeysWeakerRules(rules, ALL_RULES.(noFailure := false), Initial(kind), actions);
    } else {
      actions := LostProcessLeavesARun(kind);
      ObeysWeakerRules(rules, ALL_RULES.(noOrphan := false, noLoss := false), Initial(kind), actions);
    }
  }
}
