/**
 Exactly which rows never come to an end: received ones, marked as owned by a routing that nobody
 will finish, and posted ones that are left in delivering because the provider gave no handle.
 */
module TeamChatStuck {
  import opened Wrappers
  import opened TeamChatRow
  import opened TeamChatProtocol
  import opened TeamChatDelivery
  import opened TeamChatExclusivity
  import opened TeamChatDirect
  import opened TeamChatProgress
  import opened TeamChatReplies
  import opened TeamChatRuns
  import opened TeamChatWitnesses

  predicate NoArrival(actions: seq<Action>) {
    forall k :: 0 <= k < |actions| ==> !actions[k].Arrive?
  }

  // --- parked rows -------------------------------------------------------------------

  predicate MayReportWake(wake: Wake) {
    Underway(wake) || wake == Woken(true)
  }

  /** The handler may still take the row over, or give it to a routine. */
  predicate MayTake(h: Handler) {
    || h.main.Receive? || h.main.ReceiveDefer? || h.main.Marking? || h.main == Resolving(true)
    || (AwaitsWake(h.main) && MayReportWake(h.wake) && !(h.main.Racing? && h.lost.RenewalFailed?))
  }

  /** Some handler's wake may still be committed, whether or not the handler still waits for it. */
  predicate MayCommit(w: World) {
    w.db.wake || exists h :: h in w.handlers && Underway(w.handlers[h].wake)
  }

  /** The worker saw the row free and may still find a wake for it. */
  predicate MayAbandon(w: World, pc: RPc) {
    pc.QueueAbandonReceived? || (pc.QueueFindWake? && !IsRoutingReason(pc.seen) && MayCommit(w))
  }

  /** A routing marker with nobody behind it. */
  ghost predicate Parked(w: World) {
    && IsRoutingReason(w.db.row.reason)
    && (forall h :: h in w.handlers ==> !MayTake(w.handlers[h]))
    && (forall b :: b in w.reconcilers ==> !MayAbandon(w, w.reconcilers[b]))
  }

  predicate Waits(row: Row) {
    row.status.Received? && IsRoutingReason(row.reason)
  }

  /** A renewal is heard only in the race against the wake. */
  predicate HeardInTime(h: Handler) {
    h.main.Receive? || h.main.ReceiveDefer? || h.main.Extending? || h.main.Marking? ==> h.lost.Held?
  }

  lemma {:induction false} RenewalsAreHeardInTime(kind: Kind, actions: seq<Action>, h: nat)
    requires h in Run(Initial(kind), actions).handlers
    ensures HeardInTime(Run(Initial(kind), actions).handlers[h])
  {
    if actions != [] {
      var w, a := Run(Initial(kind), actions[..|actions| - 1]), actions[|actions| - 1];
      hide Reconcile, HandleMain, HandleWake, HandleRenewal, HeardInTime;
      if h in w.handlers {
        RenewalsAreHeardInTime(kind, actions[..|actions| - 1], h);
        TurnsAreHeardInTime(w.db, w.handlers[h], if a.Step? || a.StepWake? || a.Renew? then a.c else FINE);
      } else {
        NewcomersAreHeardInTime(if a.Arrive? then a.bridge else 0, w.db.clock);
      }
    }
  }

  lemma TurnsAreHeardInTime(db: Db, h: Handler, c: Choice)
    requires HeardInTime(h)
    ensures HeardInTime(HandleMain(db, h, c).handler) && HeardInTime(HandleWake(db, h, c).handler)
    ensures HeardInTime(HandleRenewal(db, h, c).handler)
  {
  }

  lemma NewcomersAreHeardInTime(bridge: nat, at: int)
    ensures HeardInTime(Handler(bridge, Receive(at), NotStarted, false, Held))
  {
  }

  // --- a parked row stays ------------------------------------------------------------

  predicate Indifferent(pc: RPc, commits: bool) {
    !pc.QueueAbandonReceived? && (pc.QueueFindWake? ==> IsRoutingReason(pc.seen) || !commits)
  }

  lemma RecoverLeavesParked(db: Db, marked: bool, pc: RPc, c: Choice, commits: bool)
    requires Waits(db.row) && Recovering(pc)
    ensures var t := Recover(db, marked, pc, c); Waits(t.db.row) && t.db.wake == db.wake && Indifferent(t.pc, commits)
  {
  }

  lemma EngagementLeavesParked(db: Db, pc: RPc, c: Choice, commits: bool)
    requires Shared(db) && Waits(db.row) && !Recovering(pc) && !Delivery(pc) && Indifferent(pc, commits) && (db.wake ==> commits)
    ensures var t := Engagement(db, pc, c); Waits(t.db.row) && t.db.wake == db.wake && Indifferent(t.pc, commits)
  {
  }

  lemma DeliverLeavesParked(db: Db, pc: RPc, c: Choice, commits: bool)
    requires Local(db, pc) && Waits(db.row) && Delivery(pc)
    ensures var t := Deliver(db, pc, c); Waits(t.db.row) && t.db.wake == db.wake && Indifferent(t.pc, commits)
  {
  }

  lemma TurnLeavesParked(db: Db, marked: bool, pc: RPc, c: Choice, commits: bool)
    requires Shared(db) && Local(db, pc) && Waits(db.row) && Indifferent(pc, commits) && (db.wake ==> commits)
    ensures var t := Reconcile(db, marked, pc, c); Waits(t.db.row) && t.db.wake == db.wake && Indifferent(t.pc, commits)
  {
    hide Recover, Engagement, Deliver, Waits, Indifferent, Shared, Local;
    if Recovering(pc) {
      RecoverLeavesParked(db, marked, pc, c, commits);
    } else if Delivery(pc) {
      DeliverLeavesParked(db, pc, c, commits);
    } else {
      EngagementLeavesParked(db, pc, c, commits);
    }
  }

  predicate HandlerLeaves(db: Db, h: Handler, t: HandlerTurn) {
    && Waits(t.db.row) && !MayTake(t.handler)
    && (Underway(t.handler.wake) ==> Underway(h.wake))
    && (t.db.wake ==> db.wake || Underway(h.wake))
  }

  lemma MainLeavesParked(db: Db, h: Handler, c: Choice)
    requires Waits(db.row) && !MayTake(h)
    ensures HandlerLeaves(db, h, HandleMain(db, h, c))
  {
  }

  lemma WakeLeavesParked(db: Db, h: Handler, c: Choice)
    requires Waits(db.row) && !MayTake(h)
    ensures HandlerLeaves(db, h, HandleWake(db, h, c)) && HandlerLeaves(db, h, HandleRenewal(db, h, c))
  {
  }

  /** A handler's step cannot make a commit possible that was not. */
  lemma HandlerStepLeavesParked(w: World, h: nat, t: HandlerTurn, inFlight: set<nat>)
    requires Parked(w) && h in w.handlers && HandlerLeaves(w.db, w.handlers[h], t)
    ensures var w' := Land(w, h, t).(inFlight := inFlight); Parked(w') && w'.db.row.status.Received?
  {
    hide MayTake, Underway;
    var w' := Land(w, h, t).(inFlight := inFlight);
    assert MayCommit(w') ==> MayCommit(w) by {
      if x :| x in w'.handlers && Underway(w'.handlers[x].wake) {
        assert Underway(w.handlers[x].wake);
      }
    }
    forall b | b in w'.reconcilers ensures !MayAbandon(w', w'.reconcilers[b]) {
      assert !MayAbandon(w, w.reconcilers[b]);
    }
  }

  lemma ReconcilerLeavesParked(w: World, b: nat, c: Choice)
    requires Inv(w) && Parked(w) && w.db.row.status.Received? && b in w.reconcilers
    ensures var w' := Do(w, Reconciler(b, c)); Parked(w') && w'.db.row.status.Received?
  {
    hide MayTake, Underway, Reconcile;
    var w' := Do(w, Reconciler(b, c));
    assert Local(w.db, w.reconcilers[b]) && !MayAbandon(w, w.reconcilers[b]);
    TurnLeavesParked(w.db, b in w.inFlight, w.reconcilers[b], c, MayCommit(w));
    assert MayCommit(w') == MayCommit(w);
    forall x | x in w'.reconcilers ensures !MayAbandon(w', w'.reconcilers[x]) {
      if x != b {
        assert !MayAbandon(w, w.reconcilers[x]);
      }
    }
  }

  lemma EnvironmentLeavesParked(w: World, a: Action)
    requires Parked(w) && w.db.row.status.Received? && (a.Tick? || a.BootBridge? || a.Crash? || a.Observe? || a.Finishes?)
    ensures Parked(Do(w, a)) && Do(w, a).db.row.status.Received?
  {
    hide MayTake, Underway;
    var w' := Do(w, a);
    assert MayCommit(w') ==> MayCommit(w);
    forall b | b in w'.reconcilers ensures !MayAbandon(w', w'.reconcilers[b]) {
      if w'.reconcilers[b] != Boot {
        assert !MayAbandon(w, w.reconcilers[b]);
      }
    }
  }

  lemma StepLeavesParked(w: World, a: Action)
    requires Inv(w) && Parked(w) && w.db.row.status.Received? && !a.Arrive?
    ensures Parked(Do(w, a)) && Do(w, a).db.row.status.Received?
  {
    hide Inv, Reconcile, HandleMain, HandleWake, HandleRenewal, MayTake, MayAbandon;
    match a
    case Reconciler(b, c) => if b in w.reconcilers { ReconcilerLeavesParked(w, b, c); }
    case Step(h, c) =>
      if h in w.handlers {
        MainLeavesParked(w.db, w.handlers[h], c);
        HandlerStepLeavesParked(w, h, HandleMain(w.db, w.handlers[h], c), Marked(w.inFlight, w.handlers[h].bridge, w.handlers[h].main));
      }
    case StepWake(h, c) =>
      if h in w.handlers {
        WakeLeavesParked(w.db, w.handlers[h], c);
        HandlerStepLeavesParked(w, h, HandleWake(w.db, w.handlers[h], c), w.inFlight);
      }
    case Renew(h, c) =>
      if h in w.handlers {
        WakeLeavesParked(w.db, w.handlers[h], c);
        HandlerStepLeavesParked(w, h, HandleRenewal(w.db, w.handlers[h], c), w.inFlight);
      }
    case _ => EnvironmentLeavesParked(w, a);
  }

  /** However a run goes on, without another delivery of the event a parked row stays where it is. */
  lemma {:induction false} OnlyARedeliveryMovesOn(kind: Kind, actions: seq<Action>, more: seq<Action>)
    requires Parked(Run(Initial(kind), actions)) && Run(Initial(kind), actions).db.row.status.Received? && NoArrival(more)
    ensures Parked(Run(Initial(kind), actions + more)) && Run(Initial(kind), actions + more).db.row.status.Received?
    decreases |more|
  {
    if more == [] {
      assert actions + more == actions;
    } else {
      var all, shorter := actions + more, more[..|more| - 1];
      OnlyARedeliveryMovesOn(kind, actions, shorter);
      assert all[..|all| - 1] == actions + shorter;
      RunKeeps(kind, actions + shorter);
      StepLeavesParked(Run(Initial(kind), actions + shorter), all[|all| - 1]);
    }
  }

  // --- any other row can move on -----------------------------------------------------

  /** A handler took the row over again, or a routine has it. */
  predicate TakenOver(db: Db) {
    db.row.status.Deferred? || db.row.status.Ignored?
  }

  function MainRank(main: Main): nat {
    match main
    case Receive(_) => 6
    case ReceiveDefer(_) => 5
    case Marking(_) => 4
    case Racing => 3
    case Holding => 2
    case Awaiting => 1
    case _ => 0
  }

  /** What the handler has to do next to take the row. */
  function Next(h: Handler, id: nat): Action {
    if AwaitsWake(h.main) && Underway(h.wake) then StepWake(id, FINE) else Step(id, FINE)
  }

  predicate Nearer(h: Handler, h': Handler) {
    && MayTake(h') && HeardInTime(h')
    && (MainRank(h'.main) < MainRank(h.main) || (h'.main == h.main && WakeRank(h'.wake) < WakeRank(h.wake)))
  }

  lemma MainNears(db: Db, h: Handler)
    requires MayTake(h) && HeardInTime(h) && Waits(db.row) && !(AwaitsWake(h.main) && Underway(h.wake))
    ensures var t := HandleMain(db, h, FINE); TakenOver(t.db) || (Waits(t.db.row) && Nearer(h, t.handler))
  {
  }

  lemma WakeNears(db: Db, h: Handler)
    requires MayTake(h) && HeardInTime(h) && Waits(db.row) && AwaitsWake(h.main) && Underway(h.wake)
    ensures var t := HandleWake(db, h, FINE); Waits(t.db.row) && Nearer(h, t.handler)
  {
  }

  lemma NextTakes(w: World, id: nat)
    requires id in w.handlers && MayTake(w.handlers[id]) && HeardInTime(w.handlers[id]) && Waits(w.db.row)
    ensures var w' := Do(w, Next(w.handlers[id], id));
      id in w'.handlers && (TakenOver(w'.db) || (Waits(w'.db.row) && Nearer(w.handlers[id], w'.handlers[id])))
  {
    hide HandleMain, HandleWake, MayTake, HeardInTime, Waits, Nearer, TakenOver;
    if AwaitsWake(w.handlers[id].main) && Underway(w.handlers[id].wake) {
      WakeNears(w.db, w.handlers[id]);
    } else {
      MainNears(w.db, w.handlers[id]);
    }
  }

  /** Left to itself, a handler that may take the row does so. */
  lemma {:induction false} HandlerTakes(w: World, id: nat)
    requires id in w.handlers && MayTake(w.handlers[id]) && HeardInTime(w.handlers[id]) && Waits(w.db.row)
    ensures CanReach(w, TakenOver)
    decreases MainRank(w.handlers[id].main), WakeRank(w.handlers[id].wake)
  {
    hide Run, Do, MayTake, CanReach;
    var a := Next(w.handlers[id], id);
    NextTakes(w, id);
    if TakenOver(Do(w, a).db) {
      Reached(Do(w, a), TakenOver);
    } else {
      HandlerTakes(Do(w, a), id);
    }
    ReachesAfter(w, a, TakenOver);
  }

  /** A wake under way can be committed, and leaves the worker where it is. */
  lemma {:induction false} WorkerAbandons(w: World, b: nat)
    requires b in w.reconcilers && MayAbandon(w, w.reconcilers[b]) && Waits(w.db.row)
    ensures CanReach(w, TakenOver)
  {
    hide Run, Do, Reconcile, HandleWake, CanReach;
    if w.db.wake || w.reconcilers[b].QueueAbandonReceived? {
      WorkerFindsWake(w, b);
    } else {
      var h :| h in w.handlers && Underway(w.handlers[h].wake);
      WakeCommits(w, b, h);
    }
  }

  lemma WorkerFindsWake(w: World, b: nat)
    requires b in w.reconcilers && MayAbandon(w, w.reconcilers[b]) && Waits(w.db.row)
    requires w.db.wake || w.reconcilers[b].QueueAbandonReceived?
    ensures CanReach(w, TakenOver)
  {
    hide Run, CanReach;
    var a := Reconciler(b, FINE);
    var x := Do(w, a);
    if w.reconcilers[b].QueueFindWake? {
      Reached(Do(x, a), TakenOver);
      ReachesAfter(x, a, TakenOver);
    } else {
      Reached(x, TakenOver);
    }
    ReachesAfter(w, a, TakenOver);
  }

  lemma {:induction false} WakeCommits(w: World, b: nat, h: nat)
    requires b in w.reconcilers && w.reconcilers[b].QueueFindWake? && !IsRoutingReason(w.reconcilers[b].seen) && Waits(w.db.row)
    requires h in w.handlers && Underway(w.handlers[h].wake)
    ensures CanReach(w, TakenOver)
    decreases WakeRank(w.handlers[h].wake)
  {
    hide Run, CanReach;
    var a := StepWake(h, FINE);
    var x := Do(w, a);
    assert Waits(x.db.row) && x.reconcilers == w.reconcilers;
    if x.db.wake {
      WorkerFindsWake(x, b);
    } else {
      WakeCommits(x, b, h);
    }
    ReachesAfter(w, a, TakenOver);
  }

  /** A marked row that is not parked is taken over by its handler, or by a worker that finds its wake. */
  lemma MarkedRowIsTakenOver(kind: Kind, actions: seq<Action>)
    requires Waits(Run(Initial(kind), actions).db.row) && !Parked(Run(Initial(kind), actions))
    ensures CanReach(Run(Initial(kind), actions), TakenOver)
  {
    hide Run, CanReach, MayTake, MayAbandon;
    var w := Run(Initial(kind), actions);
    if h :| h in w.handlers && MayTake(w.handlers[h]) {
      RenewalsAreHeardInTime(kind, actions, h);
      HandlerTakes(w, h);
    } else {
      var b :| b in w.reconcilers && MayAbandon(w, w.reconcilers[b]);
      WorkerAbandons(w, b);
    }
  }

  // --- two ways to park a row --------------------------------------------------------

  /** A late handler's wake reserves the row it was released to, and the process is lost. */
  lemma LateHandlerLeavesARowStuck() returns (actions: seq<Action>)
    ensures Obeys(ALL_RULES.(prompt := false, noOrphan := false, noLoss := false), Initial(Direct), actions)
    ensures var w := Run(Initial(Direct), actions); w.db.row.status.Received? && Parked(w) && !w.db.wake
  {
    hide Run, Obeys;
    var rules := ALL_RULES.(prompt := false, noOrphan := false, noLoss := false);
    var s, w := Starts(rules, Direct);
    s, w := Holds(rules, Direct, s, w, 1, 1);
    s, w := Then(rules, Direct, s, w, Tick(HALF_HOUR));
    s, w := FreesRow(rules, Direct, s, w, 1);
    s, w := Wakes(rules, Direct, s, w, 1, 1, HALF_HOUR);
    actions, w := Then(rules, Direct, s, w, Crash(1));
  }

  /** Nothing is lost, only one renewal fails: the handler is done before its wake reserves the received row and commits. */
  lemma FailedRenewalLeavesARowStuck() returns (actions: seq<Action>)
    ensures Obeys(ALL_RULES.(renewals := false), Initial(Direct), actions)
    ensures var w := Run(Initial(Direct), actions); w.db.row.status.Received? && Parked(w) && w.db.wake
  {
    hide Run, Obeys;
    var rules := ALL_RULES.(renewals := false);
    var s, w := Starts(rules, Direct);
    s, w := Holds(rules, Direct, s, w, 1, 1);
    s, w := StartsWake(rules, Direct, s, w, 1, 1, HALF_HOUR);
    s, w := GivesUpOnRenewal(rules, Direct, s, w, 1, 1, Reserving);
    s, w := Then(rules, Direct, s, w, StepWake(1, FINE));
    assert w.handlers[1] == Handler(1, Done, Waking, true, RenewalFailed);
    actions, w := Then(rules, Direct, s, w, StepWake(1, FINE));
  }

  // --- rows without a provider handle ------------------------------------------------

  /** Posted, but the provider's handle was empty, which counts neither as a handle nor as none. */
  predicate Unnamed(row: Row) {
    row.status.Delivering? && row.handle == Some("")
  }

  /** The worker has a handle to finish the row with. */
  predicate HasHandle(pc: RPc) {
    pc.DeliverStore? || pc.DeliverMark? || pc.RetryMark?
  }

  lemma RecoverLeavesUnnamed(db: Db, marked: bool, pc: RPc, c: Choice)
    requires Unnamed(db.row) && Recovering(pc)
    ensures var t := Recover(db, marked, pc, c); t.db == db && !HasHandle(t.pc)
  {
  }

  lemma EngagementLeavesUnnamed(db: Db, pc: RPc, c: Choice)
    requires Shared(db) && Unnamed(db.row) && !Recovering(pc) && !Delivery(pc)
    ensures var t := Engagement(db, pc, c); t.db.row == db.row && !HasHandle(t.pc)
  {
  }

  /** A reserved row has a reply, so no worker decides to finish it in silence. */
  lemma DeliverLeavesUnnamed(db: Db, pc: RPc, c: Choice)
    requires Shared(db) && Local(db, pc) && Reasoned(db) && Unnamed(db.row) && Delivery(pc) && !HasHandle(pc)
    ensures var t := Deliver(db, pc, c); t.db.row == db.row && !HasHandle(t.pc)
  {
  }

  /** Delivering, and nobody has a handle to finish it with. */
  ghost predicate Nameless(w: World) {
    Unnamed(w.db.row) && forall b :: b in w.reconcilers ==> !HasHandle(w.reconcilers[b])
  }

  lemma TurnLeavesUnnamed(db: Db, marked: bool, pc: RPc, c: Choice)
    requires Shared(db) && Local(db, pc) && Reasoned(db) && Unnamed(db.row) && !HasHandle(pc)
    ensures var t := Reconcile(db, marked, pc, c); t.db.row == db.row && !HasHandle(t.pc)
  {
    hide Recover, Engagement, Deliver, Shared, Local, Reasoned;
    if Recovering(pc) {
      RecoverLeavesUnnamed(db, marked, pc, c);
    } else if Delivery(pc) {
      DeliverLeavesUnnamed(db, pc, c);
    } else {
      EngagementLeavesUnnamed(db, pc, c);
    }
  }

  lemma HandlersLeaveUnnamed(db: Db, h: Handler, c: Choice)
    requires Unnamed(db.row)
    ensures HandleMain(db, h, c).db == db && HandleWake(db, h, c).db.row == db.row && HandleRenewal(db, h, c).db == db
  {
  }

  lemma StepLeavesNameless(w: World, a: Action)
    requires Inv(w) && Reasoned(w.db) && Nameless(w)
    ensures Nameless(Do(w, a))
  {
    hide Reconcile, HandleMain, HandleWake, HandleRenewal, Shared, Local, Reasoned;
    StepKeeps(w, a);
    match a
    case Reconciler(b, c) =>
      if b in w.reconcilers {
        TurnLeavesUnnamed(w.db, b in w.inFlight, w.reconcilers[b], c);
      }
    case Step(h, c) => if h in w.handlers { HandlersLeaveUnnamed(w.db, w.handlers[h], c); }
    case StepWake(h, c) => if h in w.handlers { HandlersLeaveUnnamed(w.db, w.handlers[h], c); }
    case Renew(h, c) => if h in w.handlers { HandlersLeaveUnnamed(w.db, w.handlers[h], c); }
    case _ =>
  }

  lemma {:induction false} NamelessForGood(kind: Kind, actions: seq<Action>, more: seq<Action>)
    requires Nameless(Run(Initial(kind), actions))
    ensures Nameless(Run(Initial(kind), actions + more))
    decreases |more|
  {
    if more == [] {
      assert actions + more == actions;
    } else {
      var all, shorter := actions + more, more[..|more| - 1];
      NamelessForGood(kind, actions, shorter);
      assert all[..|all| - 1] == actions + shorter;
      RunKeeps(kind, actions + shorter);
      RunReasons(kind, actions + shorter);
      StepLeavesNameless(Run(Initial(kind), actions + shorter), all[|all| - 1]);
    }
  }

  /** A worker that has a handle finishes the row, whatever the handle is. */
  lemma WorkerFinishes(w: World, b: nat)
    requires b in w.reconcilers && HasHandle(w.reconcilers[b]) && Unnamed(w.db.row)
    ensures CanReach(w, Final)
  {
    hide Run, CanReach;
    var a := Reconciler(b, FINE);
    var x := Do(w, a);
    if w.reconcilers[b].DeliverStore? {
      Reached(Do(x, a), Final);
      ReachesAfter(x, a, Final);
    } else {
      Reached(x, Final);
    }
    ReachesAfter(w, a, Final);
  }

  /** Exactly when a row with an empty handle can leave delivering: when some worker already has a handle to finish
      it with. Neither a new process nor a redelivery helps. */
  lemma FinishesExactlyUnlessNameless(kind: Kind, actions: seq<Action>)
    requires Unnamed(Run(Initial(kind), actions).db.row)
    ensures var w := Run(Initial(kind), actions);
      (exists more :: !Run(w, more).db.row.status.Delivering?)
      <==> exists b :: b in w.reconcilers && HasHandle(w.reconcilers[b])
  {
    hide Run;
    var w := Run(Initial(kind), actions);
    if Nameless(w) {
      forall more ensures Run(w, more).db.row.status.Delivering? {
        NamelessForGood(kind, actions, more);
        RunComposes(Initial(kind), actions, more);
      }
    } else {
      var b :| b in w.reconcilers && HasHandle(w.reconcilers[b]);
      WorkerFinishes(w, b);
      var more :| NoDelivery(more) && Final(Run(w, more).db);
      assert !Run(w, more).db.row.status.Delivering?;
    }
  }

  // --- exactly which rows come to an end ---------------------------------------------

  /** Given to a routine, or answered: the two ends of the protocol. */
  predicate Final(db: Db) {
    db.row.status.Ignored? || db.row.status.Delivered?
  }

  /** No row yet, and no handler that is about to create it. */
  ghost predicate Unborn(w: World) {
    w.db.row.status.Absent? && forall h :: h in w.handlers ==> !w.handlers[h].main.Receive?
  }

  lemma TurnLeavesAbsent(db: Db, marked: bool, pc: RPc, c: Choice)
    requires Local(db, pc) && db.row.status.Absent?
    ensures Reconcile(db, marked, pc, c).db.row.status.Absent?
  {
    if Recovering(pc) {
      RecoverLeavesAbsent(db, marked, pc, c);
    } else if Delivery(pc) {
      DeliverLeavesAbsent(db, pc, c);
    } else {
      EngagementLeavesAbsent(db, pc, c);
    }
  }

  lemma RecoverLeavesAbsent(db: Db, marked: bool, pc: RPc, c: Choice)
    requires db.row.status.Absent? && Recovering(pc)
    ensures Recover(db, marked, pc, c).db.row.status.Absent?
  {
  }

  lemma EngagementLeavesAbsent(db: Db, pc: RPc, c: Choice)
    requires db.row.status.Absent? && !Recovering(pc) && !Delivery(pc)
    ensures Engagement(db, pc, c).db.row.status.Absent?
  {
  }

  lemma DeliverLeavesAbsent(db: Db, pc: RPc, c: Choice)
    requires Local(db, pc) && db.row.status.Absent? && Delivery(pc)
    ensures Deliver(db, pc, c).db.row.status.Absent?
  {
  }

  lemma HandlersLeaveAbsent(db: Db, h: Handler, c: Choice)
    requires db.row.status.Absent? && !h.main.Receive?
    ensures HandleMain(db, h, c).db.row.status.Absent? && !HandleMain(db, h, c).handler.main.Receive?
    ensures HandleWake(db, h, c).db.row.status.Absent? && !HandleWake(db, h, c).handler.main.Receive?
    ensures HandleRenewal(db, h, c).db.row.status.Absent? && !HandleRenewal(db, h, c).handler.main.Receive?
  {
  }

  lemma {:induction false} UnbornForGood(kind: Kind, actions: seq<Action>, more: seq<Action>)
    requires Unborn(Run(Initial(kind), actions)) && NoDelivery(more)
    ensures Unborn(Run(Initial(kind), actions + more))
    decreases |more|
  {
    if more == [] {
      assert actions + more == actions;
    } else {
      hide Do, Unborn, Inv;
      var all, shorter := actions + more, more[..|more| - 1];
      UnbornForGood(kind, actions, shorter);
      assert all[..|all| - 1] == actions + shorter;
      RunKeeps(kind, actions + shorter);
      StepLeavesUnborn(Run(Initial(kind), actions + shorter), all[|all| - 1]);
    }
  }

  lemma StepLeavesUnborn(w: World, a: Action)
    requires Inv(w) && Unborn(w) && !a.Arrive? && !a.Observe?
    ensures Unborn(Do(w, a))
  {
    hide Reconcile, HandleMain, HandleWake, HandleRenewal, Local, Shared;
    match a
    case Reconciler(b, c) => if b in w.reconcilers { TurnLeavesAbsent(w.db, b in w.inFlight, w.reconcilers[b], c); }
    case Step(h, c) => if h in w.handlers { HandlersLeaveAbsent(w.db, w.handlers[h], c); }
    case StepWake(h, c) => if h in w.handlers { HandlersLeaveAbsent(w.db, w.handlers[h], c); }
    case Renew(h, c) => if h in w.handlers { HandlersLeaveAbsent(w.db, w.handlers[h], c); }
    case _ =>
  }

  lemma ReachesThrough(w: World, more: seq<Action>, goal: Db -> bool)
    requires NoDelivery(more) && CanReach(Run(w, more), goal)
    ensures CanReach(w, goal)
  {
    var rest :| NoDelivery(rest) && goal(Run(Run(w, more), rest).db);
    RunComposes(w, more, rest);
    assert NoDelivery(more + rest);
  }

  /** The way of a movable row ends in a final status. */
  lemma MovableRowEnds(kind: Kind, actions: seq<Action>)
    requires Movable(Run(Initial(kind), actions).db.row)
    ensures CanReach(Run(Initial(kind), actions), Final)
  {
    hide Run;
    var w := Run(Initial(kind), actions);
    var report := if w.db.report.Unfinished? then Completed(true) else w.db.report;
    EveryMovableRowIsAnswered(kind, actions, "", report);
    var goal := EndedAt("", report, GoesToRoutine(w.db), !w.db.row.status.Delivering?);
    var more :| NoDelivery(more) && goal(Run(w, more).db);
    assert Final(Run(w, more).db);
  }

  lemma TakenOverRowEnds(kind: Kind, actions: seq<Action>)
    requires CanReach(Run(Initial(kind), actions), TakenOver)
    ensures CanReach(Run(Initial(kind), actions), Final)
  {
    hide Run;
    var w := Run(Initial(kind), actions);
    var more :| NoDelivery(more) && TakenOver(Run(w, more).db);
    RunComposes(Initial(kind), actions, more);
    if Run(w, more).db.row.status.Deferred? {
      MovableRowEnds(kind, actions + more);
      ReachesThrough(w, more, Final);
    }
  }

  lemma UnbornRowEnds(kind: Kind, actions: seq<Action>, h: nat)
    requires var w := Run(Initial(kind), actions);
      w.db.row.status.Absent? && h in w.handlers && w.handlers[h].main.Receive?
    ensures CanReach(Run(Initial(kind), actions), Final)
  {
    hide Run, CanReach;
    RunOneMore(Initial(kind), actions, Step(h, FINE));
    MovableRowEnds(kind, actions + [Step(h, FINE)]);
    ReachesAfter(Run(Initial(kind), actions), Step(h, FINE), Final);
  }

  /** The three ways in which no end can be reached any more. */
  ghost predicate Stuck(w: World) {
    Unborn(w) || (w.db.row.status.Received? && Parked(w)) || Nameless(w)
  }

  lemma StuckForGood(kind: Kind, actions: seq<Action>, more: seq<Action>)
    requires Stuck(Run(Initial(kind), actions)) && NoDelivery(more)
    ensures Stuck(Run(Run(Initial(kind), actions), more))
  {
    hide Run, Unborn, Parked, Nameless;
    var w := Run(Initial(kind), actions);
    RunComposes(Initial(kind), actions, more);
    if Unborn(w) {
      UnbornForGood(kind, actions, more);
    } else if Nameless(w) {
      NamelessForGood(kind, actions, more);
    } else {
      OnlyARedeliveryMovesOn(kind, actions, more);
    }
  }

  lemma UnstuckRowEnds(kind: Kind, actions: seq<Action>)
    requires !Stuck(Run(Initial(kind), actions))
    ensures CanReach(Run(Initial(kind), actions), Final)
  {
    hide Run, CanReach, Parked;
    var w := Run(Initial(kind), actions);
    RunKeeps(kind, actions);
    if Final(w.db) {
      Reached(w, Final);
    } else if Movable(w.db.row) {
      MovableRowEnds(kind, actions);
    } else if Waits(w.db.row) {
      MarkedRowIsTakenOver(kind, actions);
      TakenOverRowEnds(kind, actions);
    } else if w.db.row.status.Absent? {
      var h :| h in w.handlers && w.handlers[h].main.Receive?;
      UnbornRowEnds(kind, actions, h);
    } else {
      var b :| b in w.reconcilers && HasHandle(w.reconcilers[b]);
      WorkerFinishes(w, b);
    }
  }

  /**
   Exactly when an event whose handling got anywhere in a run can still be answered or given to a routine without
   another delivery: when there is a row or a handler that creates it, the row is not parked, and, if it was posted under
   an empty handle, some worker still has that handle.
   */
  lemma ComesToAnEndExactlyUnlessStuck(kind: Kind, actions: seq<Action>)
    ensures var w := Run(Initial(kind), actions); CanReach(w, Final) <==> !Stuck(w)
  {
    hide Run;
    var w := Run(Initial(kind), actions);
    if Stuck(w) {
      forall more | NoDelivery(more) ensures !Final(Run(w, more).db) {
        StuckForGood(kind, actions, more);
      }
    } else {
      UnstuckRowEnds(kind, actions);
    }
  }

  /** Exactly when a received row can move on without another delivery: when it is not parked. */
  lemma MovesOnExactlyUnlessParked(kind: Kind, actions: seq<Action>)
    requires Run(Initial(kind), actions).db.row.status.Received?
    ensures var w := Run(Initial(kind), actions);
      (exists more :: NoArrival(more) && !Run(w, more).db.row.status.Received?) <==> !Parked(w)
  {
    hide Run;
    var w := Run(Initial(kind), actions);
    if Parked(w) {
      forall more | NoArrival(more) ensures Run(w, more).db.row.status.Received? {
        OnlyARedeliveryMovesOn(kind, actions, more);
        RunComposes(Initial(kind), actions, more);
      }
    } else {
      UnstuckRowEnds(kind, actions);
      var more :| NoDelivery(more) && Final(Run(w, more).db);
      assert NoArrival(more) && !Run(w, more).db.row.status.Received?;
    }
  }

  // --- a way to an empty handle ------------------------------------------------------

  lemma ReserveTurns(db: Db)
    requires db.kind.Direct? && db.clock == 0 && db.row.status.Running? && db.row.handle.None? && db.row.lease.None?
    requires db.report.Failure?
    ensures var held := db.(row := db.row.(status := Delivering, lease := Some(DELIVERY_RESERVATION_MS)));
      && Reconcile(db, false, QueueEnqueue(0), FINE) == Turn(db, SelectRunning(0))
      && Reconcile(db, false, SelectRunning(0), FINE) == Turn(db, DeliverReserve(0))
      && Reconcile(db, false, DeliverReserve(0), FINE) == Turn(held, DeliverReadHandle)
      && Reconcile(held, false, DeliverReadHandle, FINE) == Turn(held, DeliverSend)
  {
  }

  lemma SendTurns(held: Db)
    ensures var posted := held.(posts := held.posts + 1);
      && Reconcile(held, false, DeliverSend, FINE) == Turn(posted, DeliverStore(""))
      && Reconcile(posted, false, DeliverStore(""), FINE) == Turn(posted.(row := posted.row.(handle := Some(""))), DeliverMark(""))
      && Reconcile(posted.(row := posted.row.(handle := Some(""))), false, DeliverMark(""), FAILS)
         == Turn(posted.(row := posted.row.(handle := Some(""))), RetryRead(None))
  {
  }

  /** The provider answers with an empty handle, and marking the row delivered fails once: it stays in delivering for good. */
  lemma EmptyHandleLeavesARowInDelivering() returns (actions: seq<Action>)
    ensures Obeys(ALL_RULES.(noFailure := false), Initial(Direct), actions)
    ensures Nameless(Run(Initial(Direct), actions)) && Run(Initial(Direct), actions).db.posts == 1
  {
    hide Run, Obeys, Reconcile;
    var rules := ALL_RULES.(noFailure := false);
    var s, w := ReceivesOne(rules, Direct);
    s, w := ReachesQueue(rules, Direct, s, w, 1);
    s, w := CreatesRun(rules, Direct, s, w, 1, 0);
    LinkTurns(w.db.(agent := None), false, 0);
    s, w := Advance(rules, Direct, s, w, 1, FINE);
    s, w := Then(rules, Direct, s, w, Finishes(Failure));
    var db := w.db;
    var held := db.(row := db.row.(status := Delivering, lease := Some(DELIVERY_RESERVATION_MS)));
    var posted := held.(posts := held.posts + 1);
    ReserveTurns(db);
    SendTurns(held);
    s, w := Twice(rules, Direct, s, w, 1, FINE, Turn(db, SelectRunning(0)), FINE, Turn(db, DeliverReserve(0)));
    s, w := Twice(rules, Direct, s, w, 1, FINE, Turn(held, DeliverReadHandle), FINE, Turn(held, DeliverSend));
    s, w := Twice(rules, Direct, s, w, 1, FINE, Turn(posted, DeliverStore("")),
                  FINE, Turn(posted.(row := posted.row.(handle := Some(""))), DeliverMark("")));
    actions, w := Then(rules, Direct, s, w, Reconciler(1, FAILS));
  }
}
