/**
 That there is a way to the end: what a bridge that starts now, and that nobody disturbs, makes of
 a row it may take, step by step through recovery, judge, queue and delivery.
 */
module TeamChatProgress {
  import opened Wrappers
  import opened TeamChatRow
  import opened TeamChatProtocol
  import opened TeamChatDelivery
  import opened TeamChatReplies
  import opened TeamChatRuns
  import opened TeamChatWitnesses

  // --- what a run can still reach ----------------------------------------------------

  /** The event is not delivered again. */
  predicate NoDelivery(actions: seq<Action>) {
    forall k :: 0 <= k < |actions| ==> !actions[k].Arrive? && !actions[k].Observe?
  }

  /** Without another delivery the database can come to such a state. */
  ghost predicate CanReach(w: World, goal: Db -> bool) {
    exists more :: NoDelivery(more) && goal(Run(w, more).db)
  }

  lemma Reached(w: World, goal: Db -> bool)
    requires goal(w.db)
    ensures CanReach(w, goal)
  {
    assert NoDelivery([]) && Run(w, []) == w;
  }

  lemma ReachesAfter(w: World, a: Action, goal: Db -> bool)
    requires !a.Arrive? && !a.Observe? && CanReach(Do(w, a), goal)
    ensures CanReach(w, goal)
  {
    var more :| NoDelivery(more) && goal(Run(Do(w, a), more).db);
    RunComposes(w, [a], more);
    assert [a][..0] == [] && Run(w, [a]) == Do(Run(w, []), a);
    assert NoDelivery([a] + more);
  }

  // --- leases ------------------------------------------------------------------------

  /** A deferred or claimed row has a lease, so it does not stay so for ever. */
  predicate Leased(row: Row) {
    row.status.Deferred? || row.status.Queueing? ==> row.lease.Some?
  }

  lemma TurnKeepsLeased(db: Db, marked: bool, pc: RPc, c: Choice)
    requires Leased(db.row)
    ensures Leased(Reconcile(db, marked, pc, c).db.row)
  {
    if Recovering(pc) {
      RecoverKeepsLeased(db, marked, pc, c);
    } else if Delivery(pc) {
      DeliverKeepsLeased(db, pc, c);
    } else {
      EngagementKeepsLeased(db, pc, c);
    }
  }

  lemma RecoverKeepsLeased(db: Db, marked: bool, pc: RPc, c: Choice)
    requires Leased(db.row) && Recovering(pc)
    ensures Leased(Recover(db, marked, pc, c).db.row)
  {
  }

  lemma EngagementKeepsLeased(db: Db, pc: RPc, c: Choice)
    requires Leased(db.row) && !Recovering(pc) && !Delivery(pc)
    ensures Leased(Engagement(db, pc, c).db.row)
  {
  }

  lemma DeliverKeepsLeased(db: Db, pc: RPc, c: Choice)
    requires Leased(db.row) && Delivery(pc)
    ensures Leased(Deliver(db, pc, c).db.row)
  {
  }

  lemma HandlerKeepsLeased(db: Db, h: Handler, c: Choice)
    requires Leased(db.row)
    ensures Leased(HandleMain(db, h, c).db.row) && Leased(HandleWake(db, h, c).db.row) && Leased(HandleRenewal(db, h, c).db.row)
  {
  }

  lemma {:induction false} RunIsLeased(kind: Kind, actions: seq<Action>)
    ensures Leased(Run(Initial(kind), actions).db.row)
  {
    if actions != [] {
      var w, a := Run(Initial(kind), actions[..|actions| - 1]), actions[|actions| - 1];
      RunIsLeased(kind, actions[..|actions| - 1]);
      hide Reconcile, HandleMain, HandleWake, HandleRenewal;
      match a
      case Reconciler(b, c) => if b in w.reconcilers { TurnKeepsLeased(w.db, b in w.inFlight, w.reconcilers[b], c); }
      case Step(h, c) => if h in w.handlers { HandlerKeepsLeased(w.db, w.handlers[h], c); }
      case StepWake(h, c) => if h in w.handlers { HandlerKeepsLeased(w.db, w.handlers[h], c); }
      case Renew(h, c) => if h in w.handlers { HandlerKeepsLeased(w.db, w.handlers[h], c); }
      case _ =>
    }
  }

  // --- the way -----------------------------------------------------------------------

  /** The handle that stands for the silence about this run. */
  function Silence(report: Report): string {
    if report.Failure? then SILENT_FAILURE else SILENT
  }

  /** A committed wake takes the row as long as no run is linked to it. */
  predicate GoesToRoutine(db: Db) {
    db.wake && !Linked(db.row)
  }

  /** Left to the routine, or delivered: the reply to the linked run was posted, under the provider's handle, if there is one. */
  predicate Answered(db: Db, handle: string, report: Report, routine: bool) {
    if routine then db.row.status.Ignored? && db.wake
    else
      && db.row.status.Delivered? && db.row.runId.Some? && db.row.runId == db.agent && db.report == report
      && (if HasReply(db) then db.posts == 1 && db.row.handle == Some(handle)
          else db.posts == 0 && db.row.handle == Some(Silence(report)))
  }

  /** Nothing has been sent for the event. */
  predicate Unsent(db: Db) {
    db.row.handle.None? && db.posts == 0 && !db.row.status.Delivering?
  }

  /** What the way leads to: an answer, or, for a row that somebody reserved for posting, at least its end. */
  predicate Ended(db: Db, handle: string, report: Report, routine: bool, unsent: bool) {
    if unsent then Answered(db, handle, report, routine) else db.row.status.Delivered?
  }

  function EndedAt(handle: string, report: Report, routine: bool, unsent: bool): Db -> bool {
    (db: Db) => Ended(db, handle, report, routine, unsent)
  }

  /** A bridge that starts now may take the row, and no lease stands against it. */
  predicate Takable(db: Db) {
    match db.row.status
    case Deferred => Expired(db.row.lease, db.clock)
    case Observed => Due(db.row.lease, db.clock)
    case Received => Due(db.row.lease, db.clock) && FreeOfOwnership(db.row.reason)
    case Queueing => Expired(db.row.lease, db.clock)
    case Running => Due(db.row.lease, db.clock)
    case Delivering => Due(db.row.lease, db.clock) && db.row.handle != Some("")
    case _ => false
  }

  /** A row that recovery has left deferred carries no marker any more, and is released by the next pass. */
  predicate PastRecovery(db: Db) {
    Takable(db) && (db.row.status.Deferred? ==> !IsRoutingReason(db.row.reason))
  }

  /** Its run is linked, and delivery is what is left to do. */
  predicate ToDeliver(db: Db, unsent: bool) {
    Takable(db) && (if unsent then db.row.status.Running? && Unsent(db) else db.row.status.Delivering?)
  }

  /** The bridge is at a place of its pass from which it goes on with this row. */
  predicate OnPath(db: Db, pc: RPc, handle: string, unsent: bool) {
    match pc
    case Boot => Takable(db)
    case Idle => Takable(db)
    case SelectExpired(now) => now == db.clock && Takable(db)
    case FindWoken(now, seen) => now == db.clock && Takable(db) && db.row.status.Deferred? && seen == db.row.reason
    case DecideExpired(now, seen, woken) =>
      now == db.clock && Takable(db) && db.row.status.Deferred? && seen == db.row.reason && woken == db.wake
    case MarkWoken(now) => now == db.clock && Takable(db) && db.row.status.Deferred? && db.wake
    case DropOwnership(now) => now == db.clock && Takable(db) && db.row.status.Deferred? && IsRoutingReason(db.row.reason)
    case Promote(now) => now == db.clock && Takable(db) && db.row.status.Deferred? && !IsRoutingReason(db.row.reason)
    case ResetClaims(now) => now == db.clock && PastRecovery(db)
    case SelectObserved(now) => now == db.clock && PastRecovery(db) && !db.row.status.Queueing?
    case EngageAmbient(now, why) => now == db.clock && Takable(db) && db.row.status.Observed? && why.None?
    case SelectReceived(now) => now == db.clock && PastRecovery(db) && !db.row.status.Queueing? && !db.row.status.Observed?
    case QueueFindWake(now, seen) => now == db.clock && Takable(db) && db.row.status.Received? && !IsRoutingReason(seen)
    case QueueAbandonReceived(now) => db.row.status.Received? && db.wake
    case QueueClaim(now) => now == db.clock && Takable(db) && db.row.status.Received? && !db.wake
    case QueueFindWakeClaimed(now) => now == db.clock && InQueue(db)
    case QueueReadLatest(now) => now == db.clock && InQueue(db)
    case QueueFindWakeFinal(now) => now == db.clock && InQueue(db)
    case QueueSend(now) => now == db.clock && InQueue(db)
    case QueueFindWakeSent(now, run) => now == db.clock && InQueue(db) && db.agent == Some(run)
    case QueueLink(now, run) => now == db.clock && InQueue(db) && db.agent == Some(run)
    case QueueEnqueue(now) => now == db.clock && Takable(db) && db.row.status.Running?
    case SelectRunning(now) => now == db.clock && (ToDeliver(db, unsent) || (PastRecovery(db) && db.row.status.Deferred?))
    case DeliverRead => ToDeliver(db, unsent) && db.report.Completed?
    case DeliverReserve(at) => at == db.clock && ToDeliver(db, unsent) && HasReply(db)
    case DeliverFindPosted(at) => at == db.clock && !unsent && ToDeliver(db, unsent)
    case DeliverGiveUp(at) => at == db.clock && !unsent && ToDeliver(db, unsent) && db.row.handle.None?
    case DeliverReadHandle => AboutToPost(db)
    case DeliverSend => AboutToPost(db)
    case DeliverStore(h) => db.row.status.Delivering? && (unsent ==> h == handle && db.posts == 1 && HasReply(db))
    case DeliverMark(h) =>
      (db.row.status.Running? || db.row.status.Delivering?)
      && (unsent ==> !db.report.Unfinished? && (if HasReply(db) then db.posts == 1 && h == handle else db.posts == 0 && h == Silence(db.report)))
    case _ => false
  }

  predicate InQueue(db: Db) {
    db.row.status.Queueing? && db.row.reason.AgentOwned? && !db.wake
  }

  predicate AboutToPost(db: Db) {
    db.row.status.Delivering? && db.row.handle.None? && db.posts == 0 && HasReply(db)
  }

  /** How far it is: a row marked by routing takes two passes. */
  function Way(db: Db, pc: RPc): nat {
    Rank(pc) + if !db.row.status.Deferred? then 0
               else if IsRoutingReason(db.row.reason) then 100
               else if pc.ResetClaims? || pc.SelectObserved? || pc.SelectReceived? || pc.SelectRunning? then 50 else 0
  }

  /** The places of a pass, counted down. */
  function Rank(pc: RPc): nat {
    match pc
    case Boot => 27
    case Idle => 26
    case SelectExpired(_) => 25
    case FindWoken(_, _) => 24
    case DecideExpired(_, _, _) => 23
    case MarkWoken(_) => 22
    case DropOwnership(_) => 22
    case Promote(_) => 22
    case ResetClaims(_) => 21
    case SelectObserved(_) => 20
    case EngageAmbient(_, _) => 19
    case SelectReceived(_) => 18
    case QueueFindWake(_, _) => 17
    case QueueAbandonReceived(_) => 16
    case QueueClaim(_) => 16
    case QueueFindWakeClaimed(_) => 15
    case QueueReadLatest(_) => 14
    case QueueFindWakeFinal(_) => 13
    case QueueSend(_) => 12
    case QueueFindWakeSent(_, _) => 11
    case QueueLink(_, _) => 10
    case QueueEnqueue(_) => 9
    case SelectRunning(_) => 8
    case DeliverRead => 7
    case DeliverReserve(_) => 6
    case DeliverFindPosted(_) => 5
    case DeliverReadHandle => 4
    case DeliverSend => 3
    case DeliverStore(_) => 2
    case DeliverGiveUp(_) => 1
    case DeliverMark(_) => 1
    case _ => 0
  }

  /** Nothing fails, everything is selected, and the judge engages. */
  function Smoothly(handle: string): Choice {
    FINE.(verdict := Engage(None), handle := handle)
  }

  /** The bridge is on the way; the run has not ended, or has ended with this report. */
  predicate Underfoot(db: Db, pc: RPc, handle: string, report: Report, routine: bool, unsent: bool) {
    && OnPath(db, pc, handle, unsent)
    && (if !unsent then db.row.status.Delivering? else Unsent(db) || (db.row.status.Delivering? && Rank(pc) <= 4))
    && (db.report == report || (db.report.Unfinished? && Rank(pc) >= 8))
    && (unsent ==> (routine <==> GoesToRoutine(db)))
  }

  /** The turn ends the way, or is a step on it. */
  predicate GoesOn(db: Db, pc: RPc, t: Turn, handle: string, report: Report, routine: bool, unsent: bool) {
    Ended(t.db, handle, report, routine, unsent) || (Underfoot(t.db, t.pc, handle, report, routine, unsent) && Way(t.db, t.pc) < Way(db, pc))
  }

  lemma RecoverGoesOn(db: Db, marked: bool, pc: RPc, handle: string, report: Report, routine: bool, unsent: bool)
    requires Shared(db) && Recovering(pc) && Underfoot(db, pc, handle, report, routine, unsent)
    requires marked ==> !(db.row.status.Deferred? && IsRoutingReason(db.row.reason))
    ensures GoesOn(db, pc, Recover(db, marked, pc, Smoothly(handle)), handle, report, routine, unsent)
  {
  }

  lemma EngagementGoesOn(db: Db, pc: RPc, handle: string, report: Report, routine: bool, unsent: bool)
    requires Shared(db) && !Recovering(pc) && !Delivery(pc) && Underfoot(db, pc, handle, report, routine, unsent)
    ensures GoesOn(db, pc, Engagement(db, pc, Smoothly(handle)), handle, report, routine, unsent)
  {
  }

  /** From the running rows to the reservation, or to the next pass. */
  lemma SelectionGoesOn(db: Db, pc: RPc, handle: string, report: Report, routine: bool, unsent: bool)
    requires Shared(db) && Underfoot(db, pc, handle, report, routine, unsent) && (db.report.Unfinished? ==> db.row.status.Deferred?)
    requires pc.SelectRunning? || pc.DeliverRead?
    ensures GoesOn(db, pc, Post(db, pc, Smoothly(handle)), handle, report, routine, unsent)
  {
    hide InQueue, AboutToPost, Accounted;
  }

  /** The reservation, or what is left of somebody else's. */
  lemma ReservationGoesOn(db: Db, pc: RPc, handle: string, report: Report, routine: bool, unsent: bool)
    requires Shared(db) && Underfoot(db, pc, handle, report, routine, unsent) && !db.report.Unfinished?
    requires pc.DeliverReserve? || pc.DeliverFindPosted? || pc.DeliverGiveUp?
    ensures GoesOn(db, pc, Post(db, pc, Smoothly(handle)), handle, report, routine, unsent)
  {
    hide InQueue, PastRecovery, Accounted;
  }

  lemma PostGoesOn(db: Db, pc: RPc, handle: string, report: Report, routine: bool, unsent: bool)
    requires Shared(db) && Underfoot(db, pc, handle, report, routine, unsent) && !db.report.Unfinished?
    requires pc.DeliverReadHandle? || pc.DeliverSend? || pc.DeliverStore? || pc.DeliverMark?
    ensures GoesOn(db, pc, Post(db, pc, Smoothly(handle)), handle, report, routine, unsent)
  {
    hide InQueue, Takable, PastRecovery, ToDeliver, Accounted;
  }

  lemma TurnGoesOn(db: Db, marked: bool, pc: RPc, handle: string, report: Report, routine: bool, unsent: bool)
    requires Shared(db) && Underfoot(db, pc, handle, report, routine, unsent) && !report.Unfinished?
    requires marked ==> !(db.row.status.Deferred? && IsRoutingReason(db.row.reason))
    requires pc.SelectRunning? ==> !db.report.Unfinished? || db.row.status.Deferred?
    ensures GoesOn(db, pc, Reconcile(db, marked, pc, Smoothly(handle)), handle, report, routine, unsent)
  {
    hide Recover, Engagement, Post, PutBack, Shared, GoesOn, Takable, ToDeliver, InQueue, AboutToPost;
    if Recovering(pc) {
      RecoverGoesOn(db, marked, pc, handle, report, routine, unsent);
    } else if pc.DeliverReadHandle? || pc.DeliverSend? || pc.DeliverStore? || pc.DeliverMark? {
      PostGoesOn(db, pc, handle, report, routine, unsent);
    } else if pc.SelectRunning? || pc.DeliverRead? {
      SelectionGoesOn(db, pc, handle, report, routine, unsent);
    } else if Delivery(pc) {
      ReservationGoesOn(db, pc, handle, report, routine, unsent);
    } else {
      EngagementGoesOn(db, pc, handle, report, routine, unsent);
    }
  }

  /** Step by step; before delivery the agent run has to end. */
  lemma {:induction false} Walk(w: World, b: nat, handle: string, report: Report, routine: bool, unsent: bool)
    requires Inv(w) && b in w.reconcilers && !report.Unfinished?
    requires Underfoot(w.db, w.reconcilers[b], handle, report, routine, unsent) && Unmarked(w, b)
    ensures CanReach(w, EndedAt(handle, report, routine, unsent))
    decreases Way(w.db, w.reconcilers[b]), w.db.report.Unfinished?
  {
    hide Run, Reconcile, CanReach, Shared, Local, Ended, Way;
    var pc, goal := w.reconcilers[b], EndedAt(handle, report, routine, unsent);
    if pc.SelectRunning? && w.db.report.Unfinished? && !w.db.row.status.Deferred? {
      RunEnds(w, b, report, handle, routine, unsent);
      Walk(Do(w, Finishes(report)), b, handle, report, routine, unsent);
      ReachesAfter(w, Finishes(report), goal);
    } else {
      var a := Reconciler(b, Smoothly(handle));
      TurnGoesOn(w.db, b in w.inFlight, pc, handle, report, routine, unsent);
      StaysUnmarked(w.db, b in w.inFlight, pc, handle);
      StepKeeps(w, a);
      if Ended(Do(w, a).db, handle, report, routine, unsent) {
        Reached(Do(w, a), goal);
      } else {
        Walk(Do(w, a), b, handle, report, routine, unsent);
      }
      ReachesAfter(w, a, goal);
    }
  }

  /** The bridge does not hold the row back for a routine wake of its own. */
  predicate Unmarked(w: World, b: nat) {
    b in w.inFlight ==> !(w.db.row.status.Deferred? && IsRoutingReason(w.db.row.reason))
  }

  /** No worker marks a row for routing. */
  lemma StaysUnmarked(db: Db, marked: bool, pc: RPc, handle: string)
    ensures var t := Reconcile(db, marked, pc, Smoothly(handle));
      t.db.row.status.Deferred? && IsRoutingReason(t.db.row.reason) ==> db.row.status.Deferred? && IsRoutingReason(db.row.reason)
  {
  }

  lemma RunEnds(w: World, b: nat, report: Report, handle: string, routine: bool, unsent: bool)
    requires Inv(w) && b in w.reconcilers && w.reconcilers[b].SelectRunning? && !report.Unfinished? && w.db.report.Unfinished?
    requires Underfoot(w.db, w.reconcilers[b], handle, report, routine, unsent) && !w.db.row.status.Deferred?
    ensures var w' := Do(w, Finishes(report));
      && Inv(w') && w'.reconcilers == w.reconcilers && w'.db == w.db.(report := report) && w'.inFlight == w.inFlight
      && Underfoot(w'.db, w'.reconcilers[b], handle, report, routine, unsent) && Way(w'.db, w'.reconcilers[b]) == Way(w.db, w.reconcilers[b])
  {
    StepKeeps(w, Finishes(report));
  }

  // --- from every reachable world ----------------------------------------------------

  /** A status that leaves something to do, and nothing in the row that keeps a new process from doing it. */
  predicate Movable(row: Row) {
    match row.status
    case Received => FreeOfOwnership(row.reason)
    case Delivering => row.handle != Some("")
    case Absent => false
    case Delivered => false
    case Ignored => false
    case _ => true
  }

  /**
   From every reachable world in which the row can be taken at all, whatever the actors are doing, and however the agent run
   ends if it has not: a process that is lost, started again, and left alone answers the event. A row that somebody
   reserved for posting is finished.
   */
  lemma EveryMovableRowIsAnswered(kind: Kind, actions: seq<Action>, handle: string, report: Report)
    requires var db := Run(Initial(kind), actions).db;
      Movable(db.row) && !report.Unfinished? && (db.report == report || db.report.Unfinished?)
    ensures var w := Run(Initial(kind), actions);
      CanReach(w, EndedAt(handle, report, GoesToRoutine(w.db), !w.db.row.status.Delivering?))
  {
    hide Run, Do, CanReach, Shared;
    var w := Run(Initial(kind), actions);
    RunKeeps(kind, actions);
    RunIsLeased(kind, actions);
    var goal := EndedAt(handle, report, GoesToRoutine(w.db), !w.db.row.status.Delivering?);
    var due := if w.db.row.lease.Some? && w.db.row.lease.value > w.db.clock then w.db.row.lease.value - w.db.clock else 0;
    var x := Do(w, Crash(0));
    var y := Do(x, BootBridge(0));
    var z := Restarted(w, due);
    MovableIsTakable(w.db, due);
    Walk(z, 0, handle, report, GoesToRoutine(w.db), !w.db.row.status.Delivering?);
    ReachesAfter(y, Tick(due), goal);
    ReachesAfter(x, BootBridge(0), goal);
    ReachesAfter(w, Crash(0), goal);
  }

  /** Nor need any process be lost: a live bridge that is between two passes does the same, unless it holds the row back itself. */
  lemma EveryIdleBridgeAnswers(kind: Kind, actions: seq<Action>, b: nat, handle: string, report: Report)
    requires var w := Run(Initial(kind), actions);
      && Movable(w.db.row) && !report.Unfinished? && (w.db.report == report || w.db.report.Unfinished?)
      && b in w.reconcilers && w.reconcilers[b].Idle? && b !in w.inFlight
    ensures var w := Run(Initial(kind), actions);
      CanReach(w, EndedAt(handle, report, GoesToRoutine(w.db), !w.db.row.status.Delivering?))
  {
    hide Run, CanReach, Shared;
    var w := Run(Initial(kind), actions);
    RunKeeps(kind, actions);
    RunIsLeased(kind, actions);
    var due := if w.db.row.lease.Some? && w.db.row.lease.value > w.db.clock then w.db.row.lease.value - w.db.clock else 0;
    StepKeeps(w, Tick(due));
    MovableIsTakable(w.db, due);
    Walk(Do(w, Tick(due)), b, handle, report, GoesToRoutine(w.db), !w.db.row.status.Delivering?);
    ReachesAfter(w, Tick(due), EndedAt(handle, report, GoesToRoutine(w.db), !w.db.row.status.Delivering?));
  }

  /** The process of bridge 0 is lost and started again, and time passes. */
  lemma Restarted(w: World, due: nat) returns (z: World)
    requires Inv(w)
    ensures z == Do(Do(Do(w, Crash(0)), BootBridge(0)), Tick(due))
    ensures Inv(z) && 0 in z.reconcilers && z.reconcilers[0] == Boot && 0 !in z.inFlight && z.db == w.db.(clock := w.db.clock + due)
  {
    hide Inv;
    StepKeeps(w, Crash(0));
    StepKeeps(Do(w, Crash(0)), BootBridge(0));
    StepKeeps(Do(Do(w, Crash(0)), BootBridge(0)), Tick(due));
    z := Do(Do(Do(w, Crash(0)), BootBridge(0)), Tick(due));
  }

  lemma MovableIsTakable(db: Db, due: nat)
    requires Shared(db) && Leased(db.row) && Movable(db.row)
    requires db.row.lease.Some? ==> db.row.lease.value <= db.clock + due
    ensures Takable(db.(clock := db.clock + due)) && (!db.row.status.Delivering? ==> Unsent(db))
  {
  }
}
