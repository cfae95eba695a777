/**
 Who may change what, and into what: the table of all changes to the database. And what follows from it for delivery:
 only a reservation takes a row from running to delivering, and the one who made it may post.
 */
module TeamChatMoves {
  import opened Wrappers
  import opened TeamChatRow
  import opened TeamChatProtocol
  import opened TeamChatDelivery

  // --- the table ---------------------------------------------------------------------

  /** Of the shared state only these columns of the row change. */
  predicate Sets(db: Db, to: Db, status: Status, reason: Reason, lease: Option<int>) {
    to == db.(row := db.row.(status := status, reason := reason, lease := lease))
  }

  predicate Delivers(db: Db, to: Db, handle: string) {
    to == db.(row := db.row.(status := Delivered, lease := None, handle := Some(handle)))
  }

  predicate Over(lease: Option<int>, time: int) {
    lease.Some? && lease.value <= time
  }

  predicate InRouting(reason: Reason) {
    reason.Routing? || reason.Rearmed?
  }

  predicate Unowned(reason: Reason) {
    reason.NoReason? || reason.RoutineWake? || reason.Judged?
  }

  predicate Waiting(status: Status) {
    status.Deferred? || status.Received? || status.Observed?
  }

  predicate Frees(db: Db, to: Db) {
    Sets(db, to, if db.kind.Ambient? then Observed else Received, NoReason, None)
  }

  /** What a reconciler's step makes of the shared state, if the call takes effect and there is anything to change. */
  predicate WorkerChanges(db: Db, pc: RPc, c: Choice, to: Db) {
    match pc
    case Boot => db.row.status.Deferred? && Over(db.row.lease, db.clock) && InRouting(db.row.reason) && Sets(db, to, Deferred, NoReason, Some(db.clock))
    case DropOwnership(now) => db.row.status.Deferred? && Over(db.row.lease, now) && InRouting(db.row.reason) && Sets(db, to, Deferred, NoReason, Some(now))
    case MarkWoken(now) => db.row.status.Deferred? && Over(db.row.lease, now) && Sets(db, to, Ignored, RoutineWake, None)
    case Promote(now) => db.row.status.Deferred? && Over(db.row.lease, now) && Unowned(db.row.reason) && Frees(db, to)
    case ResetClaims(now) => db.row.status.Queueing? && Over(db.row.lease, now) && Sets(db, to, Received, NoReason, None)
    case DismissAmbient(_) => db.row.status.Observed? && Sets(db, to, Ignored, db.row.reason, db.row.lease)
    case EngageAmbient(_, None) => db.row.status.Observed? && Sets(db, to, Received, NoReason, db.row.lease)
    case EngageAmbient(_, Some(why)) => db.row.status.Observed? && Sets(db, to, Received, Judged(why), db.row.lease)
    case QueueAbandonReceived(_) => db.row.status.Received? && Sets(db, to, Ignored, RoutineWake, None)
    case QueueClaim(_) => db.row.status.Received? && Unowned(db.row.reason) && Sets(db, to, Queueing, AgentOwned, Some(db.clock + 120_000))
    case QueueAbandonClaim(_) => db.row.status.Queueing? && db.row.runId.None? && Sets(db, to, Ignored, RoutineWake, None)
    case QueueSend(_) => db.agent.None? && to == db.(agent := Some(c.newRun))
    case QueueCancelRun(_, _) => to == db.(cancelled := true)
    case QueueLink(_, run) =>
      db.row.status.Queueing? && db.row.reason.AgentOwned? && to == db.(row := db.row.(status := Running, runId := Some(run), lease := None))
    case DeliverReserve(at) => db.row.status.Running? && db.row.handle.None? && Sets(db, to, Delivering, db.row.reason, Some(at + 120_000))
    case DeliverGiveUp(at) =>
      db.row.status.Delivering? && db.row.handle.None? && (db.row.lease.None? || Over(db.row.lease, at)) && Delivers(db, to, "unconfirmed")
    case DeliverSend => to == db.(posts := db.posts + 1)
    case DeliverStore(handle) => to == db.(row := db.row.(handle := Some(handle)))
    case DeliverMark(handle) => Delivers(db, to, handle)
    case RetryMark(_, handle) => Delivers(db, to, handle)
    case RetryWrite(_, Queueing) => db.row.status.Queueing? && db.row.handle.None? && Sets(db, to, Received, NoReason, Some(db.clock + c.delay))
    case RetryWrite(_, current) => db.row.status == current && db.row.handle.None? && Sets(db, to, current, db.row.reason, Some(db.clock + c.delay))
    case _ => false
  }

  predicate Extends(db: Db, to: Db) {
    db.row.status.Deferred? && Sets(db, to, Deferred, Routing, Some(db.clock + 1_800_000))
  }

  predicate MainChanges(db: Db, main: Main, to: Db) {
    match main
    case Receive(at) => db.row.status.Absent? && to == db.(row := Row(Deferred, NoReason, Some(at + 120_000), None, None))
    case ReceiveDefer(at) =>
      (db.row.status.Received? || db.row.status.Observed? || (db.row.status.Deferred? && Over(db.row.lease, at)))
      && Sets(db, to, Deferred, db.row.reason, Some(at + 120_000))
    case Extending => Extends(db, to)
    case Holding => Extends(db, to)
    case Resolving(true) => Waiting(db.row.status) && Sets(db, to, Ignored, RoutineWake, None)
    case Resolving(false) => db.row.status.Deferred? && Frees(db, to)
    case Releasing => db.row.status.Deferred? && Frees(db, to)
    case _ => false
  }

  predicate WakeChanges(db: Db, wake: Wake, to: Db) {
    match wake
    case Reserving =>
      Waiting(db.row.status) && (db.row.reason.NoReason? || InRouting(db.row.reason))
      && Sets(db, to, db.row.status, Routing, Some(db.clock + 1_800_000))
    case Waking => to == db.(wake := true)
    case _ => false
  }

  /** What an action makes of the shared state. */
  predicate Changes(w: World, a: Action, to: Db) {
    match a
    case Tick(elapsed) => to == w.db.(clock := w.db.clock + elapsed)
    case Reconciler(b, c) => !c.fault.FailsBefore? && b in w.reconcilers && WorkerChanges(w.db, w.reconcilers[b], c, to)
    case Observe(b, c) =>
      !c.fault.FailsBefore? && Started(w, b) && w.db.row.status.Absent?
      && to == w.db.(row := Row(if w.db.kind.Ambient? then Observed else Received, NoReason, None, None, None))
    case Finishes(report) => w.db.agent.Some? && w.db.report.Unfinished? && to == w.db.(report := report)
    case Step(h, c) => !c.fault.FailsBefore? && h in w.handlers && MainChanges(w.db, w.handlers[h].main, to)
    case StepWake(h, c) => !c.fault.FailsBefore? && h in w.handlers && WakeChanges(w.db, w.handlers[h].wake, to)
    case Renew(h, c) => !c.fault.FailsBefore? && h in w.handlers && w.handlers[h].beating && Extends(w.db, to)
    case _ => false
  }

  // --- the machine follows the table -------------------------------------------------

  lemma RecoverFollows(db: Db, marked: bool, pc: RPc, c: Choice, to: Db)
    requires Recovering(pc) && to != db
    ensures Recover(db, marked, pc, c).db == to <==> !c.fault.FailsBefore? && WorkerChanges(db, pc, c, to)
  {
  }

  lemma EngagementFollows(db: Db, pc: RPc, c: Choice, to: Db)
    requires !Recovering(pc) && !Delivery(pc) && to != db
    ensures Engagement(db, pc, c).db == to <==> !c.fault.FailsBefore? && WorkerChanges(db, pc, c, to)
  {
  }

  lemma PostFollows(db: Db, pc: RPc, c: Choice, to: Db)
    requires Delivery(pc) && !Retrying(pc) && to != db
    ensures Post(db, pc, c).db == to <==> !c.fault.FailsBefore? && WorkerChanges(db, pc, c, to)
  {
  }

  lemma PutBackFollows(db: Db, pc: RPc, c: Choice, to: Db)
    requires Retrying(pc) && to != db
    ensures PutBack(db, pc, c).db == to <==> !c.fault.FailsBefore? && WorkerChanges(db, pc, c, to)
  {
  }

  lemma WorkerFollows(db: Db, marked: bool, pc: RPc, c: Choice, to: Db)
    requires to != db
    ensures Reconcile(db, marked, pc, c).db == to <==> !c.fault.FailsBefore? && WorkerChanges(db, pc, c, to)
  {
    hide Recover, Engagement, Post, PutBack, WorkerChanges;
    if Recovering(pc) {
      RecoverFollows(db, marked, pc, c, to);
    } else if !Delivery(pc) {
      EngagementFollows(db, pc, c, to);
    } else if Retrying(pc) {
      PutBackFollows(db, pc, c, to);
    } else {
      PostFollows(db, pc, c, to);
    }
  }

  lemma MainFollows(db: Db, h: Handler, c: Choice, to: Db)
    requires to != db
    ensures HandleMain(db, h, c).db == to <==> !c.fault.FailsBefore? && MainChanges(db, h.main, to)
  {
  }

  lemma WakeFollows(db: Db, h: Handler, c: Choice, to: Db)
    requires to != db
    ensures HandleWake(db, h, c).db == to <==> !c.fault.FailsBefore? && WakeChanges(db, h.wake, to)
    ensures HandleRenewal(db, h, c).db == to <==> !c.fault.FailsBefore? && h.beating && Extends(db, to)
  {
  }

  /** The shared state changes exactly as the table says: by whom, from what, and into what. */
  lemma StateChangesExactlySo(w: World, a: Action, to: Db)
    requires to != w.db
    ensures Do(w, a).db == to <==> Changes(w, a, to)
  {
    hide Reconcile, HandleMain, HandleWake, HandleRenewal, WorkerChanges, MainChanges, WakeChanges, Extends;
    match a
    case Reconciler(b, c) => if b in w.reconcilers { WorkerFollows(w.db, b in w.inFlight, w.reconcilers[b], c, to); }
    case Step(h, c) => if h in w.handlers { MainFollows(w.db, w.handlers[h], c, to); }
    case StepWake(h, c) => if h in w.handlers { WakeFollows(w.db, w.handlers[h], c, to); }
    case Renew(h, c) => if h in w.handlers { WakeFollows(w.db, w.handlers[h], c, to); }
    case _ =>
  }

  // --- reservations ------------------------------------------------------------------

  /** The worker's step reserves the row for posting; unless its call failed it may post afterwards. */
  ghost predicate Reserves(w: World, a: Action) {
    && a.Reconciler? && a.bridge in w.reconcilers && w.reconcilers[a.bridge].DeliverReserve?
    && w.db.row.status.Running? && Do(w, a).db.row.status.Delivering?
    && (a.c.fault.Fine? ==> Do(w, a).reconcilers[a.bridge] == DeliverReadHandle)
  }

  /** In every run a running row comes to delivering by a worker's reservation and in no other way. */
  lemma OnlyAReservationStartsDelivering(kind: Kind, actions: seq<Action>, a: Action)
    requires var w := Run(Initial(kind), actions); w.db.row.status.Running? && Do(w, a).db.row.status.Delivering?
    ensures Reserves(Run(Initial(kind), actions), a)
  {
    var w := Run(Initial(kind), actions);
    hide Run, Reconcile, HandleMain, HandleWake, HandleRenewal;
    RunKeeps(kind, actions);
    StateChangesExactlySo(w, a, Do(w, a).db);
    ReservationGoesTo(w.db, a);
  }

  lemma ReservationGoesTo(db: Db, a: Action)
    requires a.Reconciler? && db.row.status.Running? && db.row.handle.None?
    ensures forall marked, at :: Reconcile(db, marked, DeliverReserve(at), a.c).pc == if a.c.fault.Fine? then DeliverReadHandle else RetryRead(None)
  {
  }

  ghost predicate WasReserved(kind: Kind, actions: seq<Action>) {
    exists n :: 0 <= n < |actions| && Reserves(Run(Initial(kind), actions[..n]), actions[n])
  }

  predicate SaysSilence(handle: string) {
    handle == "silent" || handle == "silent-failure"
  }

  /** The row is reserved, was posted, or says that a confirmation was lost or that there was a post. */
  predicate SaysReserved(db: Db) {
    db.row.status.Delivering? || db.posts > 0 || (db.row.handle.Some? && !SaysSilence(db.row.handle.value))
  }

  /** The worker may post, has posted, or is about to say so. */
  predicate Posts(pc: RPc) {
    match pc
    case DeliverReadHandle => true
    case DeliverSend => true
    case DeliverStore(_) => true
    case DeliverMark(handle) => !SaysSilence(handle)
    case RetryMark(_, handle) => !SaysSilence(handle)
    case _ => false
  }

  ghost predicate Shows(w: World) {
    SaysReserved(w.db) || exists b :: b in w.reconcilers && Posts(w.reconcilers[b])
  }

  lemma RecoverShowsNothingNew(db: Db, marked: bool, pc: RPc, c: Choice)
    requires Recovering(pc)
    ensures var t := Recover(db, marked, pc, c); SaysReserved(t.db) || Posts(t.pc) ==> SaysReserved(db)
  {
  }

  lemma EngagementShowsNothingNew(db: Db, pc: RPc, c: Choice)
    requires !Recovering(pc) && !Delivery(pc)
    ensures var t := Engagement(db, pc, c); SaysReserved(t.db) || Posts(t.pc) ==> SaysReserved(db)
  {
  }

  lemma DeliverShowsNothingNew(db: Db, pc: RPc, c: Choice)
    requires Shared(db) && Delivery(pc) && !(db.row.status.Running? && Deliver(db, pc, c).db.row.status.Delivering?)
    ensures var t := Deliver(db, pc, c); SaysReserved(t.db) || Posts(t.pc) ==> SaysReserved(db) || Posts(pc)
  {
  }

  lemma TurnShowsNothingNew(db: Db, marked: bool, pc: RPc, c: Choice)
    requires Shared(db) && !(db.row.status.Running? && Reconcile(db, marked, pc, c).db.row.status.Delivering?)
    ensures var t := Reconcile(db, marked, pc, c); SaysReserved(t.db) || Posts(t.pc) ==> SaysReserved(db) || Posts(pc)
  {
    hide Recover, Engagement, Deliver, Shared, SaysReserved, Posts;
    if Recovering(pc) {
      RecoverShowsNothingNew(db, marked, pc, c);
    } else if Delivery(pc) {
      DeliverShowsNothingNew(db, pc, c);
    } else {
      EngagementShowsNothingNew(db, pc, c);
    }
  }

  lemma HandlersShowNothingNew(db: Db, h: Handler, c: Choice)
    ensures SaysReserved(HandleMain(db, h, c).db) ==> SaysReserved(db)
    ensures SaysReserved(HandleWake(db, h, c).db) ==> SaysReserved(db)
    ensures SaysReserved(HandleRenewal(db, h, c).db) ==> SaysReserved(db)
  {
  }

  lemma StepShowsNothingNew(w: World, a: Action)
    requires Inv(w) && Shows(Do(w, a)) && !(w.db.row.status.Running? && Do(w, a).db.row.status.Delivering?)
    ensures Shows(w)
  {
    hide Reconcile, HandleMain, HandleWake, HandleRenewal, Shared, Local;
    match a
    case Reconciler(b, c) => if b in w.reconcilers { TurnShowsNothingNew(w.db, b in w.inFlight, w.reconcilers[b], c); }
    case Step(h, c) => if h in w.handlers { HandlersShowNothingNew(w.db, w.handlers[h], c); }
    case StepWake(h, c) => if h in w.handlers { HandlersShowNothingNew(w.db, w.handlers[h], c); }
    case Renew(h, c) => if h in w.handlers { HandlersShowNothingNew(w.db, w.handlers[h], c); }
    case _ =>
  }

  lemma {:induction false} WhatShowsWasReserved(kind: Kind, actions: seq<Action>)
    requires Shows(Run(Initial(kind), actions))
    ensures WasReserved(kind, actions)
  {
    hide Do, Shows;
    if actions == [] {
      NothingShowsAtFirst(kind);
    } else {
      var n := |actions| - 1;
      var before := actions[..n];
      var w := Run(Initial(kind), before);
      RunKeeps(kind, before);
      if w.db.row.status.Running? && Do(w, actions[n]).db.row.status.Delivering? {
        OnlyAReservationStartsDelivering(kind, before, actions[n]);
      } else {
        StepShowsNothingNew(w, actions[n]);
        WhatShowsWasReserved(kind, before);
        var k :| 0 <= k < |before| && Reserves(Run(Initial(kind), before[..k]), before[k]);
        assert actions[..k] == before[..k];
      }
    }
  }

  lemma NothingShowsAtFirst(kind: Kind)
    ensures !Shows(Initial(kind))
  {
  }

  /**
   In every run a row in delivering, a row that was posted, and a row that says its confirmation was lost has a
   reservation in its past, by a worker that could then post. So no retry, no recovery and no handler gives a reply up.
   */
  lemma EveryPostWasReserved(kind: Kind, actions: seq<Action>)
    ensures var db := Run(Initial(kind), actions).db;
      db.row.status.Delivering? || db.posts > 0 || db.row.handle == Some(UNCONFIRMED) ==> WasReserved(kind, actions)
  {
    if SaysReserved(Run(Initial(kind), actions).db) {
      WhatShowsWasReserved(kind, actions);
    }
  }

  // --- renewals ----------------------------------------------------------------------

  /** While a handler races its wake, a renewal tells it exactly whether the row is still deferred. */
  lemma RenewalTells(w: World, h: nat, c: Choice)
    requires h in w.handlers && w.handlers[h].beating && w.handlers[h].main.Racing? && w.handlers[h].lost.Held?
    requires !w.handlers[h].wake.Woken? && !w.handlers[h].wake.Broken?
    ensures Do(w, Renew(h, c)).handlers[h].lost ==
      if !c.fault.Fine? then RenewalFailed else if w.db.row.status.Deferred? then Held else LeaseLost
  {
  }

  /** At some point of the run the row was not deferred while this handler was there. */
  ghost predicate WasTaken(kind: Kind, actions: seq<Action>, h: nat) {
    exists n :: 0 <= n <= |actions| && h in Run(Initial(kind), actions[..n]).handlers
                && !Run(Initial(kind), actions[..n]).db.row.status.Deferred?
  }

  lemma OnlyARenewalLoses(w: World, a: Action, h: nat)
    requires h in Do(w, a).handlers && Do(w, a).handlers[h].lost.LeaseLost?
    ensures h in w.handlers && (w.handlers[h].lost.LeaseLost? || (a.Renew? && !w.db.row.status.Deferred?))
  {
    hide Reconcile;
  }

  /** In every run a handler that regards its lease as lost had in fact lost the row. */
  lemma {:induction false} LostLeaseMeansTaken(kind: Kind, actions: seq<Action>, h: nat)
    requires h in Run(Initial(kind), actions).handlers && Run(Initial(kind), actions).handlers[h].lost.LeaseLost?
    ensures WasTaken(kind, actions, h)
  {
    hide Do;
    if actions != [] {
      var n := |actions| - 1;
      OnlyARenewalLoses(Run(Initial(kind), actions[..n]), actions[n], h);
      if Run(Initial(kind), actions[..n]).handlers[h].lost.LeaseLost? {
        LostLeaseMeansTaken(kind, actions[..n], h);
        var k :| 0 <= k <= n && h in Run(Initial(kind), actions[..n][..k]).handlers && !Run(Initial(kind), actions[..n][..k]).db.row.status.Deferred?;
        assert actions[..n][..k] == actions[..k];
      }
    }
  }
}
