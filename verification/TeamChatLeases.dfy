/**
 Who may change a row before its lease ends, in every run: for a claimed, a deferred and a
 reserved row, exactly the program points whose next write can touch it.
 */
module TeamChatLeases {
  import opened Wrappers
  import opened TeamChatRow
  import opened TeamChatProtocol
  import opened TeamChatDelivery
  import opened TeamChatExclusivity
  import opened TeamChatWitnesses

  /** The row has this status and its lease is still running. */
  predicate Held(w: World, status: Status) {
    w.db.row.status == status && w.db.row.lease.Some? && w.db.clock < w.db.row.lease.value
  }

  /** The reconciler of this bridge can change the row with its next step. */
  ghost predicate MayChange(w: World, b: nat) {
    exists c: Choice :: Do(w, Reconciler(b, c)).db.row != w.db.row
  }

  // --- time --------------------------------------------------------------------------

  /** The time a program point compares leases with lies in the past. */
  predicate Past(clock: int, pc: RPc) {
    match pc
    case MarkWoken(now) => now <= clock
    case DropOwnership(now) => now <= clock
    case Promote(now) => now <= clock
    case SelectExpired(now) => now <= clock
    case FindWoken(now, _) => now <= clock
    case DecideExpired(now, _, _) => now <= clock
    case ResetClaims(now) => now <= clock
    case DeliverReserve(at) => at <= clock
    case DeliverFindPosted(at) => at <= clock
    case DeliverGiveUp(at) => at <= clock
    case _ => true
  }

  predicate HandlerPast(clock: int, h: Handler) {
    h.main.Receive? || h.main.ReceiveDefer? ==> h.main.at <= clock
  }

  /** A queueing row always carries the agent's marker. */
  predicate Owned(row: Row) {
    row.status.Queueing? ==> row.reason.AgentOwned?
  }

  ghost predicate Timely(w: World) {
    && (forall b :: b in w.reconcilers ==> Past(w.db.clock, w.reconcilers[b]))
    && (forall h :: h in w.handlers ==> HandlerPast(w.db.clock, w.handlers[h]))
    && Owned(w.db.row)
  }

  predicate TimelyTurn(db: Db, t: Turn) {
    t.db.clock == db.clock && Past(db.clock, t.pc) && Owned(t.db.row)
  }

  lemma RecoverIsTimely(db: Db, marked: bool, pc: RPc, c: Choice)
    requires Recovering(pc) && Past(db.clock, pc) && Owned(db.row)
    ensures TimelyTurn(db, Recover(db, marked, pc, c))
  {
  }

  lemma EngagementIsTimely(db: Db, pc: RPc, c: Choice)
    requires !Recovering(pc) && !Delivery(pc) && Owned(db.row)
    ensures TimelyTurn(db, Engagement(db, pc, c))
  {
  }

  lemma DeliverIsTimely(db: Db, pc: RPc, c: Choice)
    requires Delivery(pc) && Past(db.clock, pc) && Owned(db.row)
    ensures TimelyTurn(db, Deliver(db, pc, c))
  {
  }

  lemma TurnIsTimely(db: Db, marked: bool, pc: RPc, c: Choice)
    requires Past(db.clock, pc) && Owned(db.row)
    ensures TimelyTurn(db, Reconcile(db, marked, pc, c))
  {
    hide Recover, Engagement, Deliver, TimelyTurn;
    if Recovering(pc) {
      RecoverIsTimely(db, marked, pc, c);
    } else if Delivery(pc) {
      DeliverIsTimely(db, pc, c);
    } else {
      EngagementIsTimely(db, pc, c);
    }
  }

  predicate TimelyHandler(db: Db, t: HandlerTurn) {
    t.db.clock == db.clock && HandlerPast(db.clock, t.handler) && Owned(t.db.row)
  }

  lemma MainIsTimely(db: Db, h: Handler, c: Choice)
    requires HandlerPast(db.clock, h) && Owned(db.row)
    ensures TimelyHandler(db, HandleMain(db, h, c))
  {
  }

  lemma WakeIsTimely(db: Db, h: Handler, c: Choice)
    requires HandlerPast(db.clock, h) && Owned(db.row)
    ensures TimelyHandler(db, HandleWake(db, h, c)) && TimelyHandler(db, HandleRenewal(db, h, c))
  {
  }

  lemma StepKeepsTimely(w: World, a: Action)
    requires Timely(w)
    ensures Timely(Do(w, a))
  {
    hide Reconcile, HandleMain, HandleWake, HandleRenewal;
    match a
    case Reconciler(b, c) =>
      if b in w.reconcilers {
        TurnIsTimely(w.db, b in w.inFlight, w.reconcilers[b], c);
      }
    case Step(h, c) =>
      if h in w.handlers {
        MainIsTimely(w.db, w.handlers[h], c);
      }
    case StepWake(h, c) =>
      if h in w.handlers {
        WakeIsTimely(w.db, w.handlers[h], c);
      }
    case Renew(h, c) =>
      if h in w.handlers {
        WakeIsTimely(w.db, w.handlers[h], c);
      }
    case _ =>
  }

  lemma {:induction false} RunIsTimely(kind: Kind, actions: seq<Action>)
    ensures Timely(Run(Initial(kind), actions))
  {
    if actions != [] {
      RunIsTimely(kind, actions[..|actions| - 1]);
      StepKeepsTimely(Run(Initial(kind), actions[..|actions| - 1]), actions[|actions| - 1]);
    }
  }

  // --- reconcilers -------------------------------------------------------------------

  /** The queue links the row, leaves it to a routine, or puts it back after a failure. */
  predicate EndsClaim(pc: RPc) {
    pc.QueueLink? || pc.QueueAbandonClaim? || (pc.RetryWrite? && pc.current.Queueing?)
  }

  /** A worker whose step failed writes its retry to whatever deferred row it found. */
  predicate PostponesDeferred(pc: RPc) {
    pc.RetryWrite? && pc.current.Deferred?
  }

  /** The worker that posts stores its handle; one that stays silent marks the row; one that failed postpones it. */
  predicate MovesReservation(pc: RPc) {
    pc.DeliverStore? || pc.DeliverMark? || (pc.RetryWrite? && pc.current.Delivering?)
  }

  predicate Touches(status: Status, pc: RPc) {
    match status
    case Queueing => EndsClaim(pc)
    case Deferred => PostponesDeferred(pc)
    case Delivering => MovesReservation(pc)
    case _ => false
  }

  ghost predicate Quiet(db: Db, status: Status) {
    && db.row.status == status && db.row.lease.Some? && db.clock < db.row.lease.value && Shared(db) && Owned(db.row)
    && (status.Delivering? ==> db.row.handle.None?)
    && (status.Queueing? || status.Deferred? || status.Delivering?)
  }

  lemma RecoverLeavesHeld(db: Db, marked: bool, pc: RPc, c: Choice, status: Status)
    requires Quiet(db, status) && Recovering(pc) && Past(db.clock, pc)
    ensures Recover(db, marked, pc, c).db.row == db.row
  {
  }

  lemma EngagementLeavesHeld(db: Db, pc: RPc, c: Choice, status: Status)
    requires Quiet(db, status) && !Recovering(pc) && !Delivery(pc) && !Touches(status, pc)
    ensures Engagement(db, pc, c).db.row == db.row
  {
  }

  lemma DeliverLeavesHeld(db: Db, pc: RPc, c: Choice, status: Status)
    requires Quiet(db, status) && Delivery(pc) && Local(db, pc) && Past(db.clock, pc) && !Touches(status, pc)
    ensures Deliver(db, pc, c).db.row == db.row
  {
  }

  lemma TouchingChanges(db: Db, marked: bool, pc: RPc, status: Status)
    requires Quiet(db, status) && Local(db, pc) && Touches(status, pc)
    ensures Reconcile(db, marked, pc, FINE).db.row != db.row
  {
  }

  /** Before its lease ends a claimed, deferred or still unposted reserved row is changed by exactly these reconcilers. */
  lemma HeldRowsChangeExactlyAt(kind: Kind, actions: seq<Action>, status: Status, b: nat)
    requires status.Queueing? || status.Deferred? || status.Delivering?
    requires var w := Run(Initial(kind), actions);
      Held(w, status) && b in w.reconcilers && (status.Delivering? ==> w.db.row.handle.None?)
    ensures var w := Run(Initial(kind), actions); MayChange(w, b) <==> Touches(status, w.reconcilers[b])
  {
    RunKeeps(kind, actions);
    RunIsTimely(kind, actions);
    ReconcilerChangesHeld(Run(Initial(kind), actions), status, b);
  }

  lemma ReconcilerChangesHeld(w: World, status: Status, b: nat)
    requires Inv(w) && Timely(w) && Quiet(w.db, status) && b in w.reconcilers
    ensures MayChange(w, b) <==> Touches(status, w.reconcilers[b])
  {
    var pc, marked := w.reconcilers[b], b in w.inFlight;
    assert Local(w.db, pc) && Past(w.db.clock, pc);
    if Touches(status, pc) {
      TouchingChanges(w.db, marked, pc, status);
      assert Do(w, Reconciler(b, FINE)).db.row != w.db.row;
    } else {
      forall c: Choice ensures Do(w, Reconciler(b, c)).db.row == w.db.row {
        if Recovering(pc) {
          RecoverLeavesHeld(w.db, marked, pc, c, status);
        } else if Delivery(pc) {
          DeliverLeavesHeld(w.db, pc, c, status);
        } else {
          EngagementLeavesHeld(w.db, pc, c, status);
        }
      }
    }
  }

  /** It happens to a row a handler holds: after a failed read a worker is about to cut half an hour down to its own delay. */
  lemma RetryShortensADeferral(kind: Kind) returns (actions: seq<Action>)
    ensures Obeys(ALL_RULES.(noFailure := false), Initial(kind), actions)
    ensures var w := Run(Initial(kind), actions);
      && Held(w, Deferred) && w.db.row == HeldRow(w.db.clock) && 1 in w.handlers && w.handlers[1].main.Marking?
      && 1 in w.reconcilers && Touches(Deferred, w.reconcilers[1])
      && Do(w, Reconciler(1, DELAYED)).db.row == w.db.row.(lease := Some(w.db.clock + RETRY_MS))
  {
    hide Run, Obeys;
    var w;
    actions, w := RetriesStaleRow(ALL_RULES.(noFailure := false), kind);
    RereadTurns(w.db, false);
  }

  // --- everybody else ----------------------------------------------------------------

  /** A handler at one of its own writes to the row. */
  predicate HandlerWrites(w: World, a: Action) {
    match a
    case Step(h, _) =>
      h in w.handlers && (w.handlers[h].main.Extending? || w.handlers[h].main.Holding? || w.handlers[h].main.Resolving? || w.handlers[h].main.Releasing?)
    case StepWake(h, _) => h in w.handlers && w.handlers[h].wake.Reserving?
    case Renew(h, _) => h in w.handlers && w.handlers[h].beating
    case _ => false
  }

  lemma HandlersLeaveHeld(w: World, status: Status, a: Action)
    requires Timely(w) && Quiet(w.db, status) && !a.Reconciler?
    ensures Do(w, a).db.row != w.db.row ==> status.Deferred? && HandlerWrites(w, a)
  {
  }

  /** Nobody else changes a claimed or reserved row before its lease ends, and a deferred one only a handler that
      extends, reserves, renews or resolves. No redelivery takes over before. */
  lemma OthersLeaveHeldRows(kind: Kind, actions: seq<Action>, status: Status, a: Action)
    requires status.Queueing? || status.Deferred? || status.Delivering?
    requires var w := Run(Initial(kind), actions); Held(w, status) && (status.Delivering? ==> w.db.row.handle.None?)
    ensures var w := Run(Initial(kind), actions);
      !a.Reconciler? && Do(w, a).db.row != w.db.row ==> status.Deferred? && HandlerWrites(w, a)
  {
    RunKeeps(kind, actions);
    RunIsTimely(kind, actions);
    if !a.Reconciler? {
      HandlersLeaveHeld(Run(Initial(kind), actions), status, a);
    }
  }

  // --- the way back ------------------------------------------------------------------

  /** Releasing a deferred row to the agent leaves what receiving it without deferral would have created. */
  lemma ReleaseUndoesDeferral(kind: Kind, at: int, now: int)
    ensures var deferred := Upsert(NO_ROW, NO_ROW.(status := Deferred, lease := Some(at + DEFERRED_RESERVATION_MS)));
      ResolveAgent(Extend(deferred, now).row, kind) == Cas(Upsert(NO_ROW, NO_ROW.(status := Released(kind))), true)
  {
  }

  /** Recovery takes two writes to the same place. */
  lemma RecoveryUndoesDeferral(kind: Kind, at: int, now: int, t: int)
    requires t >= now + ROUTING_RESERVATION_MS
    ensures var deferred := Upsert(NO_ROW, NO_ROW.(status := Deferred, lease := Some(at + DEFERRED_RESERVATION_MS)));
      PromoteFree(ClearOwnership(Extend(deferred, now).row, t).row, kind, t).row == NO_ROW.(status := Released(kind))
  {
  }
}
