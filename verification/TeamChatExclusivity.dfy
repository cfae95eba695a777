/**
 Exclusivity: a chat event never gets both a routine wake and a row linked to an agent run.

 Rules on a run make it true. Each is a separate switch, so that TeamChatWitnesses can show
 what goes wrong when exactly one of them is given up. Here no database call fails; direct
 events need less (TeamChatDirect). The last two rules are for agent runs that no row is
 linked to (TeamChatOrphans).
 */
module TeamChatExclusivity {
  import opened Wrappers
  import opened TeamChatRow
  import opened TeamChatProtocol
  import opened TeamChatDelivery

  datatype Rules = Rules(
    oneBridge: bool,     // a bridge process starts only when no other one is live
    oneHandler: bool,    // an event is handled again only after its previous handler is over
    renewals: bool,      // no renewal of a heartbeat fails
    noFailure: bool,     // no other database call fails; the provider, the job queue and the judge may
    prompt: bool,        // a handler resumes from its first extension before that lease ends
    noOrphan: bool,      // no process is lost between creating an agent run and linking it
    noLoss: bool)        // no process is lost at all

  const ALL_RULES := Rules(true, true, true, true, true, true, true)

  predicate Both(w: World) {
    w.db.wake && Linked(w.db.row)
  }

  /** A committed wake beside an agent run that was not cancelled, linked or not. */
  predicate BothRun(db: Db) {
    db.wake && db.agent.Some? && !db.cancelled
  }

  predicate Underway(wake: Wake) {
    wake.Routines? || wake.Reserving? || wake.Waking?
  }

  predicate Over(h: Handler) {
    h.main.Done? && !Underway(h.wake)
  }

  predicate OneBridge(w: World, a: Action) {
    a.BootBridge? ==> w.reconcilers == map[]
  }

  predicate OneHandler(w: World, a: Action) {
    a.Arrive? ==> forall h :: h in w.handlers ==> Over(w.handlers[h])
  }

  /** The provider, the job queue and the judge are no database. */
  predicate CallsOutside(pc: RPc) {
    pc.DeliverSend? || pc.QueueEnqueue? || pc.SelectObserved?
  }

  predicate NoDatabaseFailure(w: World, a: Action) {
    match a
    case Reconciler(b, c) =>
      c.fault.Fine? || (b in w.reconcilers && CallsOutside(w.reconcilers[b]))
    case Observe(_, c) => c.fault.Fine?
    case Step(_, c) => c.fault.Fine?
    case StepWake(_, c) => c.fault.Fine?
    case _ => true
  }

  predicate NoRenewalFailure(a: Action) {
    a.Renew? ==> a.c.fault.Fine?
  }

  predicate Prompt(w: World) {
    forall h :: h in w.handlers && w.handlers[h].main.Marking? ==> w.db.clock < w.handlers[h].main.until
  }

  /** A run was created for the event and is not linked to its row yet. */
  predicate Unlinked(pc: RPc) {
    pc.QueueFindWakeSent? || pc.QueueCancelRun? || pc.QueueLink?
  }

  predicate NoOrphan(w: World, a: Action) {
    a.Crash? && a.bridge in w.reconcilers ==> !Unlinked(w.reconcilers[a.bridge])
  }

  predicate Allowed(rules: Rules, w: World, a: Action) {
    && (rules.oneBridge ==> OneBridge(w, a))
    && (rules.oneHandler ==> OneHandler(w, a))
    && (rules.renewals ==> NoRenewalFailure(a))
    && (rules.noFailure ==> NoDatabaseFailure(w, a))
    && (rules.prompt ==> Prompt(w))
    && (rules.noOrphan ==> NoOrphan(w, a))
    && (rules.noLoss ==> !a.Crash?)
  }

  predicate Obeys(rules: Rules, w: World, actions: seq<Action>) {
    actions == []
    || (Obeys(rules, w, actions[..|actions| - 1])
        && Allowed(rules, Run(w, actions[..|actions| - 1]), actions[|actions| - 1]))
  }

  // --- the invariant -----------------------------------------------------------------

  /** When this reconcile pass started; its lease comparisons use that time to the end. */
  function Since(pc: RPc): Option<int> {
    match pc
    case SelectExpired(now) => Some(now)
    case FindWoken(now, _) => Some(now)
    case DecideExpired(now, _, _) => Some(now)
    case DropOwnership(now) => Some(now)
    case _ => None
  }

  predicate HoldsClaim(pc: RPc) {
    pc.QueueFindWakeClaimed? || pc.QueueReadLatest? || pc.QueueFindWakeFinal? || pc.QueueAbandonClaim?
    || pc.QueueSend? || pc.QueueFindWakeSent? || pc.QueueCancelRun? || pc.QueueLink?
  }

  /** Without database failures only a linked row is ever retried. */
  predicate AfterLink(pc: RPc) {
    pc.QueueEnqueue? || (Delivery(pc) && !pc.SelectRunning?)
  }

  /** The queue's own view: its claim stands, and after the last look there is still no wake. */
  ghost predicate QueueOk(db: Db, pc: RPc) {
    && (Since(pc).Some? ==> Since(pc).value <= db.clock)
    && (HoldsClaim(pc) ==> db.row.status.Queueing? && db.row.reason.AgentOwned?)
    && (pc.QueueLink? ==> !db.wake)
    && (AfterLink(pc) ==> Linked(db.row))
    && (pc.RetryWrite? ==> LinkRank(pc.current) > 0)
  }

  predicate InCare(main: Main) {
    main.Marking? || main.Racing? || main.Holding? || main.Awaiting? || main.Resolving?
  }

  /** The shape of a handler when no database call fails. */
  predicate Orderly(h: Handler, marked: bool) {
    && (h.main.Receive? || h.main.ReceiveDefer? || h.main.Extending? || h.main.Marking? ==> h.wake.NotStarted?)
    && (h.main.Racing? || h.main.Holding? || h.main.Awaiting? || h.main.Resolving? || h.main.Finishing? ==> marked)
    && (Underway(h.wake) ==> h.main.Racing? || h.main.Holding? || h.main.Awaiting?)
    && !h.wake.Broken? && !h.lost.RenewalFailed? && !h.main.Releasing?
  }

  /** A handler about to wake holds the row against the queue, or the row is already ignored. */
  ghost predicate WakeOk(db: Db, h: Handler) {
    && (h.wake.Waking? ==>
          db.row.status.Ignored? || ((db.row.status.Deferred? || db.row.status.Received?) && db.row.reason.Routing?))
    && (h.main.Marking? ==> h.main.until <= db.clock + ROUTING_RESERVATION_MS)
    && (db.kind.Ambient? && InCare(h.main) ==>
          db.row.status.Ignored? || (db.row.status.Deferred? && db.row.reason.Routing? && db.row.lease.Some?))
    && (db.kind.Ambient? && h.main.Marking? && db.row.status.Deferred? ==>
          db.row.lease.Some? && h.main.until <= db.row.lease.value)
  }

  /** A recovery pass about to drop ownership started too early to see this handler's lease expire. */
  ghost predicate LeaseOk(db: Db, pc: RPc, h: Handler) {
    pc.DropOwnership? && db.row.status.Deferred? && (h.wake.Waking? || (db.kind.Ambient? && InCare(h.main))) ==>
      db.row.lease.Some? && pc.now < db.row.lease.value
  }

  ghost predicate Exclusive(w: World) {
    && !Both(w)
    && (forall b, b' :: b in w.reconcilers && b' in w.reconcilers ==> b == b')
    && (forall b :: b in w.reconcilers ==> QueueOk(w.db, w.reconcilers[b]))
    && (forall h, h' :: h in w.handlers && h' in w.handlers && !Over(w.handlers[h]) && !Over(w.handlers[h']) ==> h == h')
    && (forall h :: h in w.handlers ==> Orderly(w.handlers[h], w.handlers[h].bridge in w.inFlight) && WakeOk(w.db, w.handlers[h]))
    && (forall h :: h in w.handlers && !Over(w.handlers[h]) ==> Started(w, w.handlers[h].bridge))
    && (forall b, h :: b in w.reconcilers && h in w.handlers ==> LeaseOk(w.db, w.reconcilers[b], w.handlers[h]))
  }

  // --- one actor at a time -----------------------------------------------------------

  /** The only calls that may fail under the rules are the provider's, the job queue's and the judge's. */
  predicate Disciplined(pc: RPc, c: Choice) {
    c.fault.Fine? || CallsOutside(pc)
  }

  lemma RecoverKeepsItsView(db: Db, marked: bool, pc: RPc, c: Choice)
    requires Shared(db) && QueueOk(db, pc) && Recovering(pc) && c.fault.Fine?
    requires !(db.wake && Linked(db.row))
    ensures var t := Recover(db, marked, pc, c); QueueOk(t.db, t.pc) && !(t.db.wake && Linked(t.db.row))
  {
  }

  lemma EngagementKeepsItsView(db: Db, pc: RPc, c: Choice)
    requires Shared(db) && QueueOk(db, pc) && !Recovering(pc) && !Delivery(pc) && Disciplined(pc, c)
    requires !(db.wake && Linked(db.row))
    ensures var t := Engagement(db, pc, c); QueueOk(t.db, t.pc) && !(t.db.wake && Linked(t.db.row))
  {
  }

  lemma DeliverKeepsItsView(db: Db, pc: RPc, c: Choice)
    requires Shared(db) && QueueOk(db, pc) && Local(db, pc) && Delivery(pc) && Disciplined(pc, c)
    requires !(db.wake && Linked(db.row))
    ensures var t := Deliver(db, pc, c); QueueOk(t.db, t.pc) && !(t.db.wake && Linked(t.db.row))
  {
  }

  /** One reconciler step against the handler it shares the process with: recovery. */
  lemma RecoverRespectsWake(db: Db, marked: bool, pc: RPc, h: Handler, c: Choice)
    requires Shared(db) && QueueOk(db, pc) && Recovering(pc) && c.fault.Fine?
    requires Orderly(h, marked) && WakeOk(db, h) && LeaseOk(db, pc, h)
    requires !Over(h) ==> !pc.Boot?
    requires db.kind.Ambient? && h.main.Marking? ==> db.clock < h.main.until
    ensures var t := Recover(db, marked, pc, c); WakeOk(t.db, h) && LeaseOk(t.db, t.pc, h)
  {
  }

  /** The judge never meets a held row, and the queue's claim refuses its routing marker. */
  lemma EngagementRespectsWake(db: Db, pc: RPc, h: Handler, c: Choice)
    requires Shared(db) && QueueOk(db, pc) && !Recovering(pc) && !Delivery(pc) && Disciplined(pc, c)
    requires WakeOk(db, h)
    ensures var t := Engagement(db, pc, c); WakeOk(t.db, h) && LeaseOk(t.db, t.pc, h)
  {
  }

  lemma DeliverRespectsWake(db: Db, pc: RPc, h: Handler, c: Choice)
    requires Shared(db) && QueueOk(db, pc) && Local(db, pc) && Delivery(pc) && Disciplined(pc, c)
    requires WakeOk(db, h)
    ensures var t := Deliver(db, pc, c); WakeOk(t.db, h) && LeaseOk(t.db, t.pc, h)
  {
  }

  lemma MainStaysOrderly(db: Db, marked: bool, h: Handler, c: Choice)
    requires c.fault.Fine? && !Over(h) && Orderly(h, marked)
    ensures Orderly(HandleMain(db, h, c).handler, h.main.Marking? || (marked && !h.main.Finishing?))
  {
  }

  /** A handler's step keeps its own hold on the row. */
  lemma MainKeepsHold(db: Db, marked: bool, pc: RPc, h: Handler, c: Choice)
    requires Shared(db) && QueueOk(db, pc) && c.fault.Fine? && !Over(h)
    requires Orderly(h, marked) && WakeOk(db, h) && LeaseOk(db, pc, h)
    ensures var t := HandleMain(db, h, c); WakeOk(t.db, t.handler) && LeaseOk(t.db, pc, t.handler)
  {
    MainKeepsLease(db, marked, pc, h, c);
  }

  lemma MainKeepsLease(db: Db, marked: bool, pc: RPc, h: Handler, c: Choice)
    requires Shared(db) && QueueOk(db, pc) && c.fault.Fine? && !Over(h)
    requires Orderly(h, marked) && WakeOk(db, h) && LeaseOk(db, pc, h)
    ensures var t := HandleMain(db, h, c); LeaseOk(t.db, pc, t.handler)
  {
  }

  /** A handler writes only to rows that no queue worker has claimed. */
  lemma MainWritesUnclaimed(db: Db, h: Handler, c: Choice)
    ensures var t := HandleMain(db, h, c);
      && t.db == db.(row := t.db.row)
      && (t.db.row == db.row || (!db.row.status.Queueing? && !Linked(db.row) && !Linked(t.db.row)))
  {
  }

  lemma MainLeavesQueue(db: Db, pc: RPc, h: Handler, c: Choice)
    requires QueueOk(db, pc) && c.fault.Fine? && !(db.wake && Linked(db.row))
    ensures var t := HandleMain(db, h, c); QueueOk(t.db, pc) && !(t.db.wake && Linked(t.db.row))
  {
    hide HandleMain;
    MainWritesUnclaimed(db, h, c);
  }

  lemma MainRespectsQueue(db: Db, marked: bool, pc: RPc, h: Handler, c: Choice)
    requires Shared(db) && QueueOk(db, pc) && c.fault.Fine? && !Over(h)
    requires !(db.wake && Linked(db.row))
    requires Orderly(h, marked) && WakeOk(db, h) && LeaseOk(db, pc, h)
    ensures var t := HandleMain(db, h, c);
      && QueueOk(t.db, pc) && WakeOk(t.db, t.handler) && LeaseOk(t.db, pc, t.handler)
      && Orderly(t.handler, h.main.Marking? || (marked && !h.main.Finishing?))
      && !(t.db.wake && Linked(t.db.row))
  {
    hide HandleMain, Shared, QueueOk, WakeOk, LeaseOk, Orderly;
    MainStaysOrderly(db, marked, h, c);
    MainKeepsHold(db, marked, pc, h, c);
    MainLeavesQueue(db, pc, h, c);
  }

  /** The wake commits only while its handler holds the row, so the row cannot be linked. */
  lemma WakeRespectsQueue(db: Db, marked: bool, pc: RPc, h: Handler, c: Choice)
    requires Shared(db) && QueueOk(db, pc) && c.fault.Fine?
    requires !(db.wake && Linked(db.row))
    requires Orderly(h, marked) && WakeOk(db, h) && LeaseOk(db, pc, h)
    ensures var t := HandleWake(db, h, c);
      && QueueOk(t.db, pc) && WakeOk(t.db, t.handler) && LeaseOk(t.db, pc, t.handler) && Orderly(t.handler, marked)
      && !(t.db.wake && Linked(t.db.row))
  {
  }

  /** A renewal, possibly a late one of a handler that is over, against whoever holds the row now. */
  lemma RenewalRespectsBoth(db: Db, marked: bool, pc: RPc, stale: Handler, h: Handler, c: Choice)
    requires Shared(db) && QueueOk(db, pc) && c.fault.Fine?
    requires !(db.wake && Linked(db.row))
    requires Orderly(stale, marked) && WakeOk(db, h) && LeaseOk(db, pc, h)
    ensures var t := HandleRenewal(db, stale, c);
      && QueueOk(t.db, pc) && WakeOk(t.db, h) && LeaseOk(t.db, pc, h)
      && Orderly(t.handler, marked) && t.handler.main == stale.main && t.handler.wake == stale.wake
      && !(t.db.wake && Linked(t.db.row))
  {
  }

  // --- the whole deployment ----------------------------------------------------------

  /** Assembles a reconciler's turn with everything it left alone. */
  lemma AfterReconciler(w: World, b: nat, t: Turn)
    requires Exclusive(w) && b in w.reconcilers
    requires QueueOk(t.db, t.pc) && !(t.db.wake && Linked(t.db.row))
    requires t.pc.Boot? ==> w.reconcilers[b].Boot?
    requires forall h :: h in w.handlers ==> WakeOk(t.db, w.handlers[h]) && LeaseOk(t.db, t.pc, w.handlers[h])
    ensures Exclusive(w.(db := t.db, reconcilers := w.reconcilers[b := t.pc]))
  {
  }

  /** Assembles a handler's turn; only the one handler that is not over cares about the row. */
  lemma AfterHandler(w: World, id: nat, t: HandlerTurn, inFlight: set<nat>)
    requires Exclusive(w) && id in w.handlers && !Over(w.handlers[id])
    requires t.handler.bridge == w.handlers[id].bridge
    requires inFlight == w.inFlight || inFlight == w.inFlight + {t.handler.bridge} || inFlight == w.inFlight - {t.handler.bridge}
    requires !(t.db.wake && Linked(t.db.row))
    requires Orderly(t.handler, t.handler.bridge in inFlight) && WakeOk(t.db, t.handler)
    requires forall b :: b in w.reconcilers ==> QueueOk(t.db, w.reconcilers[b]) && LeaseOk(t.db, w.reconcilers[b], t.handler)
    requires w.db.clock <= t.db.clock
    ensures Exclusive(Land(w, id, t).(inFlight := inFlight))
  {
    var w' := Land(w, id, t).(inFlight := inFlight);
    forall h | h in w'.handlers && h != id
      ensures Orderly(w'.handlers[h], w'.handlers[h].bridge in inFlight) && WakeOk(w'.db, w'.handlers[h])
      ensures Over(w'.handlers[h])
    {
      assert Over(w.handlers[h]);
    }
  }

  /** Assembles a renewal, which may belong to a handler that is over. */
  lemma AfterRenewal(w: World, id: nat, t: HandlerTurn)
    requires Exclusive(w) && id in w.handlers
    requires t.handler.bridge == w.handlers[id].bridge
    requires t.handler.main == w.handlers[id].main && t.handler.wake == w.handlers[id].wake
    requires !(t.db.wake && Linked(t.db.row))
    requires Orderly(t.handler, t.handler.bridge in w.inFlight)
    requires forall h :: h in w.handlers ==> WakeOk(t.db, w.handlers[h])
    requires forall b :: b in w.reconcilers ==> QueueOk(t.db, w.reconcilers[b])
    requires forall b, h :: b in w.reconcilers && h in w.handlers ==> LeaseOk(t.db, w.reconcilers[b], w.handlers[h])
    ensures Exclusive(Land(w, id, t))
  {
    var w' := Land(w, id, t);
    assert Over(w'.handlers[id]) == Over(w.handlers[id]);
    forall h | h in w'.handlers && h != id
      ensures w'.handlers[h] == w.handlers[h]
    {
    }
    assert WakeOk(w'.db, w'.handlers[id]) by {
      assert WakeOk(t.db, w.handlers[id]);
    }
    forall b | b in w'.reconcilers
      ensures LeaseOk(w'.db, w'.reconcilers[b], w'.handlers[id])
    {
      assert LeaseOk(t.db, w.reconcilers[b], w.handlers[id]);
    }
  }

  lemma ReconcilerStepKeepsExclusive(w: World, b: nat, c: Choice)
    requires Inv(w) && Exclusive(w) && b in w.reconcilers && NoDatabaseFailure(w, Reconciler(b, c))
    requires w.db.kind.Ambient? ==> Prompt(w)
    ensures Exclusive(Do(w, Reconciler(b, c)))
  {
    var pc, marked := w.reconcilers[b], b in w.inFlight;
    var t := Reconcile(w.db, marked, pc, c);
    ReconcilerTurn(w, b, c);
    forall h | h in w.handlers
      ensures WakeOk(t.db, w.handlers[h]) && LeaseOk(t.db, t.pc, w.handlers[h])
    {
      ReconcilerMeetsHandler(w, b, h, c);
    }
    AfterReconciler(w, b, t);
  }

  lemma BootEnds(db: Db, marked: bool, pc: RPc, c: Choice)
    ensures Reconcile(db, marked, pc, c).pc.Boot? ==> pc.Boot?
  {
  }

  lemma ReconcilerTurn(w: World, b: nat, c: Choice)
    requires Inv(w) && Exclusive(w) && b in w.reconcilers && NoDatabaseFailure(w, Reconciler(b, c))
    ensures var t := Reconcile(w.db, b in w.inFlight, w.reconcilers[b], c);
      QueueOk(t.db, t.pc) && !(t.db.wake && Linked(t.db.row)) && (t.pc.Boot? ==> w.reconcilers[b].Boot?)
  {
    hide Recover, Engagement, Deliver, QueueOk, Local, Shared;
    var pc, marked := w.reconcilers[b], b in w.inFlight;
    assert QueueOk(w.db, pc) && Local(w.db, pc);
    BootEnds(w.db, marked, pc, c);
    if Recovering(pc) {
      RecoverKeepsItsView(w.db, marked, pc, c);
    } else if Delivery(pc) {
      DeliverKeepsItsView(w.db, pc, c);
    } else {
      EngagementKeepsItsView(w.db, pc, c);
    }
  }

  lemma ReconcilerMeetsHandler(w: World, b: nat, h: nat, c: Choice)
    requires Inv(w) && Exclusive(w) && b in w.reconcilers && h in w.handlers && NoDatabaseFailure(w, Reconciler(b, c))
    requires w.db.kind.Ambient? ==> Prompt(w)
    ensures var t := Reconcile(w.db, b in w.inFlight, w.reconcilers[b], c);
      WakeOk(t.db, w.handlers[h]) && LeaseOk(t.db, t.pc, w.handlers[h])
  {
    var pc, marked, handler := w.reconcilers[b], b in w.inFlight, w.handlers[h];
    assert QueueOk(w.db, pc) && Local(w.db, pc) && WakeOk(w.db, handler) && LeaseOk(w.db, pc, handler);
    if Over(handler) {
    } else if Recovering(pc) {
      assert handler.bridge == b;
      RecoverRespectsWake(w.db, marked, pc, handler, c);
    } else if Delivery(pc) {
      DeliverRespectsWake(w.db, pc, handler, c);
    } else {
      EngagementRespectsWake(w.db, pc, handler, c);
    }
  }

  lemma MainStepKeepsExclusive(w: World, h: nat, c: Choice)
    requires Inv(w) && Exclusive(w) && h in w.handlers && !Over(w.handlers[h]) && c.fault.Fine?
    ensures Exclusive(Do(w, Step(h, c)))
  {
    var handler := w.handlers[h];
    var b, t := handler.bridge, HandleMain(w.db, handler, c);
    MainRespectsQueue(w.db, b in w.inFlight, w.reconcilers[b], handler, c);
    AfterHandler(w, h, t, Marked(w.inFlight, b, handler.main));
  }

  lemma WakeStepKeepsExclusive(w: World, h: nat, c: Choice)
    requires Inv(w) && Exclusive(w) && h in w.handlers && !Over(w.handlers[h]) && c.fault.Fine?
    ensures Exclusive(Do(w, StepWake(h, c)))
  {
    var handler := w.handlers[h];
    var b, t := handler.bridge, HandleWake(w.db, handler, c);
    WakeRespectsQueue(w.db, b in w.inFlight, w.reconcilers[b], handler, c);
    AfterHandler(w, h, t, w.inFlight);
    assert Do(w, StepWake(h, c)) == Land(w, h, t).(inFlight := w.inFlight);
  }

  lemma RenewStepKeepsExclusive(w: World, h: nat, c: Choice)
    requires Inv(w) && Exclusive(w) && h in w.handlers && c.fault.Fine?
    ensures Exclusive(Do(w, Renew(h, c)))
  {
    var stale := w.handlers[h];
    var marked, t := stale.bridge in w.inFlight, HandleRenewal(w.db, stale, c);
    RenewalIsHarmless(w.db, marked, stale, c);
    forall b, x | b in w.reconcilers && x in w.handlers
      ensures LeaseOk(t.db, w.reconcilers[b], w.handlers[x])
      ensures QueueOk(t.db, w.reconcilers[b])
    {
      RenewalRespectsBoth(w.db, marked, w.reconcilers[b], stale, w.handlers[x], c);
    }
    forall x | x in w.handlers
      ensures WakeOk(t.db, w.handlers[x])
    {
      RenewalRespectsBoth(w.db, marked, Idle, stale, w.handlers[x], c);
    }
    forall b | b in w.reconcilers
      ensures QueueOk(t.db, w.reconcilers[b])
    {
      assert QueueOk(w.db, w.reconcilers[b]);
    }
    AfterRenewal(w, h, t);
  }

  lemma RenewalIsHarmless(db: Db, marked: bool, stale: Handler, c: Choice)
    requires Shared(db) && c.fault.Fine? && !(db.wake && Linked(db.row)) && Orderly(stale, marked)
    ensures var t := HandleRenewal(db, stale, c);
      && !(t.db.wake && Linked(t.db.row)) && Orderly(t.handler, marked)
      && t.handler.main == stale.main && t.handler.wake == stale.wake && t.handler.bridge == stale.bridge
  {
  }

  /** Nothing moves for a handler that is over. */
  lemma OverIsStill(w: World, h: nat, c: Choice)
    requires h in w.handlers && Over(w.handlers[h])
    ensures Do(w, Step(h, c)) == w && Do(w, StepWake(h, c)) == w
  {
    assert w.handlers == w.handlers[h := w.handlers[h]];
  }

  /** Time passing, and the plain receive of an event whose row does not exist yet. */
  lemma QuietChange(db: Db, db': Db, pc: RPc, h: Handler)
    requires QueueOk(db, pc) && WakeOk(db, h) && LeaseOk(db, pc, h)
    requires db'.kind == db.kind && db'.wake == db.wake && db.clock <= db'.clock
    requires db'.row == db.row || (db.row.status.Absent? && db'.row.status == Released(db.kind))
    ensures QueueOk(db', pc) && WakeOk(db', h) && LeaseOk(db', pc, h)
  {
  }

  lemma DatabaseStepKeepsExclusive(w: World, db': Db)
    requires Exclusive(w)
    requires db'.kind == w.db.kind && db'.wake == w.db.wake && w.db.clock <= db'.clock
    requires db'.row == w.db.row || (w.db.row.status.Absent? && db'.row.status == Released(w.db.kind))
    ensures Exclusive(w.(db := db'))
  {
    var someone := Handler(0, Done, NotStarted, false, Held);
    forall b | b in w.reconcilers
      ensures QueueOk(db', w.reconcilers[b])
    {
      assert QueueOk(w.db, w.reconcilers[b]);
      QuietChange(w.db, db', w.reconcilers[b], someone);
    }
    forall h | h in w.handlers
      ensures WakeOk(db', w.handlers[h])
    {
      QuietChange(w.db, db', Idle, w.handlers[h]);
    }
    forall b, h | b in w.reconcilers && h in w.handlers
      ensures LeaseOk(db', w.reconcilers[b], w.handlers[h])
    {
      QuietChange(w.db, db', w.reconcilers[b], w.handlers[h]);
    }
  }

  lemma BootKeepsExclusive(w: World, b: nat)
    requires Exclusive(w) && w.reconcilers == map[]
    ensures Exclusive(Do(w, BootBridge(b)))
  {
    forall h | h in w.handlers
      ensures Over(w.handlers[h])
    {
    }
  }

  lemma CrashKeepsExclusive(w: World, b: nat)
    requires Exclusive(w)
    ensures Exclusive(Do(w, Crash(b)))
  {
  }

  lemma ArriveKeepsExclusive(w: World, h: nat, b: nat)
    requires Exclusive(w) && OneHandler(w, Arrive(h, b))
    ensures Exclusive(Do(w, Arrive(h, b)))
  {
  }

  lemma StepKeepsExclusive(w: World, a: Action)
    requires Inv(w) && Exclusive(w) && Allowed(Rules(true, true, true, true, w.db.kind.Ambient?, false, false), w, a)
    ensures Exclusive(Do(w, a))
  {
    match a
    case Reconciler(b, c) =>
      if b in w.reconcilers {
        ReconcilerStepKeepsExclusive(w, b, c);
      }
    case Step(h, c) =>
      if h in w.handlers {
        if Over(w.handlers[h]) { OverIsStill(w, h, c); } else { MainStepKeepsExclusive(w, h, c); }
      }
    case StepWake(h, c) =>
      if h in w.handlers {
        if Over(w.handlers[h]) { OverIsStill(w, h, c); } else { WakeStepKeepsExclusive(w, h, c); }
      }
    case Renew(h, c) =>
      if h in w.handlers {
        RenewStepKeepsExclusive(w, h, c);
      }
    case BootBridge(b) =>
      BootKeepsExclusive(w, b);
    case Crash(b) =>
      CrashKeepsExclusive(w, b);
    case Arrive(h, b) =>
      ArriveKeepsExclusive(w, h, b);
    case Tick(_) =>
      DatabaseStepKeepsExclusive(w, Do(w, a).db);
    case Observe(_, _) =>
      DatabaseStepKeepsExclusive(w, Do(w, a).db);
    case Finishes(_) =>
      DatabaseStepKeepsExclusive(w, Do(w, a).db);
  }

  lemma {:induction false} RunKeepsExclusive(rules: Rules, kind: Kind, actions: seq<Action>)
    requires rules.oneBridge && rules.oneHandler && rules.renewals && rules.noFailure && (kind.Ambient? ==> rules.prompt)
    requires Obeys(rules, Initial(kind), actions)
    ensures Exclusive(Run(Initial(kind), actions)) && Run(Initial(kind), actions).db.kind == kind
    decreases |actions|
  {
    RunKeeps(kind, actions);
    if actions != [] {
      var before := actions[..|actions| - 1];
      RunKeepsExclusive(rules, kind, before);
      RunKeeps(kind, before);
      StepKeeps(Run(Initial(kind), before), actions[|actions| - 1]);
      StepKeepsExclusive(Run(Initial(kind), before), actions[|actions| - 1]);
    }
  }
}
