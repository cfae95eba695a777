/**
 Exclusivity of direct events needs less: any database call may fail, except a renewal.

 A failing call may leave a row claimed, deferred or marked for routing with nobody behind it,
 but a direct row never waits for the judge, who would overwrite a wake's marker.
 */
module TeamChatDirect {
  import opened Wrappers
  import opened TeamChatRow
  import opened TeamChatProtocol
  import opened TeamChatDelivery
  import opened TeamChatExclusivity

  // --- the invariant -----------------------------------------------------------------

  /** The queue's claim stands, and after its last look there is still no wake. */
  predicate QueueView(db: Db, pc: RPc) {
    && (Since(pc).Some? ==> Since(pc).value <= db.clock)
    && (HoldsClaim(pc) ==> db.row.status.Queueing? && db.row.reason.AgentOwned?)
    && (pc.QueueLink? ==> !db.wake)
  }

  predicate AwaitsWake(main: Main) {
    main.Racing? || main.Holding? || main.Awaiting?
  }

  /** A handler never leaves its wake behind while no renewal fails. */
  predicate Steady(h: Handler, marked: bool) {
    && (h.main.Receive? || h.main.ReceiveDefer? || h.main.Extending? || h.main.Marking? ==> h.wake.NotStarted?)
    && (AwaitsWake(h.main) ==> marked)
    && (Underway(h.wake) ==> AwaitsWake(h.main))
    && !h.lost.RenewalFailed?
  }

  /** A wake about to commit holds the row against the queue, or the row is already ignored. */
  predicate WakeView(db: Db, h: Handler) {
    h.wake.Waking? ==>
      db.row.status.Ignored? || ((db.row.status.Deferred? || db.row.status.Received?) && db.row.reason.Routing?)
  }

  /** A recovery pass about to drop ownership started before the wake's lease was written. */
  predicate LeaseView(db: Db, pc: RPc, h: Handler) {
    pc.DropOwnership? && db.row.status.Deferred? && h.wake.Waking? ==> db.row.lease.Some? && pc.now < db.row.lease.value
  }

  ghost predicate Apart(w: World) {
    && w.db.kind.Direct? && !Both(w)
    && (forall b, b' :: b in w.reconcilers && b' in w.reconcilers ==> b == b')
    && (forall b :: b in w.reconcilers ==> QueueView(w.db, w.reconcilers[b]))
    && (forall h, h' :: h in w.handlers && h' in w.handlers && !Over(w.handlers[h]) && !Over(w.handlers[h']) ==> h == h')
    && (forall h :: h in w.handlers ==> Steady(w.handlers[h], w.handlers[h].bridge in w.inFlight) && WakeView(w.db, w.handlers[h]))
    && (forall h :: h in w.handlers && !Over(w.handlers[h]) ==> Started(w, w.handlers[h].bridge))
    && (forall b, h :: b in w.reconcilers && h in w.handlers ==> LeaseView(w.db, w.reconcilers[b], w.handlers[h]))
  }

  // --- one actor at a time -----------------------------------------------------------

  predicate TurnKeeps(t: Turn, h: Handler) {
    QueueView(t.db, t.pc) && !(t.db.wake && Linked(t.db.row)) && WakeView(t.db, h) && LeaseView(t.db, t.pc, h)
  }

  predicate Views(db: Db, pc: RPc, h: Handler) {
    QueueView(db, pc) && !(db.wake && Linked(db.row)) && WakeView(db, h) && LeaseView(db, pc, h)
  }

  lemma RecoverKeepsApart(db: Db, marked: bool, pc: RPc, h: Handler, c: Choice)
    requires Shared(db) && Views(db, pc, h) && Steady(h, marked) && Recovering(pc) && (Underway(h.wake) ==> !pc.Boot?)
    ensures TurnKeeps(Recover(db, marked, pc, c), h)
  {
  }

  lemma EngagementKeepsApart(db: Db, pc: RPc, h: Handler, c: Choice)
    requires Shared(db) && db.kind.Direct? && Views(db, pc, h) && !Recovering(pc) && !Delivery(pc)
    ensures TurnKeeps(Engagement(db, pc, c), h)
  {
  }

  lemma PostKeepsApart(db: Db, pc: RPc, h: Handler, c: Choice)
    requires Shared(db) && Local(db, pc) && Views(db, pc, h) && Delivery(pc) && !Retrying(pc)
    ensures TurnKeeps(Post(db, pc, c), h)
  {
  }

  lemma PutBackKeepsApart(db: Db, pc: RPc, h: Handler, c: Choice)
    requires Shared(db) && Local(db, pc) && Views(db, pc, h) && Retrying(pc)
    ensures TurnKeeps(PutBack(db, pc, c), h)
  {
  }

  lemma ReconcileKeepsApart(db: Db, marked: bool, pc: RPc, h: Handler, c: Choice)
    requires Shared(db) && Local(db, pc) && db.kind.Direct? && Views(db, pc, h) && Steady(h, marked)
    requires Underway(h.wake) ==> !pc.Boot?
    ensures TurnKeeps(Reconcile(db, marked, pc, c), h)
  {
    hide Recover, Engagement, Post, PutBack, Views, TurnKeeps, Shared, Local, Steady;
    if Recovering(pc) {
      RecoverKeepsApart(db, marked, pc, h, c);
    } else if !Delivery(pc) {
      EngagementKeepsApart(db, pc, h, c);
    } else if Retrying(pc) {
      PutBackKeepsApart(db, pc, h, c);
    } else {
      PostKeepsApart(db, pc, h, c);
    }
  }

  predicate HandlerTurnKeeps(t: HandlerTurn, pc: RPc, marked: bool) {
    && QueueView(t.db, pc) && !(t.db.wake && Linked(t.db.row))
    && WakeView(t.db, t.handler) && LeaseView(t.db, pc, t.handler) && Steady(t.handler, marked)
  }

  lemma MainStaysSteady(db: Db, marked: bool, h: Handler, c: Choice)
    requires Steady(h, marked)
    ensures Steady(HandleMain(db, h, c).handler, h.main.Marking? || (marked && !h.main.Finishing?))
  {
  }

  /** While a wake is under way the main line only extends its lease. */
  lemma MainLeavesWaking(db: Db, pc: RPc, marked: bool, h: Handler, c: Choice)
    requires Views(db, pc, h) && Steady(h, marked)
    ensures var t := HandleMain(db, h, c); WakeView(t.db, t.handler) && LeaseView(t.db, pc, t.handler)
  {
  }

  lemma MainKeepsApart(db: Db, pc: RPc, marked: bool, h: Handler, c: Choice)
    requires Views(db, pc, h) && Steady(h, marked)
    ensures HandlerTurnKeeps(HandleMain(db, h, c), pc, h.main.Marking? || (marked && !h.main.Finishing?))
  {
    hide HandleMain, Steady, WakeView, LeaseView;
    MainWritesUnclaimed(db, h, c);
    MainStaysSteady(db, marked, h, c);
    MainLeavesWaking(db, pc, marked, h, c);
  }

  lemma WakeKeepsApart(db: Db, pc: RPc, marked: bool, h: Handler, c: Choice)
    requires !db.row.status.Observed? && Views(db, pc, h) && Steady(h, marked)
    ensures HandlerTurnKeeps(HandleWake(db, h, c), pc, marked)
  {
  }

  /** A renewal, possibly a late one of a handler that is over, against whoever holds the row now. */
  lemma RenewalKeepsApart(db: Db, pc: RPc, marked: bool, stale: Handler, h: Handler, c: Choice)
    requires Views(db, pc, h) && Steady(stale, marked) && c.fault.Fine?
    ensures var t := HandleRenewal(db, stale, c);
      && Views(t.db, pc, h) && Steady(t.handler, marked)
      && t.handler.main == stale.main && t.handler.wake == stale.wake && t.handler.bridge == stale.bridge
  {
  }

  // --- the whole deployment ----------------------------------------------------------

  lemma ViewsHold(w: World, b: nat, h: nat)
    requires Apart(w) && b in w.reconcilers && h in w.handlers
    ensures Views(w.db, w.reconcilers[b], w.handlers[h])
  {
  }

  const NOBODY := Handler(0, Done, NotStarted, false, Held)

  lemma ReconcilerStepKeepsApart(w: World, b: nat, c: Choice)
    requires Inv(w) && Apart(w) && b in w.reconcilers
    ensures Apart(Do(w, Reconciler(b, c)))
  {
    var pc, marked := w.reconcilers[b], b in w.inFlight;
    var t := Reconcile(w.db, marked, pc, c);
    assert Local(w.db, pc) && Views(w.db, pc, NOBODY);
    ReconcileKeepsApart(w.db, marked, pc, NOBODY, c);
    ReconcileKeeps(w.db, marked, pc, c);
    BootEnds(w.db, marked, pc, c);
    forall h | h in w.handlers ensures WakeView(t.db, w.handlers[h]) && LeaseView(t.db, t.pc, w.handlers[h]) {
      if !Over(w.handlers[h]) {
        ViewsHold(w, b, h);
        ReconcileKeepsApart(w.db, marked, pc, w.handlers[h], c);
      }
    }
    ApartAfterReconciler(w, b, t);
  }

  lemma ApartAfterReconciler(w: World, b: nat, t: Turn)
    requires Apart(w) && b in w.reconcilers && t.db.kind == w.db.kind
    requires QueueView(t.db, t.pc) && !(t.db.wake && Linked(t.db.row)) && (t.pc.Boot? ==> w.reconcilers[b].Boot?)
    requires forall h :: h in w.handlers ==> WakeView(t.db, w.handlers[h]) && LeaseView(t.db, t.pc, w.handlers[h])
    ensures Apart(w.(db := t.db, reconcilers := w.reconcilers[b := t.pc]))
  {
    hide QueueView, WakeView, LeaseView, Steady;
  }

  /** Assembles a handler's turn; only the one handler that is not over cares about the row. */
  lemma ApartAfterHandler(w: World, id: nat, t: HandlerTurn, inFlight: set<nat>)
    requires Apart(w) && id in w.handlers && !Over(w.handlers[id])
    requires t.handler.bridge == w.handlers[id].bridge && t.db.kind == w.db.kind
    requires inFlight == w.inFlight || inFlight == w.inFlight + {t.handler.bridge} || inFlight == w.inFlight - {t.handler.bridge}
    requires forall b :: b in w.reconcilers ==> HandlerTurnKeeps(t, w.reconcilers[b], t.handler.bridge in inFlight)
    ensures Apart(Land(w, id, t).(inFlight := inFlight))
  {
    var w' := Land(w, id, t).(inFlight := inFlight);
    assert HandlerTurnKeeps(t, w.reconcilers[t.handler.bridge], t.handler.bridge in inFlight);
    forall h | h in w'.handlers && h != id
      ensures Steady(w'.handlers[h], w'.handlers[h].bridge in inFlight) && WakeView(w'.db, w'.handlers[h])
      ensures Over(w'.handlers[h])
    {
      assert Over(w.handlers[h]);
    }
  }

  lemma MainStepKeepsApart(w: World, h: nat, c: Choice)
    requires Inv(w) && Apart(w) && h in w.handlers && !Over(w.handlers[h])
    ensures Apart(Do(w, Step(h, c)))
  {
    var handler := w.handlers[h];
    var t, inFlight := HandleMain(w.db, handler, c), Marked(w.inFlight, handler.bridge, handler.main);
    MainKeeps(w.db, handler, c);
    SameBridge(w.db, handler, c);
    forall b | b in w.reconcilers ensures HandlerTurnKeeps(t, w.reconcilers[b], handler.bridge in inFlight) {
      ViewsHold(w, b, h);
      MainKeepsApart(w.db, w.reconcilers[b], handler.bridge in w.inFlight, handler, c);
    }
    ApartAfterHandler(w, h, t, inFlight);
  }

  lemma SameBridge(db: Db, h: Handler, c: Choice)
    ensures HandleMain(db, h, c).handler.bridge == h.bridge && HandleWake(db, h, c).handler.bridge == h.bridge
  {
  }

  lemma WakeStepKeepsApart(w: World, h: nat, c: Choice)
    requires Inv(w) && Apart(w) && h in w.handlers && !Over(w.handlers[h])
    ensures Apart(Do(w, StepWake(h, c)))
  {
    var handler := w.handlers[h];
    var t := HandleWake(w.db, handler, c);
    WakeKeeps(w.db, handler, c);
    SameBridge(w.db, handler, c);
    forall b | b in w.reconcilers ensures HandlerTurnKeeps(t, w.reconcilers[b], handler.bridge in w.inFlight) {
      ViewsHold(w, b, h);
      WakeKeepsApart(w.db, w.reconcilers[b], handler.bridge in w.inFlight, handler, c);
    }
    ApartAfterHandler(w, h, t, w.inFlight);
    assert Do(w, StepWake(h, c)) == Land(w, h, t).(inFlight := w.inFlight);
  }

  lemma RenewStepKeepsApart(w: World, h: nat, c: Choice)
    requires Inv(w) && Apart(w) && h in w.handlers && c.fault.Fine?
    ensures Apart(Do(w, Renew(h, c)))
  {
    var stale := w.handlers[h];
    var marked, t := stale.bridge in w.inFlight, HandleRenewal(w.db, stale, c);
    RenewalKeeps(w.db, stale, c);
    RenewalKeepsApart(w.db, Idle, marked, stale, NOBODY, c);
    forall b, x | b in w.reconcilers && x in w.handlers ensures Views(t.db, w.reconcilers[b], w.handlers[x]) {
      ViewsHold(w, b, x);
      RenewalKeepsApart(w.db, w.reconcilers[b], marked, stale, w.handlers[x], c);
    }
    forall b | b in w.reconcilers ensures QueueView(t.db, w.reconcilers[b]) {
      RenewalKeepsApart(w.db, w.reconcilers[b], marked, stale, NOBODY, c);
    }
    forall x | x in w.handlers ensures WakeView(t.db, w.handlers[x]) {
      RenewalKeepsApart(w.db, Idle, marked, stale, w.handlers[x], c);
    }
    ApartAfterRenewal(w, h, t);
  }

  /** Assembles a renewal, which may belong to a handler that is over. */
  lemma ApartAfterRenewal(w: World, id: nat, t: HandlerTurn)
    requires Apart(w) && id in w.handlers && t.db.kind == w.db.kind
    requires t.handler.main == w.handlers[id].main && t.handler.wake == w.handlers[id].wake && t.handler.bridge == w.handlers[id].bridge
    requires !(t.db.wake && Linked(t.db.row)) && Steady(t.handler, t.handler.bridge in w.inFlight)
    requires forall h :: h in w.handlers ==> WakeView(t.db, w.handlers[h])
    requires forall b :: b in w.reconcilers ==> QueueView(t.db, w.reconcilers[b])
    requires forall b, h :: b in w.reconcilers && h in w.handlers ==> LeaseView(t.db, w.reconcilers[b], w.handlers[h])
    ensures Apart(Land(w, id, t))
  {
    var w' := Land(w, id, t);
    forall h | h in w'.handlers
      ensures Over(w'.handlers[h]) == Over(w.handlers[h]) && w'.handlers[h].bridge == w.handlers[h].bridge
      ensures Steady(w'.handlers[h], w'.handlers[h].bridge in w'.inFlight) && WakeView(t.db, w'.handlers[h])
      ensures forall b :: b in w.reconcilers ==> LeaseView(t.db, w.reconcilers[b], w'.handlers[h])
    {
      assert WakeView(t.db, w.handlers[h]);
      forall b | b in w.reconcilers ensures LeaseView(t.db, w.reconcilers[b], w'.handlers[h]) {
        assert LeaseView(t.db, w.reconcilers[b], w.handlers[h]);
      }
    }
  }

  lemma ProcessesKeepApart(w: World, b: nat)
    requires Apart(w)
    ensures w.reconcilers == map[] ==> Apart(Do(w, BootBridge(b)))
    ensures Apart(Do(w, Crash(b)))
  {
    hide WakeView;
    if w.reconcilers == map[] {
      assert forall h :: h in w.handlers ==> Over(w.handlers[h]);
    }
  }

  lemma ArrivalKeepsApart(w: World, h: nat, b: nat)
    requires Apart(w) && OneHandler(w, Arrive(h, b))
    ensures Apart(Do(w, Arrive(h, b)))
  {
    hide QueueView;
  }

  /** Time, the plain receive, and processes and handlers that come and go. */
  lemma EnvironmentKeepsApart(w: World, a: Action)
    requires Apart(w) && OneBridge(w, a) && OneHandler(w, a) && !a.Reconciler? && !a.Step? && !a.StepWake? && !a.Renew?
    ensures Apart(Do(w, a))
  {
    hide QueueView, WakeView, LeaseView, Steady;
    match a
    case Tick(_) => DatabaseStepKeepsApart(w, Do(w, a).db);
    case Observe(_, _) => DatabaseStepKeepsApart(w, Do(w, a).db);
    case Finishes(_) => DatabaseStepKeepsApart(w, Do(w, a).db);
    case BootBridge(b) => ProcessesKeepApart(w, b);
    case Crash(b) => ProcessesKeepApart(w, b);
    case Arrive(h, b) => ArrivalKeepsApart(w, h, b);
  }

  lemma DatabaseStepKeepsApart(w: World, db': Db)
    requires Apart(w) && db'.kind == w.db.kind && db'.wake == w.db.wake && w.db.clock <= db'.clock
    requires db'.row == w.db.row || (w.db.row.status.Absent? && db'.row.status == Received)
    ensures Apart(w.(db := db'))
  {
    forall b | b in w.reconcilers ensures QueueView(db', w.reconcilers[b]) {
      assert QueueView(w.db, w.reconcilers[b]);
    }
    forall h | h in w.handlers ensures WakeView(db', w.handlers[h]) {
      assert WakeView(w.db, w.handlers[h]);
    }
    forall b, h | b in w.reconcilers && h in w.handlers ensures LeaseView(db', w.reconcilers[b], w.handlers[h]) {
      assert LeaseView(w.db, w.reconcilers[b], w.handlers[h]);
    }
  }

  lemma StepKeepsApart(w: World, a: Action)
    requires Inv(w) && Apart(w) && OneBridge(w, a) && OneHandler(w, a) && NoRenewalFailure(a)
    ensures Apart(Do(w, a))
  {
    hide Inv, Apart, Reconcile, HandleMain, HandleWake, HandleRenewal, Over;
    match a
    case Reconciler(b, c) =>
      if b in w.reconcilers {
        ReconcilerStepKeepsApart(w, b, c);
      }
    case Step(h, c) =>
      if h in w.handlers {
        if Over(w.handlers[h]) { OverIsStill(w, h, c); } else { MainStepKeepsApart(w, h, c); }
      }
    case StepWake(h, c) =>
      if h in w.handlers {
        if Over(w.handlers[h]) { OverIsStill(w, h, c); } else { WakeStepKeepsApart(w, h, c); }
      }
    case Renew(h, c) =>
      if h in w.handlers {
        RenewStepKeepsApart(w, h, c);
      }
    case _ =>
      EnvironmentKeepsApart(w, a);
  }

  lemma {:induction false} RunKeepsApart(rules: Rules, actions: seq<Action>)
    requires rules.oneBridge && rules.oneHandler && rules.renewals && Obeys(rules, Initial(Direct), actions)
    ensures Apart(Run(Initial(Direct), actions))
  {
    if actions != [] {
      var before := actions[..|actions| - 1];
      RunKeepsApart(rules, before);
      RunKeeps(Direct, before);
      StepKeepsApart(Run(Initial(Direct), before), actions[|actions| - 1]);
    }
  }

  /** What keeps wake and linked run apart: for direct events one bridge, one handler and renewals that do not fail;
      for ambient events no database call at all may fail, and handlers resume promptly. */
  predicate Sufficient(rules: Rules, kind: Kind) {
    rules.oneBridge && rules.oneHandler && rules.renewals && (kind.Ambient? ==> rules.noFailure && rules.prompt)
  }

  /** No run under these rules ends with both a committed wake and a row linked to an agent run. */
  lemma NeverBoth(rules: Rules, kind: Kind, actions: seq<Action>)
    requires Sufficient(rules, kind) && Obeys(rules, Initial(kind), actions)
    ensures !Both(Run(Initial(kind), actions))
  {
    if kind.Direct? {
      RunKeepsApart(rules, actions);
    } else {
      RunKeepsExclusive(rules, kind, actions);
    }
  }
}
