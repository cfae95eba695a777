/**
 The TeamChat protocol for one external message, as a state machine.

 Everything a process does between two awaits is one step, so any other actor may act
 at each program counter below. A database write may fail before or after it took effect,
 the provider may fail with or without having posted, and a process may vanish at any time.
 An action that is not possible in a world leaves that world as it is, so every sequence
 of actions is a run.
 */
module TeamChatProtocol {
  import opened Wrappers
  import opened TeamChatRow

  /** How the agent run ended: not yet, failed or cancelled, or completed with or without a written answer. */
  datatype Report = Unfinished | Failure | Completed(answer: bool)

  /**
   What the processes share. `agent` is the run that the agent nonce leads to, once sent, and `report`
   how it ended; `cancelled`: it was cancelled again.
   */
  datatype Db = Db(kind: Kind, clock: int, row: Row, wake: bool, agent: Option<nat>, cancelled: bool, report: Report, posts: nat)

  datatype Fault = Fine | FailsBefore | FailsAfter

  /** How the judge treats this row when the pass selects it. */
  datatype Verdict = HeldBack | Dismiss | Engage(reason: Option<string>)

  /** Everything the environment decides about one step. */
  datatype Choice = Choice(
    fault: Fault,        // of the database call, or of the provider call
    taken: bool,         // the batch selects the row; routines exist for the event
    verdict: Verdict,
    newRun: nat,         // identifier the database gives to a new run
    handle: string,      // the provider's handle for the post
    delay: nat)          // retry backoff

  /** The single-flight reconciler of one bridge process. `now` is the time it started at. */
  datatype RPc =
    | Boot
    | Idle
    | SelectExpired(now: int)
    | FindWoken(now: int, seen: Reason)
    | DecideExpired(now: int, seen: Reason, woken: bool)
    | MarkWoken(now: int)
    | DropOwnership(now: int)
    | Promote(now: int)
    | ResetClaims(now: int)
    | SelectObserved(now: int)
    | DismissAmbient(now: int)
    | EngageAmbient(now: int, why: Option<string>)
    | SelectReceived(now: int)
    | QueueFindWake(now: int, seen: Reason)
    | QueueAbandonReceived(now: int)
    | QueueClaim(now: int)
    | QueueFindWakeClaimed(now: int)
    | QueueReadLatest(now: int)
    | QueueFindWakeFinal(now: int)
    | QueueAbandonClaim(now: int)
    | QueueSend(now: int)
    | QueueFindWakeSent(now: int, run: nat)
    | QueueCancelRun(now: int, run: nat)
    | QueueLink(now: int, run: nat)
    | QueueEnqueue(now: int)
    | SelectRunning(now: int)
    | DeliverRead
    | DeliverReserve(at: int)
    | DeliverFindPosted(at: int)
    | DeliverGiveUp(at: int)
    | DeliverReadHandle
    | DeliverSend
    | DeliverStore(handle: string)
    | DeliverMark(handle: string)
    | RetryRead(back: Option<int>)
    | RetryMark(back: Option<int>, handle: string)
    | RetryWrite(back: Option<int>, current: Status)

  datatype Turn = Turn(db: Db, pc: RPc)

  /** A write that may fail before or after taking effect. */
  function Written(db: Db, row: Row, fault: Fault): Db {
    if fault.FailsBefore? then db else db.(row := row)
  }

  /** After a retry the queue loop goes on to the running rows; the delivery loop is over. */
  function Back(back: Option<int>): RPc {
    if back.Some? then SelectRunning(back.value) else Idle
  }

  /** `sendUserMessage` for the agent nonce: the first send creates the run, later ones find it. */
  function SendAgent(db: Db, c: Choice): Db {
    if c.fault.FailsBefore? || db.agent.Some? then db else db.(agent := Some(c.newRun))
  }

  /** Startup and recovery of rows left deferred: lines 446-463, 507-605 and 620-630. */
  function Recover(db: Db, inFlight: bool, pc: RPc, c: Choice): Turn
    requires pc.Boot? || pc.Idle? || pc.SelectExpired? || pc.FindWoken? || pc.DecideExpired?
             || pc.MarkWoken? || pc.DropOwnership? || pc.Promote? || pc.ResetClaims?
  {
    match pc
    case Boot =>
      Turn(Written(db, ClearOwnership(db.row, db.clock).row, c.fault), if c.fault.Fine? then Idle else Boot)
    case Idle =>
      Turn(db, SelectExpired(db.clock))
    case SelectExpired(now) =>
      if !c.fault.Fine? then Turn(db, Idle)
      else if c.taken && db.row.status.Deferred? && Expired(db.row.lease, now) then Turn(db, FindWoken(now, db.row.reason))
      else Turn(db, ResetClaims(now))
    case FindWoken(now, seen) =>
      if !c.fault.Fine? then Turn(db, Idle) else Turn(db, DecideExpired(now, seen, db.wake))
    case DecideExpired(now, seen, woken) =>
      if woken then Turn(db, MarkWoken(now))
      else if IsRoutingReason(seen) then Turn(db, if inFlight then ResetClaims(now) else DropOwnership(now))
      else Turn(db, Promote(now))
    case MarkWoken(now) =>
      Turn(Written(db, IgnoreWoken(db.row, now).row, c.fault), if c.fault.Fine? then ResetClaims(now) else Idle)
    case DropOwnership(now) =>
      Turn(Written(db, ClearOwnership(db.row, now).row, c.fault), if c.fault.Fine? then ResetClaims(now) else Idle)
    case Promote(now) =>
      Turn(Written(db, PromoteFree(db.row, db.kind, now).row, c.fault), if c.fault.Fine? then ResetClaims(now) else Idle)
    case ResetClaims(now) =>
      Turn(Written(db, ResetQueueing(db.row, now).row, c.fault), if c.fault.Fine? then SelectObserved(now) else Idle)
  }

  /** The ambient judge and the fallback agent run: lines 761-905 and 942-1114. */
  function Engagement(db: Db, pc: RPc, c: Choice): Turn
    requires pc.SelectObserved? || pc.DismissAmbient? || pc.EngageAmbient? || pc.SelectReceived?
             || pc.QueueFindWake? || pc.QueueAbandonReceived? || pc.QueueClaim? || pc.QueueFindWakeClaimed?
             || pc.QueueReadLatest? || pc.QueueFindWakeFinal? || pc.QueueAbandonClaim? || pc.QueueSend?
             || pc.QueueFindWakeSent? || pc.QueueCancelRun? || pc.QueueLink? || pc.QueueEnqueue?
  {
    match pc
    case SelectObserved(now) =>
      if !c.fault.Fine? then Turn(db, Idle)
      else if !c.taken || !db.row.status.Observed? || c.verdict.HeldBack? then Turn(db, SelectReceived(now))
      else if c.verdict.Dismiss? then Turn(db, DismissAmbient(now))
      else Turn(db, EngageAmbient(now, c.verdict.reason))
    case DismissAmbient(now) =>
      Turn(Written(db, IgnoreAmbient(db.row).row, c.fault), if c.fault.Fine? then SelectReceived(now) else Idle)
    case EngageAmbient(now, why) =>
      Turn(Written(db, PromoteAmbient(db.row, why).row, c.fault), if c.fault.Fine? then SelectReceived(now) else Idle)
    case SelectReceived(now) =>
      if !c.fault.Fine? then Turn(db, Idle)
      else if c.taken && db.row.status.Received? && Due(db.row.lease, now) then Turn(db, QueueFindWake(now, db.row.reason))
      else Turn(db, SelectRunning(now))
    case QueueFindWake(now, seen) =>
      if IsRoutingReason(seen) then Turn(db, SelectRunning(now))
      else if !c.fault.Fine? then Turn(db, RetryRead(Some(now)))
      else Turn(db, if db.wake then QueueAbandonReceived(now) else QueueClaim(now))
    case QueueAbandonReceived(now) =>
      Turn(Written(db, AbandonReceived(db.row).row, c.fault), if c.fault.Fine? then SelectRunning(now) else RetryRead(Some(now)))
    case QueueClaim(now) =>
      var cas := ClaimQueue(db.row, db.clock);
      Turn(Written(db, cas.row, c.fault),
           if !c.fault.Fine? then RetryRead(Some(now)) else if cas.hit then QueueFindWakeClaimed(now) else SelectRunning(now))
    case QueueFindWakeClaimed(now) =>
      if !c.fault.Fine? then Turn(db, RetryRead(Some(now)))
      else Turn(db, if db.wake then QueueAbandonClaim(now) else QueueReadLatest(now))
    case QueueReadLatest(now) =>
      if !c.fault.Fine? then Turn(db, RetryRead(Some(now)))
      else Turn(db, if db.row.status.Queueing? && db.row.reason.AgentOwned? then QueueFindWakeFinal(now) else QueueAbandonClaim(now))
    case QueueFindWakeFinal(now) =>
      if !c.fault.Fine? then Turn(db, RetryRead(Some(now)))
      else Turn(db, if db.wake then QueueAbandonClaim(now) else QueueSend(now))
    case QueueAbandonClaim(now) =>
      Turn(Written(db, AbandonQueueing(db.row).row, c.fault), if c.fault.Fine? then SelectRunning(now) else RetryRead(Some(now)))
    case QueueSend(now) =>
      var sent := SendAgent(db, c);
      Turn(sent, if c.fault.Fine? then QueueFindWakeSent(now, sent.agent.value) else RetryRead(Some(now)))
    case QueueFindWakeSent(now, run) =>
      if !c.fault.Fine? then Turn(db, RetryRead(Some(now)))
      else Turn(db, if db.wake then QueueCancelRun(now, run) else QueueLink(now, run))
    case QueueCancelRun(now, run) =>
      Turn(if c.fault.FailsBefore? then db else db.(cancelled := true),
           if c.fault.Fine? then QueueAbandonClaim(now) else RetryRead(Some(now)))
    case QueueLink(now, run) =>
      var cas := Link(db.row, run);
      Turn(Written(db, cas.row, c.fault), if c.fault.Fine? && cas.hit then QueueEnqueue(now) else RetryRead(Some(now)))
    case QueueEnqueue(now) =>
      Turn(db, if c.fault.Fine? then SelectRunning(now) else RetryRead(Some(now)))
  }

  /** Delivery of a finished run: lines 650-669 and 1116-1248. Only ambient rows may stay without a written reply. */
  function Post(db: Db, pc: RPc, c: Choice): Turn
    requires pc.SelectRunning? || pc.DeliverRead? || pc.DeliverReserve? || pc.DeliverFindPosted? || pc.DeliverGiveUp?
             || pc.DeliverReadHandle? || pc.DeliverSend? || pc.DeliverStore? || pc.DeliverMark?
  {
    match pc
    case SelectRunning(now) =>
      if !c.fault.Fine? || !c.taken || !(db.row.status.Running? || db.row.status.Delivering?) || !Due(db.row.lease, now)
      then Turn(db, Idle)
      else (match db.report
            case Unfinished => Turn(db, Idle)
            case Failure => Turn(db, if db.kind.Direct? then DeliverReserve(db.clock) else DeliverMark(SILENT_FAILURE))
            case Completed(_) => Turn(db, DeliverRead))
    case DeliverRead =>
      if !c.fault.Fine? then Turn(db, RetryRead(None))
      else Turn(db, if db.kind.Direct? || db.report == Completed(true) then DeliverReserve(db.clock) else DeliverMark(SILENT))
    case DeliverReserve(at) =>
      var cas := ReserveDelivery(db.row, at);
      Turn(Written(db, cas.row, c.fault),
           if !c.fault.Fine? then RetryRead(None) else if cas.hit then DeliverReadHandle else DeliverFindPosted(at))
    case DeliverFindPosted(at) =>
      if !c.fault.Fine? then Turn(db, RetryRead(None))
      else Turn(db, if db.row.status.Delivering? && Truthy(db.row.handle) then DeliverMark(db.row.handle.value)
                    else DeliverGiveUp(at))
    case DeliverGiveUp(at) =>
      Turn(Written(db, GiveUpDelivery(db.row, at).row, c.fault), if c.fault.Fine? then Idle else RetryRead(None))
    case DeliverReadHandle =>
      if !c.fault.Fine? then Turn(db, RetryRead(None))
      else Turn(db, if Truthy(db.row.handle) then DeliverMark(db.row.handle.value) else DeliverSend)
    case DeliverSend =>
      Turn(if c.fault.FailsBefore? then db else db.(posts := db.posts + 1),
           if c.fault.Fine? then DeliverStore(c.handle) else RetryRead(None))
    case DeliverStore(handle) =>
      Turn(Written(db, StoreHandle(db.row, handle), c.fault), if c.fault.Fine? then DeliverMark(handle) else RetryRead(None))
    case DeliverMark(handle) =>
      Turn(Written(db, MarkDelivered(db.row, handle), c.fault), if c.fault.Fine? then Idle else RetryRead(None))
  }

  predicate Retrying(pc: RPc) {
    pc.RetryRead? || pc.RetryMark? || pc.RetryWrite?
  }

  /** The retry of a failed step: lines 1250-1290. */
  function PutBack(db: Db, pc: RPc, c: Choice): Turn
    requires Retrying(pc)
  {
    match pc
    case RetryRead(back) =>
      if !c.fault.Fine? then Turn(db, Idle)
      else if Truthy(db.row.handle) then
        Turn(db, if db.row.status.Delivered? then Back(back) else RetryMark(back, db.row.handle.value))
      else if db.row.status.Delivered? then Turn(db, Back(back))
      else Turn(db, RetryWrite(back, db.row.status))
    case RetryMark(back, handle) =>
      Turn(Written(db, MarkDelivered(db.row, handle), c.fault), if c.fault.Fine? then Back(back) else Idle)
    case RetryWrite(back, current) =>
      Turn(Written(db, Retry(db.row, current, db.clock + c.delay).row, c.fault), if c.fault.Fine? then Back(back) else Idle)
  }

  /** Delivery and retry. */
  function Deliver(db: Db, pc: RPc, c: Choice): Turn
    requires Delivery(pc)
  {
    if Retrying(pc) then PutBack(db, pc, c) else Post(db, pc, c)
  }

  predicate Recovering(pc: RPc) {
    pc.Boot? || pc.Idle? || pc.SelectExpired? || pc.FindWoken? || pc.DecideExpired?
    || pc.MarkWoken? || pc.DropOwnership? || pc.Promote? || pc.ResetClaims?
  }

  predicate Delivery(pc: RPc) {
    pc.SelectRunning? || pc.DeliverRead? || pc.DeliverReserve? || pc.DeliverFindPosted? || pc.DeliverGiveUp?
    || pc.DeliverReadHandle? || pc.DeliverSend? || pc.DeliverStore? || pc.DeliverMark?
    || pc.RetryRead? || pc.RetryMark? || pc.RetryWrite?
  }

  function Reconcile(db: Db, inFlight: bool, pc: RPc, c: Choice): Turn {
    if Recovering(pc) then Recover(db, inFlight, pc, c)
    else if Delivery(pc) then Deliver(db, pc, c)
    else Engagement(db, pc, c)
  }

  /** The inbound handler: receive, heartbeat, race against the wake, resolve (app.ts 594-662). */
  datatype Main =
    | Receive(at: int)
    | ReceiveDefer(at: int)
    | Extending
    | Marking(until: int)      // the first extension is written; the handler has not resumed yet
    | Racing
    | Holding
    | Awaiting
    | Resolving(woken: bool)
    | Releasing
    | Finishing
    | Done

  /** The routine wake the handler starts and may stop waiting for. */
  datatype Wake = NotStarted | Routines | Reserving | Waking | Woken(woken: bool) | Broken

  datatype Lost = Held | LeaseLost | RenewalFailed

  datatype Handler = Handler(bridge: nat, main: Main, wake: Wake, beating: bool, lost: Lost)

  datatype HandlerTurn = HandlerTurn(db: Db, handler: Handler)

  function HandleMain(db: Db, h: Handler, c: Choice): HandlerTurn {
    match h.main
    case Receive(at) =>
      var until := at + DEFERRED_RESERVATION_MS;
      var db' := Written(db, Upsert(db.row, NO_ROW.(status := Deferred, lease := Some(until))), c.fault);
      HandlerTurn(db', h.(main := if !c.fault.Fine? then Done
                                  else if db'.row.status.Deferred? && db'.row.lease == Some(until) then Extending
                                  else ReceiveDefer(at)))
    case ReceiveDefer(at) =>
      var cas := Defer(db.row, at);
      HandlerTurn(Written(db, cas.row, c.fault), h.(main := if c.fault.Fine? && cas.hit then Extending else Done))
    case Extending =>
      var cas := Extend(db.row, db.clock);
      HandlerTurn(Written(db, cas.row, c.fault),
                  if c.fault.Fine? && cas.hit then h.(main := Marking(db.clock + ROUTING_RESERVATION_MS), beating := true)
                  else h.(main := Done))
    case Marking(until) =>
      HandlerTurn(db, h.(main := Racing, wake := Routines))
    case Racing =>
      HandlerTurn(db, h.(main := if h.lost.RenewalFailed? then Releasing
                                 else if h.lost.LeaseLost? then Holding
                                 else if h.wake.Broken? then Releasing
                                 else if h.wake.Woken? then Resolving(h.wake.woken)
                                 else Racing))
    case Holding =>
      HandlerTurn(Written(db, Extend(db.row, db.clock).row, c.fault), h.(main := Awaiting))
    case Awaiting =>
      HandlerTurn(db, h.(main := if h.wake.Broken? then Releasing
                                 else if h.wake.Woken? then Resolving(h.wake.woken)
                                 else Awaiting))
    case Resolving(woken) =>
      HandlerTurn(Written(db, (if woken then ResolveRoutine(db.row) else ResolveAgent(db.row, db.kind)).row, c.fault),
                  h.(main := Finishing))
    case Releasing =>
      HandlerTurn(Written(db, ResolveAgent(db.row, db.kind).row, c.fault), h.(main := Finishing))
    case Finishing =>
      HandlerTurn(db, h.(main := Done))
    case Done =>
      HandlerTurn(db, h)
  }

  /** `wakeMessageRoutines`: list routines, reserve the row, commit the wake message. */
  function HandleWake(db: Db, h: Handler, c: Choice): HandlerTurn {
    match h.wake
    case Routines =>
      HandlerTurn(db, h.(wake := if !c.fault.Fine? then Broken else if c.taken then Reserving else Woken(false)))
    case Reserving =>
      var cas := ReserveWake(db.row, db.clock);
      HandlerTurn(Written(db, cas.row, c.fault),
                  h.(wake := if !c.fault.Fine? then Broken else if cas.hit then Waking else Woken(false)))
    case Waking =>
      HandlerTurn(if c.fault.FailsBefore? then db else db.(wake := true),
                  h.(wake := if c.fault.Fine? then Woken(true) else Broken))
    case _ => HandlerTurn(db, h)
  }

  predicate Settled(wake: Wake) {
    wake.Woken? || wake.Broken?
  }

  /**
   A heartbeat renewal. It may land at any time after the heartbeat started, even after the
   handler stopped it; its outcome counts only when it settles the handler's race.
   */
  function HandleRenewal(db: Db, h: Handler, c: Choice): HandlerTurn {
    if !h.beating then HandlerTurn(db, h)
    else
      var cas := Extend(db.row, db.clock);
      HandlerTurn(Written(db, cas.row, c.fault),
                  h.(lost := if !h.main.Racing? || !h.lost.Held? || Settled(h.wake) then h.lost
                             else if !c.fault.Fine? then RenewalFailed
                             else if !cas.hit then LeaseLost else Held))
  }

  /**
   The whole deployment: one reconciler for each live bridge, the bridges whose in-flight
   set holds this row, and the inbound handlers started so far.
   */
  datatype World = World(db: Db, reconcilers: map<nat, RPc>, inFlight: set<nat>, handlers: map<nat, Handler>)

  datatype Action =
    | Tick(elapsed: nat)
    | BootBridge(bridge: nat)
    | Crash(bridge: nat)
    | Reconciler(bridge: nat, c: Choice)
    | Observe(bridge: nat, c: Choice)       // receive() for a sender that cannot wake routines
    | Finishes(report: Report)              // the agent run ends
    | Arrive(handler: nat, bridge: nat)
    | Step(handler: nat, c: Choice)
    | StepWake(handler: nat, c: Choice)
    | Renew(handler: nat, c: Choice)

  predicate Started(w: World, bridge: nat) {
    bridge in w.reconcilers && !w.reconcilers[bridge].Boot?
  }

  function Land(w: World, id: nat, t: HandlerTurn): World {
    w.(db := t.db, handlers := w.handlers[id := t.handler])
  }

  /** `markRoutineWakeInFlight` and `clearRoutineWakeInFlight`, at the two steps that call them. */
  function Marked(inFlight: set<nat>, bridge: nat, main: Main): set<nat> {
    if main.Marking? then inFlight + {bridge} else if main.Finishing? then inFlight - {bridge} else inFlight
  }

  function Do(w: World, a: Action): World {
    match a
    case Tick(elapsed) => w.(db := w.db.(clock := w.db.clock + elapsed))
    case BootBridge(b) =>
      if b in w.reconcilers then w else w.(reconcilers := w.reconcilers[b := Boot], inFlight := w.inFlight - {b})
    case Crash(b) =>
      w.(reconcilers := map x | x in w.reconcilers && x != b :: w.reconcilers[x],
         inFlight := w.inFlight - {b},
         handlers := map h | h in w.handlers && w.handlers[h].bridge != b :: w.handlers[h])
    case Reconciler(b, c) =>
      if b !in w.reconcilers then w
      else
        var t := Reconcile(w.db, b in w.inFlight, w.reconcilers[b], c);
        w.(db := t.db, reconcilers := w.reconcilers[b := t.pc])
    case Observe(b, c) =>
      if !Started(w, b) then w
      else w.(db := Written(w.db, Upsert(w.db.row, NO_ROW.(status := Released(w.db.kind))), c.fault))
    case Finishes(report) =>
      if w.db.agent.None? || !w.db.report.Unfinished? then w else w.(db := w.db.(report := report))
    case Arrive(h, b) =>
      if h in w.handlers || !Started(w, b) then w
      else w.(handlers := w.handlers[h := Handler(b, Receive(w.db.clock), NotStarted, false, Held)])
    case Step(h, c) =>
      if h !in w.handlers then w
      else
        var b := w.handlers[h].bridge;
        Land(w, h, HandleMain(w.db, w.handlers[h], c)).(inFlight := Marked(w.inFlight, b, w.handlers[h].main))
    case StepWake(h, c) =>
      if h !in w.handlers then w else Land(w, h, HandleWake(w.db, w.handlers[h], c))
    case Renew(h, c) =>
      if h !in w.handlers then w else Land(w, h, HandleRenewal(w.db, w.handlers[h], c))
  }

  function Initial(kind: Kind): World {
    World(Db(kind, 0, NO_ROW, false, None, false, Unfinished, 0), map[], {}, map[])
  }

  /** The world after a run; runs grow at the right end. */
  function Run(w: World, actions: seq<Action>): World {
    if actions == [] then w else Do(Run(w, actions[..|actions| - 1]), actions[|actions| - 1])
  }
}
