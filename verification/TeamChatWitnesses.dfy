/**
 Why exclusivity needs each of its rules: for every rule, a run that keeps all the others, in
 which no process is lost, and that still ends with both a routine wake and a row linked to an
 agent run.
 */
module TeamChatWitnesses {
  import opened Wrappers
  import opened TeamChatRow
  import opened TeamChatProtocol
  import opened TeamChatExclusivity
  import opened TeamChatDirect

  const FINE := Choice(Fine, true, HeldBack, 0, "", 0)
  const PASS := FINE.(taken := false)
  const ENGAGE := FINE.(verdict := Engage(None))
  const FAILS := FINE.(fault := FailsBefore)
  const DELAYED := FINE.(delay := RETRY_MS)

  /** The delay after a first failure. */
  const RETRY_MS := 2_000

  const HALF_HOUR := ROUTING_RESERVATION_MS

  /** `actions` is a run that obeys `rules` and ends in `w`. */
  predicate Leads(rules: Rules, kind: Kind, actions: seq<Action>, w: World) {
    Obeys(rules, Initial(kind), actions) && Run(Initial(kind), actions) == w
  }

  lemma Then(rules: Rules, kind: Kind, actions: seq<Action>, w: World, a: Action) returns (actions': seq<Action>, w': World)
    requires Leads(rules, kind, actions, w) && Allowed(rules, w, a)
    ensures Leads(rules, kind, actions', w') && w' == Do(w, a)
  {
    actions', w' := actions + [a], Do(w, a);
    assert actions'[..|actions'| - 1] == actions;
  }

  /** One reconciler step with a choice that fails nowhere. */
  lemma Advance(rules: Rules, kind: Kind, actions: seq<Action>, w: World, b: nat, c: Choice) returns (actions': seq<Action>, w': World)
    requires Leads(rules, kind, actions, w) && b in w.reconcilers && c.fault.Fine? && (rules.prompt ==> Prompt(w))
    ensures Leads(rules, kind, actions', w')
    ensures var t := Reconcile(w.db, b in w.inFlight, w.reconcilers[b], c);
      w' == w.(db := t.db, reconcilers := w.reconcilers[b := t.pc])
  {
    hide Run, Obeys;
    actions', w' := Then(rules, kind, actions, w, Reconciler(b, c));
  }

  /** A committed wake beside a linked run that was never cancelled. */
  predicate EndsWithBoth(kind: Kind, actions: seq<Action>) {
    var w := Run(Initial(kind), actions);
    Both(w) && BothRun(w.db)
  }

  predicate ExpiredNow(db: Db) {
    db.row.status.Deferred? && Expired(db.row.lease, db.clock)
  }

  /** A bridge comes up and is ready to reconcile. */
  lemma Opens(rules: Rules, kind: Kind, actions: seq<Action>, w: World, b: nat) returns (actions': seq<Action>, w': World)
    requires Leads(rules, kind, actions, w) && b !in w.reconcilers && !ExpiredNow(w.db)
    requires (rules.prompt ==> Prompt(w)) && (rules.oneBridge ==> w.reconcilers == map[])
    ensures Leads(rules, kind, actions', w')
    ensures w' == w.(reconcilers := w.reconcilers[b := Idle], inFlight := w.inFlight - {b})
  {
    hide Run, Obeys;
    var s, x := Then(rules, kind, actions, w, BootBridge(b));
    actions', w' := Advance(rules, kind, s, x, b, FINE);
    assert w'.reconcilers == w.reconcilers[b := Idle];
  }

  /** Two reconciler steps; only the database and this bridge's counter change. */
  lemma Twice(rules: Rules, kind: Kind, actions: seq<Action>, w: World, b: nat, c: Choice, mid: Turn, d: Choice, end: Turn)
    returns (actions': seq<Action>, w': World)
    requires Leads(rules, kind, actions, w) && b in w.reconcilers && (rules.prompt ==> Prompt(w))
    requires c.fault.Fine? && d.fault.Fine? && mid.db.clock == w.db.clock
    requires Reconcile(w.db, b in w.inFlight, w.reconcilers[b], c) == mid
    requires Reconcile(mid.db, b in w.inFlight, mid.pc, d) == end
    ensures Leads(rules, kind, actions', w')
    ensures w' == w.(db := end.db, reconcilers := w.reconcilers[b := end.pc])
  {
    hide Run, Obeys;
    var s, x := Advance(rules, kind, actions, w, b, c);
    actions', w' := Advance(rules, kind, s, x, b, d);
    assert w'.reconcilers == w.reconcilers[b := end.pc];
  }

  lemma ClaimTurns(db: Db, marked: bool, now: int)
    requires db.row.status.Received? && FreeOfOwnership(db.row.reason) && Due(db.row.lease, now) && !db.wake
    ensures var claimed := db.(row := ClaimQueue(db.row, db.clock).row);
      && Reconcile(db, marked, SelectReceived(now), FINE) == Turn(db, QueueFindWake(now, db.row.reason))
      && Reconcile(db, marked, QueueFindWake(now, db.row.reason), FINE) == Turn(db, QueueClaim(now))
      && Reconcile(db, marked, QueueClaim(now), FINE) == Turn(claimed, QueueFindWakeClaimed(now))
      && claimed.row.status.Queueing? && claimed.row.reason.AgentOwned?
  {
  }

  lemma CheckTurns(db: Db, marked: bool, now: int)
    requires db.row.status.Queueing? && db.row.reason.AgentOwned? && !db.wake
    ensures Reconcile(db, marked, QueueFindWakeClaimed(now), FINE) == Turn(db, QueueReadLatest(now))
    ensures Reconcile(db, marked, QueueReadLatest(now), FINE) == Turn(db, QueueFindWakeFinal(now))
    ensures Reconcile(db, marked, QueueFindWakeFinal(now), FINE) == Turn(db, QueueSend(now))
  {
  }

  lemma LinkTurns(db: Db, marked: bool, now: int)
    requires db.row.status.Queueing? && db.row.reason.AgentOwned? && !db.wake && db.agent.None?
    ensures var sent := db.(agent := Some(0));
      && Reconcile(db, marked, QueueSend(now), FINE) == Turn(sent, QueueFindWakeSent(now, 0))
      && Reconcile(sent, marked, QueueFindWakeSent(now, 0), FINE) == Turn(sent, QueueLink(now, 0))
      && Reconcile(sent, marked, QueueLink(now, 0), FINE) == Turn(sent.(row := Link(sent.row, 0).row), QueueEnqueue(now))
      && Linked(Link(sent.row, 0).row)
  {
  }

  /** The queue claims a free received row and creates its agent run; the link is still to come. */
  lemma CreatesRun(rules: Rules, kind: Kind, actions: seq<Action>, w: World, b: nat, now: int)
    returns (actions': seq<Action>, w': World)
    requires Leads(rules, kind, actions, w) && b in w.reconcilers && w.reconcilers[b] == SelectReceived(now)
    requires rules.prompt ==> Prompt(w)
    requires w.db.row.status.Received? && FreeOfOwnership(w.db.row.reason) && Due(w.db.row.lease, now)
    requires !w.db.wake && w.db.agent.None?
    ensures Leads(rules, kind, actions', w')
    ensures w' == w.(db := w.db.(row := ClaimQueue(w.db.row, w.db.clock).row, agent := Some(0)),
                     reconcilers := w.reconcilers[b := QueueLink(now, 0)])
  {
    hide Run, Obeys, Reconcile;
    var db, marked := w.db, b in w.inFlight;
    var claimed := db.(row := ClaimQueue(db.row, db.clock).row);
    ClaimTurns(db, marked, now);
    var s, x := Twice(rules, kind, actions, w, b, FINE, Turn(db, QueueFindWake(now, db.row.reason)), FINE, Turn(db, QueueClaim(now)));
    s, x := Advance(rules, kind, s, x, b, FINE);
    assert x == w.(db := claimed, reconcilers := w.reconcilers[b := QueueFindWakeClaimed(now)]);
    actions', w' := CreatesClaimedRun(rules, kind, s, x, b, now);
    assert w'.reconcilers == w.reconcilers[b := QueueLink(now, 0)];
  }

  lemma CreatesClaimedRun(rules: Rules, kind: Kind, actions: seq<Action>, w: World, b: nat, now: int)
    returns (actions': seq<Action>, w': World)
    requires Leads(rules, kind, actions, w) && b in w.reconcilers && w.reconcilers[b] == QueueFindWakeClaimed(now)
    requires rules.prompt ==> Prompt(w)
    requires w.db.row.status.Queueing? && w.db.row.reason.AgentOwned? && !w.db.wake && w.db.agent.None?
    ensures Leads(rules, kind, actions', w')
    ensures w' == w.(db := w.db.(agent := Some(0)), reconcilers := w.reconcilers[b := QueueLink(now, 0)])
  {
    hide Run, Obeys, Reconcile;
    var db, marked := w.db, b in w.inFlight;
    var sent := db.(agent := Some(0));
    CheckTurns(db, marked, now);
    LinkTurns(db, marked, now);
    var s, x := Twice(rules, kind, actions, w, b, FINE, Turn(db, QueueReadLatest(now)), FINE, Turn(db, QueueFindWakeFinal(now)));
    s, x := Twice(rules, kind, s, x, b, FINE, Turn(db, QueueSend(now)), FINE, Turn(sent, QueueFindWakeSent(now, 0)));
    actions', w' := Advance(rules, kind, s, x, b, FINE);
    assert w'.reconcilers == w.reconcilers[b := QueueLink(now, 0)];
  }

  /** The queue takes a free received row all the way to a linked agent run. */
  lemma LinksAgentRun(rules: Rules, kind: Kind, actions: seq<Action>, w: World, b: nat, now: int)
    returns (actions': seq<Action>, w': World)
    requires Leads(rules, kind, actions, w) && b in w.reconcilers && w.reconcilers[b] == SelectReceived(now)
    requires rules.prompt ==> Prompt(w)
    requires w.db.row.status.Received? && FreeOfOwnership(w.db.row.reason) && Due(w.db.row.lease, now)
    requires !w.db.wake && w.db.agent.None?
    ensures Leads(rules, kind, actions', w')
    ensures Linked(w'.db.row) && w'.db == w.db.(row := w'.db.row, agent := Some(0)) && w'.handlers == w.handlers
  {
    hide Run, Obeys, Reconcile;
    var s, x := CreatesRun(rules, kind, actions, w, b, now);
    LinkTurns(w.db.(row := ClaimQueue(w.db.row, w.db.clock).row), b in w.inFlight, now);
    actions', w' := Advance(rules, kind, s, x, b, FINE);
  }

  // --- recovery passes ---------------------------------------------------------------

  lemma SelectTurns(db: Db)
    requires ExpiredNow(db) && !db.wake
    ensures Reconcile(db, false, Idle, FINE) == Turn(db, SelectExpired(db.clock))
    ensures Reconcile(db, false, SelectExpired(db.clock), FINE) == Turn(db, FindWoken(db.clock, db.row.reason))
    ensures Reconcile(db, false, FindWoken(db.clock, db.row.reason), FINE) == Turn(db, DecideExpired(db.clock, db.row.reason, false))
  {
  }

  lemma DropTurns(db: Db)
    requires ExpiredNow(db) && db.row.reason.Routing?
    ensures var free := db.(row := db.row.(reason := NoReason, lease := Some(db.clock)));
      && Reconcile(db, false, DecideExpired(db.clock, db.row.reason, false), FINE) == Turn(db, DropOwnership(db.clock))
      && Reconcile(db, false, DropOwnership(db.clock), FINE) == Turn(free, ResetClaims(db.clock))
  {
  }

  lemma PromoteTurns(db: Db)
    requires ExpiredNow(db) && FreeOfOwnership(db.row.reason)
    ensures var out := db.(row := db.row.(status := Released(db.kind), reason := NoReason, lease := None));
      && Reconcile(db, false, DecideExpired(db.clock, db.row.reason, false), FINE) == Turn(db, Promote(db.clock))
      && Reconcile(db, false, Promote(db.clock), FINE) == Turn(out, ResetClaims(db.clock))
  {
  }

  /** The rest of a pass that selects the row nowhere. */
  lemma PassTurns(db: Db, marked: bool, now: int)
    requires !db.row.status.Queueing?
    ensures Reconcile(db, marked, ResetClaims(now), FINE) == Turn(db, SelectObserved(now))
    ensures Reconcile(db, marked, SelectObserved(now), PASS) == Turn(db, SelectReceived(now))
    ensures Reconcile(db, marked, SelectReceived(now), PASS) == Turn(db, SelectRunning(now))
    ensures Reconcile(db, marked, SelectRunning(now), PASS) == Turn(db, Idle)
  {
  }

  /** Recovery selects the expired row, finds no wake, and does what the row's marker calls for. */
  lemma Recovers(rules: Rules, kind: Kind, actions: seq<Action>, w: World, b: nat, write: RPc, end: Db)
    returns (actions': seq<Action>, w': World)
    requires Leads(rules, kind, actions, w) && b in w.reconcilers && w.reconcilers[b] == Idle && b !in w.inFlight
    requires (rules.prompt ==> Prompt(w)) && ExpiredNow(w.db) && !w.db.wake && end.clock == w.db.clock
    requires Reconcile(w.db, false, DecideExpired(w.db.clock, w.db.row.reason, false), FINE) == Turn(w.db, write)
    requires Reconcile(w.db, false, write, FINE) == Turn(end, ResetClaims(w.db.clock))
    ensures Leads(rules, kind, actions', w')
    ensures w' == w.(db := end, reconcilers := w.reconcilers[b := ResetClaims(w.db.clock)])
  {
    hide Run, Obeys, Reconcile;
    var db, now, seen := w.db, w.db.clock, w.db.row.reason;
    SelectTurns(db);
    var s, x := Twice(rules, kind, actions, w, b, FINE, Turn(db, SelectExpired(now)), FINE, Turn(db, FindWoken(now, seen)));
    s, x := Twice(rules, kind, s, x, b, FINE, Turn(db, DecideExpired(now, seen, false)), FINE, Turn(db, write));
    actions', w' := Advance(rules, kind, s, x, b, FINE);
    assert w'.reconcilers == w.reconcilers[b := ResetClaims(now)];
  }

  /** The rest of a recovery pass, up to the search for received rows. */
  lemma PassesBy(rules: Rules, kind: Kind, actions: seq<Action>, w: World, b: nat, now: int)
    returns (actions': seq<Action>, w': World)
    requires Leads(rules, kind, actions, w) && b in w.reconcilers && w.reconcilers[b] == ResetClaims(now)
    requires (rules.prompt ==> Prompt(w)) && !w.db.row.status.Queueing?
    ensures Leads(rules, kind, actions', w')
    ensures w' == w.(reconcilers := w.reconcilers[b := SelectReceived(now)])
  {
    hide Run, Obeys, Reconcile;
    PassTurns(w.db, b in w.inFlight, now);
    actions', w' := Twice(rules, kind, actions, w, b, FINE, Turn(w.db, SelectObserved(now)), PASS, Turn(w.db, SelectReceived(now)));
  }

  /** The end of a pass that selects the row no more. */
  lemma PassEnds(rules: Rules, kind: Kind, actions: seq<Action>, w: World, b: nat, now: int)
    returns (actions': seq<Action>, w': World)
    requires Leads(rules, kind, actions, w) && b in w.reconcilers && w.reconcilers[b] == SelectReceived(now)
    requires (rules.prompt ==> Prompt(w)) && !w.db.row.status.Queueing?
    ensures Leads(rules, kind, actions', w')
    ensures w' == w.(reconcilers := w.reconcilers[b := Idle])
  {
    hide Run, Obeys, Reconcile;
    PassTurns(w.db, b in w.inFlight, now);
    actions', w' := Twice(rules, kind, actions, w, b, PASS, Turn(w.db, SelectRunning(now)), PASS, Turn(w.db, Idle));
  }

  /** A whole pass of a bridge that does not know the wake, from idle to idle. */
  lemma RecoveryPass(rules: Rules, kind: Kind, actions: seq<Action>, w: World, b: nat, write: RPc, end: Db)
    returns (actions': seq<Action>, w': World)
    requires Leads(rules, kind, actions, w) && b in w.reconcilers && w.reconcilers[b] == Idle && b !in w.inFlight
    requires (rules.prompt ==> Prompt(w)) && ExpiredNow(w.db) && !w.db.wake
    requires end.clock == w.db.clock && !end.row.status.Queueing?
    requires Reconcile(w.db, false, DecideExpired(w.db.clock, w.db.row.reason, false), FINE) == Turn(w.db, write)
    requires Reconcile(w.db, false, write, FINE) == Turn(end, ResetClaims(w.db.clock))
    ensures Leads(rules, kind, actions', w')
    ensures w' == w.(db := end)
  {
    hide Run, Obeys, Reconcile;
    var s, x := Recovers(rules, kind, actions, w, b, write, end);
    s, x := PassesBy(rules, kind, s, x, b, w.db.clock);
    actions', w' := PassEnds(rules, kind, s, x, b, w.db.clock);
    assert w'.reconcilers == w.reconcilers;
  }

  /** One pass drops the expired routing marker of a wake this bridge does not know; the next one promotes. */
  lemma FreesRow(rules: Rules, kind: Kind, actions: seq<Action>, w: World, b: nat)
    returns (actions': seq<Action>, w': World)
    requires Leads(rules, kind, actions, w) && b in w.reconcilers && w.reconcilers[b] == Idle && b !in w.inFlight
    requires (rules.prompt ==> Prompt(w)) && w.db.kind == kind
    requires ExpiredNow(w.db) && w.db.row.reason.Routing? && !w.db.wake
    ensures Leads(rules, kind, actions', w')
    ensures w' == w.(db := w.db.(row := w.db.row.(status := Released(kind), reason := NoReason, lease := None)))
  {
    hide Run, Obeys, Reconcile;
    var db, now := w.db, w.db.clock;
    var free := db.(row := db.row.(reason := NoReason, lease := Some(now)));
    var out := db.(row := db.row.(status := Released(kind), reason := NoReason, lease := None));
    DropTurns(db);
    PromoteTurns(free);
    var s, x := RecoveryPass(rules, kind, actions, w, b, DropOwnership(now), free);
    actions', w' := RecoveryPass(rules, kind, s, x, b, Promote(now), out);
  }

  /** A pass over a row that recovery does not touch. */
  lemma ReachesReceived(rules: Rules, kind: Kind, actions: seq<Action>, w: World, b: nat)
    returns (actions': seq<Action>, w': World)
    requires Leads(rules, kind, actions, w) && b in w.reconcilers && w.reconcilers[b] == Idle
    requires (rules.prompt ==> Prompt(w)) && w.db.row.status.Received?
    ensures Leads(rules, kind, actions', w')
    ensures w' == w.(reconcilers := w.reconcilers[b := SelectReceived(w.db.clock)])
  {
    hide Run, Obeys;
    var db, now := w.db, w.db.clock;
    PassTurns(db, b in w.inFlight, now);
    var s, x := Twice(rules, kind, actions, w, b, FINE, Turn(db, SelectExpired(now)), PASS, Turn(db, ResetClaims(now)));
    actions', w' := Twice(rules, kind, s, x, b, FINE, Turn(db, SelectObserved(now)), PASS, Turn(db, SelectReceived(now)));
    assert w'.reconcilers == w.reconcilers[b := SelectReceived(now)];
  }

  lemma EngageTurns(db: Db, marked: bool, now: int)
    requires db.row.status.Observed?
    ensures Reconcile(db, marked, ResetClaims(now), FINE) == Turn(db, SelectObserved(now))
    ensures Reconcile(db, marked, SelectObserved(now), ENGAGE) == Turn(db, EngageAmbient(now, None))
    ensures Reconcile(db, marked, EngageAmbient(now, None), FINE)
      == Turn(db.(row := db.row.(status := Received, reason := NoReason)), SelectReceived(now))
  {
  }

  /** A pass in which the judge engages the observed row, whatever marker it carries. */
  lemma JudgeEngages(rules: Rules, kind: Kind, actions: seq<Action>, w: World, b: nat)
    returns (actions': seq<Action>, w': World)
    requires Leads(rules, kind, actions, w) && b in w.reconcilers && w.reconcilers[b] == Idle
    requires (rules.prompt ==> Prompt(w)) && w.db.row.status.Observed?
    ensures Leads(rules, kind, actions', w')
    ensures w' == w.(db := w.db.(row := w.db.row.(status := Received, reason := NoReason)),
                     reconcilers := w.reconcilers[b := SelectReceived(w.db.clock)])
  {
    hide Run, Obeys;
    var db, now := w.db, w.db.clock;
    EngageTurns(db, b in w.inFlight, now);
    var s, x := Twice(rules, kind, actions, w, b, FINE, Turn(db, SelectExpired(now)), PASS, Turn(db, ResetClaims(now)));
    s, x := Twice(rules, kind, s, x, b, FINE, Turn(db, SelectObserved(now)), ENGAGE, Turn(db, EngageAmbient(now, None)));
    actions', w' := Advance(rules, kind, s, x, b, FINE);
    assert w'.reconcilers == w.reconcilers[b := SelectReceived(now)];
  }

  /** From a free row of either kind to the point where the queue looks for it. */
  lemma ReachesQueue(rules: Rules, kind: Kind, actions: seq<Action>, w: World, b: nat)
    returns (actions': seq<Action>, w': World)
    requires Leads(rules, kind, actions, w) && b in w.reconcilers && w.reconcilers[b] == Idle
    requires (rules.prompt ==> Prompt(w)) && w.db.kind == kind
    requires w.db.row.status == Released(kind) && w.db.row.reason.NoReason? && w.db.row.lease.None?
    ensures Leads(rules, kind, actions', w')
    ensures w' == w.(db := w.db.(row := w.db.row.(status := Received)), reconcilers := w.reconcilers[b := SelectReceived(w.db.clock)])
  {
    hide Run, Obeys;
    if kind.Direct? {
      actions', w' := ReachesReceived(rules, kind, actions, w, b);
    } else {
      actions', w' := JudgeEngages(rules, kind, actions, w, b);
    }
  }

  // --- handlers ----------------------------------------------------------------------

  /** One step of a handler's main line, to a turn known in advance. */
  lemma Acts(rules: Rules, kind: Kind, actions: seq<Action>, w: World, h: nat, t: HandlerTurn)
    returns (actions': seq<Action>, w': World)
    requires Leads(rules, kind, actions, w) && h in w.handlers && (rules.prompt ==> Prompt(w))
    requires HandleMain(w.db, w.handlers[h], FINE) == t
    ensures Leads(rules, kind, actions', w')
    ensures w' == w.(db := t.db, handlers := w.handlers[h := t.handler],
                     inFlight := Marked(w.inFlight, w.handlers[h].bridge, w.handlers[h].main))
  {
    hide Run, Obeys;
    actions', w' := Then(rules, kind, actions, w, Step(h, FINE));
  }

  function HeldRow(clock: int): Row {
    Row(Deferred, Routing, Some(clock + HALF_HOUR), None, None)
  }

  /** A first delivery of the event: the handler owns the row and has yet to resume. */
  lemma Holds(rules: Rules, kind: Kind, actions: seq<Action>, w: World, b: nat, h: nat)
    returns (actions': seq<Action>, w': World)
    requires Leads(rules, kind, actions, w) && Started(w, b) && w.handlers == map[] && w.db.row == NO_ROW
    ensures Leads(rules, kind, actions', w')
    ensures w' == w.(db := w.db.(row := HeldRow(w.db.clock)),
                     handlers := map[h := Handler(b, Marking(w.db.clock + HALF_HOUR), NotStarted, true, Held)])
  {
    hide Run, Obeys;
    var s, x := Then(rules, kind, actions, w, Arrive(h, b));
    s, x := Then(rules, kind, s, x, Step(h, FINE));
    assert x.handlers[h] == Handler(b, Extending, NotStarted, false, Held);
    actions', w' := Then(rules, kind, s, x, Step(h, FINE));
    assert w'.handlers == map[h := Handler(b, Marking(w.db.clock + HALF_HOUR), NotStarted, true, Held)];
  }

  /** The handler resumes and its wake finds a routine. */
  lemma StartsWake(rules: Rules, kind: Kind, actions: seq<Action>, w: World, b: nat, h: nat, until: int)
    returns (actions': seq<Action>, w': World)
    requires Leads(rules, kind, actions, w) && (rules.prompt ==> Prompt(w))
    requires w.handlers == map[h := Handler(b, Marking(until), NotStarted, true, Held)]
    ensures Leads(rules, kind, actions', w')
    ensures w' == w.(inFlight := w.inFlight + {b}, handlers := map[h := Handler(b, Racing, Reserving, true, Held)])
  {
    hide Run, Obeys;
    var s, x := Then(rules, kind, actions, w, Step(h, FINE));
    assert x.handlers[h] == Handler(b, Racing, Routines, true, Held);
    actions', w' := Then(rules, kind, s, x, StepWake(h, FINE));
    assert w'.handlers == map[h := Handler(b, Racing, Reserving, true, Held)];
  }

  /** The handler resumes and its wake reserves the row; the wake message is still on its way. */
  lemma Wakes(rules: Rules, kind: Kind, actions: seq<Action>, w: World, b: nat, h: nat, until: int)
    returns (actions': seq<Action>, w': World)
    requires Leads(rules, kind, actions, w) && (rules.prompt ==> Prompt(w))
    requires w.handlers == map[h := Handler(b, Marking(until), NotStarted, true, Held)]
    requires ReserveWake(w.db.row, w.db.clock).hit
    ensures Leads(rules, kind, actions', w')
    ensures w' == w.(db := w.db.(row := ReserveWake(w.db.row, w.db.clock).row), inFlight := w.inFlight + {b},
                     handlers := map[h := Handler(b, Racing, Waking, true, Held)])
  {
    hide Run, Obeys;
    var s, x := StartsWake(rules, kind, actions, w, b, h, until);
    actions', w' := Then(rules, kind, s, x, StepWake(h, FINE));
    assert w'.handlers == map[h := Handler(b, Racing, Waking, true, Held)];
  }

  /** The queue links its run first, and then the pending wake commits. */
  lemma LinksThenWakes(rules: Rules, kind: Kind, actions: seq<Action>, w: World, b: nat, h: nat, now: int)
    returns (actions': seq<Action>, w': World)
    requires Leads(rules, kind, actions, w) && b in w.reconcilers && w.reconcilers[b] == SelectReceived(now)
    requires h in w.handlers && w.handlers[h].wake.Waking? && (rules.prompt ==> Prompt(w))
    requires w.db.row.status.Received? && FreeOfOwnership(w.db.row.reason) && Due(w.db.row.lease, now)
    requires !w.db.wake && w.db.agent.None?
    ensures Leads(rules, kind, actions', w') && Both(w') && (!w.db.cancelled ==> BothRun(w'.db))
  {
    hide Run, Obeys;
    var s, x := LinksAgentRun(rules, kind, actions, w, b, now);
    actions', w' := Then(rules, kind, s, x, StepWake(h, FINE));
  }

  /** A free row, an idle bridge and a wake still on its way: the agent run is linked beside it. */
  lemma RunsBeside(rules: Rules, kind: Kind, actions: seq<Action>, w: World, b: nat, h: nat)
    returns (actions': seq<Action>)
    requires Leads(rules, kind, actions, w) && b in w.reconcilers && w.reconcilers[b] == Idle
    requires h in w.handlers && w.handlers[h].wake.Waking? && (rules.prompt ==> Prompt(w))
    requires w.db.kind == kind && w.db.row == Row(Released(kind), NoReason, None, None, None)
    requires !w.db.wake && w.db.agent.None? && !w.db.cancelled
    ensures Obeys(rules, Initial(kind), actions') && EndsWithBoth(kind, actions')
  {
    hide Run, Obeys;
    var s, x := ReachesQueue(rules, kind, actions, w, b);
    actions', x := LinksThenWakes(rules, kind, s, x, b, h, w.db.clock);
  }

  // --- the four rules ----------------------------------------------------------------

  lemma Starts(rules: Rules, kind: Kind) returns (actions: seq<Action>, w: World)
    ensures Leads(rules, kind, actions, w)
    ensures w == Initial(kind).(reconcilers := map[1 := Idle])
  {
    assert Leads(rules, kind, [], Initial(kind));
    actions, w := Opens(rules, kind, [], Initial(kind), 1);
    assert w.inFlight == {} && w.reconcilers == map[1 := Idle];
  }

  /** An event of a sender who wakes no routines. */
  lemma ReceivesOne(rules: Rules, kind: Kind) returns (actions: seq<Action>, w: World)
    ensures Leads(rules, kind, actions, w)
    ensures w == Initial(kind).(db := Initial(kind).db.(row := NO_ROW.(status := Released(kind))), reconcilers := map[1 := Idle])
  {
    hide Run, Obeys;
    var s, x := Starts(rules, kind);
    actions, w := Then(rules, kind, s, x, Observe(1, FINE));
  }

  /** A redelivery takes a free received row over; its handler has yet to resume. */
  lemma RedeliveryTakesOver(rules: Rules, kind: Kind, actions: seq<Action>, w: World) returns (actions': seq<Action>, w': World)
    requires Leads(rules, kind, actions, w) && w.handlers == map[] && Started(w, 1)
    requires w.db.row == NO_ROW.(status := Received, lease := w.db.row.lease)
    ensures Leads(rules, kind, actions', w')
    ensures w' == w.(db := w.db.(row := HeldRow(w.db.clock)),
                     handlers := map[1 := Handler(1, Marking(w.db.clock + HALF_HOUR), NotStarted, true, Held)])
  {
    hide Run, Obeys;
    var clock := w.db.clock;
    var h0 := Handler(1, ReceiveDefer(clock), NotStarted, false, Held);
    var s, x := Then(rules, kind, actions, w, Arrive(1, 1));
    assert x.handlers == map[1 := h0.(main := Receive(clock))];
    s, x := Acts(rules, kind, s, x, 1, HandlerTurn(w.db, h0));
    s, x := Acts(rules, kind, s, x, 1, HandlerTurn(w.db.(row := Defer(w.db.row, clock).row), h0.(main := Extending)));
    actions', w' := Acts(rules, kind, s, x, 1,
      HandlerTurn(w.db.(row := HeldRow(clock)), Handler(1, Marking(clock + HALF_HOUR), NotStarted, true, Held)));
    assert w'.handlers == map[1 := Handler(1, Marking(clock + HALF_HOUR), NotStarted, true, Held)];
  }

  /** The queue finds the free row, but its look for a wake fails; before it reads the row again a redelivery defers it. */
  lemma RetriesStaleRow(rules: Rules, kind: Kind) returns (actions: seq<Action>, w: World)
    requires !rules.noFailure
    ensures Leads(rules, kind, actions, w)
    ensures w == World(Db(kind, 0, HeldRow(0), false, None, false, Unfinished, 0), map[1 := RetryWrite(Some(0), Deferred)], {},
                       map[1 := Handler(1, Marking(HALF_HOUR), NotStarted, true, Held)])
  {
    hide Run, Obeys, Reconcile;
    var s, x := ReceivesOne(rules, kind);
    s, x := ReachesQueue(rules, kind, s, x, 1);
    StaleTurns(x.db, false);
    s, x := Advance(rules, kind, s, x, 1, FINE);
    s, x := Then(rules, kind, s, x, Reconciler(1, FAILS));
    assert x.reconcilers == map[1 := RetryRead(Some(0))];
    s, x := RedeliveryTakesOver(rules, kind, s, x);
    RereadTurns(x.db, false);
    actions, w := Advance(rules, kind, s, x, 1, FINE);
    assert w.reconcilers == map[1 := RetryWrite(Some(0), Deferred)];
  }

  lemma StaleTurns(db: Db, marked: bool)
    requires db.row == NO_ROW.(status := Received)
    ensures Reconcile(db, marked, SelectReceived(0), FINE) == Turn(db, QueueFindWake(0, NoReason))
    ensures Reconcile(db, marked, QueueFindWake(0, NoReason), FAILS) == Turn(db, RetryRead(Some(0)))
  {
  }

  lemma RereadTurns(db: Db, marked: bool)
    requires db.row == HeldRow(0) && db.clock == 0
    ensures Reconcile(db, marked, RetryRead(Some(0)), FINE) == Turn(db, RetryWrite(Some(0), Deferred))
    ensures Reconcile(db, marked, RetryWrite(Some(0), Deferred), DELAYED)
      == Turn(db.(row := db.row.(lease := Some(RETRY_MS))), SelectRunning(0))
    ensures Reconcile(db.(row := db.row.(lease := Some(RETRY_MS))), marked, SelectRunning(0), PASS)
      == Turn(db.(row := db.row.(lease := Some(RETRY_MS))), Idle)
  {
  }

  /** The retry of a failed read shortens the lease of the ambient row a handler holds; recovery frees it under the
      handler, and the judge overwrites the marker of the handler's wake. */
  lemma FailedReadBreaksExclusivity() returns (actions: seq<Action>)
    ensures Obeys(ALL_RULES.(noFailure := false), Initial(Ambient), actions) && EndsWithBoth(Ambient, actions)
  {
    hide Run, Obeys, Reconcile;
    var rules := ALL_RULES.(noFailure := false);
    var s, w := RetriesStaleRow(rules, Ambient);
    var short := w.db.(row := w.db.row.(lease := Some(RETRY_MS)));
    RereadTurns(w.db, false);
    s, w := Twice(rules, Ambient, s, w, 1, DELAYED, Turn(short, SelectRunning(0)), PASS, Turn(short, Idle));
    s, w := Then(rules, Ambient, s, w, Tick(RETRY_MS));
    s, w := FreesRow(rules, Ambient, s, w, 1);
    s, w := Wakes(rules, Ambient, s, w, 1, 1, HALF_HOUR);
    s, w := Then(rules, Ambient, s, w, Tick(HALF_HOUR));
    s, w := JudgeEngages(rules, Ambient, s, w, 1);
    actions, w := LinksThenWakes(rules, Ambient, s, w, 1, 1, RETRY_MS + HALF_HOUR);
  }

  /** The renewal fails, so the handler releases the row to the agent and is done; its wake is not. */
  lemma GivesUpOnRenewal(rules: Rules, kind: Kind, actions: seq<Action>, w: World, b: nat, h: nat, wake: Wake)
    returns (actions': seq<Action>, w': World)
    requires Leads(rules, kind, actions, w) && !rules.renewals
    requires w.handlers == map[h := Handler(b, Racing, wake, true, Held)] && Underway(wake) && w.db.row.status.Deferred?
    ensures Leads(rules, kind, actions', w')
    ensures w' == w.(db := w.db.(row := ResolveAgent(w.db.row, w.db.kind).row), inFlight := w.inFlight - {b},
                     handlers := map[h := Handler(b, Done, wake, true, RenewalFailed)])
  {
    hide Run, Obeys;
    var s, x := Then(rules, kind, actions, w, Renew(h, FAILS));
    var lost := Handler(b, Racing, wake, true, RenewalFailed);
    assert x.handlers[h] == lost;
    var db' := w.db.(row := ResolveAgent(w.db.row, w.db.kind).row);
    s, x := Acts(rules, kind, s, x, h, HandlerTurn(w.db, lost.(main := Releasing)));
    s, x := Acts(rules, kind, s, x, h, HandlerTurn(db', lost.(main := Finishing)));
    actions', w' := Acts(rules, kind, s, x, h, HandlerTurn(db', lost.(main := Done)));
    assert w'.handlers == map[h := lost.(main := Done)];
  }

  /** The common start: one bridge, one handler whose wake has reserved the row. */
  lemma HandlerIsWaking(rules: Rules, kind: Kind) returns (actions: seq<Action>, w: World)
    ensures Leads(rules, kind, actions, w)
    ensures w == World(Db(kind, 0, HeldRow(0), false, None, false, Unfinished, 0), map[1 := Idle], {1},
                       map[1 := Handler(1, Racing, Waking, true, Held)])
  {
    hide Run, Obeys;
    var s, x := Starts(rules, kind);
    s, x := Holds(rules, kind, s, x, 1, 1);
    actions, w := Wakes(rules, kind, s, x, 1, 1, HALF_HOUR);
    assert w.inFlight == {1};
  }

  /** A failing renewal hands the row to the agent while the wake it raced against goes on. */
  lemma FailedRenewalBreaksExclusivity(kind: Kind) returns (actions: seq<Action>)
    ensures Obeys(ALL_RULES.(renewals := false), Initial(kind), actions) && EndsWithBoth(kind, actions)
  {
    hide Run, Obeys;
    var rules := ALL_RULES.(renewals := false);
    var s, w := HandlerIsWaking(rules, kind);
    s, w := GivesUpOnRenewal(rules, kind, s, w, 1, 1, Waking);
    actions := RunsBeside(rules, kind, s, w, 1, 1);
  }

  /** A second bridge does not know the first one's wake and frees the row once its lease ends. */
  lemma SecondBridgeBreaksExclusivity(kind: Kind) returns (actions: seq<Action>)
    ensures Obeys(ALL_RULES.(oneBridge := false), Initial(kind), actions) && EndsWithBoth(kind, actions)
  {
    hide Run, Obeys;
    var rules := ALL_RULES.(oneBridge := false);
    var s, w := HandlerIsWaking(rules, kind);
    s, w := Opens(rules, kind, s, w, 2);
    s, w := Then(rules, kind, s, w, Tick(HALF_HOUR));
    s, w := FreesRow(rules, kind, s, w, 2);
    actions := RunsBeside(rules, kind, s, w, 2, 1);
  }

  /** A redelivery after the lease ended takes the row over from the first handler. */
  lemma RedeliveryHolds(rules: Rules, kind: Kind, actions: seq<Action>, w: World, h: nat)
    returns (actions': seq<Action>, w': World)
    requires Leads(rules, kind, actions, w) && !rules.oneHandler && h !in w.handlers && Started(w, 1)
    requires (rules.prompt ==> Prompt(w)) && ExpiredNow(w.db) && w.db.row.runId.None? && w.db.row.handle.None?
    ensures Leads(rules, kind, actions', w')
    ensures w' == w.(db := w.db.(row := HeldRow(w.db.clock)),
                     handlers := w.handlers[h := Handler(1, Marking(w.db.clock + HALF_HOUR), NotStarted, true, Held)])
  {
    hide Run, Obeys;
    var clock := w.db.clock;
    var deferred := w.db.(row := Defer(w.db.row, clock).row);
    var h0 := Handler(1, ReceiveDefer(clock), NotStarted, false, Held);
    var h1 := Handler(1, Marking(clock + HALF_HOUR), NotStarted, true, Held);
    var s, x := Then(rules, kind, actions, w, Arrive(h, 1));
    s, x := Acts(rules, kind, s, x, h, HandlerTurn(w.db, h0));
    s, x := Acts(rules, kind, s, x, h, HandlerTurn(deferred, h0.(main := Extending)));
    actions', w' := Acts(rules, kind, s, x, h, HandlerTurn(w.db.(row := HeldRow(clock)), h1));
    assert w'.handlers == w.handlers[h := h1];
  }

  /** The second handler finds no routine any more and releases the row. */
  lemma FindsNoRoutine(rules: Rules, kind: Kind, actions: seq<Action>, w: World, h: nat, until: int)
    returns (actions': seq<Action>, w': World)
    requires Leads(rules, kind, actions, w) && (rules.prompt ==> Prompt(w)) && w.db.row.status.Deferred?
    requires h in w.handlers && w.handlers[h] == Handler(1, Marking(until), NotStarted, true, Held)
    ensures Leads(rules, kind, actions', w')
    ensures w' == w.(db := w.db.(row := ResolveAgent(w.db.row, w.db.kind).row), inFlight := (w.inFlight + {1}) - {1},
                     handlers := w.handlers[h := Handler(1, Done, Woken(false), true, Held)])
  {
    hide Run, Obeys;
    var idle := Handler(1, Racing, Woken(false), true, Held);
    var db' := w.db.(row := ResolveAgent(w.db.row, w.db.kind).row);
    var s, x := Acts(rules, kind, actions, w, h, HandlerTurn(w.db, idle.(wake := Routines)));
    s, x := Then(rules, kind, s, x, StepWake(h, PASS));
    assert x.handlers[h] == idle;
    s, x := Acts(rules, kind, s, x, h, HandlerTurn(w.db, idle.(main := Resolving(false))));
    s, x := Acts(rules, kind, s, x, h, HandlerTurn(db', idle.(main := Finishing)));
    actions', w' := Acts(rules, kind, s, x, h, HandlerTurn(db', idle.(main := Done)));
    assert w'.handlers == w.handlers[h := idle.(main := Done)];
  }

  lemma RedeliveryReleases(rules: Rules, kind: Kind, actions: seq<Action>, w: World, h: nat)
    returns (actions': seq<Action>, w': World)
    requires Leads(rules, kind, actions, w) && !rules.oneHandler && h !in w.handlers && Started(w, 1) && w.inFlight == {1}
    requires (forall x :: x in w.handlers ==> !w.handlers[x].main.Marking?) && w.db.kind == kind
    requires ExpiredNow(w.db) && w.db.row.runId.None? && w.db.row.handle.None?
    ensures Leads(rules, kind, actions', w')
    ensures w' == w.(db := w.db.(row := Row(Released(kind), NoReason, None, None, None)), inFlight := {},
                     handlers := w.handlers[h := Handler(1, Done, Woken(false), true, Held)])
  {
    hide Run, Obeys;
    var s, x := RedeliveryHolds(rules, kind, actions, w, h);
    actions', w' := FindsNoRoutine(rules, kind, s, x, h, w.db.clock + HALF_HOUR);
    assert w'.inFlight == {} && w'.handlers == w.handlers[h := Handler(1, Done, Woken(false), true, Held)];
  }

  /** Two handlers of one event: the second releases the row the first is still waking for. */
  lemma SecondHandlerBreaksExclusivity(kind: Kind) returns (actions: seq<Action>)
    ensures Obeys(ALL_RULES.(oneHandler := false), Initial(kind), actions) && EndsWithBoth(kind, actions)
  {
    hide Run, Obeys, Reconcile, HandleMain;
    var rules := ALL_RULES.(oneHandler := false);
    var s, w := HandlerIsWaking(rules, kind);
    s, w := Then(rules, kind, s, w, Tick(HALF_HOUR));
    s, w := RedeliveryReleases(rules, kind, s, w, 2);
    actions := RunsBeside(rules, kind, s, w, 1, 1);
  }

  /**
   A handler that resumes after its lease ended finds its ambient row observed again. Its wake
   reserves the row there, and the judge's own reason then wipes that reservation out.
   */
  lemma LateHandlerBreaksExclusivity() returns (actions: seq<Action>)
    ensures Obeys(ALL_RULES.(prompt := false), Initial(Ambient), actions) && EndsWithBoth(Ambient, actions)
  {
    hide Run, Obeys;
    var rules := ALL_RULES.(prompt := false);
    var s, w := Starts(rules, Ambient);
    s, w := Holds(rules, Ambient, s, w, 1, 1);
    s, w := Then(rules, Ambient, s, w, Tick(HALF_HOUR));
    s, w := FreesRow(rules, Ambient, s, w, 1);
    s, w := Wakes(rules, Ambient, s, w, 1, 1, HALF_HOUR);
    s, w := Then(rules, Ambient, s, w, Tick(HALF_HOUR));
    s, w := JudgeEngages(rules, Ambient, s, w, 1);
    actions, w := LinksThenWakes(rules, Ambient, s, w, 1, 1, HALF_HOUR + HALF_HOUR);
  }

  // --- exactly these rules -----------------------------------------------------------

  predicate Weaker(rules: Rules, stronger: Rules) {
    (rules.oneBridge ==> stronger.oneBridge) && (rules.oneHandler ==> stronger.oneHandler)
    && (rules.renewals ==> stronger.renewals) && (rules.noFailure ==> stronger.noFailure) && (rules.prompt ==> stronger.prompt)
    && (rules.noOrphan ==> stronger.noOrphan) && (rules.noLoss ==> stronger.noLoss)
  }

  lemma {:induction false} ObeysWeakerRules(rules: Rules, stronger: Rules, w: World, actions: seq<Action>)
    requires Weaker(rules, stronger) && Obeys(stronger, w, actions)
    ensures Obeys(rules, w, actions)
    decreases |actions|
  {
    if actions != [] {
      ObeysWeakerRules(rules, stronger, w, actions[..|actions| - 1]);
    }
  }

  /** Giving up any one of the rules lets some run end with both. */
  lemma SomeRunEndsWithBoth(rules: Rules, kind: Kind) returns (actions: seq<Action>)
    requires !Sufficient(rules, kind)
    ensures Obeys(rules, Initial(kind), actions) && EndsWithBoth(kind, actions)
  {
    if !rules.oneBridge {
      actions := SecondBridgeBreaksExclusivity(kind);
      ObeysWeakerRules(rules, ALL_RULES.(oneBridge := false), Initial(kind), actions);
    } else if !rules.oneHandler {
      actions := SecondHandlerBreaksExclusivity(kind);
      ObeysWeakerRules(rules, ALL_RULES.(oneHandler := false), Initial(kind), actions);
    } else if !rules.renewals {
      actions := FailedRenewalBreaksExclusivity(kind);
      ObeysWeakerRules(rules, ALL_RULES.(renewals := false), Initial(kind), actions);
    } else if !rules.noFailure {
      actions := FailedReadBreaksExclusivity();
      ObeysWeakerRules(rules, ALL_RULES.(noFailure := false), Initial(kind), actions);
    } else {
      actions := LateHandlerBreaksExclusivity();
      ObeysWeakerRules(rules, ALL_RULES.(prompt := false), Initial(kind), actions);
    }
  }

  predicate Permits(rules: Rules, kind: Kind, actions: seq<Action>) {
    Obeys(rules, Initial(kind), actions)
  }

  /** Exclusivity holds of every run that obeys the rules exactly when none of those the kind needs is given up. */
  lemma ExclusiveExactlyUnderTheRules(rules: Rules, kind: Kind)
    ensures (forall actions :: Permits(rules, kind, actions) ==> !Both(Run(Initial(kind), actions))) <==> Sufficient(rules, kind)
  {
    if Sufficient(rules, kind) {
      forall actions | Permits(rules, kind, actions)
        ensures !Both(Run(Initial(kind), actions))
      {
        NeverBoth(rules, kind, actions);
      }
    } else {
      var actions := SomeRunEndsWithBoth(rules, kind);
      assert Permits(rules, kind, actions) && EndsWithBoth(kind, actions);
    }
  }
}
