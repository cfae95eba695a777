/**
 The inbound handler and the routine wake as the programs they are, for one event and amid any
 other actors. As in TeamChatWorker, each call is a run of the protocol's state machine.
 */
module TeamChatInbound {
  import opened Wrappers
  import opened TeamChatRow
  import opened TeamChatProtocol
  import opened TeamChatDelivery
  import opened TeamChatRuns

  /** The row carries the deferral of a delivery received at `at`. */
  function DeferredAt(at: int): Row -> bool {
    (row: Row) => row.status.Deferred? && row.lease == Some(at + DEFERRED_RESERVATION_MS)
  }

  /** The row is as if it had been received without a routine. */
  function ReleasedTo(kind: Kind): Row -> bool {
    (row: Row) => row.status == Released(kind) && row.reason.NoReason? && row.lease.None?
  }

  /** The row is marked as owned by routing, with a lease. */
  function ReservedForWake(): Row -> bool {
    (row: Row) => row.reason.Routing? && row.lease.Some? && (row.status.Deferred? || row.status.Received? || row.status.Observed?)
  }

  /** The row is not one this resolution may take: for a routine it is claimed, linked or ignored, for the agent no longer deferred. */
  function OutOfReach(woken: bool): Row -> bool {
    (row: Row) => !row.status.Deferred? && (woken ==> !row.status.Received? && !row.status.Observed?)
  }

  class InboundHandler {
    const me: nat
    const kind: Kind
    /** The deployment, this handler included. */
    var w: World
    /** Everything that has happened in it. */
    ghost var history: seq<Action>

    constructor (kind: Kind, me: nat, actions: seq<Action>)
      requires me in Run(Initial(kind), actions).handlers
      ensures Valid() && this.me == me && this.kind == kind && history == actions
    {
      this.me, this.kind, w, history := me, kind, Run(Initial(kind), actions), actions;
      new;
      RunKeeps(kind, actions);
      KindStays(kind, actions);
    }

    ghost predicate Valid()
      reads this
    {
      me in w.handlers && w == Run(Initial(kind), history) && Shared(w.db) && w.db.kind == kind
    }

    ghost predicate Since(past: seq<Action>)
      reads this
    {
      Valid() && past <= history
    }

    /** This handler's place. */
    function H(): Handler
      reads this
    {
      if me in w.handlers then w.handlers[me] else Handler(0, Done, NotStarted, false, Held)
    }

    /** Whatever happens during an await: the other actors, and this handler's own wake and renewals. */
    method Meanwhile(ghost past: seq<Action>)
      requires Since(past)
      modifies `w, `history
      ensures Since(past) && SameMain(old(H()), H()) && Evolves(old(w.db), w.db) && old(history) <= history
    {
      hide Run, Do, Shared, Evolves;
      var more: seq<Action> := *;
      EvolvesIsReflexive(w.db);
      if AllBesideMain(more, me, w.handlers[me].bridge) {
        OthersLeaveMain(w, more, me);
        RunComposes(Initial(kind), history, more);
        ProgressIsPermanent(kind, history, more);
        PrefixGrows(past, history, more);
        w := Run(w, more);
        history := history + more;
        RunIsSound(kind, history);
      }
    }

    /** The main line's own step of the machine. */
    method Step(ghost past: seq<Action>, d: Db, next: Handler, c: Choice)
      requires Since(past) && HandleMain(w.db, H(), c) == HandlerTurn(d, next)
      modifies `w, `history
      ensures Since(past) && H() == next && w.db == d && old(history) <= history
    {
      hide Run, HandleMain, Shared, Evolves;
      RunOneMore(Initial(kind), history, Action.Step(me, c));
      PrefixGrows(past, history, [Action.Step(me, c)]);
      w := Do(w, Action.Step(me, c));
      history := history + [Action.Step(me, c)];
      RunIsSound(kind, history);
    }

    /** A stretch of the main line, and the await that ends it. */
    method Await(ghost past: seq<Action>, d: Db, next: Handler, c: Choice)
      requires Since(past) && HandleMain(w.db, H(), c) == HandlerTurn(d, next)
      modifies `w, `history
      ensures Since(past) && SameMain(next, H()) && Evolves(d, w.db) && old(history) <= history
    {
      hide Run, HandleMain, Shared, Evolves, SameMain;
      Step(past, d, next, c);
      Meanwhile(past);
    }

    /** A stretch that leaves the row with `p`, and the await that ends it. */
    method AwaitHaving(ghost past: seq<Action>, d: Db, next: Handler, c: Choice, ghost p: Row -> bool)
      requires Since(past) && HandleMain(w.db, H(), c) == HandlerTurn(d, next) && p(d.row)
      modifies `w, `history
      ensures Since(past) && SameMain(next, H()) && Evolves(d, w.db) && old(history) <= history
      ensures Once(kind, past, history, p)
    {
      hide Run, HandleMain, Shared, Evolves, SameMain, Once;
      Step(past, d, next, c);
      OnceNow(kind, past, history, p);
      ghost var before := history;
      Meanwhile(past);
      OnceStays(kind, past, before, history, p);
    }

    /** One step of the wake under way. */
    method WakeGoesOn(ghost past: seq<Action>)
      requires Since(past)
      modifies `w, `history
      ensures Since(past) && SameMain(old(H()), H()) && Evolves(old(w.db), w.db) && old(history) <= history
      ensures 0 < WakeRank(old(H()).wake) < 4 ==> WakeRank(H().wake) < WakeRank(old(H()).wake)
    {
      hide Run;
      var c: Choice := *;
      RunOneMore(Initial(kind), history, StepWake(me, c));
      PrefixGrows(past, history, [StepWake(me, c)]);
      WakeKeeps(w.db, w.handlers[me], c);
      w := Do(w, StepWake(me, c));
      history := history + [StepWake(me, c)];
      RunIsSound(kind, history);
    }

    /** The first settlement of the wake or of the heartbeat. */
    method Race(ghost past: seq<Action>)
      requires Since(past) && H().main.Racing? && !H().wake.NotStarted?
      modifies `w, `history
      ensures Since(past) && H().main.Racing? && (Settled(H().wake) || !H().lost.Held?) && !H().wake.NotStarted? && old(history) <= history
    {
      hide Run, Shared, Evolves;
      Meanwhile(past);
      while !Settled(H().wake) && H().lost.Held?
        invariant Since(past) && H().main.Racing? && !H().wake.NotStarted? && old(history) <= history
        decreases WakeRank(H().wake)
      {
        WakeGoesOn(past);
        Meanwhile(past);
      }
    }

    /** The wake that is still under way when the lease is lost. */
    method AwaitWake(ghost past: seq<Action>)
      requires Since(past) && H().main.Awaiting? && !H().wake.NotStarted?
      modifies `w, `history
      ensures Since(past) && H().main.Awaiting? && Settled(H().wake) && old(history) <= history
    {
      hide Run, Shared, Evolves;
      Meanwhile(past);
      while !Settled(H().wake)
        invariant Since(past) && H().main.Awaiting? && !H().wake.NotStarted? && old(history) <= history
        decreases WakeRank(H().wake)
      {
        WakeGoesOn(past);
        Meanwhile(past);
      }
    }

    /** `receive` without queueing: true exactly when this delivery's deferral is on the row, created or taken over. */
    method Receive(ghost past: seq<Action>, at: int) returns (threw: bool, deferred: bool)
      requires Since(past) && H().main == Main.Receive(at) && H().wake.NotStarted?
      modifies `w, `history
      ensures Since(past) && H().wake.NotStarted? && old(history) <= history
      ensures if deferred then !threw && H().main.Extending? else H().main.Done?
      ensures deferred ==> Once(kind, past, history, DeferredAt(at))
    {
      hide Run, Once;
      var c: Choice := *;
      var until := at + DEFERRED_RESERVATION_MS;
      var upserted := Upsert(w.db.row, NO_ROW.(status := Deferred, lease := Some(until)));
      var d := Written(w.db, upserted, c.fault);
      if !c.fault.Fine? {
        Await(past, d, H().(main := Done), c);
        return true, false;
      }
      if upserted.status.Deferred? && upserted.lease == Some(until) {
        AwaitHaving(past, d, H().(main := Extending), c, DeferredAt(at));
        return false, true;
      }
      Await(past, d, H().(main := ReceiveDefer(at)), c);
      threw, deferred := TakeOver(past, at);
    }

    method TakeOver(ghost past: seq<Action>, at: int) returns (threw: bool, deferred: bool)
      requires Since(past) && H().main == ReceiveDefer(at) && H().wake.NotStarted?
      modifies `w, `history
      ensures Since(past) && H().wake.NotStarted? && old(history) <= history
      ensures if deferred then !threw && H().main.Extending? else H().main.Done?
      ensures deferred ==> Once(kind, past, history, DeferredAt(at))
    {
      hide Run, Once;
      var c: Choice := *;
      var cas := Defer(w.db.row, at);
      threw, deferred := !c.fault.Fine?, c.fault.Fine? && cas.hit;
      if deferred {
        AwaitHaving(past, w.db.(row := cas.row), H().(main := Extending), c, DeferredAt(at));
      } else {
        Await(past, Written(w.db, cas.row, c.fault), H().(main := Done), c);
      }
    }

    /** The first extension of the heartbeat, without which the handler gives up. */
    method StartHeartbeat(ghost past: seq<Action>) returns (held: bool)
      requires Since(past) && H().main.Extending? && H().wake.NotStarted?
      modifies `w, `history
      ensures Since(past) && (if held then H().main.Marking? else H().main.Done?) && H().wake.NotStarted? && old(history) <= history
      ensures held ==> Once(kind, past, history, ReservedForWake())
    {
      hide Run, Once;
      var c: Choice := *;
      var cas := Extend(w.db.row, w.db.clock);
      held := c.fault.Fine? && cas.hit;
      if held {
        AwaitHaving(past, w.db.(row := cas.row), H().(main := Marking(w.db.clock + ROUTING_RESERVATION_MS), beating := true), c, ReservedForWake());
      } else {
        Await(past, Written(w.db, cas.row, c.fault), H().(main := Done), c);
      }
    }

    /** After a lost lease: hold the row again if that is possible, and wait for the wake all the same. */
    method HoldOn(ghost past: seq<Action>)
      requires Since(past) && H().main.Holding? && !H().wake.NotStarted?
      modifies `w, `history
      ensures Since(past) && H().main.Awaiting? && Settled(H().wake) && old(history) <= history
    {
      hide Run;
      var c: Choice := *;
      Await(past, Written(w.db, Extend(w.db.row, w.db.clock).row, c.fault), H().(main := Awaiting), c);
      AwaitWake(past);
    }

    /** `resolveDeferredMessage`. A routine's row is ignored from then on, for good; otherwise it was released. A miss
        found the row out of reach. */
    method Resolve(ghost past: seq<Action>, woken: bool) returns (threw: bool, resolved: bool)
      requires Since(past) && (H().main == Resolving(woken) || (H().main.Releasing? && !woken))
      modifies `w, `history
      ensures Since(past) && H().main.Finishing? && (threw ==> !resolved) && old(history) <= history
      ensures woken && resolved ==> w.db.row.status.Ignored?
      ensures !woken && resolved ==> Once(kind, past, history, ReleasedTo(kind))
      ensures !threw && !resolved ==> Once(kind, past, history, OutOfReach(woken))
      ensures old(w.db.wake) ==> w.db.wake
    {
      hide Run, Once;
      var c: Choice := *;
      var cas := if woken then ResolveRoutine(w.db.row) else ResolveAgent(w.db.row, w.db.kind);
      threw, resolved := !c.fault.Fine?, c.fault.Fine? && cas.hit;
      if resolved && !woken {
        AwaitHaving(past, w.db.(row := cas.row), H().(main := Finishing), c, ReleasedTo(kind));
      } else if !threw && !resolved {
        AwaitHaving(past, w.db.(row := cas.row), H().(main := Finishing), c, OutOfReach(woken));
      } else {
        Await(past, Written(w.db, cas.row, c.fault), H().(main := Finishing), c);
      }
    }

    /** The row goes back to the agent because the wake, or the hold on the row, failed. */
    method Release(ghost past: seq<Action>, c: Choice) returns (threw: bool, resolved: bool)
      requires Since(past) && HandleMain(w.db, H(), c) == HandlerTurn(w.db, H().(main := Releasing))
      modifies `w, `history
      ensures Since(past) && H().main.Finishing? && (threw ==> !resolved) && old(history) <= history
      ensures resolved ==> Once(kind, past, history, ReleasedTo(kind))
      ensures !threw && !resolved ==> Once(kind, past, history, OutOfReach(false))
    {
      hide Run, Once;
      Await(past, w.db, H().(main := Releasing), c);
      threw, resolved := Resolve(past, false);
    }

    /** The row goes where the wake's result says. A reported wake has committed its message. */
    method ResolveBy(ghost past: seq<Action>, c: Choice) returns (threw: bool, woken: bool)
      requires Since(past) && H().wake.Woken?
      requires HandleMain(w.db, H(), c) == HandlerTurn(w.db, H().(main := Resolving(H().wake.woken)))
      modifies `w, `history
      ensures Since(past) && H().main.Finishing? && woken == old(H()).wake.woken && old(history) <= history
      ensures !threw && woken ==> w.db.row.status.Ignored? && w.db.wake
      ensures !threw && !woken ==> Once(kind, past, history, ReleasedTo(kind))
    {
      hide Run, Once;
      RunWokenMeansWake(kind, history);
      woken := H().wake.woken;
      Await(past, w.db, H().(main := Resolving(woken)), c);
      var resolved;
      threw, resolved := Resolve(past, woken);
      threw := threw || !resolved;
    }

    /**
     Waits for the wake and settles the row by its result. Without an exception the row is
     either the routine's for good, its wake committed, or it was handed to the agent.
     */
    method Settle(ghost past: seq<Action>) returns (threw: bool, woken: bool)
      requires Since(past) && H().main.Racing? && !H().wake.NotStarted?
      modifies `w, `history
      ensures Since(past) && H().main.Finishing? && old(history) <= history
      ensures !threw && woken ==> w.db.row.status.Ignored? && w.db.wake
      ensures !threw && !woken ==> Once(kind, past, history, ReleasedTo(kind))
    {
      hide Run, Once, Shared, Evolves;
      var c: Choice := *;
      Race(past);
      var resolved;
      if H().lost.RenewalFailed? {
        threw, resolved := Release(past, c);
        return true, false;
      }
      var leaseLost := H().lost.LeaseLost?;
      if leaseLost {
        Await(past, w.db, H().(main := Holding), c);
        HoldOn(past);
      }
      if H().wake.Broken? {
        threw, resolved := Release(past, c);
        return threw || !leaseLost || !resolved, false;
      }
      threw, woken := ResolveBy(past, c);
    }

    /** The wake starts with the row marked in this process. */
    method StartWake(ghost past: seq<Action>)
      requires Since(past) && H().main.Marking? && H().wake.NotStarted?
      modifies `w, `history
      ensures Since(past) && H().main.Racing? && !H().wake.NotStarted? && old(history) <= history
    {
      hide Run;
      var c: Choice := *;
      Await(past, w.db, H().(main := Racing, wake := Routines), c);
    }

    /**
     One event, from its receipt to the end of its routing. If all goes well and the row was
     this delivery's, then a reported wake is committed and the row ignored, and without a
     wake the row was deferred for this delivery and handed to the agent later on.
     */
    method HandleTeamChatInbound(at: int) returns (threw: bool, deferred: bool, woken: bool)
      requires Valid() && H().main == Main.Receive(at) && H().wake.NotStarted?
      modifies `w, `history
      ensures Since(old(history)) && H().main.Done?
      ensures deferred ==> Once(kind, old(history), history, DeferredAt(at))
      ensures !threw && woken ==> deferred && w.db.row.status.Ignored? && w.db.wake
      ensures !threw && deferred && !woken ==> Once(kind, old(history), history, ReleasedTo(kind))
    {
      hide Run, Once;
      ghost var past := history;
      woken := false;
      threw, deferred := Receive(past, at);
      if !deferred { return; }
      ghost var received := history;
      var held := StartHeartbeat(past);
      OnceStays(kind, past, received, history, DeferredAt(at));
      if !held { return true, true, false; }
      StartWake(past);
      threw, woken := Settle(past);
      ghost var settled := history;
      var c: Choice := *;
      Await(past, w.db, H().(main := Done), c);
      OnceStays(kind, past, received, history, DeferredAt(at));
      if !threw && !woken { OnceStays(kind, past, settled, history, ReleasedTo(kind)); }
    }
  }

  /** `wakeMessageRoutines`, which runs beside the handler that started it. */
  class RoutineWake {
    const me: nat
    const kind: Kind
    /** The deployment, the handler that started this wake included. */
    var w: World
    /** Everything that has happened in it. */
    ghost var history: seq<Action>

    constructor (kind: Kind, me: nat, actions: seq<Action>)
      requires var w := Run(Initial(kind), actions); me in w.handlers && WakeStarted(w.handlers[me].main)
      ensures Valid() && this.me == me && this.kind == kind && history == actions
    {
      this.me, this.kind, w, history := me, kind, Run(Initial(kind), actions), actions;
    }

    ghost predicate Valid()
      reads this
    {
      me in w.handlers && w == Run(Initial(kind), history) && WakeStarted(w.handlers[me].main)
    }

    ghost predicate Since(past: seq<Action>)
      reads this
    {
      Valid() && past <= history
    }

    /** The handler this wake belongs to. */
    function H(): Handler
      reads this
    {
      if me in w.handlers then w.handlers[me] else Handler(0, Done, NotStarted, false, Held)
    }

    /** The wake's own step of the machine, and whatever the others do during the await that ends it. */
    method Await(ghost past: seq<Action>, d: Db, next: Wake, c: Choice)
      requires Since(past) && HandleWake(w.db, H(), c) == HandlerTurn(d, H().(wake := next))
      modifies `w, `history
      ensures Since(past) && H().wake == next && Evolves(d, w.db) && old(history) < history
      ensures history[..|old(history)| + 1] == old(history) + [StepWake(me, c)]
    {
      hide Run, HandleWake, Shared, Evolves;
      RunOneMore(Initial(kind), history, StepWake(me, c));
      PrefixGrows(past, history, [StepWake(me, c)]);
      w := Do(w, StepWake(me, c));
      history := history + [StepWake(me, c)];
      Others(past);
    }

    /** Whatever the other actors do, the main line of this wake's handler among them. */
    method Others(ghost past: seq<Action>)
      requires Since(past)
      modifies `w, `history
      ensures Since(past) && H().wake == old(H()).wake && Evolves(old(w.db), w.db) && old(history) <= history
    {
      hide Run, Do, Shared, Evolves;
      var more: seq<Action> := *;
      EvolvesIsReflexive(w.db);
      if AllBesideWake(more, me, w.handlers[me].bridge) {
        OthersLeaveWake(w, more, me);
        RunComposes(Initial(kind), history, more);
        ProgressIsPermanent(kind, history, more);
        PrefixGrows(past, history, more);
        w := Run(w, more);
        history := history + more;
      }
    }

    /**
     Delivers only after reserving the row against the agent. A reported wake is committed,
     and the row was this wake's before.
     */
    method WakeMessageRoutines() returns (threw: bool, woken: bool)
      requires Valid() && H().wake.Routines?
      modifies `w, `history
      ensures Since(old(history)) && H().wake == (if threw then Broken else Woken(woken))
      ensures woken ==> !threw && w.db.wake && Once(kind, old(history), history, ReservedForWake())
    {
      hide Run, Once;
      ghost var past := history;
      var c: Choice := *;
      var anyRoutine := c.taken;
      if !c.fault.Fine? {
        Await(past, w.db, Broken, c);
        return true, false;
      }
      Await(past, w.db, if anyRoutine then Reserving else Woken(false), c);
      if !anyRoutine { return false, false; }
      threw, woken := ReserveAndDeliver(past);
    }

    method ReserveAndDeliver(ghost past: seq<Action>) returns (threw: bool, woken: bool)
      requires Since(past) && H().wake.Reserving?
      modifies `w, `history
      ensures Since(past) && H().wake == (if threw then Broken else Woken(woken))
      ensures woken ==> !threw && w.db.wake && Once(kind, past, history, ReservedForWake())
    {
      hide Run, Once;
      var c: Choice := *;
      var reserved := ReserveWake(w.db.row, w.db.clock);
      if !c.fault.Fine? || !reserved.hit {
        Await(past, Written(w.db, reserved.row, c.fault), if c.fault.Fine? then Woken(false) else Broken, c);
        return !c.fault.Fine?, false;
      }
      ghost var before := history + [StepWake(me, c)];
      RunOneMore(Initial(kind), history, StepWake(me, c));
      OnceNow(kind, past, before, ReservedForWake());
      Await(past, w.db.(row := reserved.row), Waking, c);
      c := *;
      threw := !c.fault.Fine?;
      Await(past, if c.fault.FailsBefore? then w.db else w.db.(wake := true), if threw then Broken else Woken(true), c);
      woken := !threw;
      OnceStays(kind, past, before, history, ReservedForWake());
    }
  }

  lemma {:induction false} KindStays(kind: Kind, actions: seq<Action>)
    ensures Run(Initial(kind), actions).db.kind == kind
  {
    if actions != [] {
      var w := Run(Initial(kind), actions[..|actions| - 1]);
      KindStays(kind, actions[..|actions| - 1]);
      RunKeeps(kind, actions[..|actions| - 1]);
      StepKeeps(w, actions[|actions| - 1]);
    }
  }

  lemma RunIsSound(kind: Kind, history: seq<Action>)
    ensures Shared(Run(Initial(kind), history).db) && Run(Initial(kind), history).db.kind == kind
  {
    RunKeeps(kind, history);
    KindStays(kind, history);
  }
}
