/**
 The queue and delivery worker as the program it is, for one row and amid any other actors.

 Between two of its awaits the worker runs alone; at each await the others take any steps of
 theirs. Every stretch of the program is shown to be the worker's own step of the protocol's
 state machine, so each call is a run of that machine, of which TeamChatDelivery and
 TeamChatExclusivity speak.
 */
module TeamChatWorker {
  import opened Wrappers
  import opened TeamChatRow
  import opened TeamChatProtocol
  import opened TeamChatDelivery
  import opened TeamChatReplies
  import opened TeamChatRuns

  /** The row is not waiting under a queue claim. */
  function NotClaimed(): Row -> bool {
    (row: Row) => !row.status.Queueing?
  }

  function NotReceived(): Row -> bool {
    (row: Row) => !row.status.Received?
  }

  /** The row waits, unsent, where it was; a claimed one has lost its claim and is received again. */
  function PutBackFrom(read: Row): Row -> bool {
    (row: Row) =>
      row.handle.None? && row.lease.Some?
      && (if read.status.Queueing? then row.status.Received? && row.reason.NoReason? else row.status == read.status)
  }

  function Overtaken(read: Row): Row -> bool {
    (row: Row) => row.handle != read.handle || row.status != read.status
  }

  class TeamChatWorker {
    const me: nat
    const kind: Kind
    /** The deployment, this worker included. */
    var w: World
    /** Everything that has happened in it. */
    ghost var history: seq<Action>

    constructor (kind: Kind, me: nat, actions: seq<Action>)
      requires me in Run(Initial(kind), actions).reconcilers
      ensures Valid() && this.me == me && this.kind == kind && history == actions
    {
      this.me, this.kind, w, history := me, kind, Run(Initial(kind), actions), actions;
      new;
      RunKeeps(kind, actions);
    }

    ghost predicate Valid()
      reads this
    {
      && me in w.reconcilers && w == Run(Initial(kind), history)
      && Shared(w.db) && Local(w.db, Pc())
    }

    /** Where this worker is. */
    function Pc(): RPc
      reads this
    {
      if me in w.reconcilers then w.reconcilers[me] else Idle
    }

    /** The deployment has run on from what had happened before. */
    ghost predicate Since(past: seq<Action>)
      reads this
    {
      Valid() && past <= history
    }

    /** Whatever the other actors do during an await. */
    method Others(ghost past: seq<Action>)
      requires Since(past)
      modifies `w, `history
      ensures Since(past) && Pc() == old(Pc()) && Evolves(old(w.db), w.db) && old(history) <= history
    {
      hide Run, Do, Shared, Local, Evolves;
      var more: seq<Action> := *;
      EvolvesIsReflexive(w.db);
      if AllBesideReconciler(more, me) {
        OthersLeaveReconciler(w, more, me);
        RunComposes(Initial(kind), history, more);
        ProgressIsPermanent(kind, history, more);
        PrefixGrows(past, history, more);
        w := Run(w, more);
        history := history + more;
        RunIsSound(kind, history, me);
      }
    }

    /** The worker's own step of the machine. */
    method Step(ghost past: seq<Action>, d: Db, next: RPc, ghost c: Choice)
      requires Since(past) && Reconcile(w.db, me in w.inFlight, Pc(), c) == Turn(d, next)
      modifies `w, `history
      ensures Since(past) && Pc() == next && w.db == d
    {
      hide Run, Reconcile, Shared, Local, Evolves;
      RunOneMore(Initial(kind), history, Reconciler(me, c));
      PrefixGrows(past, history, [Reconciler(me, c)]);
      w := w.(db := d, reconcilers := w.reconcilers[me := next]);
      history := history + [Reconciler(me, c)];
      RunIsSound(kind, history, me);
    }

    /** The end of a stretch of delivery: what it did is the worker's step, and then the others act. */
    method Await(ghost past: seq<Action>, d: Db, next: RPc, ghost c: Choice)
      requires Since(past) && Delivery(Pc())
      requires Deliver(w.db, Pc(), c) == Turn(d, next)
      modifies `w, `history
      ensures Since(past) && Pc() == next && Evolves(d, w.db)
    {
      hide Run, Deliver, Shared, Local, Evolves;
      Step(past, d, next, c);
      Others(past);
    }

    /** The same for the queue. */
    method AwaitQueue(ghost past: seq<Action>, d: Db, next: RPc, ghost c: Choice)
      requires Since(past) && !Recovering(Pc()) && !Delivery(Pc())
      requires Engagement(w.db, Pc(), c) == Turn(d, next)
      modifies `w, `history
      ensures Since(past) && Pc() == next && Evolves(d, w.db)
    {
      hide Run, Engagement, Shared, Local, Evolves;
      Step(past, d, next, c);
      Others(past);
    }

    // --- delivery --------------------------------------------------------------------

    /** Unconditional: an update by id. */
    method MarkDelivered(ghost past: seq<Action>, handle: string) returns (threw: bool)
      requires Since(past) && Pc() == DeliverMark(handle)
      modifies this
      ensures Since(past) && Pc() == (if threw then RetryRead(None) else Idle) && Evolves(old(w.db), w.db)
      ensures !threw ==> w.db.row.status.Delivered? && Means(w.db, w.db.row.handle.value)
    {
      hide Run;
      var c: Choice := *;
      threw := !c.fault.Fine?;
      Await(past, Written(w.db, TeamChatRow.MarkDelivered(w.db.row, handle), c.fault), if threw then RetryRead(None) else Idle, c);
      DeliveredMeansWhatItSays(kind, history);
    }

    /** True when this worker may post; false when the row is finished, given up, or someone else's. */
    method ReserveDelivery(ghost past: seq<Action>, at: int) returns (threw: bool, reserved: bool)
      requires Since(past) && Pc() == DeliverReserve(at)
      modifies this
      ensures Since(past)
      ensures Pc() == (if threw then RetryRead(None) else if reserved then DeliverReadHandle else Idle)
      ensures reserved ==> !threw && w.db.posts == 0
      ensures !threw ==> Reserved(w.db.row)
    {
      hide Run;
      var c: Choice := *;
      var claimed := TeamChatRow.ReserveDelivery(w.db.row, at);
      threw, reserved := !c.fault.Fine?, c.fault.Fine? && claimed.hit;
      Await(past, Written(w.db, claimed.row, c.fault),
            if threw then RetryRead(None) else if reserved then DeliverReadHandle else DeliverFindPosted(at), c);
      if threw || reserved { return; }
      threw := FinishOrGiveUp(past, at);
    }

    /** The reservation was not won: finish with a stored handle, or give the row up when its lease has ended. */
    method FinishOrGiveUp(ghost past: seq<Action>, at: int) returns (threw: bool)
      requires Since(past) && Pc() == DeliverFindPosted(at)
      modifies this
      ensures Since(past) && Pc() == (if threw then RetryRead(None) else Idle) && Evolves(old(w.db), w.db)
    {
      hide Run, Shared, Local, Evolves;
      ghost var before := w.db;
      EvolvesIsReflexive(w.db);
      var c: Choice := *;
      var posted := if w.db.row.status.Delivering? then w.db.row.handle else None;
      if !c.fault.Fine? {
        Await(past, w.db, RetryRead(None), c);
        return true;
      }
      if Truthy(posted) {
        Await(past, w.db, DeliverMark(posted.value), c);
        ghost var middle := w.db;
        threw := MarkDelivered(past, posted.value);
        EvolvesIsTransitive(before, middle, w.db);
        return;
      }
      Await(past, w.db, DeliverGiveUp(at), c);
      ghost var middle := w.db;
      threw := GiveUp(past, at);
      EvolvesIsTransitive(before, middle, w.db);
    }

    method GiveUp(ghost past: seq<Action>, at: int) returns (threw: bool)
      requires Since(past) && Pc() == DeliverGiveUp(at)
      modifies this
      ensures Since(past) && Pc() == (if threw then RetryRead(None) else Idle) && Evolves(old(w.db), w.db)
    {
      hide Run;
      var c: Choice := *;
      threw := !c.fault.Fine?;
      Await(past, Written(w.db, GiveUpDelivery(w.db.row, at).row, c.fault), if threw then RetryRead(None) else Idle, c);
    }

    /** Posts at most once: a stored handle ends the delivery without a post, and a post is stored before the status flips. */
    method SendOnce(ghost past: seq<Action>) returns (threw: bool)
      requires Since(past) && Pc() == DeliverReadHandle
      modifies this
      ensures Since(past) && Pc() == (if threw then RetryRead(None) else Idle)
      ensures !threw ==> w.db.row.status.Delivered? && Means(w.db, w.db.row.handle.value)
    {
      hide Run;
      var c: Choice := *;
      var existing := w.db.row.handle;
      if !c.fault.Fine? {
        Await(past, w.db, RetryRead(None), c);
        return true;
      }
      if Truthy(existing) {
        Await(past, w.db, DeliverMark(existing.value), c);
        threw := MarkDelivered(past, existing.value);
        return;
      }
      Await(past, w.db, DeliverSend, c);
      threw := PostAndStore(past);
    }

    /** The post, and its handle stored before the status flips. */
    method PostAndStore(ghost past: seq<Action>) returns (threw: bool)
      requires Since(past) && Pc() == DeliverSend
      modifies this
      ensures Since(past) && Pc() == (if threw then RetryRead(None) else Idle)
      ensures !threw ==> w.db.row.status.Delivered? && Means(w.db, w.db.row.handle.value)
    {
      hide Run, Evolves;
      var c: Choice := *;
      var handle := c.handle;
      if !c.fault.Fine? {
        Await(past, if c.fault.FailsBefore? then w.db else w.db.(posts := w.db.posts + 1), RetryRead(None), c);
        return true;
      }
      Await(past, w.db.(posts := w.db.posts + 1), DeliverStore(handle), c);
      c := *;
      threw := !c.fault.Fine?;
      Await(past, Written(w.db, StoreHandle(w.db.row, handle), c.fault), if threw then RetryRead(None) else DeliverMark(handle), c);
      if threw { return; }
      threw := MarkDelivered(past, handle);
    }

    /** `deliverCompletion` and `deliverFailure`; which one is decided by how the run ended. */
    method DeliverRunning(ghost past: seq<Action>, now: int) returns (threw: bool, delivered: bool)
      requires Since(past) && Pc() == SelectRunning(now)
      modifies this
      ensures Since(past) && Pc() == (if threw then RetryRead(None) else Idle)
      ensures delivered ==> !threw && w.db.row.status.Delivered? && Means(w.db, w.db.row.handle.value)
    {
      hide Run;
      var c: Choice := *;
      threw, delivered := false, false;
      if !c.fault.Fine? || !c.taken || !(w.db.row.status.Running? || w.db.row.status.Delivering?) || !Due(w.db.row.lease, now)
         || w.db.report.Unfinished? {
        Await(past, w.db, Idle, c);
        return;
      }
      if w.db.report.Failure? {
        threw, delivered := DeliverFailure(past, now, c);
      } else {
        Await(past, w.db, DeliverRead, c);
        threw, delivered := DeliverCompletion(past);
      }
    }

    /** The answer of a completed run; an ambient event without one stays silent. */
    method DeliverCompletion(ghost past: seq<Action>) returns (threw: bool, delivered: bool)
      requires Since(past) && Pc() == DeliverRead
      modifies this
      ensures Since(past) && Pc() == (if threw then RetryRead(None) else Idle)
      ensures delivered ==> !threw && w.db.row.status.Delivered? && Means(w.db, w.db.row.handle.value)
    {
      hide Run;
      var c: Choice := *;
      var at := w.db.clock;
      if !c.fault.Fine? {
        Await(past, w.db, RetryRead(None), c);
        return true, false;
      }
      if w.db.kind.Ambient? && w.db.report != Completed(true) {
        Await(past, w.db, DeliverMark(SILENT), c);
        threw := MarkDelivered(past, SILENT);
        return threw, !threw;
      }
      Await(past, w.db, DeliverReserve(at), c);
      threw, delivered := PostReserved(past, at);
    }

    /** The notice of a failed run; ambient events get none. */
    method DeliverFailure(ghost past: seq<Action>, now: int, c: Choice) returns (threw: bool, delivered: bool)
      requires Since(past) && Pc() == SelectRunning(now) && c.fault.Fine? && c.taken && w.db.report.Failure?
      requires (w.db.row.status.Running? || w.db.row.status.Delivering?) && Due(w.db.row.lease, now)
      modifies this
      ensures Since(past) && Pc() == (if threw then RetryRead(None) else Idle)
      ensures delivered ==> !threw && w.db.row.status.Delivered? && Means(w.db, w.db.row.handle.value)
    {
      hide Run;
      var at := w.db.clock;
      if w.db.kind.Ambient? {
        Await(past, w.db, DeliverMark(SILENT_FAILURE), c);
        threw := MarkDelivered(past, SILENT_FAILURE);
        return threw, !threw;
      }
      Await(past, w.db, DeliverReserve(at), c);
      threw, delivered := PostReserved(past, at);
    }

    /** A post needs a reservation. */
    method PostReserved(ghost past: seq<Action>, at: int) returns (threw: bool, delivered: bool)
      requires Since(past) && Pc() == DeliverReserve(at)
      modifies this
      ensures Since(past) && Pc() == (if threw then RetryRead(None) else Idle)
      ensures delivered ==> !threw && w.db.row.status.Delivered? && Means(w.db, w.db.row.handle.value)
    {
      hide Run;
      var reserved;
      threw, reserved := ReserveDelivery(past, at);
      if threw || !reserved { return threw, false; }
      threw := SendOnce(past);
      delivered := !threw;
    }

    // --- queue -----------------------------------------------------------------------

    method FindWake(ghost past: seq<Action>, now: int, found: RPc, missed: RPc) returns (threw: bool, wake: bool)
      requires Since(past)
      requires
        || (Pc() == QueueFindWakeClaimed(now) && found == QueueAbandonClaim(now) && missed == QueueReadLatest(now))
        || (Pc() == QueueFindWakeFinal(now) && found == QueueAbandonClaim(now) && missed == QueueSend(now))
        || (Pc().QueueFindWakeSent? && Pc().now == now && found == QueueCancelRun(now, Pc().run) && missed == QueueLink(now, Pc().run))
      modifies this
      ensures Since(past) && Pc() == (if threw then RetryRead(Some(now)) else if wake then found else missed)
      ensures wake ==> w.db.wake
    {
      hide Run, Shared, Local;
      var c: Choice := *;
      threw, wake := !c.fault.Fine?, w.db.wake;
      AwaitQueue(past, w.db, if threw then RetryRead(Some(now)) else if wake then found else missed, c);
    }

    /** The row is left to the routine, unless it is no longer this worker's to leave. */
    method AbandonForRoutine(ghost past: seq<Action>, now: int) returns (threw: bool)
      requires Since(past) && (Pc() == QueueAbandonReceived(now) || Pc() == QueueAbandonClaim(now))
      modifies this
      ensures Since(past) && Pc() == (if threw then RetryRead(Some(now)) else SelectRunning(now)) && Evolves(old(w.db), w.db)
      ensures !threw ==> Once(kind, past, history, if old(Pc()).QueueAbandonClaim? then NotClaimed() else NotReceived())
    {
      hide Run, Local, Once;
      ghost var before := w.db;
      var c: Choice := *;
      threw := !c.fault.Fine?;
      ghost var leaves := if Pc().QueueAbandonClaim? then NotClaimed() else NotReceived();
      var cas := if Pc().QueueAbandonReceived? then AbandonReceived(w.db.row) else AbandonQueueing(w.db.row);
      Step(past, Written(w.db, cas.row, c.fault), if threw then RetryRead(Some(now)) else SelectRunning(now), c);
      ghost var stepped := history;
      if !threw {
        OnceNow(kind, past, history, leaves);
      }
      ghost var middle := w.db;
      Others(past);
      EvolvesIsTransitive(before, middle, w.db);
      if !threw {
        OnceStays(kind, past, stepped, history, leaves);
      }
    }

    /** Claims the row unless a wake is there or owns it. */
    method Claim(ghost past: seq<Action>, now: int, seen: Reason) returns (threw: bool, claimed: bool)
      requires Since(past) && Pc() == QueueFindWake(now, seen)
      modifies this
      ensures Since(past)
      ensures Pc() == (if threw then RetryRead(Some(now)) else if claimed then QueueFindWakeClaimed(now) else SelectRunning(now))
    {
      hide Run, Shared, Local, Evolves;
      var c: Choice := *;
      if IsRoutingReason(seen) {
        AwaitQueue(past, w.db, SelectRunning(now), c);
        return false, false;
      }
      var wake := w.db.wake;
      if !c.fault.Fine? {
        AwaitQueue(past, w.db, RetryRead(Some(now)), c);
        return true, false;
      }
      if wake {
        AwaitQueue(past, w.db, QueueAbandonReceived(now), c);
        threw := AbandonForRoutine(past, now);
        return threw, false;
      }
      AwaitQueue(past, w.db, QueueClaim(now), c);
      c := *;
      var cas := ClaimQueue(w.db.row, w.db.clock);
      threw, claimed := !c.fault.Fine?, c.fault.Fine? && cas.hit;
      AwaitQueue(past, Written(w.db, cas.row, c.fault),
            if threw then RetryRead(Some(now)) else if claimed then QueueFindWakeClaimed(now) else SelectRunning(now), c);
    }

    /** Looks for the wake again, and that the claim still stands, before a run may be created. */
    method Confirm(ghost past: seq<Action>, now: int) returns (threw: bool, clear: bool)
      requires Since(past) && Pc() == QueueFindWakeClaimed(now)
      modifies this
      ensures Since(past) && Pc() == (if threw then RetryRead(Some(now)) else if clear then QueueSend(now) else SelectRunning(now))
    {
      hide Run, Shared, Local, Evolves;
      var wake;
      threw, wake := FindWake(past, now, QueueAbandonClaim(now), QueueReadLatest(now));
      if threw { return true, false; }
      if !wake {
        var c: Choice := *;
        var stands := w.db.row.status.Queueing? && w.db.row.reason.AgentOwned?;
        if !c.fault.Fine? {
          AwaitQueue(past, w.db, RetryRead(Some(now)), c);
          return true, false;
        }
        AwaitQueue(past, w.db, if stands then QueueFindWakeFinal(now) else QueueAbandonClaim(now), c);
        if stands {
          threw, wake := FindWake(past, now, QueueAbandonClaim(now), QueueSend(now));
          if threw || !wake { return threw, !threw; }
        }
      }
      threw := AbandonForRoutine(past, now);
      clear := false;
    }

    /** Creates the run of the event, or finds it, and links it unless a wake was committed meanwhile. */
    method SendAndLink(ghost past: seq<Action>, now: int) returns (threw: bool, linked: bool)
      requires Since(past) && Pc() == QueueSend(now)
      modifies this
      ensures Since(past) && Pc() == (if threw then RetryRead(Some(now)) else SelectRunning(now))
      ensures linked ==> Linked(w.db.row) && w.db.row.runId == w.db.agent
      ensures !threw && !linked ==> w.db.wake && w.db.cancelled && Once(kind, past, history, NotClaimed())
    {
      hide Run, Once;
      linked := false;
      var c: Choice := *;
      var sent := SendAgent(w.db, c);
      if !c.fault.Fine? {
        AwaitQueue(past, sent, RetryRead(Some(now)), c);
        return true, false;
      }
      var run := sent.agent.value;
      AwaitQueue(past, sent, QueueFindWakeSent(now, run), c);
      var wake;
      threw, wake := FindWake(past, now, QueueCancelRun(now, run), QueueLink(now, run));
      if threw { return; }
      if wake {
        threw := CancelRun(past, now, run);
      } else {
        threw, linked := LinkRun(past, now, run);
      }
    }

    /** A wake was committed while the run was created: cancel the run, then leave the row to the routine. */
    method CancelRun(ghost past: seq<Action>, now: int, run: nat) returns (threw: bool)
      requires Since(past) && Pc() == QueueCancelRun(now, run)
      modifies this
      ensures Since(past) && Pc() == (if threw then RetryRead(Some(now)) else SelectRunning(now))
      ensures !threw ==> w.db.cancelled && Once(kind, past, history, NotClaimed())
      ensures old(w.db.wake) ==> w.db.wake
    {
      hide Run, Shared, Local, Once;
      var c: Choice := *;
      threw := !c.fault.Fine?;
      AwaitQueue(past, if c.fault.FailsBefore? then w.db else w.db.(cancelled := true),
                 if threw then RetryRead(Some(now)) else QueueAbandonClaim(now), c);
      if !threw {
        threw := AbandonForRoutine(past, now);
      }
    }

    /** Fails when the claim was lost; once linked, only the enqueueing can still fail. */
    method LinkRun(ghost past: seq<Action>, now: int, run: nat) returns (threw: bool, linked: bool)
      requires Since(past) && Pc() == QueueLink(now, run)
      modifies this
      ensures Since(past) && Pc() == (if threw then RetryRead(Some(now)) else SelectRunning(now))
      ensures !threw ==> linked
      ensures linked ==> Linked(w.db.row) && w.db.row.runId == w.db.agent
    {
      hide Run;
      var c: Choice := *;
      var cas := Link(w.db.row, run);
      if !c.fault.Fine? || !cas.hit {
        AwaitQueue(past, Written(w.db, cas.row, c.fault), RetryRead(Some(now)), c);
        return true, false;
      }
      AwaitQueue(past, w.db.(row := cas.row), QueueEnqueue(now), c);
      linked := true;
      c := *;
      threw := !c.fault.Fine?;
      AwaitQueue(past, w.db, if threw then RetryRead(Some(now)) else SelectRunning(now), c);
    }

    /** The fallback agent run of a received row. */
    method Queue(ghost past: seq<Action>, now: int, seen: Reason) returns (threw: bool, linked: bool)
      requires Since(past) && Pc() == QueueFindWake(now, seen)
      modifies this
      ensures Since(past) && Pc() == (if threw then RetryRead(Some(now)) else SelectRunning(now))
      ensures linked ==> Linked(w.db.row) && w.db.row.runId == w.db.agent
    {
      hide Run, Shared, Local, Evolves;
      linked := false;
      var claimed, clear;
      threw, claimed := Claim(past, now, seen);
      if threw || !claimed { return; }
      threw, clear := Confirm(past, now);
      if threw || !clear { return; }
      threw, linked := SendAndLink(past, now);
    }

    // --- after a failure -------------------------------------------------------------

    /**
     The row is read again. A row that has a handle is finished under it. Any other is put back with a lease to wait for,
     as it is or from the queue to received, unless somebody changed it since it was read; only an empty handle, which is
     neither, leaves it as it is.
     */
    method Retry(ghost past: seq<Action>, back: Option<int>) returns (threw: bool)
      requires Since(past) && Pc() == RetryRead(back)
      modifies this
      ensures Since(past) && Pc() == (if threw then Idle else Back(back)) && Evolves(old(w.db), w.db)
      ensures !threw ==>
        var read := old(w.db.row);
        if Truthy(read.handle) || read.status.Delivered? then w.db.row.status.Delivered?
        else read.handle == Some("") || Once(kind, past, history, PutBackFrom(read)) || Once(kind, past, history, Overtaken(read))
    {
      hide Run, Shared, Local, Evolves, Once;
      ghost var before := w.db;
      EvolvesIsReflexive(w.db);
      var c: Choice := *;
      var status, handle := w.db.row.status, w.db.row.handle;
      if !c.fault.Fine? {
        Await(past, w.db, Idle, c);
        return true;
      }
      if Truthy(handle) && !status.Delivered? {
        Await(past, w.db, RetryMark(back, handle.value), c);
        ghost var middle := w.db;
        threw := MarkAgain(past, back, handle.value);
        EvolvesIsTransitive(before, middle, w.db);
        return;
      }
      if Truthy(handle) || status.Delivered? {
        Await(past, w.db, Back(back), c);
        StaysDelivered(before, w.db);
        return false;
      }
      Await(past, w.db, RetryWrite(back, status), c);
      ghost var middle := w.db;
      threw := PutBack(past, back, status, before.row);
      EvolvesIsTransitive(before, middle, w.db);
    }

    method MarkAgain(ghost past: seq<Action>, back: Option<int>, handle: string) returns (threw: bool)
      requires Since(past) && Pc() == RetryMark(back, handle)
      modifies this
      ensures Since(past) && Pc() == (if threw then Idle else Back(back)) && Evolves(old(w.db), w.db)
      ensures !threw ==> w.db.row.status.Delivered?
    {
      hide Run;
      var c: Choice := *;
      threw := !c.fault.Fine?;
      Await(past, Written(w.db, TeamChatRow.MarkDelivered(w.db.row, handle), c.fault), if threw then Idle else Back(back), c);
    }

    method PutBack(ghost past: seq<Action>, back: Option<int>, status: Status, ghost read: Row) returns (threw: bool)
      requires Since(past) && Pc() == RetryWrite(back, status) && status == read.status
      modifies this
      ensures Since(past) && Pc() == (if threw then Idle else Back(back)) && Evolves(old(w.db), w.db)
      ensures !threw && read.handle.None? ==> Once(kind, past, history, PutBackFrom(read)) || Once(kind, past, history, Overtaken(read))
    {
      hide Run, Shared, Local, Once;
      ghost var before := w.db;
      var c: Choice := *;
      threw := !c.fault.Fine?;
      var cas := TeamChatRow.Retry(w.db.row, status, w.db.clock + c.delay);
      ghost var result := if cas.hit then PutBackFrom(read) else Overtaken(read);
      RetryResult(w.db.row, read, w.db.clock + c.delay);
      hide TeamChatRow.Retry, PutBackFrom, Overtaken;
      Step(past, Written(w.db, cas.row, c.fault), if threw then Idle else Back(back), c);
      ghost var stepped, middle := history, w.db;
      if !threw && read.handle.None? {
        OnceNow(kind, past, history, result);
      }
      Others(past);
      EvolvesIsTransitive(before, middle, w.db);
      if !threw && read.handle.None? {
        OnceStays(kind, past, stepped, history, result);
      }
    }

    /** The second half of a reconcile pass: queue what is received, deliver what has finished. */
    method QueueAndDeliver(now: int)
      requires Valid() && Pc() == SelectReceived(now)
      modifies this
      ensures Since(old(history)) && Pc() == Idle
    {
      hide Run, Shared, Local, Evolves;
      ghost var past := history;
      var c: Choice := *;
      var seen := w.db.row.reason;
      var due := c.taken && w.db.row.status.Received? && Due(w.db.row.lease, now);
      if !c.fault.Fine? {
        AwaitQueue(past, w.db, Idle, c);
        return;
      }
      AwaitQueue(past, w.db, if due then QueueFindWake(now, seen) else SelectRunning(now), c);
      if due {
        var threw, _ := Queue(past, now, seen);
        if threw {
          var failed := Retry(past, Some(now));
          if failed { return; }
        }
      }
      var threw, _ := DeliverRunning(past, now);
      if threw {
        var _ := Retry(past, None);
      }
    }
  }

  lemma RetryResult(row: Row, read: Row, until: int)
    ensures var cas := TeamChatRow.Retry(row, read.status, until);
      read.handle.None? ==> (if cas.hit then PutBackFrom(read) else Overtaken(read))(cas.row)
  {
  }

  lemma StaysDelivered(db: Db, db': Db)
    requires Evolves(db, db') && db.row.status.Delivered?
    ensures db'.row.status.Delivered?
  {
  }

  lemma RunIsSound(kind: Kind, history: seq<Action>, me: nat)
    requires me in Run(Initial(kind), history).reconcilers
    ensures var w := Run(Initial(kind), history); Shared(w.db) && Local(w.db, w.reconcilers[me])
  {
    RunKeeps(kind, history);
  }
}
