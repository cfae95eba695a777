/** Runs of the protocol seen by one of its actors: what the others do in between leaves its place alone. */
module TeamChatRuns {
  import opened TeamChatRow
  import opened TeamChatProtocol
  import opened TeamChatDelivery

  lemma {:induction false} RunComposes(w: World, first: seq<Action>, second: seq<Action>)
    ensures Run(w, first + second) == Run(Run(w, first), second)
    decreases |second|
  {
    if second == [] {
      assert first + second == first;
    } else {
      var all := first + second;
      assert all[..|all| - 1] == first + second[..|second| - 1];
      RunComposes(w, first, second[..|second| - 1]);
    }
  }

  lemma RunOneMore(w: World, actions: seq<Action>, a: Action)
    ensures Run(w, actions + [a]) == Do(Run(w, actions), a)
  {
    assert (actions + [a])[..|actions|] == actions;
  }

  // --- what a run has been through ---------------------------------------------------

  lemma PrefixGrows(past: seq<Action>, history: seq<Action>, more: seq<Action>)
    requires past <= history
    ensures past <= history + more
  {
  }

  /** At some point of the run since `past` the row satisfied `p`. */
  ghost predicate Once(kind: Kind, past: seq<Action>, history: seq<Action>, p: Row -> bool) {
    exists n :: |past| <= n <= |history| && p(Run(Initial(kind), history[..n]).db.row)
  }

  lemma OnceNow(kind: Kind, past: seq<Action>, history: seq<Action>, p: Row -> bool)
    requires past <= history && p(Run(Initial(kind), history).db.row)
    ensures Once(kind, past, history, p)
  {
    assert history[..|history|] == history;
  }

  lemma OnceStays(kind: Kind, past: seq<Action>, history: seq<Action>, more: seq<Action>, p: Row -> bool)
    requires Once(kind, past, history, p) && history <= more
    ensures Once(kind, past, more, p)
  {
    var n :| |past| <= n <= |history| && p(Run(Initial(kind), history[..n]).db.row);
    assert more[..n] == history[..n];
  }

  // --- beside a reconciler -----------------------------------------------------------

  predicate BesideReconciler(a: Action, me: nat) {
    !(a.Reconciler? && a.bridge == me) && !(a.Crash? && a.bridge == me)
  }

  predicate AllBesideReconciler(actions: seq<Action>, me: nat) {
    forall k :: 0 <= k < |actions| ==> BesideReconciler(actions[k], me)
  }

  lemma OneLeavesReconciler(w: World, a: Action, me: nat)
    requires me in w.reconcilers && BesideReconciler(a, me)
    ensures me in Do(w, a).reconcilers && Do(w, a).reconcilers[me] == w.reconcilers[me]
  {
  }

  lemma {:induction false} OthersLeaveReconciler(w: World, actions: seq<Action>, me: nat)
    requires me in w.reconcilers && AllBesideReconciler(actions, me)
    ensures me in Run(w, actions).reconcilers && Run(w, actions).reconcilers[me] == w.reconcilers[me]
  {
    if actions != [] {
      OthersLeaveReconciler(w, actions[..|actions| - 1], me);
      OneLeavesReconciler(Run(w, actions[..|actions| - 1]), actions[|actions| - 1], me);
    }
  }

  // --- beside a handler --------------------------------------------------------------

  /** Its wake and its renewals go on beside the handler's main line. */
  predicate BesideMain(a: Action, me: nat, bridge: nat) {
    !(a.Step? && a.handler == me) && !(a.Crash? && a.bridge == bridge)
  }

  predicate AllBesideMain(actions: seq<Action>, me: nat, bridge: nat) {
    forall k :: 0 <= k < |actions| ==> BesideMain(actions[k], me, bridge)
  }

  function WakeRank(wake: Wake): nat {
    match wake
    case NotStarted => 4
    case Routines => 3
    case Reserving => 2
    case Waking => 1
    case _ => 0
  }

  /** The handler is at the same place of its main line; its wake has only gone forward. */
  predicate SameMain(h: Handler, h': Handler) {
    && h'.main == h.main && h'.bridge == h.bridge
    && (h'.wake.NotStarted? <==> h.wake.NotStarted?) && WakeRank(h'.wake) <= WakeRank(h.wake)
  }

  lemma OneLeavesMain(w: World, a: Action, me: nat)
    requires me in w.handlers && BesideMain(a, me, w.handlers[me].bridge)
    ensures me in Do(w, a).handlers && SameMain(w.handlers[me], Do(w, a).handlers[me])
  {
  }

  lemma {:induction false} OthersLeaveMain(w: World, actions: seq<Action>, me: nat)
    requires me in w.handlers && AllBesideMain(actions, me, w.handlers[me].bridge)
    ensures me in Run(w, actions).handlers && SameMain(w.handlers[me], Run(w, actions).handlers[me])
  {
    if actions != [] {
      OthersLeaveMain(w, actions[..|actions| - 1], me);
      OneLeavesMain(Run(w, actions[..|actions| - 1]), actions[|actions| - 1], me);
    }
  }

  // --- beside a wake -----------------------------------------------------------------

  /** The handler's main line goes on beside the wake it started. */
  predicate BesideWake(a: Action, me: nat, bridge: nat) {
    !(a.StepWake? && a.handler == me) && !(a.Crash? && a.bridge == bridge)
  }

  predicate AllBesideWake(actions: seq<Action>, me: nat, bridge: nat) {
    forall k :: 0 <= k < |actions| ==> BesideWake(actions[k], me, bridge)
  }

  /** The main line has started its wake. */
  predicate WakeStarted(main: Main) {
    main.Racing? || main.Holding? || main.Awaiting? || main.Resolving? || main.Releasing? || main.Finishing? || main.Done?
  }

  predicate SameWake(h: Handler, h': Handler) {
    h'.wake == h.wake && h'.bridge == h.bridge && WakeStarted(h'.main)
  }

  lemma OneLeavesWake(w: World, a: Action, me: nat)
    requires me in w.handlers && BesideWake(a, me, w.handlers[me].bridge) && WakeStarted(w.handlers[me].main)
    ensures me in Do(w, a).handlers && SameWake(w.handlers[me], Do(w, a).handlers[me])
  {
  }

  lemma {:induction false} OthersLeaveWake(w: World, actions: seq<Action>, me: nat)
    requires me in w.handlers && AllBesideWake(actions, me, w.handlers[me].bridge) && WakeStarted(w.handlers[me].main)
    ensures me in Run(w, actions).handlers && SameWake(w.handlers[me], Run(w, actions).handlers[me])
  {
    if actions != [] {
      OthersLeaveWake(w, actions[..|actions| - 1], me);
      OneLeavesWake(Run(w, actions[..|actions| - 1]), actions[|actions| - 1], me);
    }
  }

  // --- a reported wake ---------------------------------------------------------------

  ghost predicate WokenMeansWake(w: World) {
    forall h :: h in w.handlers && w.handlers[h].wake == Woken(true) ==> w.db.wake
  }

  /** Only the step that commits the wake turns a handler's wake into a reported one. */
  lemma StepKeepsWoken(w: World, a: Action)
    requires WokenMeansWake(w) && Inv(w)
    ensures WokenMeansWake(Do(w, a))
  {
    hide Reconcile, Inv;
    StepKeeps(w, a);
  }

  /** In every run a handler that reports a wake has committed its message. */
  lemma {:induction false} RunWokenMeansWake(kind: Kind, actions: seq<Action>)
    ensures WokenMeansWake(Run(Initial(kind), actions))
  {
    if actions != [] {
      RunWokenMeansWake(kind, actions[..|actions| - 1]);
      RunKeeps(kind, actions[..|actions| - 1]);
      StepKeepsWoken(Run(Initial(kind), actions[..|actions| - 1]), actions[|actions| - 1]);
    }
  }
}
