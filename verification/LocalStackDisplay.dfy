/** What is displayed, in terms of the operations and of what the bodies of the attempts reported. */
module LocalStackDisplay {
  import opened Wrappers
  import opened Sequences
  import opened LocalStack

  // --- what a body reports -----------------------------------------------------------

  /** The pushes the body of operation `i` made, in order, after its first one. */
  function Reports(actions: seq<Action>, i: nat): seq<StackEvent> {
    if actions == [] then []
    else
      var before, a := actions[..|actions| - 1], actions[|actions| - 1];
      var c := Run(FRESH, before);
      Reports(before, i)
      + (if a.DoPush? && a.op == i && At(c, i, InBody) && c.ops[i].kind.Attempt? && !a.event.CheckStart? then [a.event] else [])
  }

  datatype Told = Told(phase: Phase, message: Option<string>)

  predicate Decides(e: StackEvent) {
    e.BecameReady? || e.Failure?
  }

  predicate News(e: StackEvent) {
    !e.Output? && !e.CheckStart?
  }

  /** A report of success or failure decides; until then the latest news shows. */
  function TellBy(decision: Option<StackEvent>, news: Option<StackEvent>): Told {
    match decision
    case Some(BecameReady) => Told(Ready, None)
    case Some(Failure(why)) => Told(Failed, Some(why))
    case _ =>
      match news
      case Some(Missing(what)) => Told(DockerMissing, Some(what))
      case Some(NotRunning(what)) => Told(DockerNotRunning, Some(what))
      case Some(Prepare) => Told(Preparing, None)
      case Some(PullStart) => Told(Pulling, None)
      case Some(UpStart) => Told(Starting, None)
      case Some(WaitStart) => Told(WaitingHealthy, None)
      case _ => Told(CheckingDocker, None)
  }

  /** The first report of success or failure, and the latest news. */
  function Tell(reports: seq<StackEvent>): Told {
    TellBy(Find(reports, Decides), FindLast(reports, News))
  }

  lemma {:induction false} FindOneMore(s: seq<StackEvent>, e: StackEvent)
    ensures Find(s + [e], Decides) == if Find(s, Decides).Some? then Find(s, Decides) else if Decides(e) then Some(e) else None
  {
    if s == [] {
      assert [e][1..] == [];
    } else {
      assert (s + [e])[1..] == s[1..] + [e];
      FindOneMore(s[1..], e);
    }
  }

  lemma ReportTurn(s: StackState, decision: Option<StackEvent>, news: Option<StackEvent>, e: StackEvent)
    requires (decision.Some? ==> Decides(decision.value)) && (news.Some? ==> News(news.value)) && !e.CheckStart?
    requires Told(s.phase, s.message) == TellBy(decision, news)
    ensures Told(Reduce(s, e).phase, Reduce(s, e).message)
         == TellBy(if decision.Some? then decision else if Decides(e) then Some(e) else None, if News(e) then Some(e) else news)
  {
    hide ReduceLayerBytes, Last;
  }

  /** One report more changes what is told as the reducer changes what is displayed. */
  lemma TellOneMore(s: StackState, reports: seq<StackEvent>, e: StackEvent)
    requires Told(s.phase, s.message) == Tell(reports) && !e.CheckStart?
    ensures Told(Reduce(s, e).phase, Reduce(s, e).message) == Tell(reports + [e])
  {
    hide Reduce, TellBy, Find;
    FindOneMore(reports, e);
    assert (reports + [e])[|reports|] == e && (reports + [e])[..|reports|] == reports;
    ReportTurn(s, Find(reports, Decides), FindLast(reports, News), e);
  }

  // --- which body shows --------------------------------------------------------------

  /** What an operation leaves displayed after `before`: an attempt that ran leaves what it reported, a stop how it ended. */
  function Left(reports: seq<StackEvent>, op: Op, before: Told): Told {
    match op.kind
    case Attempt(_) => if op.ran then Tell(reports) else before
    case Halt =>
      if !op.stage.Closing? && !op.stage.Settled? then before
      else match op.outcome
        case Good => Told(PhaseIdle, None)
        case Bad => Told(Failed, Some(STOP_FAILED))
        case Rejected => before
  }

  /** The display that the first `n` operations leave. */
  function Leaves(actions: seq<Action>, ops: seq<Op>, n: nat): Told
    requires n <= |ops|
  {
    if n == 0 then Told(PhaseIdle, None) else Left(Reports(actions, n - 1), ops[n - 1], Leaves(actions, ops, n - 1))
  }

  /** Only what the operations did counts, not which other operations there are. */
  lemma {:induction false} LeavesTheSame(actions: seq<Action>, ops: seq<Op>, actions': seq<Action>, ops': seq<Op>, n: nat)
    requires n <= |ops| && n <= |ops'|
    requires forall k :: 0 <= k < n ==>
      && ops[k].kind == ops'[k].kind && ops[k].ran == ops'[k].ran && ops[k].outcome == ops'[k].outcome
      && (ops[k].stage.Closing? || ops[k].stage.Settled? <==> ops'[k].stage.Closing? || ops'[k].stage.Settled?)
      && Reports(actions, k) == Reports(actions', k)
    ensures Leaves(actions, ops, n) == Leaves(actions', ops', n)
  {
    if n > 0 {
      LeavesTheSame(actions, ops, actions', ops', n - 1);
    }
  }

  /** Operations that have not run leave nothing. */
  lemma {:induction false} WaitingLeavesNothing(actions: seq<Action>, ops: seq<Op>, n: nat, m: nat)
    requires n <= m <= |ops|
    requires forall k :: n <= k < m ==> ops[k].stage.Waiting? && !ops[k].ran
    ensures Leaves(actions, ops, m) == Leaves(actions, ops, n)
  {
    if n < m {
      WaitingLeavesNothing(actions, ops, n, m - 1);
    }
  }

  ghost predicate ShowsWhatIsLeft(actions: seq<Action>) {
    var c := Run(FRESH, actions);
    Told(c.display.phase, c.display.message) == Leaves(actions, c.ops, |c.ops|)
  }

  lemma NothingReportedBefore(actions: seq<Action>, i: nat)
    requires var c := Run(FRESH, actions); i >= |c.ops| || !c.ops[i].ran
    ensures Reports(actions, i) == []
  {
    if actions != [] {
      RanStays(Run(FRESH, actions[..|actions| - 1]), actions[|actions| - 1], i);
      RunKeeps(actions[..|actions| - 1]);
      NothingReportedBefore(actions[..|actions| - 1], i);
    }
  }

  lemma RanStays(c: Stack, a: Action, i: nat)
    ensures i < |c.ops| ==> i < |Do(c, a).ops| && (c.ops[i].ran ==> Do(c, a).ops[i].ran)
  {
  }

  lemma QuietTurn(c: Stack, a: Action)
    requires a.Start? || a.Stop? || a.Abort? || a.DoSettle? || a.DoLateLine?
    ensures var c' := Do(c, a);
      && c'.display.phase == c.display.phase && c'.display.message == c.display.message && |c.ops| <= |c'.ops|
      && (forall k :: 0 <= k < |c.ops| ==>
            && c'.ops[k].kind == c.ops[k].kind && c'.ops[k].ran == c.ops[k].ran && c'.ops[k].outcome == c.ops[k].outcome
            && (c'.ops[k].stage.Closing? || c'.ops[k].stage.Settled? <==> c.ops[k].stage.Closing? || c.ops[k].stage.Settled?))
      && (forall k :: |c.ops| <= k < |c'.ops| ==> c'.ops[k].stage.Waiting? && !c'.ops[k].ran)
  {
  }

  lemma QuietReports(actions: seq<Action>, a: Action, k: nat)
    requires !a.DoPush?
    ensures Reports(actions + [a], k) == Reports(actions, k)
  {
    assert (actions + [a])[..|actions|] == actions;
  }

  /** Everything but the two ends of a body and its pushes leaves the display as it is. */
  lemma QuietStepShows(actions: seq<Action>, a: Action)
    requires ShowsWhatIsLeft(actions) && (a.Start? || a.Stop? || a.Abort? || a.DoSettle? || a.DoLateLine?)
    ensures ShowsWhatIsLeft(actions + [a])
  {
    hide Do, Reports, Leaves;
    var c, more := Run(FRESH, actions), actions + [a];
    var c' := Do(c, a);
    assert more[..|actions|] == actions;
    QuietTurn(c, a);
    forall k: nat ensures Reports(actions, k) == Reports(more, k) {
      QuietReports(actions, a, k);
    }
    LeavesTheSame(actions, c.ops, more, c'.ops, |c.ops|);
    WaitingLeavesNothing(more, c'.ops, |c.ops|, |c'.ops|);
  }

  lemma LaterOnesHaveNotRun(c: Stack, i: nat)
    requires InLine(c) && Tickets(c) && i < |c.ops| && !c.ops[i].stage.Settled?
    ensures forall k :: i < k < |c.ops| ==> c.ops[k].stage.Waiting? && !c.ops[k].ran
  {
  }

  /** Behind an unsettled operation everything waits. */
  lemma LaterOnesWait(actions: seq<Action>, i: nat)
    requires var c := Run(FRESH, actions); i < |c.ops| && !c.ops[i].stage.Settled?
    ensures var c := Run(FRESH, actions); Leaves(actions, c.ops, |c.ops|) == Leaves(actions, c.ops, i + 1)
  {
    hide Run, InLine, Tickets, NamesTheEnd, Leaves;
    RunKeeps(actions);
    var c := Run(FRESH, actions);
    LaterOnesHaveNotRun(c, i);
    WaitingLeavesNothing(actions, c.ops, i + 1, |c.ops|);
  }

  /** What an operation's own step makes of what the operations leave. */
  lemma OwnStepLeaves(actions: seq<Action>, a: Action, i: nat)
    requires var c := Run(FRESH, actions);
      && i < |c.ops| && !c.ops[i].stage.Settled?
      && |Do(c, a).ops| == |c.ops| && !Do(c, a).ops[i].stage.Settled?
      && (forall k :: 0 <= k < |c.ops| && k != i ==> Do(c, a).ops[k] == c.ops[k])
    requires a.DoPush? ==> a.op == i
    ensures var more, c, c' := actions + [a], Run(FRESH, actions), Do(Run(FRESH, actions), a);
      && Run(FRESH, more) == c'
      && Leaves(actions, c.ops, |c.ops|) == Leaves(actions, c.ops, i + 1)
      && Leaves(more, c'.ops, |c'.ops|) == Leaves(more, c'.ops, i + 1)
      && Leaves(more, c'.ops, i) == Leaves(actions, c.ops, i)
  {
    var more := actions + [a];
    assert more[..|actions|] == actions;
    LaterOnesWait(actions, i);
    LaterOnesWait(more, i);
    LeavesTheSame(actions, Run(FRESH, actions).ops, more, Run(FRESH, more).ops, i);
  }

  lemma BodiesHaveRun(actions: seq<Action>, i: nat)
    ensures var c := Run(FRESH, actions); (At(c, i, InBody) ==> c.ops[i].ran) && (At(c, i, Waiting) ==> !c.ops[i].ran)
  {
    RunKeeps(actions);
  }

  lemma NothingReportedYet(actions: seq<Action>, i: nat)
    requires Reports(actions, i) == []
    ensures Reports(actions + [DoBegin(i)], i) == [] && Tell([]) == Told(CheckingDocker, None)
  {
    assert (actions + [DoBegin(i)])[..|actions|] == actions;
  }

  /** The turn of an operation that begins changes the display as it changes what is left. */
  lemma BeginTurn(c: Stack, i: nat, before: Told)
    requires i < |c.ops| && c.ops[i].stage.Waiting? && !c.ops[i].ran && |Begin(c, i).ops| == |c.ops|
    requires Told(c.display.phase, c.display.message) == Left([], c.ops[i], before)
    ensures Told(Begin(c, i).display.phase, Begin(c, i).display.message) == Left([], Begin(c, i).ops[i], before)
  {
  }

  lemma BeginShows(actions: seq<Action>, i: nat)
    requires ShowsWhatIsLeft(actions)
    ensures ShowsWhatIsLeft(actions + [DoBegin(i)])
  {
    hide Run, Begin, Reports, Left;
    var c, a, more := Run(FRESH, actions), DoBegin(i), actions + [DoBegin(i)];
    if At(c, i, Waiting) && Begin(c, i) != c {
      BodiesHaveRun(actions, i);
      BeginIsOwn(c, i);
      OwnStepLeaves(actions, a, i);
      NothingReportedBefore(actions, i);
      NothingReportedYet(actions, i);
      BeginTurn(c, i, Leaves(actions, c.ops, i));
    } else {
      if !At(c, i, Waiting) {
        BeginElsewhere(c, i);
      }
      NothingHappens(actions, a);
    }
  }

  lemma BeginIsOwn(c: Stack, i: nat)
    requires At(c, i, Waiting)
    ensures var c' := Begin(c, i);
      |c'.ops| == |c.ops| && !c'.ops[i].stage.Settled? && forall k :: 0 <= k < |c.ops| && k != i ==> c'.ops[k] == c.ops[k]
  {
  }

  lemma BeginElsewhere(c: Stack, i: nat)
    requires !At(c, i, Waiting)
    ensures Begin(c, i) == c
  {
  }

  /** A step that is not possible leaves everything as it is. */
  lemma NothingHappens(actions: seq<Action>, a: Action)
    requires ShowsWhatIsLeft(actions) && Do(Run(FRESH, actions), a) == Run(FRESH, actions)
    requires a.DoPush? ==> !(At(Run(FRESH, actions), a.op, InBody) && Run(FRESH, actions).ops[a.op].kind.Attempt? && !a.event.CheckStart?)
    ensures ShowsWhatIsLeft(actions + [a])
  {
    var c, more := Run(FRESH, actions), actions + [a];
    assert more[..|actions|] == actions;
    LeavesTheSame(actions, c.ops, more, c.ops, |c.ops|);
  }

  lemma PushShows(actions: seq<Action>, i: nat, e: StackEvent)
    requires ShowsWhatIsLeft(actions)
    ensures ShowsWhatIsLeft(actions + [DoPush(i, e)])
  {
    var c, a, more := Run(FRESH, actions), DoPush(i, e), actions + [DoPush(i, e)];
    assert more[..|actions|] == actions;
    if At(c, i, InBody) && c.ops[i].kind.Attempt? && !e.CheckStart? {
      OwnStepLeaves(actions, a, i);
      BodiesHaveRun(actions, i);
      TellOneMore(c.display, Reports(actions, i), e);
    } else {
      NothingHappens(actions, a);
    }
  }

  lemma EndTurn(c: Stack, i: nat, outcome: Outcome, reports: seq<StackEvent>, before: Told)
    requires At(c, i, InBody) && c.ops[i].ran && |End(c, i, outcome).ops| == |c.ops|
    requires Told(c.display.phase, c.display.message) == Left(reports, c.ops[i], before)
    ensures Told(End(c, i, outcome).display.phase, End(c, i, outcome).display.message) == Left(reports, End(c, i, outcome).ops[i], before)
  {
  }

  lemma EndIsOwn(c: Stack, i: nat, outcome: Outcome)
    requires At(c, i, InBody)
    ensures var c' := End(c, i, outcome);
      |c'.ops| == |c.ops| && !c'.ops[i].stage.Settled? && forall k :: 0 <= k < |c.ops| && k != i ==> c'.ops[k] == c.ops[k]
  {
  }

  lemma EndReportsNothing(actions: seq<Action>, i: nat, outcome: Outcome, k: nat)
    ensures Reports(actions + [DoEnd(i, outcome)], k) == Reports(actions, k)
  {
    assert (actions + [DoEnd(i, outcome)])[..|actions|] == actions;
  }

  lemma EndShows(actions: seq<Action>, i: nat, outcome: Outcome)
    requires ShowsWhatIsLeft(actions)
    ensures ShowsWhatIsLeft(actions + [DoEnd(i, outcome)])
  {
    hide Run, End, Reports, Left;
    var c, a, more := Run(FRESH, actions), DoEnd(i, outcome), actions + [DoEnd(i, outcome)];
    if At(c, i, InBody) {
      BodiesHaveRun(actions, i);
      EndIsOwn(c, i, outcome);
      OwnStepLeaves(actions, a, i);
      EndReportsNothing(actions, i, outcome, i);
      EndTurn(c, i, outcome, Reports(actions, i), Leaves(actions, c.ops, i));
    } else {
      EndElsewhere(c, i, outcome);
      NothingHappens(actions, a);
    }
  }

  lemma EndElsewhere(c: Stack, i: nat, outcome: Outcome)
    requires !At(c, i, InBody)
    ensures End(c, i, outcome) == c
  {
  }

  /** In every run the display is what the last body decided: the reports of an attempt, or how a stop ended. */
  lemma {:induction false} DisplayIsTheLastBodys(actions: seq<Action>)
    ensures var c := Run(FRESH, actions); Told(c.display.phase, c.display.message) == Leaves(actions, c.ops, |c.ops|)
  {
    if actions != [] {
      var before, a := actions[..|actions| - 1], actions[|actions| - 1];
      DisplayIsTheLastBodys(before);
      assert before + [a] == actions;
      match a
      case DoBegin(i) => BeginShows(before, i);
      case DoPush(i, e) => PushShows(before, i, e);
      case DoEnd(i, outcome) => EndShows(before, i, outcome);
      case _ => QuietStepShows(before, a);
    }
  }

  // --- ready and failed --------------------------------------------------------------

  /** The attempt reported success, and no failure before that. */
  ghost predicate Succeeded(reports: seq<StackEvent>) {
    exists k :: 0 <= k < |reports| && reports[k].BecameReady? && forall j :: 0 <= j < k ==> !reports[j].Failure?
  }

  ghost predicate FailedWith(reports: seq<StackEvent>, why: string) {
    exists k :: 0 <= k < |reports| && reports[k] == Failure(why) && forall j :: 0 <= j < k ==> !Decides(reports[j])
  }

  lemma SuccessOneLater(e: StackEvent, rest: seq<StackEvent>)
    ensures Succeeded([e] + rest) <==> e.BecameReady? || (!e.Failure? && Succeeded(rest))
  {
    var reports := [e] + rest;
    if e.BecameReady? {
      assert reports[0].BecameReady?;
    } else if !e.Failure? && Succeeded(rest) {
      var k :| 0 <= k < |rest| && rest[k].BecameReady? && forall j :: 0 <= j < k ==> !rest[j].Failure?;
      assert reports[k + 1].BecameReady? && forall j :: 0 <= j < k + 1 ==> !reports[j].Failure?;
    } else if Succeeded(reports) {
      var k :| 0 <= k < |reports| && reports[k].BecameReady? && forall j :: 0 <= j < k ==> !reports[j].Failure?;
      assert !reports[0].BecameReady? && k > 0 && rest[k - 1].BecameReady?;
      forall j | 0 <= j < k - 1 ensures !rest[j].Failure? {
        assert !reports[j + 1].Failure?;
      }
    }
  }

  lemma FailureOneLater(e: StackEvent, rest: seq<StackEvent>, why: string)
    ensures FailedWith([e] + rest, why) <==> e == Failure(why) || (!Decides(e) && FailedWith(rest, why))
  {
    var reports := [e] + rest;
    if e == Failure(why) {
      assert reports[0] == Failure(why);
    } else if !Decides(e) && FailedWith(rest, why) {
      var k :| 0 <= k < |rest| && rest[k] == Failure(why) && forall j :: 0 <= j < k ==> !Decides(rest[j]);
      assert reports[k + 1] == Failure(why) && forall j :: 0 <= j < k + 1 ==> !Decides(reports[j]);
    } else if FailedWith(reports, why) {
      var k :| 0 <= k < |reports| && reports[k] == Failure(why) && forall j :: 0 <= j < k ==> !Decides(reports[j]);
      assert k > 0 && !Decides(reports[0]);
      assert rest[k - 1] == Failure(why);
      forall j | 0 <= j < k - 1 ensures !Decides(rest[j]) {
        assert !Decides(reports[j + 1]);
      }
    }
  }

  lemma {:induction false} FirstDecision(reports: seq<StackEvent>, why: string)
    ensures Succeeded(reports) <==> Find(reports, Decides) == Some(BecameReady)
    ensures FailedWith(reports, why) <==> Find(reports, Decides) == Some(Failure(why))
  {
    if reports != [] {
      assert reports == [reports[0]] + reports[1..];
      FirstDecision(reports[1..], why);
      SuccessOneLater(reports[0], reports[1..]);
      FailureOneLater(reports[0], reports[1..], why);
    }
  }

  /** The operation leaves something to display, and no later one does. */
  ghost predicate Decisive(ops: seq<Op>, i: nat) {
    i < |ops| && Leaving(ops[i]) && forall j :: i < j < |ops| ==> !Leaving(ops[j])
  }

  /** The body of an attempt was called, or a stop is over and was not rejected. */
  predicate Leaving(op: Op) {
    if op.kind.Attempt? then op.ran else (op.stage.Closing? || op.stage.Settled?) && !op.outcome.Rejected?
  }

  lemma {:induction false} DecisiveLeaves(actions: seq<Action>, ops: seq<Op>, n: nat)
    requires n <= |ops| && forall j :: n <= j < |ops| ==> !Leaving(ops[j])
    ensures forall i: nat :: Decisive(ops, i) ==> Leaves(actions, ops, n) == Left(Reports(actions, i), ops[i], Told(PhaseIdle, None))
    ensures (forall i: nat :: !Decisive(ops, i)) ==> Leaves(actions, ops, n) == Told(PhaseIdle, None)
  {
    if n > 0 {
      if Leaving(ops[n - 1]) {
        assert Decisive(ops, n - 1);
      } else {
        DecisiveLeaves(actions, ops, n - 1);
      }
    }
  }

  /** In every run ready is displayed exactly when the attempt that decides the display reported success, before any failure. */
  lemma ReadyExactlyAfterSuccess(actions: seq<Action>)
    ensures var c := Run(FRESH, actions);
      c.display.phase.Ready? <==> exists i: nat :: Decisive(c.ops, i) && c.ops[i].kind.Attempt? && Succeeded(Reports(actions, i))
  {
    hide Run, Reports;
    var c := Run(FRESH, actions);
    DisplayIsTheLastBodys(actions);
    DecisiveLeaves(actions, c.ops, |c.ops|);
    forall i: nat | Decisive(c.ops, i) ensures Tell(Reports(actions, i)).phase.Ready? <==> Succeeded(Reports(actions, i)) {
      FirstDecision(Reports(actions, i), "");
    }
  }

  /** And failed exactly when that attempt reported a failure first, or that operation is a stop that did not work. */
  lemma FailedExactlyAfterFailure(actions: seq<Action>, why: string)
    ensures var c := Run(FRESH, actions);
      c.display.phase.Failed? && c.display.message == Some(why) <==>
        exists i: nat :: Decisive(c.ops, i)
          && if c.ops[i].kind.Attempt? then FailedWith(Reports(actions, i), why) else c.ops[i].outcome.Bad? && why == STOP_FAILED
  {
    hide Run, Reports;
    var c := Run(FRESH, actions);
    DisplayIsTheLastBodys(actions);
    DecisiveLeaves(actions, c.ops, |c.ops|);
    forall i: nat | Decisive(c.ops, i)
      ensures Tell(Reports(actions, i)) == Told(Failed, Some(why)) <==> FailedWith(Reports(actions, i), why)
    {
      FirstDecision(Reports(actions, i), why);
    }
  }

  /** Failed is never displayed without a message. */
  lemma FailedSaysWhy(actions: seq<Action>)
    ensures Run(FRESH, actions).display.phase.Failed? ==> Run(FRESH, actions).display.message.Some?
  {
    hide Run, Reports;
    var c := Run(FRESH, actions);
    DisplayIsTheLastBodys(actions);
    DecisiveLeaves(actions, c.ops, |c.ops|);
  }

  /** Once everything settled, the display tells how the last call ended: a stop that worked shows idle, one that did not
      shows failed, and a start that was not lost shows what its body reported. */
  lemma LatestCallShows(actions: seq<Action>)
    requires LastCall(actions).Some? && forall i :: 0 <= i < |Run(FRESH, actions).ops| ==> Run(FRESH, actions).ops[i].stage.Settled?
    ensures var c := Run(FRESH, actions);
      var told, end := Told(c.display.phase, c.display.message), |c.ops| - 1;
      && end >= 0
      && (LastCall(actions).value.Stop? && c.ops[end].outcome.Good? ==> c.display == INITIAL)
      && (LastCall(actions).value.Stop? && c.ops[end].outcome.Bad? ==> told == Told(Failed, Some(STOP_FAILED)))
      && (LastCall(actions).value.Start? && !Inherits(c, end) ==> told == Tell(Reports(actions, end)))
  {
    hide Run, Reports, Tell;
    LatestCallWins(actions);
    DisplayIsTheLastBodys(actions);
  }

  // --- output and sizes --------------------------------------------------------------

  /** What a step adds to the lines heard: an attempt that begins and a stop that worked start over. */
  function HeardAfter(c: Stack, a: Action, heard: seq<StackEvent>): seq<StackEvent> {
    match a
    case DoBegin(i) => if At(c, i, Waiting) && At(Do(c, a), i, InBody) && c.ops[i].kind.Attempt? then [] else heard
    case DoEnd(i, Good) => if At(c, i, InBody) && c.ops[i].kind.Halt? then [] else heard
    case DoPush(i, Output(line, progress)) =>
      if At(c, i, InBody) && c.ops[i].kind.Attempt? && Working(c.display.phase) then heard + [Output(line, progress)] else heard
    case DoLateLine(line, progress) => if Working(c.display.phase) then heard + [Output(line, progress)] else heard
    case _ => heard
  }

  /** The lines that came while docker worked, since the last attempt began or a stop worked. */
  function Heard(actions: seq<Action>): seq<StackEvent> {
    if actions == [] then []
    else HeardAfter(Run(FRESH, actions[..|actions| - 1]), actions[|actions| - 1], Heard(actions[..|actions| - 1]))
  }

  /** Per layer the largest size that was heard. */
  ghost predicate Largest(kept: map<string, int>, heard: seq<StackEvent>) {
    && (forall e :: e in heard && e.Output? && e.progress.Some? && e.progress.value.1 > 0 ==>
          e.progress.value.0 in kept && e.progress.value.1 <= kept[e.progress.value.0])
    && (forall layer :: layer in kept ==> kept[layer] > 0 && exists e :: e in heard && e.Output? && e.progress == Some((layer, kept[layer])))
  }

  ghost predicate Tells(display: StackState, heard: seq<StackEvent>) {
    display.output == Last(Lines(heard), 20) && Largest(display.layerBytes, heard)
  }

  lemma {:induction false} LinesOneMore(heard: seq<StackEvent>, e: StackEvent)
    requires e.Output?
    ensures Lines(heard + [e]) == Lines(heard) + [e.line]
  {
    if heard == [] {
      assert heard + [e] == [e] && [e][1..] == [];
    } else {
      var all := heard + [e];
      assert all[0] == heard[0] && all[1..] == heard[1..] + [e];
      LinesOneMore(heard[1..], e);
      OneMoreBehind(if heard[0].Output? then [heard[0].line] else [], Lines(heard[1..]), e.line);
    }
  }

  lemma OneMoreBehind(a: seq<string>, b: seq<string>, line: string)
    ensures a + (b + [line]) == (a + b) + [line]
  {
  }

  lemma LargestOneMore(bytes: map<string, int>, heard: seq<StackEvent>, e: StackEvent)
    requires Largest(bytes, heard) && e.Output?
    ensures Largest(ReduceLayerBytes(bytes, e.progress), heard + [e])
  {
    var kept, more := ReduceLayerBytes(bytes, e.progress), heard + [e];
    assert e in more;
    forall layer | layer in kept ensures kept[layer] > 0 && exists x :: x in more && x.Output? && x.progress == Some((layer, kept[layer])) {
      if kept == bytes {
        var x :| x in heard && x.Output? && x.progress == Some((layer, kept[layer]));
        assert x in more;
      } else {
        var p := e.progress.value;
        assert kept == bytes[p.0 := p.1];
        if layer == p.0 {
          assert e.progress == Some((layer, kept[layer]));
        } else {
          var x :| x in heard && x.Output? && x.progress == Some((layer, bytes[layer]));
          assert x in more;
        }
      }
    }
  }

  lemma HearingOneMore(s: StackState, heard: seq<StackEvent>, e: StackEvent)
    requires Tells(s, heard) && e.Output? && Working(s.phase)
    ensures Tells(Reduce(s, e), heard + [e])
  {
    hide Largest, ReduceLayerBytes;
    LinesOneMore(heard, e);
    TrimmingTwice(Lines(heard), [e.line], 20);
    LargestOneMore(s.layerBytes, heard, e);
  }

  lemma StepTells(c: Stack, a: Action, heard: seq<StackEvent>)
    requires Tells(c.display, heard)
    ensures Tells(Do(c, a).display, HeardAfter(c, a, heard))
  {
    hide Largest, ReduceLayerBytes, Lines, Last;
    NothingHeard();
    if (a.DoLateLine? || (a.DoPush? && a.event.Output?)) && Working(c.display.phase) {
      HearingOneMore(c.display, heard, if a.DoPush? then a.event else Output(a.line, a.progress));
    }
  }

  lemma NothingHeard()
    ensures Largest(map[], []) && Last(Lines([]), 20) == []
  {
  }

  /** In every run the output shown is the last lines heard, and the sizes are the largest heard. */
  lemma {:induction false} OutputIsWhatWasHeard(actions: seq<Action>)
    ensures var c := Run(FRESH, actions); Tells(c.display, Heard(actions))
  {
    if actions != [] {
      hide Do, HeardAfter, Tells;
      OutputIsWhatWasHeard(actions[..|actions| - 1]);
      StepTells(Run(FRESH, actions[..|actions| - 1]), actions[|actions| - 1], Heard(actions[..|actions| - 1]));
    }
  }
}
