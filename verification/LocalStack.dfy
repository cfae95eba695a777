/**
 The local stack controller: starts and stops chained on each other's promises.

 A call of `start` or `stop` that does not join an earlier one adds an operation. Promise
 callbacks fire later, in any order the chaining allows: `Begin` is the `then` callback,
 `End` the settling of the body it called, and `Settle` the `finally` callback.
 */
module LocalStack {
  import opened Wrappers
  import opened Sequences

  // --- the displayed state -----------------------------------------------------------

  const STACK_OUTPUT_LINES := 20

  datatype Phase =
    | PhaseIdle | CheckingDocker | DockerMissing | DockerNotRunning | Preparing
    | Pulling | Starting | WaitingHealthy | Ready | Failed

  datatype StackState = StackState(phase: Phase, message: Option<string>, output: seq<string>, layerBytes: map<string, int>)

  /** `progress` is what the download pattern finds in the line: a layer and its size so far. */
  datatype StackEvent =
    | CheckStart
    | Missing(message: string)
    | NotRunning(message: string)
    | Prepare
    | PullStart
    | UpStart
    | WaitStart
    | Output(line: string, progress: Option<(string, int)>)
    | BecameReady
    | Failure(message: string)

  const INITIAL := StackState(PhaseIdle, None, [], map[])

  /** Keeps, per layer, the largest size any line has told. */
  function ReduceLayerBytes(bytes: map<string, int>, progress: Option<(string, int)>): map<string, int> {
    if progress.None? then bytes
    else
      var (layer, size) := progress.value;
      if size <= (if layer in bytes then bytes[layer] else 0) then bytes else bytes[layer := size]
  }

  predicate Working(phase: Phase) {
    phase.Pulling? || phase.Starting? || phase.WaitingHealthy?
  }

  predicate Terminal(phase: Phase) {
    phase.Ready? || phase.Failed?
  }

  function Reduce(s: StackState, e: StackEvent): StackState {
    if e.CheckStart? then StackState(CheckingDocker, None, [], map[])
    else if Terminal(s.phase) then s
    else match e
      case Missing(message) => s.(phase := DockerMissing, message := Some(message))
      case NotRunning(message) => s.(phase := DockerNotRunning, message := Some(message))
      case Prepare => s.(phase := Preparing, message := None)
      case PullStart => s.(phase := Pulling, message := None)
      case UpStart => s.(phase := Starting, message := None)
      case WaitStart => s.(phase := WaitingHealthy, message := None)
      case Output(line, progress) =>
        if !Working(s.phase) then s
        else s.(output := Last(s.output + [line], STACK_OUTPUT_LINES), layerBytes := ReduceLayerBytes(s.layerBytes, progress))
      case BecameReady => s.(phase := Ready, message := None)
      case Failure(message) => s.(phase := Failed, message := Some(message))
  }

  function ReduceAll(s: StackState, events: seq<StackEvent>): StackState
    decreases |events|
  {
    if events == [] then s else ReduceAll(Reduce(s, events[0]), events[1..])
  }

  /** A terminal phase is left through the next check-start only. */
  lemma {:induction false} TerminalPhasesHold(s: StackState, events: seq<StackEvent>)
    requires Terminal(s.phase) && CheckStart !in events
    ensures ReduceAll(s, events) == s
  {
    if events != [] {
      TerminalPhasesHold(s, events[1..]);
    }
  }

  function Lines(events: seq<StackEvent>): seq<string> {
    if events == [] then [] else (if events[0].Output? then [events[0].line] else []) + Lines(events[1..])
  }

  lemma TrimmingTwice(s: seq<string>, t: seq<string>, n: nat)
    ensures Last(Last(s, n) + t, n) == Last(s + t, n)
  {
  }

  lemma TrimmingOneLine(output: seq<string>, line: string, rest: seq<string>)
    ensures Last(Last(output + [line], STACK_OUTPUT_LINES) + rest, STACK_OUTPUT_LINES) == Last(output + ([line] + rest), STACK_OUTPUT_LINES)
  {
    TrimmingTwice(output + [line], rest, STACK_OUTPUT_LINES);
    assert (output + [line]) + rest == output + ([line] + rest);
  }

  /** While docker works, trimming line by line shows the last lines of the whole output. */
  lemma {:induction false} OutputIsTheLastLines(s: StackState, events: seq<StackEvent>)
    requires Working(s.phase) && |s.output| <= STACK_OUTPUT_LINES
    requires forall e :: e in events ==> e.Output?
    ensures ReduceAll(s, events).output == Last(s.output + Lines(events), STACK_OUTPUT_LINES)
    ensures ReduceAll(s, events).phase == s.phase
    decreases |events|
  {
    if events == [] {
      assert s.output + [] == s.output;
    } else {
      assert events[0] in events;
      OutputIsTheLastLines(Reduce(s, events[0]), events[1..]);
      TrimmingOneLine(s.output, events[0].line, Lines(events[1..]));
    }
  }

  /** The size kept for a layer is the largest one any accepted line reported for it. */
  lemma {:induction false} LayerBytesAreTheLargestSeen(s: StackState, events: seq<StackEvent>, layer: string)
    requires Working(s.phase) && forall e :: e in events ==> e.Output?
    ensures var kept := ReduceAll(s, events).layerBytes;
      && (layer in s.layerBytes ==> layer in kept && s.layerBytes[layer] <= kept[layer])
      && (forall e :: e in events && e.progress.Some? && e.progress.value.0 == layer && e.progress.value.1 > 0 ==>
            layer in kept && e.progress.value.1 <= kept[layer])
      && (layer in kept ==>
            (layer in s.layerBytes && kept[layer] == s.layerBytes[layer])
            || exists e :: e in events && e.progress == Some((layer, kept[layer])))
    decreases |events|
  {
    if events != [] {
      assert events[0] in events;
      LayerBytesAreTheLargestSeen(Reduce(s, events[0]), events[1..], layer);
    }
  }

  // --- the controller ----------------------------------------------------------------

  datatype Kind = Attempt(ticket: nat) | Halt

  /** `Closing` lies between the end of the body, if there was one, and the `finally` callback. */
  datatype Stage = Waiting | InBody | Closing | Settled

  datatype Outcome = Good | Bad | Rejected

  /** `waits`: the promises it is chained on. `ran`: its body was called. `outcome`: how it closed. */
  datatype Op = Op(kind: Kind, waits: set<nat>, stage: Stage, ran: bool, outcome: Outcome)

  /** The fields of the controller, with every operation begun so far in the order of its creation. */
  datatype Stack = Stack(
    ops: seq<Op>,
    running: Option<nat>,
    stopping: Option<nat>,
    inFlight: Option<nat>,
    aborted: set<nat>,
    ticket: nat,
    voidBefore: nat,
    display: StackState)

  const FRESH := Stack([], None, None, None, {}, 0, 0, INITIAL)

  function Pending(op: Option<nat>): set<nat> {
    if op.Some? then {op.value} else {}
  }

  function Aborted(c: Stack): Stack {
    c.(aborted := c.aborted + Pending(c.inFlight))
  }

  function CallStart(c: Stack): Stack {
    if c.running.Some? then c
    else c.(ticket := c.ticket + 1,
            ops := c.ops + [Op(Attempt(c.ticket + 1), Pending(c.stopping), Waiting, false, Good)],
            running := Some(|c.ops|))
  }

  function CallStop(c: Stack): Stack {
    var v := c.(voidBefore := c.ticket);
    if c.stopping.Some? && c.running.None? then v
    else Aborted(v).(ops := c.ops + [Op(Halt, Pending(c.stopping) + Pending(c.running), Waiting, false, Good)],
                     running := None,
                     stopping := Some(|c.ops|))
  }

  predicate At(c: Stack, i: nat, stage: Stage) {
    i < |c.ops| && c.ops[i].stage == stage
  }

  /** Every promise the operation waits for has settled. */
  predicate Unblocked(c: Stack, i: nat)
    requires i < |c.ops|
  {
    forall w :: w in c.ops[i].waits ==> At(c, w, Settled)
  }

  /** A start chained on a stop that rejected is rejected with it; a stop ignores rejections. */
  predicate Inherits(c: Stack, i: nat)
    requires i < |c.ops|
  {
    c.ops[i].kind.Attempt? && exists w :: w in c.ops[i].waits && w < |c.ops| && c.ops[w].outcome.Rejected?
  }

  function WithOp(c: Stack, i: nat, op: Op): Stack
    requires i < |c.ops|
  {
    c.(ops := c.ops[i := op])
  }

  /** The body of an attempt starts by pushing `CheckStart`, before it waits for anything. */
  function Begin(c: Stack, i: nat): Stack {
    if !At(c, i, Waiting) || !Unblocked(c, i) then c
    else if Inherits(c, i) then WithOp(c, i, c.ops[i].(stage := Closing, outcome := Rejected))
    else if c.ops[i].kind.Attempt? && c.ops[i].kind.ticket <= c.voidBefore then WithOp(c, i, c.ops[i].(stage := Closing))
    else if c.ops[i].kind.Attempt? then
      WithOp(c, i, c.ops[i].(stage := InBody, ran := true)).(inFlight := Some(i), display := Reduce(c.display, CheckStart))
    else WithOp(c, i, c.ops[i].(stage := InBody, ran := true))
  }

  /** A later push of the attempt's own body, which checks docker, pulls, starts and waits. */
  function Push(c: Stack, i: nat, e: StackEvent): Stack {
    if !At(c, i, InBody) || !c.ops[i].kind.Attempt? || e.CheckStart? then c else c.(display := Reduce(c.display, e))
  }

  /** A line of docker output, possibly one that arrives after its command was over. */
  function LateLine(c: Stack, line: string, progress: Option<(string, int)>): Stack {
    c.(display := Reduce(c.display, Output(line, progress)))
  }

  const STOP_FAILED := "Could not stop the local stack. Check that Docker is running, then try again."

  function End(c: Stack, i: nat, outcome: Outcome): Stack {
    if !At(c, i, InBody) then c
    else
      var ended := WithOp(c, i, c.ops[i].(stage := Closing, outcome := outcome));
      if c.ops[i].kind.Attempt? then ended.(inFlight := if c.inFlight == Some(i) then None else c.inFlight)
      else match outcome
        case Good => ended.(display := INITIAL)
        case Bad => ended.(display := c.display.(phase := Failed, message := Some(STOP_FAILED)))
        case Rejected => ended
  }

  function Settle(c: Stack, i: nat): Stack {
    if !At(c, i, Closing) then c
    else WithOp(c, i, c.ops[i].(stage := Settled)).(
           running := if c.running == Some(i) then None else c.running,
           stopping := if c.stopping == Some(i) then None else c.stopping)
  }

  datatype Action =
    | Start
    | Stop
    | Abort
    | DoBegin(op: nat)
    | DoPush(op: nat, event: StackEvent)
    | DoLateLine(line: string, progress: Option<(string, int)>)
    | DoEnd(op: nat, outcome: Outcome)
    | DoSettle(op: nat)

  function Do(c: Stack, a: Action): Stack {
    match a
    case Start => CallStart(c)
    case Stop => CallStop(c)
    case Abort => Aborted(c)
    case DoBegin(i) => Begin(c, i)
    case DoPush(i, e) => Push(c, i, e)
    case DoLateLine(line, progress) => LateLine(c, line, progress)
    case DoEnd(i, outcome) => End(c, i, outcome)
    case DoSettle(i) => Settle(c, i)
  }

  function Run(c: Stack, actions: seq<Action>): Stack {
    if actions == [] then c else Do(Run(c, actions[..|actions| - 1]), actions[|actions| - 1])
  }

  // --- the invariant -----------------------------------------------------------------

  /** The body, if there was one, is over. */
  predicate Past(op: Op) {
    op.stage.Closing? || op.stage.Settled?
  }

  /** Operations form a line: each waits for its predecessor unless that one is already past its body. */
  ghost predicate InLine(c: Stack) {
    && (forall i :: 0 <= i < |c.ops| ==> forall w :: w in c.ops[i].waits ==> w < i)
    && (forall i, j :: 0 <= j < i < |c.ops| && i == j + 1 && c.ops[i].stage.Waiting? && !c.ops[j].stage.Settled? ==> j in c.ops[i].waits)
    && (forall i, j :: 0 <= j < i < |c.ops| && !c.ops[i].stage.Waiting? ==> c.ops[j].stage.Settled?)
  }

  /** `running` and `stopping` name the unsettled end of the line. */
  ghost predicate NamesTheEnd(c: Stack) {
    && (c.running.Some? ==> c.running.value == |c.ops| - 1 && c.ops[c.running.value].kind.Attempt?
                            && !c.ops[c.running.value].stage.Settled?
                            && c.ops[c.running.value].kind.ticket > c.voidBefore)
    && (c.stopping.Some? ==> c.stopping.value < |c.ops| && c.ops[c.stopping.value].kind.Halt?
                             && !c.ops[c.stopping.value].stage.Settled?
                             && c.stopping.value == (if c.running.Some? then |c.ops| - 2 else |c.ops| - 1))
    && (c.ops != [] && !c.ops[|c.ops| - 1].stage.Settled? ==>
          (if c.ops[|c.ops| - 1].kind.Attempt? then c.running else c.stopping) == Some(|c.ops| - 1))
    && (|c.ops| >= 2 && c.running.Some? && !c.ops[|c.ops| - 2].stage.Settled? ==> c.stopping == Some(|c.ops| - 2))
  }

  ghost predicate Tickets(c: Stack) {
    && c.voidBefore <= c.ticket
    && (forall i :: 0 <= i < |c.ops| && c.ops[i].kind.Attempt? ==> c.ops[i].kind.ticket <= c.ticket)
    && (forall i :: 0 <= i < |c.ops| && c.ops[i].stage.InBody? ==> c.ops[i].ran)
    && (forall i :: 0 <= i < |c.ops| && c.ops[i].stage.Waiting? ==> !c.ops[i].ran)
    && (forall i :: 0 <= i < |c.ops| && c.ops[i].stage.InBody? && c.ops[i].kind.Attempt? ==> c.inFlight == Some(i))
    && (c.inFlight.Some? ==> At(c, c.inFlight.value, InBody) && c.ops[c.inFlight.value].kind.Attempt?)
  }

  ghost predicate Inv(c: Stack) {
    InLine(c) && NamesTheEnd(c) && Tickets(c)
  }

  lemma CallStartKeepsLine(c: Stack)
    requires InLine(c) && NamesTheEnd(c) && c.voidBefore <= c.ticket
    ensures InLine(CallStart(c)) && NamesTheEnd(CallStart(c))
  {
    assert c.running.None? && c.stopping.None? && c.ops != [] ==> c.ops[|c.ops| - 1].stage.Settled?;
  }

  lemma CallStartKeepsTickets(c: Stack)
    requires Tickets(c)
    ensures Tickets(CallStart(c))
  {
  }

  lemma CallStopKeepsLine(c: Stack)
    requires InLine(c) && NamesTheEnd(c)
    ensures InLine(CallStop(c)) && NamesTheEnd(CallStop(c))
  {
    assert c.running.None? && c.stopping.None? && c.ops != [] ==> c.ops[|c.ops| - 1].stage.Settled?;
  }

  lemma CallStopKeepsTickets(c: Stack)
    requires Tickets(c)
    ensures Tickets(CallStop(c))
  {
  }

  /** An operation that moves on without settling keeps its place in the line and its name. */
  lemma MovingOnKeepsLine(c: Stack, i: nat, op: Op)
    requires InLine(c) && i < |c.ops| && op.kind == c.ops[i].kind && op.waits == c.ops[i].waits
    requires !op.stage.Waiting? && !op.stage.Settled? && !c.ops[i].stage.Settled?
    requires forall j :: 0 <= j < i ==> c.ops[j].stage.Settled?
    ensures InLine(WithOp(c, i, op))
    ensures NamesTheEnd(c) ==> NamesTheEnd(WithOp(c, i, op))
  {
  }

  /** An unblocked operation finds everything before it settled. */
  lemma UnblockedIsNext(c: Stack, i: nat)
    requires InLine(c) && At(c, i, Waiting) && Unblocked(c, i)
    ensures forall j :: 0 <= j < i ==> c.ops[j].stage.Settled?
  {
    if i > 0 {
      assert i - 1 in c.ops[i].waits ==> At(c, i - 1, Settled);
      assert c.ops[i - 1].stage.Settled?;
    }
  }

  lemma BeginKeepsLine(c: Stack, i: nat)
    requires InLine(c)
    ensures InLine(Begin(c, i)) && (NamesTheEnd(c) ==> NamesTheEnd(Begin(c, i)))
  {
    if At(c, i, Waiting) && Unblocked(c, i) {
      UnblockedIsNext(c, i);
      MovingOnKeepsLine(c, i, Begin(c, i).ops[i]);
    }
  }

  lemma BeginKeepsTickets(c: Stack, i: nat)
    requires InLine(c) && Tickets(c)
    ensures Tickets(Begin(c, i))
  {
    if At(c, i, Waiting) && Unblocked(c, i) {
      UnblockedIsNext(c, i);
      assert forall j :: i < j < |c.ops| ==> c.ops[j].stage.Waiting?;
    }
  }

  lemma EndKeepsLine(c: Stack, i: nat, outcome: Outcome)
    requires InLine(c)
    ensures InLine(End(c, i, outcome)) && (NamesTheEnd(c) ==> NamesTheEnd(End(c, i, outcome)))
  {
    if At(c, i, InBody) {
      assert forall j :: 0 <= j < i ==> c.ops[j].stage.Settled?;
      EndMovesOn(c, i, outcome);
      hide InLine, NamesTheEnd, End;
      MovingOnKeepsLine(c, i, End(c, i, outcome).ops[i]);
      SameLine(WithOp(c, i, End(c, i, outcome).ops[i]), End(c, i, outcome));
    }
  }

  lemma EndMovesOn(c: Stack, i: nat, outcome: Outcome)
    requires At(c, i, InBody)
    ensures var c' := End(c, i, outcome);
      && i < |c'.ops| && c'.ops == c.ops[i := c'.ops[i]] && c'.running == c.running && c'.stopping == c.stopping && c'.voidBefore == c.voidBefore
      && c'.ops[i].kind == c.ops[i].kind && c'.ops[i].waits == c.ops[i].waits && c'.ops[i].stage.Closing?
  {
  }

  /** The line is the operations and the two names of its end. */
  lemma SameLine(c: Stack, c': Stack)
    requires c'.ops == c.ops && c'.running == c.running && c'.stopping == c.stopping && c'.voidBefore == c.voidBefore
    ensures InLine(c) ==> InLine(c')
    ensures NamesTheEnd(c) ==> NamesTheEnd(c')
  {
  }

  lemma EndKeepsTickets(c: Stack, i: nat, outcome: Outcome)
    requires Tickets(c)
    ensures Tickets(End(c, i, outcome))
  {
  }

  lemma SettleKeepsLine(c: Stack, i: nat)
    requires InLine(c)
    ensures InLine(Settle(c, i))
  {
  }

  lemma SettleKeeps(c: Stack, i: nat)
    requires Inv(c)
    ensures Inv(Settle(c, i))
  {
    SettleKeepsLine(c, i);
  }

  /** What is displayed or aborted has no part in the order of operations. */
  lemma DisplayKeeps(c: Stack, aborted: set<nat>, display: StackState)
    requires Inv(c)
    ensures Inv(c.(aborted := aborted, display := display))
  {
  }

  lemma StepKeeps(c: Stack, a: Action)
    requires Inv(c)
    ensures Inv(Do(c, a))
  {
    match a
    case DoBegin(i) =>
      BeginKeepsLine(c, i);
      BeginKeepsTickets(c, i);
    case DoEnd(i, outcome) =>
      EndKeepsLine(c, i, outcome);
      EndKeepsTickets(c, i, outcome);
    case DoSettle(i) => SettleKeeps(c, i);
    case DoPush(i, e) => DisplayKeeps(c, c.aborted, Push(c, i, e).display);
    case DoLateLine(line, progress) => DisplayKeeps(c, c.aborted, LateLine(c, line, progress).display);
    case Start =>
      CallStartKeepsLine(c);
      CallStartKeepsTickets(c);
    case Stop =>
      CallStopKeepsLine(c);
      CallStopKeepsTickets(c);
    case Abort => DisplayKeeps(c, Aborted(c).aborted, c.display);
  }

  lemma {:induction false} RunKeeps(actions: seq<Action>)
    ensures Inv(Run(FRESH, actions))
    decreases |actions|
  {
    if actions != [] {
      RunKeeps(actions[..|actions| - 1]);
      StepKeeps(Run(FRESH, actions[..|actions| - 1]), actions[|actions| - 1]);
    }
  }

  // --- what the controller promises --------------------------------------------------

  /** `compose up` and `compose stop` never overlap: at most one body is running. */
  lemma BodiesNeverOverlap(actions: seq<Action>, i: nat, j: nat)
    ensures var c := Run(FRESH, actions); At(c, i, InBody) && At(c, j, InBody) ==> i == j
  {
    RunKeeps(actions);
  }

  /** The attempt a caller would join was asked for after the last stop. */
  lemma RunningIsWanted(actions: seq<Action>)
    ensures var c := Run(FRESH, actions);
      c.running.Some? ==> c.running.value < |c.ops| && c.ops[c.running.value].kind.Attempt?
                          && c.ops[c.running.value].kind.ticket > c.voidBefore
  {
    RunKeeps(actions);
  }

  /** An attempt that may still run is the one `running` names, and one whose body runs was aborted if it is not. */
  ghost predicate Tracked(c: Stack) {
    && (forall i :: 0 <= i < |c.ops| && c.ops[i].kind.Attempt? && !c.ops[i].stage.Settled? && c.ops[i].kind.ticket > c.voidBefore ==>
          c.running == Some(i))
    && (forall i :: 0 <= i < |c.ops| && c.ops[i].kind.Attempt? && c.ops[i].stage.InBody? ==> c.running == Some(i) || i in c.aborted)
  }

  lemma StartKeepsTracked(c: Stack)
    requires Tickets(c) && Tracked(c)
    ensures Tracked(CallStart(c))
  {
  }

  lemma StopKeepsTracked(c: Stack)
    requires Tickets(c) && Tracked(c)
    ensures Tracked(CallStop(c)) && Tracked(Aborted(c))
  {
  }

  lemma BeginKeepsTracked(c: Stack, i: nat)
    requires Tracked(c)
    ensures Tracked(Begin(c, i))
  {
  }

  lemma SettlingKeepsTracked(c: Stack, i: nat, outcome: Outcome)
    requires Tracked(c)
    ensures Tracked(End(c, i, outcome)) && Tracked(Settle(c, i))
  {
  }

  lemma StepKeepsTracked(c: Stack, a: Action)
    requires Tickets(c) && Tracked(c)
    ensures Tracked(Do(c, a))
  {
    match a
    case DoBegin(i) => BeginKeepsTracked(c, i);
    case DoEnd(i, outcome) => SettlingKeepsTracked(c, i, outcome);
    case DoSettle(i) => SettlingKeepsTracked(c, i, Good);
    case DoPush(i, e) =>
    case DoLateLine(line, progress) =>
    case Start => StartKeepsTracked(c);
    case _ => StopKeepsTracked(c);
  }

  lemma {:induction false} RunTracks(actions: seq<Action>)
    ensures Tracked(Run(FRESH, actions))
  {
    if actions != [] {
      RunKeeps(actions[..|actions| - 1]);
      RunTracks(actions[..|actions| - 1]);
      StepKeepsTracked(Run(FRESH, actions[..|actions| - 1]), actions[|actions| - 1]);
    }
  }

  /** Whenever a stop is called, the docker command of every attempt whose body runs is aborted. */
  lemma StopAbortsTheAttempt(actions: seq<Action>, i: nat)
    ensures var c := Run(FRESH, actions + [Stop]); At(c, i, InBody) && c.ops[i].kind.Attempt? ==> i in c.aborted
  {
    RunKeeps(actions);
    RunTracks(actions);
    assert (actions + [Stop])[..|actions|] == actions;
  }

  predicate Voided(c: Stack, i: nat) {
    i < |c.ops| && c.ops[i].kind.Attempt? && !c.ops[i].ran && c.ops[i].kind.ticket <= c.voidBefore
  }

  lemma VoidedStaysVoided(c: Stack, a: Action, i: nat)
    requires c.voidBefore <= c.ticket && Voided(c, i)
    ensures Voided(Do(c, a), i)
  {
  }

  lemma NoTicketIsSkipped(actions: seq<Action>)
    ensures Run(FRESH, actions).voidBefore <= Run(FRESH, actions).ticket
  {
    RunKeeps(actions);
  }

  lemma {:induction false} VoidedNeverRuns(earlier: seq<Action>, later: seq<Action>, i: nat)
    requires Voided(Run(FRESH, earlier), i)
    ensures Voided(Run(FRESH, earlier + later), i)
    decreases |later|
  {
    if later == [] {
      assert earlier + later == earlier;
    } else {
      var last := |later| - 1;
      var before := earlier + later[..last];
      VoidedNeverRuns(earlier, later[..last], i);
      NoTicketIsSkipped(before);
      VoidedStaysVoided(Run(FRESH, before), later[last], i);
      assert (earlier + later)[..|earlier + later| - 1] == before;
    }
  }

  /** A start that has not begun when a stop comes never runs, whatever happens afterwards. */
  lemma StopVoidsWaitingStarts(earlier: seq<Action>, later: seq<Action>, i: nat)
    requires var c := Run(FRESH, earlier); i < |c.ops| && c.ops[i].kind.Attempt? && !c.ops[i].ran
    ensures var c := Run(FRESH, earlier + [Stop] + later); i < |c.ops| && !c.ops[i].ran
  {
    RunKeeps(earlier);
    assert (earlier + [Stop])[..|earlier|] == earlier;
    assert Voided(Run(FRESH, earlier + [Stop]), i);
    VoidedNeverRuns(earlier + [Stop], later, i);
  }

  // --- the latest call wins ----------------------------------------------------------

  /** The last start or stop that was called. */
  function LastCall(actions: seq<Action>): Option<Action> {
    if actions == [] then None
    else
      var last := actions[|actions| - 1];
      if last.Start? || last.Stop? then Some(last) else LastCall(actions[..|actions| - 1])
  }

  predicate Refused(op: Op) {
    op.kind.Halt? && Past(op) && op.ran && op.outcome.Rejected?
  }

  /** An operation that is over ran its body, or it is a start with one of two excuses. */
  ghost predicate Excused(ops: seq<Op>, voidBefore: nat, i: nat)
    requires i < |ops|
  {
    || ops[i].ran
    || (ops[i].kind.Attempt? && ops[i].kind.ticket <= voidBefore)
    || (ops[i].kind.Attempt? && ops[i].outcome.Rejected? && i > 0 && i - 1 in ops[i].waits && Refused(ops[i - 1]))
  }

  ghost predicate WaitsForStop(ops: seq<Op>, i: nat)
    requires i < |ops|
  {
    ops[i].kind.Attempt? ==> forall w :: w in ops[i].waits ==> w + 1 == i && ops[w].kind.Halt?
  }

  ghost predicate Accounts(ops: seq<Op>, voidBefore: nat) {
    && (forall i :: 0 <= i < |ops| ==> WaitsForStop(ops, i))
    && (forall i :: 0 <= i < |ops| && ops[i].kind.Halt? && !ops[i].stage.Waiting? ==> ops[i].ran)
    && (forall i :: 0 <= i < |ops| && Past(ops[i]) ==> Excused(ops, voidBefore, i))
  }

  ghost predicate Follows(c: Stack, call: Option<Action>) {
    && (call.None? ==> c.ops == [])
    && (call.Some? ==> c.ops != [] && (call.value.Start? || call.value.Stop?)
                       && (c.ops[|c.ops| - 1].kind.Attempt? <==> call.value.Start?)
                       && (call.value.Start? ==> c.ops[|c.ops| - 1].kind.ticket > c.voidBefore))
  }

  /** After a stop that worked, nothing but a newer body changes the display. */
  ghost predicate Shows(c: Stack) {
    forall i :: 0 <= i < |c.ops| && LastGoodStop(c.ops, i) ==> c.display == INITIAL
  }

  /** A stop that worked, with no body after it. */
  ghost predicate LastGoodStop(ops: seq<Op>, i: nat)
    requires i < |ops|
  {
    ops[i].kind.Halt? && Past(ops[i]) && ops[i].outcome.Good? && forall j :: i < j < |ops| ==> !ops[j].ran
  }

  lemma AppendKeepsAccounts(ops: seq<Op>, voidBefore: nat, voidBefore': nat, op: Op)
    requires Accounts(ops, voidBefore) && voidBefore <= voidBefore' && op.stage.Waiting?
    requires op.kind.Attempt? ==> forall w :: w in op.waits ==> w + 1 == |ops| && ops[w].kind.Halt?
    ensures Accounts(ops + [op], voidBefore')
  {
    var ops' := ops + [op];
    forall i | 0 <= i < |ops'|
      ensures WaitsForStop(ops', i)
      ensures Past(ops'[i]) ==> Excused(ops', voidBefore', i)
    {
      if i < |ops| {
        assert ops'[i] == ops[i] && WaitsForStop(ops, i);
      }
    }
  }

  lemma UpdateKeepsAccounts(ops: seq<Op>, voidBefore: nat, i: nat, op: Op)
    requires Accounts(ops, voidBefore) && i < |ops| && op.kind == ops[i].kind && op.waits == ops[i].waits
    requires (ops[i].ran ==> op.ran) && (Refused(ops[i]) ==> Refused(op))
    requires op.kind.Halt? && !op.stage.Waiting? ==> op.ran
    requires Past(op) ==> Excused(ops[i := op], voidBefore, i)
    ensures Accounts(ops[i := op], voidBefore)
  {
    var ops' := ops[i := op];
    forall k | 0 <= k < |ops'|
      ensures WaitsForStop(ops', k)
      ensures Past(ops'[k]) ==> Excused(ops', voidBefore, k)
    {
      assert WaitsForStop(ops, k);
      if k != i && Past(ops'[k]) {
        assert Excused(ops, voidBefore, k);
      }
    }
  }

  lemma BodyStepsKeepAccounts(c: Stack, i: nat, outcome: Outcome)
    requires Tickets(c) && Accounts(c.ops, c.voidBefore)
    ensures Accounts(End(c, i, outcome).ops, c.voidBefore)
    ensures Accounts(Settle(c, i).ops, c.voidBefore)
  {
    if At(c, i, InBody) {
      UpdateKeepsAccounts(c.ops, c.voidBefore, i, End(c, i, outcome).ops[i]);
    } else if At(c, i, Closing) {
      assert Excused(c.ops, c.voidBefore, i);
      UpdateKeepsAccounts(c.ops, c.voidBefore, i, c.ops[i].(stage := Settled));
    }
  }

  lemma BeginKeepsAccounts(c: Stack, i: nat)
    requires Accounts(c.ops, c.voidBefore)
    ensures Accounts(Begin(c, i).ops, c.voidBefore)
  {
    if At(c, i, Waiting) && Unblocked(c, i) {
      assert WaitsForStop(c.ops, i);
      UpdateKeepsAccounts(c.ops, c.voidBefore, i, Begin(c, i).ops[i]);
    }
  }

  lemma StartKeepsAccounts(c: Stack)
    requires NamesTheEnd(c) && Accounts(c.ops, c.voidBefore)
    ensures Accounts(CallStart(c).ops, CallStart(c).voidBefore)
  {
    if c.running.None? {
      AppendKeepsAccounts(c.ops, c.voidBefore, c.voidBefore, Op(Attempt(c.ticket + 1), Pending(c.stopping), Waiting, false, Good));
    }
  }

  lemma StopKeepsAccounts(c: Stack)
    requires NamesTheEnd(c) && c.voidBefore <= c.ticket && Accounts(c.ops, c.voidBefore)
    ensures Accounts(CallStop(c).ops, CallStop(c).voidBefore)
  {
    if c.stopping.Some? && c.running.None? {
      forall i | 0 <= i < |c.ops|
        ensures WaitsForStop(c.ops, i)
        ensures Past(c.ops[i]) ==> Excused(c.ops, c.ticket, i)
      {
      }
    } else {
      AppendKeepsAccounts(c.ops, c.voidBefore, c.ticket, Op(Halt, Pending(c.stopping) + Pending(c.running), Waiting, false, Good));
    }
  }

  lemma StepKeepsAccounts(c: Stack, a: Action)
    requires NamesTheEnd(c) && Tickets(c) && Accounts(c.ops, c.voidBefore)
    ensures Accounts(Do(c, a).ops, Do(c, a).voidBefore)
  {
    match a
    case DoBegin(i) => BeginKeepsAccounts(c, i);
    case DoEnd(i, outcome) => BodyStepsKeepAccounts(c, i, outcome);
    case DoSettle(i) => BodyStepsKeepAccounts(c, i, Good);
    case Start =>
      StartKeepsAccounts(c);
    case Stop => StopKeepsAccounts(c);
    case _ =>
  }

  lemma CallsKeepShows(c: Stack)
    requires Shows(c)
    ensures Shows(CallStart(c)) && Shows(CallStop(c)) && Shows(Aborted(c))
  {
    forall c', i | c' in {CallStart(c), CallStop(c), Aborted(c)} && 0 <= i < |c'.ops| && LastGoodStop(c'.ops, i)
      ensures c'.display == INITIAL
    {
      assert i < |c.ops| && c'.ops[i] == c.ops[i];
      assert forall j :: i < j < |c.ops| ==> c.ops[j] == c'.ops[j];
      assert LastGoodStop(c.ops, i);
    }
  }

  /** An operation moving on without changing the display hides no stop that should show. */
  lemma MovingOnKeepsShows(c: Stack, i: nat, op: Op)
    requires Shows(c) && i < |c.ops| && op.kind == c.ops[i].kind && (c.ops[i].ran ==> op.ran)
    requires op.kind.Halt? && Past(op) && op.outcome.Good? ==> Past(c.ops[i]) && c.ops[i].outcome.Good?
    ensures Shows(WithOp(c, i, op))
  {
    var c' := WithOp(c, i, op);
    forall k | 0 <= k < |c'.ops| && LastGoodStop(c'.ops, k)
      ensures c'.display == INITIAL
    {
      forall j | k < j < |c.ops|
        ensures !c.ops[j].ran
      {
        assert !c'.ops[j].ran;
      }
      assert LastGoodStop(c.ops, k);
    }
  }

  /** While a body runs, no stop is the last body to have run. */
  lemma NothingShowsDuringABody(c: Stack, i: nat, k: nat)
    requires InLine(c) && Tickets(c) && At(c, i, InBody) && k < |c.ops|
    ensures !LastGoodStop(c.ops, k)
  {
    if k < i {
      assert c.ops[i].ran;
    }
  }

  lemma EndKeepsShows(c: Stack, i: nat, outcome: Outcome)
    requires InLine(c) && Tickets(c) && Shows(c)
    ensures Shows(End(c, i, outcome))
  {
    var c' := End(c, i, outcome);
    if At(c, i, InBody) {
      assert c'.ops[i].ran;
      assert forall k :: i < k < |c.ops| ==> c.ops[k].stage.Waiting?;
      forall k | 0 <= k < |c'.ops| && LastGoodStop(c'.ops, k)
        ensures c'.display == INITIAL
      {
      }
    }
  }

  lemma StepKeepsShows(c: Stack, a: Action)
    requires InLine(c) && Tickets(c) && Shows(c)
    ensures Shows(Do(c, a))
  {
    match a
    case DoBegin(i) =>
      if At(c, i, Waiting) && Unblocked(c, i) {
        MovingOnKeepsShows(c, i, Begin(c, i).ops[i]);
      }
    case DoEnd(i, outcome) => EndKeepsShows(c, i, outcome);
    case DoSettle(i) =>
      if At(c, i, Closing) {
        MovingOnKeepsShows(c, i, c.ops[i].(stage := Settled));
      }
    case DoPush(i, e) =>
      if At(c, i, InBody) {
        forall k: nat | k < |c.ops|
          ensures !LastGoodStop(c.ops, k)
        {
          NothingShowsDuringABody(c, i, k);
        }
      }
    case DoLateLine(line, progress) =>
      assert Reduce(INITIAL, Output(line, progress)) == INITIAL;
    case _ => CallsKeepShows(c);
  }

  lemma StepFollows(c: Stack, a: Action, call: Option<Action>)
    requires NamesTheEnd(c) && c.voidBefore <= c.ticket && Follows(c, call)
    ensures Follows(Do(c, a), if a.Start? || a.Stop? then Some(a) else call)
  {
  }

  /** A start whose body was called found the promise it waited for settled and not rejected. */
  ghost predicate GrantedOp(ops: seq<Op>, i: nat)
    requires i < |ops|
  {
    && (!Past(ops[i]) ==> ops[i].outcome.Good?)
    && (ops[i].ran && ops[i].kind.Attempt? ==>
          forall w :: w in ops[i].waits ==> w < |ops| && ops[w].stage.Settled? && !ops[w].outcome.Rejected?)
  }

  ghost predicate Granted(ops: seq<Op>) {
    forall i :: 0 <= i < |ops| ==> GrantedOp(ops, i)
  }

  lemma AppendKeepsGranted(ops: seq<Op>, op: Op)
    requires Granted(ops) && op.stage.Waiting? && !op.ran && op.outcome.Good?
    ensures Granted(ops + [op])
  {
    var ops' := ops + [op];
    forall k | 0 <= k < |ops'| && k < |ops| ensures GrantedOp(ops', k) {
      assert GrantedOp(ops, k);
    }
  }

  lemma UpdateKeepsGranted(ops: seq<Op>, i: nat, op: Op)
    requires Granted(ops) && i < |ops| && !ops[i].stage.Settled? && GrantedOp(ops[i := op], i)
    ensures Granted(ops[i := op])
  {
    var ops' := ops[i := op];
    forall k | 0 <= k < |ops'| ensures GrantedOp(ops', k) {
      assert GrantedOp(ops, k);
    }
  }

  lemma BeginKeepsGranted(c: Stack, i: nat)
    requires Granted(c.ops) && InLine(c)
    ensures Granted(Begin(c, i).ops)
  {
    if At(c, i, Waiting) && Unblocked(c, i) {
      assert GrantedOp(c.ops, i);
      UpdateKeepsGranted(c.ops, i, Begin(c, i).ops[i]);
    }
  }

  lemma StepKeepsGranted(c: Stack, a: Action)
    requires InLine(c) && Tickets(c) && Granted(c.ops)
    ensures Granted(Do(c, a).ops)
  {
    match a
    case DoBegin(i) => BeginKeepsGranted(c, i);
    case DoEnd(i, outcome) =>
      if At(c, i, InBody) {
        assert GrantedOp(c.ops, i);
        UpdateKeepsGranted(c.ops, i, End(c, i, outcome).ops[i]);
      }
    case DoSettle(i) =>
      if At(c, i, Closing) {
        assert GrantedOp(c.ops, i);
        UpdateKeepsGranted(c.ops, i, c.ops[i].(stage := Settled));
      }
    case Start =>
      if c.running.None? {
        AppendKeepsGranted(c.ops, Op(Attempt(c.ticket + 1), Pending(c.stopping), Waiting, false, Good));
      }
    case Stop =>
      if c.stopping.None? || c.running.Some? {
        AppendKeepsGranted(c.ops, Op(Halt, Pending(c.stopping) + Pending(c.running), Waiting, false, Good));
      }
    case _ =>
  }

  lemma {:induction false} RunGrants(actions: seq<Action>)
    ensures Granted(Run(FRESH, actions).ops)
  {
    if actions != [] {
      RunKeeps(actions[..|actions| - 1]);
      RunGrants(actions[..|actions| - 1]);
      StepKeepsGranted(Run(FRESH, actions[..|actions| - 1]), actions[|actions| - 1]);
    }
  }

  lemma {:induction false} RunAccounts(actions: seq<Action>)
    ensures var c := Run(FRESH, actions);
      Inv(c) && Accounts(c.ops, c.voidBefore) && Shows(c) && Follows(c, LastCall(actions))
    decreases |actions|
  {
    RunKeeps(actions);
    if actions != [] {
      var before, a := actions[..|actions| - 1], actions[|actions| - 1];
      RunAccounts(before);
      StepKeepsAccounts(Run(FRESH, before), a);
      StepKeepsShows(Run(FRESH, before), a);
      StepFollows(Run(FRESH, before), a, LastCall(before));
    }
  }

  /** The operation whose body was called last. */
  ghost predicate RanLast(c: Stack, i: nat) {
    i < |c.ops| && c.ops[i].ran && forall j :: i < j < |c.ops| ==> !c.ops[j].ran
  }

  /** The last operation ran its body, and it is the last to have done so. */
  ghost predicate LastRan(c: Stack) {
    c.ops != [] && RanLast(c, |c.ops| - 1)
  }

  lemma EndOfTheLine(c: Stack, call: Option<Action>)
    requires call.Some? && Follows(c, call) && Accounts(c.ops, c.voidBefore) && Granted(c.ops) && Shows(c)
    requires forall i :: 0 <= i < |c.ops| ==> c.ops[i].stage.Settled?
    ensures var end := |c.ops| - 1;
      && (call.value.Stop? ==> LastRan(c) && (c.ops[end].outcome.Good? ==> c.display == INITIAL))
      && (call.value.Start? ==> (LastRan(c) <==> !Inherits(c, end)))
      && (call.value.Start? && Inherits(c, end) ==>
            c.ops[end].outcome.Rejected? && end > 0 && RanLast(c, end - 1) && Refused(c.ops[end - 1]))
  {
    var end := |c.ops| - 1;
    var o := c.ops[end];
    assert Excused(c.ops, c.voidBefore, end) && WaitsForStop(c.ops, end) && GrantedOp(c.ops, end);
    if call.value.Stop? {
      assert o.outcome.Good? ==> LastGoodStop(c.ops, end);
    } else if o.ran {
      assert !Inherits(c, end);
    } else {
      assert end - 1 in o.waits && Refused(c.ops[end - 1]);
      assert Inherits(c, end);
    }
  }

  /**
   Once everything settled, the last body that ran belongs to the last call. After a stop it is
   that stop's, and a stop that worked leaves the display idle. After a start it is that start's
   if and only if the start is not chained on a stop that rejected; then it is rejected itself.
   */
  lemma LatestCallWins(actions: seq<Action>)
    requires LastCall(actions).Some? && forall i :: 0 <= i < |Run(FRESH, actions).ops| ==> Run(FRESH, actions).ops[i].stage.Settled?
    ensures var c := Run(FRESH, actions);
      var end := |c.ops| - 1;
      && end >= 0
      && (LastCall(actions).value.Stop? ==> LastRan(c) && c.ops[end].kind.Halt?
                                             && (c.ops[end].outcome.Good? ==> c.display == INITIAL))
      && (LastCall(actions).value.Start? ==> c.ops[end].kind.Attempt? && (LastRan(c) <==> !Inherits(c, end)))
      && (LastCall(actions).value.Start? && Inherits(c, end) ==>
            c.ops[end].outcome.Rejected? && end > 0 && RanLast(c, end - 1) && Refused(c.ops[end - 1]))
  {
    RunAccounts(actions);
    RunGrants(actions);
    EndOfTheLine(Run(FRESH, actions), LastCall(actions));
  }

  lemma OneMore(actions: seq<Action>, a: Action) returns (more: seq<Action>)
    ensures Run(FRESH, more) == Do(Run(FRESH, actions), a)
    ensures LastCall(more) == if a.Start? || a.Stop? then Some(a) else LastCall(actions)
  {
    more := actions + [a];
    assert more[..|actions|] == actions;
  }

  /** A start called while a stop is running is lost when that stop rejects. */
  lemma RejectedStopLosesTheStart() returns (actions: seq<Action>)
    ensures LastCall(actions) == Some(Start)
    ensures var c := Run(FRESH, actions);
      && |c.ops| == 2 && c.ops[0].stage.Settled? && c.ops[1].stage.Settled?
      && c.ops[1].kind.Attempt? && !c.ops[1].ran && c.ops[1].outcome.Rejected? && Inherits(c, 1)
  {
    actions := StartDuringStop();
    var c := Run(FRESH, actions);
    actions := OneMore(actions, DoEnd(0, Rejected));
    actions := OneMore(actions, DoSettle(0));
    assert Run(FRESH, actions).ops == [Op(Halt, {}, Settled, true, Rejected), c.ops[1]];
    actions := StartInherits(actions);
  }

  lemma StartDuringStop() returns (actions: seq<Action>)
    ensures LastCall(actions) == Some(Start)
    ensures Run(FRESH, actions).ops == [Op(Halt, {}, InBody, true, Good), Op(Attempt(1), {0}, Waiting, false, Good)]
  {
    actions := OneMore([], Stop);
    assert Pending(None) + Pending(None) == {};
    assert Run(FRESH, actions).ops == [Op(Halt, {}, Waiting, false, Good)];
    actions := OneMore(actions, DoBegin(0));
    actions := OneMore(actions, Start);
  }

  lemma StartInherits(settled: seq<Action>) returns (actions: seq<Action>)
    requires Run(FRESH, settled).ops == [Op(Halt, {}, Settled, true, Rejected), Op(Attempt(1), {0}, Waiting, false, Good)]
    ensures LastCall(actions) == LastCall(settled)
    ensures Run(FRESH, actions).ops == [Op(Halt, {}, Settled, true, Rejected), Op(Attempt(1), {0}, Settled, false, Rejected)]
  {
    var c := Run(FRESH, settled);
    assert Unblocked(c, 1) && Inherits(c, 1) by {
      assert 0 in c.ops[1].waits;
    }
    actions := OneMore(settled, DoBegin(1));
    actions := OneMore(actions, DoSettle(1));
  }

  // --- the object --------------------------------------------------------------------

  /**
   The controller object. `ops` stands for the promises it created; its callback methods are
   called by the event loop. Every method is proved against the step it stands for above.
   */

  lemma OneBody(actions: seq<Action>)
    ensures var c := Run(FRESH, actions); forall i: nat, j: nat :: At(c, i, InBody) && At(c, j, InBody) ==> i == j
  {
    forall i: nat, j: nat | At(Run(FRESH, actions), i, InBody) && At(Run(FRESH, actions), j, InBody) ensures i == j {
      BodiesNeverOverlap(actions, i, j);
    }
  }

  class LocalStackController {
    var ops: seq<Op>
    var running: Option<nat>
    var stopping: Option<nat>
    var inFlight: Option<nat>
    var aborted: set<nat>
    var ticket: nat
    var voidBefore: nat
    var current: StackState
    /** The calls and callbacks so far. */
    ghost var history: seq<Action>

    function State(): Stack
      reads this
    {
      Stack(ops, running, stopping, inFlight, aborted, ticket, voidBefore, current)
    }

    /** The object is where a run of the machine ends, so what holds of every run holds of it. */
    ghost predicate Valid()
      reads this
    {
      State() == Run(FRESH, history)
    }

    constructor ()
      ensures Valid() && State() == FRESH && history == []
    {
      ops, running, stopping, inFlight, aborted := [], None, None, None, {};
      ticket, voidBefore, current, history := 0, 0, INITIAL, [];
    }

    ghost method Record(a: Action)
      modifies `history
      ensures history == old(history) + [a] && Run(FRESH, history) == Do(Run(FRESH, old(history)), a)
    {
      history := history + [a];
      assert history[..|history| - 1] == old(history);
    }

    /** The attempt in flight, or a fresh one behind the stop that is still running. */
    method Start() returns (promise: nat)
      requires Valid()
      modifies this
      ensures Valid() && history == old(history) + [Action.Start]
      ensures State() == CallStart(old(State()))
      ensures promise == if old(running).Some? then old(running).value else |old(ops)|
    {
      Record(Action.Start);
      if running.Some? {
        return running.value;
      }
      ticket := ticket + 1;
      promise := |ops|;
      ops := ops + [Op(Attempt(ticket), Pending(stopping), Waiting, false, Good)];
      running := Some(promise);
    }

    method Abort()
      requires Valid()
      modifies this
      ensures Valid() && history == old(history) + [Action.Abort]
      ensures State() == Aborted(old(State()))
    {
      Record(Action.Abort);
      AbortInFlight();
    }

    method AbortInFlight()
      modifies `aborted
      ensures State() == Aborted(old(State()))
    {
      if inFlight.Some? {
        aborted := aborted + {inFlight.value};
      } else {
        assert aborted == aborted + Pending(inFlight);
      }
    }

    /** A second stop shares the first one's promise, unless a start came in between. */
    method Stop() returns (promise: nat)
      requires Valid()
      modifies this
      ensures Valid() && history == old(history) + [Action.Stop]
      ensures State() == CallStop(old(State()))
      ensures promise == if old(stopping).Some? && old(running).None? then old(stopping).value else |old(ops)|
    {
      Record(Action.Stop);
      voidBefore := ticket;
      if stopping.Some? && running.None? {
        return stopping.value;
      }
      AbortInFlight();
      var settled := Pending(stopping) + Pending(running);
      running := None;
      promise := |ops|;
      ops := ops + [Op(Halt, settled, Waiting, false, Good)];
      stopping := Some(promise);
    }

    /** The `then` callback: skip a voided start, otherwise call the body, which then runs alone. */
    method OnChainSettled(op: nat)
      requires Valid() && At(State(), op, Waiting) && Unblocked(State(), op)
      modifies this
      ensures Valid() && history == old(history) + [DoBegin(op)]
      ensures State() == Begin(old(State()), op)
      ensures At(State(), op, InBody) ==> forall i: nat :: At(State(), i, InBody) ==> i == op
    {
      Record(DoBegin(op));
      OneBody(history);
      var o := ops[op];
      if Inherits(State(), op) {
        ops := ops[op := o.(stage := Closing, outcome := Rejected)];
      } else if o.kind.Attempt? && o.kind.ticket <= voidBefore {
        ops := ops[op := o.(stage := Closing)];
      } else {
        ops := ops[op := o.(stage := InBody, ran := true)];
        if o.kind.Attempt? {
          inFlight := Some(op);
          current := Reduce(current, CheckStart);
        }
      }
    }

    /** A docker line, the one push that may come when no body is running. */
    method OnLine(line: string, progress: Option<(string, int)>)
      requires Valid()
      modifies this
      ensures Valid() && history == old(history) + [DoLateLine(line, progress)]
      ensures State() == LateLine(old(State()), line, progress)
    {
      Record(DoLateLine(line, progress));
      current := Reduce(current, Output(line, progress));
    }

    /** The body of an attempt or of a stop is over. */
    method OnBodyEnded(op: nat, outcome: Outcome)
      requires Valid() && At(State(), op, InBody)
      modifies this
      ensures Valid() && history == old(history) + [DoEnd(op, outcome)]
      ensures State() == End(old(State()), op, outcome)
    {
      Record(DoEnd(op, outcome));
      var o := ops[op];
      ops := ops[op := o.(stage := Closing, outcome := outcome)];
      if o.kind.Attempt? {
        if inFlight == Some(op) {
          inFlight := None;
        }
      } else if outcome.Good? {
        current := INITIAL;
      } else if outcome.Bad? {
        current := current.(phase := Failed, message := Some(STOP_FAILED));
      }
    }

    /** The `finally` callback: the field is cleared only if it still names this promise. */
    method OnFinally(op: nat)
      requires Valid() && At(State(), op, Closing)
      modifies this
      ensures Valid() && history == old(history) + [DoSettle(op)]
      ensures State() == Settle(old(State()), op)
    {
      Record(DoSettle(op));
      ops := ops[op := ops[op].(stage := Settled)];
      if running == Some(op) {
        running := None;
      }
      if stopping == Some(op) {
        stopping := None;
      }
    }
  }
}
