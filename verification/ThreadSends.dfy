/**
 Sending a message to a bot thread or a group thread: one transaction that answers, steers or
 starts a run for every target bot, and the receipt a later retry is answered from.

 Identifiers are positions: of a message, a run or an event in the thread's tables.
 */
module ThreadSends {
  import opened Wrappers
  import opened Sequences

  datatype RunStatus = Queued | Leased | InProgress | WaitingInput | WaitingTakeover | Completed | Failed | Cancelled

  datatype Trigger = ByUser | ByReaction | Elsewise

  datatype Run = Run(bot: nat, task: nat, status: RunStatus, trigger: Trigger, source: Option<nat>)

  datatype Message = Message(nonce: Option<string>, seqNo: nat, fromUser: bool, run: Option<nat>)

  /** A message-created event; `runIds` is empty when the payload names no runs. */
  datatype Event = Event(message: nat, runIds: seq<nat>)

  datatype Steering = Steering(message: nat, bot: nat, run: nat)

  datatype Thread = Thread(messages: seq<Message>, runs: seq<Run>, events: seq<Event>, steering: seq<Steering>, nextSeq: nat)

  /** `answerable`: the waiting runs whose pending ask takes free text. `valid`: reply and attachments resolve. */
  datatype Request = Request(nonce: Option<string>, group: bool, targets: seq<nat>, hasText: bool, answerable: set<nat>, valid: bool)

  datatype Receipt = Receipt(taskId: nat, runId: nat, seqNo: nat, runIds: seq<nat>)

  datatype SendError = Conflict | Isolation | DuplicateNonce

  predicate IsActive(status: RunStatus) {
    status.Queued? || status.Leased? || status.InProgress? || status.WaitingInput? || status.WaitingTakeover?
  }

  predicate IsSteerable(status: RunStatus) {
    status.Queued? || status.Leased? || status.InProgress? || status.WaitingTakeover?
  }

  /** `order` is what the query for the targets' active runs returns, in whatever order. */
  ghost predicate Lists(order: seq<nat>, runs: seq<Run>, targets: seq<nat>) {
    && (forall j, k :: 0 <= j < k < |order| ==> order[j] != order[k])
    && (forall r: nat :: r in order <==> r < |runs| && runs[r].bot in targets && IsActive(runs[r].status))
  }

  ghost predicate Distinct(targets: seq<nat>) {
    forall j, k :: 0 <= j < k < |targets| ==> targets[j] != targets[k]
  }

  /** Every active run waits for an answer or can be steered, never both, so a send meets none that it can do neither with. */
  lemma ActiveIsWaitingOrSteerable(runs: seq<Run>, order: seq<nat>, targets: seq<nat>, r: nat)
    requires Lists(order, runs, targets) && r in order
    ensures runs[r].status.WaitingInput? <==> !IsSteerable(runs[r].status)
  {
    assert IsActive(runs[r].status);
  }

  // --- where a send goes -------------------------------------------------------------

  predicate Matches(runs: seq<Run>, r: nat, bot: nat, waiting: bool) {
    r < |runs| && runs[r].bot == bot && runs[r].status.WaitingInput? == waiting
  }

  function Matching(runs: seq<Run>, bot: nat, waiting: bool): nat -> bool {
    (r: nat) => Matches(runs, r, bot, waiting)
  }

  /** The bot's active runs that wait for an answer, or those that do not. */
  function Of(runs: seq<Run>, order: seq<nat>, bot: nat, waiting: bool): (r: seq<nat>)
    ensures forall x :: x in r <==> x in order && Matches(runs, x, bot, waiting)
  {
    Filter(order, Matching(runs, bot, waiting))
  }

  lemma OfSnoc(runs: seq<Run>, order: seq<nat>, r: nat, bot: nat, waiting: bool)
    ensures Of(runs, order + [r], bot, waiting) == Of(runs, order, bot, waiting) + (if Matches(runs, r, bot, waiting) then [r] else [])
  {
    FilterConcat(order, [r], Matching(runs, bot, waiting));
  }

  predicate NeedsRun(runs: seq<Run>, order: seq<nat>, bot: nat) {
    Of(runs, order, bot, true) == [] && Of(runs, order, bot, false) == []
  }

  /** Answer every waiting run, else steer one active run, else start a run. */
  function PlaceOne(runs: seq<Run>, order: seq<nat>, bot: nat, next: nat): (r: seq<nat>)
    ensures r != []
  {
    if Of(runs, order, bot, true) != [] then Of(runs, order, bot, true)
    else if Of(runs, order, bot, false) != [] then [Of(runs, order, bot, false)[0]]
    else [next]
  }

  /** The runs of all targets in target order; new ones are numbered from `next`. */
  function PlaceAll(runs: seq<Run>, order: seq<nat>, targets: seq<nat>, next: nat): (r: seq<nat>)
    ensures targets != [] ==> r != []
  {
    if targets == [] then []
    else PlaceOne(runs, order, targets[0], next)
         + PlaceAll(runs, order, targets[1..], if NeedsRun(runs, order, targets[0]) then next + 1 else next)
  }

  function NewRuns(runs: seq<Run>, order: seq<nat>, targets: seq<nat>, message: nat, next: nat): (r: seq<Run>)
    ensures |r| <= |targets|
  {
    if targets == [] then []
    else if NeedsRun(runs, order, targets[0]) then
      [Run(targets[0], next, Queued, ByUser, Some(message))] + NewRuns(runs, order, targets[1..], message, next + 1)
    else NewRuns(runs, order, targets[1..], message, next)
  }

  function NewSteering(runs: seq<Run>, order: seq<nat>, targets: seq<nat>, message: nat): seq<Steering> {
    if targets == [] then []
    else (if Of(runs, order, targets[0], true) == [] && Of(runs, order, targets[0], false) != []
          then [Steering(message, targets[0], Of(runs, order, targets[0], false)[0])] else [])
         + NewSteering(runs, order, targets[1..], message)
  }

  /** The waiting runs of the targets are queued again with their answer. */
  function AnsweredRuns(runs: seq<Run>, order: seq<nat>): (r: seq<Run>)
    ensures |r| == |runs|
  {
    seq(|runs|, i requires 0 <= i < |runs| =>
      if i in order && runs[i].status.WaitingInput? then runs[i].(status := Queued) else runs[i])
  }

  /** The message has text and the run's pending ask takes it. */
  predicate Answers(q: Request, r: nat) {
    q.hasText && r in q.answerable
  }

  predicate Refuses(runs: seq<Run>, order: seq<nat>, q: Request) {
    exists r :: r in order && r < |runs| && runs[r].status.WaitingInput? && !Answers(q, r)
  }

  predicate HasNonce(t: Thread, nonce: Option<string>) {
    nonce.Some? && exists m :: 0 <= m < |t.messages| && t.messages[m].nonce == nonce
  }

  function MakeReceipt(runs: seq<Run>, ids: seq<nat>, seqNo: nat): Receipt
    requires ids != [] && ids[0] < |runs|
  {
    Receipt(runs[ids[0]].task, ids[0], seqNo, ids)
  }

  /** A bot thread's event names no runs when the message steers the active one. */
  function NamedRuns(t: Thread, q: Request, order: seq<nat>, placed: seq<nat>): seq<nat> {
    if !q.group && NewSteering(t.runs, order, q.targets, |t.messages|) != [] then [] else placed
  }

  /** The thread after the transaction. */
  function SentThread(t: Thread, q: Request, order: seq<nat>): Thread
    requires q.targets != []
  {
    var m, placed := |t.messages|, PlaceAll(t.runs, order, q.targets, |t.runs|);
    Thread(t.messages + [Message(q.nonce, t.nextSeq, true, Some(placed[0]))],
           AnsweredRuns(t.runs, order) + NewRuns(t.runs, order, q.targets, m, |t.runs|),
           t.events + [Event(m, NamedRuns(t, q, order, placed))],
           t.steering + NewSteering(t.runs, order, q.targets, m),
           t.nextSeq + 1)
  }

  /** Why the transaction is rolled back, if it is. */
  function Rejection(t: Thread, q: Request, order: seq<nat>): Option<SendError> {
    if !q.valid then Some(Isolation)
    else if HasNonce(t, q.nonce) then Some(DuplicateNonce)
    else if Refuses(t.runs, order, q) then Some(Conflict)
    else if q.targets == [] then Some(Isolation)
    else None
  }

  // --- what one send does to each target ---------------------------------------------

  /** `after` is `runs`, perhaps answered, and from `next` on the new runs. */
  ghost predicate Follows(after: seq<Run>, runs: seq<Run>, next: nat, added: seq<Run>) {
    && |runs| <= next
    && |after| == next + |added|
    && (forall r: nat :: r < |runs| ==> after[r].bot == runs[r].bot)
    && (forall j: nat :: j < |added| ==> after[next + j] == added[j])
  }

  function RunsOf(runs: seq<Run>, bot: nat): nat -> bool {
    (r: nat) => r < |runs| && runs[r].bot == bot
  }

  function OwnedBy(ids: seq<nat>, runs: seq<Run>, bot: nat): seq<nat> {
    Filter(ids, RunsOf(runs, bot))
  }

  /** All waiting runs of the bot, or else its first active run, or else one run started for the message. */
  ghost predicate Outcome(runs: seq<Run>, order: seq<nat>, after: seq<Run>, next: nat, message: nat, bot: nat, ids: seq<nat>) {
    if Of(runs, order, bot, true) != [] then ids == Of(runs, order, bot, true)
    else if Of(runs, order, bot, false) != [] then ids == [Of(runs, order, bot, false)[0]]
    else |ids| == 1 && next <= ids[0] < |after| && after[ids[0]] == Run(bot, ids[0], Queued, ByUser, Some(message))
  }

  ghost predicate Known(order: seq<nat>, runs: seq<Run>) {
    forall r :: r in order ==> r < |runs|
  }

  /** The numbering of the new runs for the targets after the first. */
  function Next(runs: seq<Run>, order: seq<nat>, bot: nat, next: nat): nat {
    if NeedsRun(runs, order, bot) then next + 1 else next
  }

  lemma NewRunsTail(runs: seq<Run>, order: seq<nat>, targets: seq<nat>, message: nat, next: nat)
    requires targets != []
    ensures NewRuns(runs, order, targets, message, next)
      == (if NeedsRun(runs, order, targets[0]) then [Run(targets[0], next, Queued, ByUser, Some(message))] else [])
         + NewRuns(runs, order, targets[1..], message, Next(runs, order, targets[0], next))
  {
  }

  lemma FollowsTail(after: seq<Run>, runs: seq<Run>, next: nat, head: Run, rest: seq<Run>)
    requires Follows(after, runs, next, [head] + rest)
    ensures Follows(after, runs, next + 1, rest) && after[next] == head
  {
    var all := [head] + rest;
    assert after[next + 0] == all[0];
    forall j: nat | j < |rest| ensures after[next + 1 + j] == rest[j] {
      assert after[next + (j + 1)] == all[j + 1];
    }
  }

  lemma FollowsRest(runs: seq<Run>, order: seq<nat>, targets: seq<nat>, message: nat, next: nat, after: seq<Run>)
    requires targets != []
    requires Follows(after, runs, next, NewRuns(runs, order, targets, message, next))
    ensures var n := Next(runs, order, targets[0], next);
      && Follows(after, runs, n, NewRuns(runs, order, targets[1..], message, n))
      && (NeedsRun(runs, order, targets[0]) ==> after[next] == Run(targets[0], next, Queued, ByUser, Some(message)))
  {
    var rest := NewRuns(runs, order, targets[1..], message, Next(runs, order, targets[0], next));
    NewRunsTail(runs, order, targets, message, next);
    if NeedsRun(runs, order, targets[0]) {
      FollowsTail(after, runs, next, Run(targets[0], next, Queued, ByUser, Some(message)), rest);
    } else {
      assert [] + rest == rest;
    }
  }

  /** The first target's runs belong to it alone. */
  lemma PlaceOneOwned(runs: seq<Run>, order: seq<nat>, bot: nat, next: nat, after: seq<Run>, b: nat)
    requires Known(order, runs) && |runs| <= |after|
    requires forall r: nat :: r < |runs| ==> after[r].bot == runs[r].bot
    requires NeedsRun(runs, order, bot) ==> next < |after| && after[next].bot == bot
    ensures OwnedBy(PlaceOne(runs, order, bot, next), after, b) == if b == bot then PlaceOne(runs, order, bot, next) else []
  {
    var ids := PlaceOne(runs, order, bot, next);
    forall r | r in ids ensures r < |after| && after[r].bot == bot {
      if !NeedsRun(runs, order, bot) {
        var w := Of(runs, order, bot, true);
        assert r in w || r in Of(runs, order, bot, false);
      }
    }
    if b == bot {
      FilterAll<nat>(ids, RunsOf(after, b));
    } else {
      FilterNone<nat>(ids, RunsOf(after, b));
    }
  }

  lemma {:induction false} PlacedForEach(runs: seq<Run>, order: seq<nat>, targets: seq<nat>, message: nat, next: nat, after: seq<Run>, b: nat)
    requires Distinct(targets) && Known(order, runs)
    requires Follows(after, runs, next, NewRuns(runs, order, targets, message, next))
    ensures var ids := OwnedBy(PlaceAll(runs, order, targets, next), after, b);
      if b in targets then Outcome(runs, order, after, next, message, b, ids) else ids == []
  {
    if targets != [] {
      var n := Next(runs, order, targets[0], next);
      FollowsRest(runs, order, targets, message, next, after);
      PlacedForEach(runs, order, targets[1..], message, n, after, b);
      PlaceOneOwned(runs, order, targets[0], next, after, b);
      FilterConcat(PlaceOne(runs, order, targets[0], next), PlaceAll(runs, order, targets[1..], n),
                   RunsOf(after, b));
      assert b in targets <==> b == targets[0] || b in targets[1..];
    }
  }

  /** Every run a send names exists afterwards and belongs to a target. */
  lemma {:induction false} PlacedExist(runs: seq<Run>, order: seq<nat>, targets: seq<nat>, message: nat, next: nat, after: seq<Run>)
    requires Known(order, runs)
    requires Follows(after, runs, next, NewRuns(runs, order, targets, message, next))
    ensures forall r :: r in PlaceAll(runs, order, targets, next) ==> r < |after| && after[r].bot in targets
  {
    if targets != [] {
      var n := Next(runs, order, targets[0], next);
      FollowsRest(runs, order, targets, message, next, after);
      PlacedExist(runs, order, targets[1..], message, n, after);
      PlaceOneOwned(runs, order, targets[0], next, after, targets[0]);
      forall r | r in PlaceAll(runs, order, targets, next) ensures r < |after| && after[r].bot in targets {
        if r in PlaceOne(runs, order, targets[0], next) {
          assert r in OwnedBy(PlaceOne(runs, order, targets[0], next), after, targets[0]);
        } else {
          assert r in PlaceAll(runs, order, targets[1..], n);
        }
      }
    }
  }

  function Consecutive(next: nat, count: nat): (r: seq<nat>)
    ensures |r| == count
  {
    seq(count, j requires 0 <= j => next + j)
  }

  function StartedFor(runs: seq<Run>, order: seq<nat>, after: seq<Run>): nat -> bool {
    (r: nat) => r < |after| && NeedsRun(runs, order, after[r].bot)
  }

  /** The placed runs whose bot was neither answered nor active. */
  function Created(runs: seq<Run>, order: seq<nat>, after: seq<Run>, placed: seq<nat>): seq<nat> {
    Filter(placed, StartedFor(runs, order, after))
  }

  lemma CreatedInOne(runs: seq<Run>, order: seq<nat>, bot: nat, next: nat, after: seq<Run>)
    requires Known(order, runs) && |runs| <= |after|
    requires forall r: nat :: r < |runs| ==> after[r].bot == runs[r].bot
    requires NeedsRun(runs, order, bot) ==> next < |after| && after[next].bot == bot
    ensures Created(runs, order, after, PlaceOne(runs, order, bot, next)) == if NeedsRun(runs, order, bot) then [next] else []
  {
    var ids := PlaceOne(runs, order, bot, next);
    PlaceOneOwned(runs, order, bot, next, after, bot);
    forall r | r in ids ensures r < |after| && after[r].bot == bot {
      assert r in OwnedBy(ids, after, bot);
    }
    if NeedsRun(runs, order, bot) {
      FilterAll<nat>(ids, StartedFor(runs, order, after));
    } else {
      FilterNone<nat>(ids, StartedFor(runs, order, after));
    }
  }

  /** The filter by bot recovers exactly the runs the send created, in order. */
  lemma {:induction false} CreatedAreTheNewRuns(runs: seq<Run>, order: seq<nat>, targets: seq<nat>, message: nat, next: nat, after: seq<Run>)
    requires Known(order, runs)
    requires Follows(after, runs, next, NewRuns(runs, order, targets, message, next))
    ensures Created(runs, order, after, PlaceAll(runs, order, targets, next))
         == Consecutive(next, |NewRuns(runs, order, targets, message, next)|)
  {
    if targets == [] {
      assert PlaceAll(runs, order, targets, next) == [];
    } else {
      var bot, n := targets[0], Next(runs, order, targets[0], next);
      var rest := NewRuns(runs, order, targets[1..], message, n);
      FollowsRest(runs, order, targets, message, next, after);
      CreatedAreTheNewRuns(runs, order, targets[1..], message, n, after);
      FilterConcat(PlaceOne(runs, order, bot, next), PlaceAll(runs, order, targets[1..], n),
                   StartedFor(runs, order, after));
      CreatedInOne(runs, order, bot, next, after);
      NewRunsTail(runs, order, targets, message, next);
      ConsecutiveTail(next, |rest|);
    }
  }

  lemma ConsecutiveTail(next: nat, count: nat)
    ensures Consecutive(next, count + 1) == [next] + Consecutive(next + 1, count)
  {
  }

  // --- the rows after a send ---------------------------------------------------------

  /** Request and query result of one send. */
  ghost predicate WellPosed(t: Thread, q: Request, order: seq<nat>) {
    Distinct(q.targets) && Lists(order, t.runs, q.targets)
  }

  lemma SentRunsFollow(t: Thread, q: Request, order: seq<nat>)
    requires q.targets != []
    ensures Follows(SentThread(t, q, order).runs, t.runs, |t.runs|,
                    NewRuns(t.runs, order, q.targets, |t.messages|, |t.runs|))
  {
  }

  /** Every target is answered, steered or given exactly one new run, and nothing else is named. */
  lemma EachTargetIsServedOnce(t: Thread, q: Request, order: seq<nat>, bot: nat)
    requires WellPosed(t, q, order) && q.targets != []
    ensures var after, placed := SentThread(t, q, order).runs, PlaceAll(t.runs, order, q.targets, |t.runs|);
      && (if bot in q.targets then Outcome(t.runs, order, after, |t.runs|, |t.messages|, bot, OwnedBy(placed, after, bot))
          else OwnedBy(placed, after, bot) == [])
      && Created(t.runs, order, after, placed) == Consecutive(|t.runs|, |after| - |t.runs|)
  {
    var after := SentThread(t, q, order).runs;
    SentRunsFollow(t, q, order);
    PlacedForEach(t.runs, order, q.targets, |t.messages|, |t.runs|, after, bot);
    CreatedAreTheNewRuns(t.runs, order, q.targets, |t.messages|, |t.runs|, after);
  }

  lemma {:induction false} NewRunsAreForIdleTargets(runs: seq<Run>, order: seq<nat>, targets: seq<nat>, message: nat, next: nat)
    requires Distinct(targets)
    ensures var added := NewRuns(runs, order, targets, message, next);
      && (forall r :: r in added ==> r.bot in targets && NeedsRun(runs, order, r.bot) && r.source == Some(message))
      && (forall j, k :: 0 <= j < k < |added| ==> added[j].bot != added[k].bot)
  {
    if targets != [] {
      var n := Next(runs, order, targets[0], next);
      NewRunsAreForIdleTargets(runs, order, targets[1..], message, n);
      NewRunsTail(runs, order, targets, message, next);
      assert targets[0] !in targets[1..];
    }
  }

  /** A target that gets a new run has only runs that are over. */
  lemma IdleTargetsHaveNoActiveRun(runs: seq<Run>, order: seq<nat>, targets: seq<nat>, r: nat)
    requires Lists(order, runs, targets) && r < |runs| && runs[r].bot in targets && NeedsRun(runs, order, runs[r].bot)
    ensures runs[r].status.Completed? || runs[r].status.Failed? || runs[r].status.Cancelled?
  {
    var mine := Of(runs, order, runs[r].bot, runs[r].status.WaitingInput?);
    assert mine == [] && r !in mine;
    assert r in mine <==> r in order;
  }

  ghost predicate OneActivePerBot(runs: seq<Run>) {
    forall j, k :: 0 <= j < k < |runs| && runs[j].bot == runs[k].bot ==> !(IsActive(runs[j].status) && IsActive(runs[k].status))
  }

  lemma AnsweringKeepsOneActivePerBot(runs: seq<Run>, order: seq<nat>)
    requires OneActivePerBot(runs)
    ensures OneActivePerBot(AnsweredRuns(runs, order))
  {
    var after := AnsweredRuns(runs, order);
    forall j, k | 0 <= j < k < |after| && after[j].bot == after[k].bot
      ensures !(IsActive(after[j].status) && IsActive(after[k].status))
    {
      assert runs[j].bot == runs[k].bot;
    }
  }

  lemma AddingKeepsOneActivePerBot(runs: seq<Run>, added: seq<Run>)
    requires OneActivePerBot(runs)
    requires forall j, k :: 0 <= j < k < |added| ==> added[j].bot != added[k].bot
    requires forall j, k :: 0 <= j < |runs| && 0 <= k < |added| && runs[j].bot == added[k].bot ==> !IsActive(runs[j].status)
    ensures OneActivePerBot(runs + added)
  {
  }

  /** A send never gives a bot a second active run. */
  lemma SendKeepsOneActivePerBot(t: Thread, q: Request, order: seq<nat>)
    requires WellPosed(t, q, order) && q.targets != [] && OneActivePerBot(t.runs)
    ensures OneActivePerBot(SentThread(t, q, order).runs)
  {
    var answered := AnsweredRuns(t.runs, order);
    var added := NewRuns(t.runs, order, q.targets, |t.messages|, |t.runs|);
    NewRunsAreForIdleTargets(t.runs, order, q.targets, |t.messages|, |t.runs|);
    AnsweringKeepsOneActivePerBot(t.runs, order);
    forall j, k | 0 <= j < |answered| && 0 <= k < |added| && answered[j].bot == added[k].bot
      ensures !IsActive(answered[j].status)
    {
      assert added[k] in added && answered[j].bot == t.runs[j].bot;
      IdleTargetsHaveNoActiveRun(t.runs, order, q.targets, j);
    }
    AddingKeepsOneActivePerBot(answered, added);
  }

  datatype Send = Send(request: Request, order: seq<nat>)

  /** The thread after some sends, each of which commits or is rolled back. */
  ghost function SentAll(t: Thread, sends: seq<Send>): Thread {
    if sends == [] then t
    else
      var s := SentAll(t, sends[..|sends| - 1]);
      var last := sends[|sends| - 1];
      if WellPosed(s, last.request, last.order) && Rejection(s, last.request, last.order).None?
      then SentThread(s, last.request, last.order) else s
  }

  /** Sends alone never give a bot a second active run. */
  lemma {:induction false} SendsKeepOneActivePerBot(t: Thread, sends: seq<Send>)
    requires OneActivePerBot(t.runs)
    ensures OneActivePerBot(SentAll(t, sends).runs)
  {
    if sends != [] {
      var last := sends[|sends| - 1];
      SendsKeepOneActivePerBot(t, sends[..|sends| - 1]);
      var s := SentAll(t, sends[..|sends| - 1]);
      if WellPosed(s, last.request, last.order) && Rejection(s, last.request, last.order).None? {
        SendKeepsOneActivePerBot(s, last.request, last.order);
      }
    }
  }

  /** What a send to one target comes to. */
  lemma OneTargetPlaced(t: Thread, bot: nat, order: seq<nat>, m: nat)
    ensures var w, a, n := Of(t.runs, order, bot, true), Of(t.runs, order, bot, false), |t.runs|;
      && PlaceAll(t.runs, order, [bot], n) == (if w != [] then w else if a != [] then [a[0]] else [n])
      && NewRuns(t.runs, order, [bot], m, n) == (if w == [] && a == [] then [Run(bot, n, Queued, ByUser, Some(m))] else [])
      && NewSteering(t.runs, order, [bot], m) == (if w == [] && a != [] then [Steering(m, bot, a[0])] else [])
  {
    var n := |t.runs|;
    assert [bot][1..] == [];
    assert PlaceAll(t.runs, order, [], Next(t.runs, order, bot, n)) == [];
    assert NewRuns(t.runs, order, [], m, Next(t.runs, order, bot, n)) == [];
    assert NewSteering(t.runs, order, [], m) == [];
    NewRunsTail(t.runs, order, [bot], m, n);
  }

  // --- superseded runs ---------------------------------------------------------------

  predicate Superseded(runs: seq<Run>, messages: seq<Message>, bots: set<nat>, keep: seq<nat>, r: nat) {
    && r < |runs| && runs[r].bot in bots && runs[r].status.Queued? && r !in keep
    && (match runs[r].trigger
        case ByUser => runs[r].source.Some? && runs[r].source.value < |messages| && messages[runs[r].source.value].fromUser
        case ByReaction => true
        case Elsewise => false)
  }

  function CancelSuperseded(runs: seq<Run>, messages: seq<Message>, bots: set<nat>, keep: seq<nat>): (r: seq<Run>)
    ensures |r| == |runs|
  {
    seq(|runs|, i requires 0 <= i < |runs| =>
      if Superseded(runs, messages, bots, keep, i) then runs[i].(status := Cancelled) else runs[i])
  }

  /** Cancelled are the waiting-to-start runs of the bots that a person's message or a reaction started, but those to keep;
      every other run stays as it is. */
  lemma CancelsOnlyWhatWasAskedFor(runs: seq<Run>, messages: seq<Message>, bots: set<nat>, keep: seq<nat>, r: nat)
    requires r < |runs|
    ensures var run, after := runs[r], CancelSuperseded(runs, messages, bots, keep)[r];
      var byPerson := run.trigger == ByUser && run.source.Some? && run.source.value < |messages| && messages[run.source.value].fromUser;
      after == if run.status == Queued && run.bot in bots && r !in keep && (byPerson || run.trigger == ByReaction)
               then run.(status := Cancelled) else run
  {
  }

  /** A run is only started for a bot without an active one, so there is never anything to cancel. */
  lemma NothingIsSuperseded(t: Thread, q: Request, order: seq<nat>, messages: seq<Message>, bots: set<nat>, keep: seq<nat>)
    requires WellPosed(t, q, order) && q.targets != []
    requires keep == Consecutive(|t.runs|, |SentThread(t, q, order).runs| - |t.runs|)
    requires forall b :: b in bots ==> b in q.targets && NeedsRun(t.runs, order, b)
    ensures CancelSuperseded(SentThread(t, q, order).runs, messages, bots, keep) == SentThread(t, q, order).runs
  {
    var after, n := SentThread(t, q, order).runs, |t.runs|;
    forall r: nat | r < |after| ensures !Superseded(after, messages, bots, keep, r) {
      if r >= n {
        assert keep[r - n] == r;
      } else if after[r].bot in bots {
        IdleTargetsHaveNoActiveRun(t.runs, order, q.targets, r);
      }
    }
  }
}
