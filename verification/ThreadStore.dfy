/** The send transaction step by step, on the thread's tables. */
module ThreadStore {
  import opened Wrappers
  import opened Sequences
  import opened ThreadReceipts
  import opened ThreadSends

  /** The tables hold `u` after a send on `t` that returned `r`; a rejected send changes nothing. */
  ghost predicate Committed(t: Thread, q: Request, order: seq<nat>, u: Thread, r: Result<Receipt, SendError>) {
    match r
    case Err(e) => Rejection(t, q, order) == Some(e) && u == t
    case Ok(receipt) =>
      && Rejection(t, q, order) == None
      && u == SentThread(t, q, order)
      && var placed := PlaceAll(t.runs, order, q.targets, |t.runs|);
      && placed[0] < |u.runs|
      && receipt == MakeReceipt(u.runs, placed, t.nextSeq)
  }

  function WaitingIn(runs: seq<Run>): nat -> bool {
    (r: nat) => r < |runs| && runs[r].status.WaitingInput?
  }

  ghost predicate AllWait(runs: seq<Run>, waiting: seq<nat>) {
    forall j :: 0 <= j < |waiting| ==> waiting[j] < |runs| && runs[waiting[j]].status.WaitingInput?
  }

  /** With one target every listed run is the target's, and each waits or can be steered. */
  lemma OnlyTarget(t: Thread, bot: nat, order: seq<nat>)
    requires Lists(order, t.runs, [bot])
    ensures Of(t.runs, order, bot, true) == Filter<nat>(order, WaitingIn(t.runs))
    ensures Of(t.runs, order, bot, true) == [] ==> Of(t.runs, order, bot, false) == order
    ensures forall r :: r in order ==> t.runs[r].status.WaitingInput? || IsSteerable(t.runs[r].status)
  {
    forall r | r in order ensures r < |t.runs| && t.runs[r].bot == bot && IsActive(t.runs[r].status) {
      assert t.runs[r].bot in [bot];
    }
    FilterAgrees<nat>(order, Matching(t.runs, bot, true), WaitingIn(t.runs));
    if Of(t.runs, order, bot, true) == [] {
      forall r | r in order ensures Matches(t.runs, r, bot, false) {
        assert r !in Of(t.runs, order, bot, true);
      }
      FilterAll<nat>(order, Matching(t.runs, bot, false));
    }
  }

  /** Answering changes nothing when no listed run waits. */
  lemma NoneToAnswer(runs: seq<Run>, order: seq<nat>)
    requires Filter<nat>(order, WaitingIn(runs)) == []
    ensures AnsweredRuns(runs, order) == runs
  {
    forall i | 0 <= i < |runs| && i in order ensures !runs[i].status.WaitingInput? {
      assert i !in Filter<nat>(order, WaitingIn(runs));
    }
  }

  lemma WaitingAreListed(t: Thread, q: Request, order: seq<nat>)
    requires Known(order, t.runs)
    ensures var w := Filter<nat>(order, WaitingIn(t.runs));
      && AllWait(t.runs, w)
      && (Refuses(t.runs, order, q) <==> exists j :: 0 <= j < |w| && !Answers(q, w[j]))
  {
    var w := Filter<nat>(order, WaitingIn(t.runs));
    forall j | 0 <= j < |w| ensures w[j] in order && w[j] < |t.runs| && t.runs[w[j]].status.WaitingInput? {
      assert w[j] in w;
      assert WaitingIn(t.runs)(w[j]);
    }
    if Refuses(t.runs, order, q) {
      var r: nat :| r in order && r < |t.runs| && t.runs[r].status.WaitingInput? && !Answers(q, r);
      assert r in w;
    }
  }

  /** What a committed send to one bot answers and leaves behind, by the bot's runs. */
  lemma BotAnswers(t: Thread, q: Request, order: seq<nat>, bot: nat, waiting: seq<nat>)
    requires !q.group && q.targets == [bot] && Lists(order, t.runs, q.targets)
    requires waiting == Filter<nat>(order, WaitingIn(t.runs)) && waiting != []
    ensures PlaceAll(t.runs, order, q.targets, |t.runs|) == waiting
    ensures SentThread(t, q, order) ==
      Thread(t.messages + [Message(q.nonce, t.nextSeq, true, Some(waiting[0]))], AnsweredRuns(t.runs, waiting),
             t.events + [Event(|t.messages|, waiting)], t.steering, t.nextSeq + 1)
  {
    OnlyTarget(t, bot, order);
    OneTargetPlaced(t, bot, order, |t.messages|);
    AnswerOnlyWaiting(t.runs, order);
  }

  lemma BotSteers(t: Thread, q: Request, order: seq<nat>, bot: nat)
    requires !q.group && q.targets == [bot] && Lists(order, t.runs, q.targets)
    requires Filter<nat>(order, WaitingIn(t.runs)) == [] && order != []
    ensures PlaceAll(t.runs, order, q.targets, |t.runs|) == [order[0]]
    ensures SentThread(t, q, order) ==
      Thread(t.messages + [Message(q.nonce, t.nextSeq, true, Some(order[0]))], t.runs,
             t.events + [Event(|t.messages|, [])], t.steering + [Steering(|t.messages|, bot, order[0])], t.nextSeq + 1)
  {
    OnlyTarget(t, bot, order);
    OneTargetPlaced(t, bot, order, |t.messages|);
    NoneToAnswer(t.runs, order);
  }

  lemma BotStarts(t: Thread, q: Request, order: seq<nat>, bot: nat, ms: seq<Message>)
    requires !q.group && q.targets == [bot] && order == [] && Lists(order, t.runs, q.targets)
    ensures PlaceAll(t.runs, order, q.targets, |t.runs|) == [|t.runs|]
    ensures var rs := t.runs + [Run(bot, |t.runs|, Queued, ByUser, Some(|t.messages|))];
      && SentThread(t, q, order) ==
           Thread(t.messages + [Message(q.nonce, t.nextSeq, true, Some(|t.runs|))], rs,
                  t.events + [Event(|t.messages|, [|t.runs|])], t.steering, t.nextSeq + 1)
      && CancelSuperseded(rs, ms, {bot}, [|t.runs|]) == rs
  {
    OneTargetPlaced(t, bot, order, |t.messages|);
    NoneToAnswer(t.runs, order);
    NothingIsSuperseded(t, q, order, ms, {bot}, [|t.runs|]);
  }

  /** Per bot, the runs answered and the first active one, of the runs listed so far. */
  ghost predicate IsTriage(runs: seq<Run>, order: seq<nat>, active: map<nat, nat>, answered: map<nat, seq<nat>>) {
    forall b: nat :: TriagedBot(runs, order, active, answered, b)
  }

  ghost predicate TriagedBot(runs: seq<Run>, order: seq<nat>, active: map<nat, nat>, answered: map<nat, seq<nat>>, b: nat) {
    && (b in answered <==> Of(runs, order, b, true) != [])
    && (b in answered ==> answered[b] == Of(runs, order, b, true))
    && (b in active <==> Of(runs, order, b, false) != [])
    && (b in active ==> active[b] == Of(runs, order, b, false)[0])
  }

  function AddActive(runs: seq<Run>, r: nat, active: map<nat, nat>): map<nat, nat>
    requires r < |runs|
  {
    if runs[r].status.WaitingInput? || runs[r].bot in active then active else active[runs[r].bot := r]
  }

  function AddAnswered(runs: seq<Run>, r: nat, answered: map<nat, seq<nat>>): map<nat, seq<nat>>
    requires r < |runs|
  {
    var bot := runs[r].bot;
    if runs[r].status.WaitingInput? then answered[bot := (if bot in answered then answered[bot] else []) + [r]] else answered
  }

  lemma TriageOneMore(runs: seq<Run>, order: seq<nat>, r: nat, active: map<nat, nat>, answered: map<nat, seq<nat>>)
    requires IsTriage(runs, order, active, answered) && r < |runs|
    ensures IsTriage(runs, order + [r], AddActive(runs, r, active), AddAnswered(runs, r, answered))
  {
    var a, w := AddActive(runs, r, active), AddAnswered(runs, r, answered);
    forall b: nat ensures TriagedBot(runs, order + [r], a, w, b) {
      assert TriagedBot(runs, order, active, answered, b);
      OfSnoc(runs, order, r, b, true);
      OfSnoc(runs, order, r, b, false);
    }
  }

  function StartedBy(runs: seq<Run>, order: seq<nat>, bot: nat, m: nat, next: nat): seq<Run> {
    if NeedsRun(runs, order, bot) then [Run(bot, next, Queued, ByUser, Some(m))] else []
  }

  function SteeredBy(runs: seq<Run>, order: seq<nat>, bot: nat, m: nat): seq<Steering> {
    if Of(runs, order, bot, true) == [] && Of(runs, order, bot, false) != [] then [Steering(m, bot, Of(runs, order, bot, false)[0])] else []
  }

  /** The two maps decide what a target gets. */
  lemma ServedByMaps(runs: seq<Run>, order: seq<nat>, active: map<nat, nat>, answered: map<nat, seq<nat>>, bot: nat, m: nat, next: nat)
    requires IsTriage(runs, order, active, answered)
    ensures PlaceOne(runs, order, bot, next) == if bot in answered then answered[bot] else if bot in active then [active[bot]] else [next]
    ensures StartedBy(runs, order, bot, m, next) ==
      if bot in answered || bot in active then [] else [Run(bot, next, Queued, ByUser, Some(m))]
    ensures SteeredBy(runs, order, bot, m) ==
      if bot !in answered && bot in active then [Steering(m, bot, active[bot])] else []
  {
    assert TriagedBot(runs, order, active, answered, bot);
  }

  datatype Served = Served(placed: seq<nat>, runs: seq<Run>, steering: seq<Steering>)

  /** What serving the first `count` targets in turn comes to. */
  ghost function ServedFirst(before: seq<Run>, order: seq<nat>, targets: seq<nat>, m: nat, base: seq<Run>, count: nat): Served
    requires count <= |targets|
  {
    if count == 0 then Served([], base, [])
    else
      var s, bot := ServedFirst(before, order, targets, m, base, count - 1), targets[count - 1];
      Served(s.placed + PlaceOne(before, order, bot, |s.runs|), s.runs + StartedBy(before, order, bot, m, |s.runs|),
             s.steering + SteeredBy(before, order, bot, m))
  }

  lemma Associates<T>(a: seq<T>, b: seq<T>, c: seq<T>)
    ensures a + b + c == a + (b + c)
  {
  }

  lemma SplitFirst(before: seq<Run>, order: seq<nat>, bot: nat, rest: seq<nat>, m: nat, next: nat)
    ensures var n := Next(before, order, bot, next);
      && PlaceAll(before, order, [bot] + rest, next) == PlaceOne(before, order, bot, next) + PlaceAll(before, order, rest, n)
      && NewRuns(before, order, [bot] + rest, m, next) == StartedBy(before, order, bot, m, next) + NewRuns(before, order, rest, m, n)
      && NewSteering(before, order, [bot] + rest, m) == SteeredBy(before, order, bot, m) + NewSteering(before, order, rest, m)
  {
    var all := [bot] + rest;
    assert all[0] == bot && all[1..] == rest;
    NewRunsTail(before, order, all, m, next);
  }

  /** What was done for the first targets, completed by what is left, is the whole send. */
  ghost predicate Completes(s: Served, before: seq<Run>, order: seq<nat>, rest: seq<nat>, m: nat, whole: Served) {
    && s.placed + PlaceAll(before, order, rest, |s.runs|) == whole.placed
    && s.runs + NewRuns(before, order, rest, m, |s.runs|) == whole.runs
    && s.steering + NewSteering(before, order, rest, m) == whole.steering
  }

  lemma CompletesOneMore(s: Served, u: Served, before: seq<Run>, order: seq<nat>, bot: nat, rest: seq<nat>, m: nat, whole: Served)
    requires Completes(s, before, order, [bot] + rest, m, whole)
    requires u.placed == s.placed + PlaceOne(before, order, bot, |s.runs|)
    requires u.runs == s.runs + StartedBy(before, order, bot, m, |s.runs|)
    requires u.steering == s.steering + SteeredBy(before, order, bot, m)
    ensures Completes(u, before, order, rest, m, whole)
  {
    var next, n := |s.runs|, Next(before, order, bot, |s.runs|);
    assert |u.runs| == n;
    SplitFirst(before, order, bot, rest, m, next);
    Associates(s.placed, PlaceOne(before, order, bot, next), PlaceAll(before, order, rest, n));
    Associates(s.runs, StartedBy(before, order, bot, m, next), NewRuns(before, order, rest, m, n));
    Associates(s.steering, SteeredBy(before, order, bot, m), NewSteering(before, order, rest, m));
  }

  lemma NothingServed(before: seq<Run>, order: seq<nat>, targets: seq<nat>, m: nat, base: seq<Run>)
    ensures Completes(Served([], base, []), before, order, targets, m,
                      Served(PlaceAll(before, order, targets, |base|), base + NewRuns(before, order, targets, m, |base|),
                             NewSteering(before, order, targets, m)))
  {
    hide PlaceAll, NewRuns, NewSteering;
  }

  lemma ServedNext(before: seq<Run>, order: seq<nat>, targets: seq<nat>, m: nat, base: seq<Run>, count: nat)
    requires 0 < count <= |targets|
    ensures targets[count - 1..] == [targets[count - 1]] + targets[count..]
    ensures var s, u, bot := ServedFirst(before, order, targets, m, base, count - 1), ServedFirst(before, order, targets, m, base, count), targets[count - 1];
      && u.placed == s.placed + PlaceOne(before, order, bot, |s.runs|)
      && u.runs == s.runs + StartedBy(before, order, bot, m, |s.runs|)
      && u.steering == s.steering + SteeredBy(before, order, bot, m)
  {
    hide PlaceOne, StartedBy, SteeredBy;
  }

  lemma {:induction false} ServedFirstCompletes(before: seq<Run>, order: seq<nat>, targets: seq<nat>, m: nat, base: seq<Run>, count: nat)
    requires count <= |targets|
    ensures Completes(ServedFirst(before, order, targets, m, base, count), before, order, targets[count..], m,
                      Served(PlaceAll(before, order, targets, |base|), base + NewRuns(before, order, targets, m, |base|),
                             NewSteering(before, order, targets, m)))
  {
    var whole := Served(PlaceAll(before, order, targets, |base|), base + NewRuns(before, order, targets, m, |base|),
                        NewSteering(before, order, targets, m));
    hide Completes, PlaceAll, NewRuns, NewSteering, PlaceOne, StartedBy, SteeredBy;
    if count == 0 {
      assert targets[0..] == targets;
      NothingServed(before, order, targets, m, base);
    } else {
      var bot := targets[count - 1];
      ServedFirstCompletes(before, order, targets, m, base, count - 1);
      ServedNext(before, order, targets, m, base, count);
      hide ServedFirst;
      CompletesOneMore(ServedFirst(before, order, targets, m, base, count - 1),
                       ServedFirst(before, order, targets, m, base, count), before, order, bot, targets[count..], m, whole);
    }
  }

  lemma AllServed(before: seq<Run>, order: seq<nat>, targets: seq<nat>, m: nat, base: seq<Run>)
    ensures ServedFirst(before, order, targets, m, base, |targets|) ==
      Served(PlaceAll(before, order, targets, |base|), base + NewRuns(before, order, targets, m, |base|),
             NewSteering(before, order, targets, m))
  {
    var s := ServedFirst(before, order, targets, m, base, |targets|);
    ServedFirstCompletes(before, order, targets, m, base, |targets|);
    assert targets[|targets|..] == [];
    assert s.placed + [] == s.placed && s.runs + [] == s.runs && s.steering + [] == s.steering;
  }

  function Untouched(runs: seq<Run>, active: map<nat, nat>, answered: map<nat, seq<nat>>): nat -> bool {
    (r: nat) => r < |runs| && runs[r].bot !in active && runs[r].bot !in answered
  }

  function BotsOf(runs: seq<Run>, ids: seq<nat>): set<nat> {
    set r | r in ids && r < |runs| :: runs[r].bot
  }

  lemma GroupPlaced(t: Thread, q: Request, order: seq<nat>)
    requires Known(order, t.runs) && q.targets != []
    ensures PlaceAll(t.runs, order, q.targets, |t.runs|)[0] < |SentThread(t, q, order).runs|
  {
    var after, placed := SentThread(t, q, order).runs, PlaceAll(t.runs, order, q.targets, |t.runs|);
    SentRunsFollow(t, q, order);
    PlacedExist(t.runs, order, q.targets, |t.messages|, |t.runs|, after);
    assert placed[0] in placed;
  }

  /** The runs left untouched by the maps are the created ones, and their bots have nothing to cancel. */
  lemma NoneCancelled(t: Thread, q: Request, order: seq<nat>, ms: seq<Message>, active: map<nat, nat>, answered: map<nat, seq<nat>>)
    requires WellPosed(t, q, order) && q.targets != [] && IsTriage(t.runs, order, active, answered)
    ensures var after, placed := SentThread(t, q, order).runs, PlaceAll(t.runs, order, q.targets, |t.runs|);
      var created := Filter<nat>(placed, Untouched(after, active, answered));
      && created == Created(t.runs, order, after, placed)
      && CancelSuperseded(after, ms, BotsOf(after, created), created) == after
  {
    var after, placed := SentThread(t, q, order).runs, PlaceAll(t.runs, order, q.targets, |t.runs|);
    forall r: nat | r < |after| ensures Untouched(after, active, answered)(r) == StartedFor(t.runs, order, after)(r) {
      assert TriagedBot(t.runs, order, active, answered, after[r].bot);
    }
    FilterAgrees<nat>(placed, Untouched(after, active, answered), StartedFor(t.runs, order, after));
    var created := Created(t.runs, order, after, placed);
    SentRunsFollow(t, q, order);
    CreatedAreTheNewRuns(t.runs, order, q.targets, |t.messages|, |t.runs|, after);
    PlacedExist(t.runs, order, q.targets, |t.messages|, |t.runs|, after);
    forall b | b in BotsOf(after, created) ensures b in q.targets && NeedsRun(t.runs, order, b) {
    }
    NothingIsSuperseded(t, q, order, ms, BotsOf(after, created), created);
  }

  lemma KnownAt(order: seq<nat>, runs: seq<Run>)
    requires Known(order, runs)
    ensures forall j :: 0 <= j < |order| ==> order[j] < |runs|
  {
    forall j | 0 <= j < |order| ensures order[j] < |runs| {
      assert order[j] in order;
    }
  }

  class ThreadStore {
    var messages: seq<Message>
    var runs: seq<Run>
    var events: seq<Event>
    var steering: seq<Steering>
    var nextSeq: nat

    constructor (t: Thread)
      ensures Contents() == t
    {
      messages, runs, events, steering, nextSeq := t.messages, t.runs, t.events, t.steering, t.nextSeq;
    }

    function Contents(): Thread
      reads this
    {
      Thread(messages, runs, events, steering, nextSeq)
    }

    /** A send to a bot thread, whose one target is the thread's bot. */
    method SendToBot(q: Request, order: seq<nat>) returns (r: Result<Receipt, SendError>)
      requires !q.group && |q.targets| == 1 && Lists(order, runs, q.targets)
      modifies this
      ensures Committed(old(Contents()), q, order, Contents(), r)
      ensures r.Ok? <==> Accepts(old(Contents()), q)
      ensures r.Ok? ==> Acknowledges(Contents(), |old(messages)|, r.value) && Leaves(old(Contents()), q, order, Contents(), r.value.runIds)
    {
      hide Accepts, Acknowledges, Leaves, AnsweredRuns, SentThread, PlaceAll, CancelSuperseded, Of;
      ghost var t := Contents();
      var bot, m := q.targets[0], |messages|;
      assert q.targets == [bot];
      CommitsExactlyWhenAccepted(t, q, order);
      if !q.valid { return Err(Isolation); }
      if HasNonce(Contents(), q.nonce) { return Err(DuplicateNonce); }
      OnlyTarget(t, bot, order);
      var waiting := Filter<nat>(order, WaitingIn(runs));
      WaitingAreListed(t, q, order);
      if waiting != [] {
        var ok, rs := AnswerAll(q, runs, waiting);
        if !ok { return Err(Conflict); }
        Save(q, waiting, waiting, rs, steering);
        r := Ok(MakeReceipt(runs, waiting, nextSeq - 1));
        BotAnswers(t, q, order, bot, waiting);
      } else if order != [] {
        var active := order[0];
        assert active in order;
        Save(q, [active], [], runs, steering + [Steering(m, bot, active)]);
        r := Ok(MakeReceipt(runs, [active], nextSeq - 1));
        BotSteers(t, q, order, bot);
      } else {
        var run := |runs|;
        var rs := runs + [Run(bot, run, Queued, ByUser, Some(m))];
        var ms := messages + [Message(q.nonce, nextSeq, true, Some(run))];
        BotStarts(t, q, order, bot, ms);
        rs := CancelSuperseded(rs, ms, {bot}, [run]);
        Save(q, [run], [run], rs, steering);
        r := Ok(MakeReceipt(runs, [run], nextSeq - 1));
      }
      SendAcknowledges(t, q, order, r.value);
    }

    /** Answers the waiting runs one after the other; the first that takes no text ends the send. */
    static method AnswerAll(q: Request, before: seq<Run>, waiting: seq<nat>) returns (ok: bool, rs: seq<Run>)
      requires AllWait(before, waiting)
      ensures ok <==> forall j :: 0 <= j < |waiting| ==> Answers(q, waiting[j])
      ensures ok ==> rs == AnsweredRuns(before, waiting)
    {
      rs := before;
      for i := 0 to |waiting|
        invariant rs == AnsweredFirst(before, waiting, i)
        invariant forall j :: 0 <= j < i ==> Answers(q, waiting[j])
      {
        if !Answers(q, waiting[i]) {
          return false, rs;
        }
        rs := rs[waiting[i] := rs[waiting[i]].(status := Queued)];
      }
      AnsweredInOrder(before, waiting);
      ok := true;
    }

    /** A send to a group thread, whose targets are the mentioned members. */
    method SendToGroup(q: Request, order: seq<nat>) returns (r: Result<Receipt, SendError>)
      requires q.group && WellPosed(Contents(), q, order)
      modifies this
      ensures Committed(old(Contents()), q, order, Contents(), r)
      ensures r.Ok? <==> Accepts(old(Contents()), q)
      ensures r.Ok? ==> Acknowledges(Contents(), |old(messages)|, r.value) && Leaves(old(Contents()), q, order, Contents(), r.value.runIds)
    {
      ghost var t := Contents();
      CommitsExactlyWhenAccepted(t, q, order);
      if !q.valid { return Err(Isolation); }
      if HasNonce(Contents(), q.nonce) { return Err(DuplicateNonce); }
      var ok, rs, active, answered := Triage(q, runs, order);
      if !ok { return Err(Conflict); }
      var placed, ss;
      placed, rs, ss := Place(runs, order, q.targets, |messages|, rs, active, answered);
      if placed == [] { return Err(Isolation); }
      GroupPlaced(t, q, order);
      var created := Filter<nat>(placed, Untouched(rs, active, answered));
      if created != [] {
        var ms := messages + [Message(q.nonce, nextSeq, true, Some(placed[0]))];
        NoneCancelled(t, q, order, ms, active, answered);
        rs := CancelSuperseded(rs, ms, BotsOf(rs, created), created);
      }
      Save(q, placed, placed, rs, steering + ss);
      r := Ok(MakeReceipt(runs, placed, nextSeq - 1));
      SendAcknowledges(t, q, order, r.value);
    }

    /** Answers every waiting run and sorts the others by bot. */
    static method Triage(q: Request, before: seq<Run>, order: seq<nat>)
      returns (ok: bool, rs: seq<Run>, active: map<nat, nat>, answered: map<nat, seq<nat>>)
      requires Known(order, before)
      ensures ok == !Refuses(before, order, q)
      ensures ok ==> rs == AnsweredRuns(before, order) && IsTriage(before, order, active, answered)
    {
      KnownAt(order, before);
      rs, active, answered := before, map[], map[];
      for i := 0 to |order|
        invariant rs == AnsweredFirst(before, order, i)
        invariant IsTriage(before, order[..i], active, answered)
        invariant forall j :: 0 <= j < i && before[order[j]].status.WaitingInput? ==> Answers(q, order[j])
      {
        var r := order[i];
        var bot := before[r].bot;
        assert order[..i + 1] == order[..i] + [r];
        TriageOneMore(before, order[..i], r, active, answered);
        if before[r].status.WaitingInput? {
          if !Answers(q, r) {
            return false, rs, active, answered;
          }
          rs := rs[r := rs[r].(status := Queued)];
          answered := answered[bot := (if bot in answered then answered[bot] else []) + [r]];
        } else if bot !in active {
          active := active[bot := r];
        }
      }
      AnsweredInOrder(before, order);
      assert order[..|order|] == order;
      ok := true;
    }

    /** Serves the targets in turn. */
    static method Place(before: seq<Run>, order: seq<nat>, targets: seq<nat>, m: nat,
                        answeredRuns: seq<Run>, active: map<nat, nat>, answered: map<nat, seq<nat>>)
      returns (placed: seq<nat>, rs: seq<Run>, ss: seq<Steering>)
      requires IsTriage(before, order, active, answered)
      ensures placed == PlaceAll(before, order, targets, |answeredRuns|)
      ensures rs == answeredRuns + NewRuns(before, order, targets, m, |answeredRuns|)
      ensures ss == NewSteering(before, order, targets, m)
    {
      hide IsTriage, PlaceOne, PlaceAll, StartedBy, NewRuns, SteeredBy, NewSteering;
      placed, rs, ss := [], answeredRuns, [];
      for i := 0 to |targets|
        invariant Served(placed, rs, ss) == ServedFirst(before, order, targets, m, answeredRuns, i)
      {
        var bot := targets[i];
        ServedByMaps(before, order, active, answered, bot, m, |rs|);
        if bot in answered {
          placed := placed + answered[bot];
        } else if bot in active {
          ss := ss + [Steering(m, bot, active[bot])];
          placed := placed + [active[bot]];
        } else {
          placed := placed + [|rs|];
          rs := rs + [Run(bot, |rs|, Queued, ByUser, Some(m))];
        }
      }
      AllServed(before, order, targets, m, answeredRuns);
    }

    method Save(q: Request, placed: seq<nat>, named: seq<nat>, rs: seq<Run>, ss: seq<Steering>)
      requires placed != []
      modifies this
      ensures var t := old(Contents());
        Contents() == Thread(t.messages + [Message(q.nonce, t.nextSeq, true, Some(placed[0]))], rs,
                             t.events + [Event(|t.messages|, named)], ss, t.nextSeq + 1)
    {
      events := events + [Event(|messages|, named)];
      messages := messages + [Message(q.nonce, nextSeq, true, Some(placed[0]))];
      runs, steering, nextSeq := rs, ss, nextSeq + 1;
    }
  }

  /** The runs after the first `count` listed ones were answered, as far as they wait. */
  ghost function AnsweredFirst(runs: seq<Run>, order: seq<nat>, count: nat): (u: seq<Run>)
    requires count <= |order| && Known(order, runs)
    ensures |u| == |runs|
  {
    if count == 0 then runs
    else
      var u, r := AnsweredFirst(runs, order, count - 1), order[count - 1];
      assert r in order;
      if runs[r].status.WaitingInput? then u[r := u[r].(status := Queued)] else u
  }

  lemma {:induction false} AnsweredFirstAt(runs: seq<Run>, order: seq<nat>, count: nat, r: nat)
    requires count <= |order| && r < |runs| && Known(order, runs)
    ensures AnsweredFirst(runs, order, count)[r] ==
      if r in order[..count] && runs[r].status.WaitingInput? then runs[r].(status := Queued) else runs[r]
  {
    if count > 0 {
      AnsweredFirstAt(runs, order, count - 1, r);
      assert order[..count] == order[..count - 1] + [order[count - 1]];
    }
  }

  /** Answering one run after the other answers each waiting one once. */
  lemma AnsweredInOrder(runs: seq<Run>, order: seq<nat>)
    requires Known(order, runs)
    ensures AnsweredFirst(runs, order, |order|) == AnsweredRuns(runs, order)
  {
    assert order[..|order|] == order;
    forall r: nat | r < |runs| ensures AnsweredFirst(runs, order, |order|)[r] == AnsweredRuns(runs, order)[r] {
      AnsweredFirstAt(runs, order, |order|, r);
    }
  }

  lemma AnswerOnlyWaiting(runs: seq<Run>, order: seq<nat>)
    ensures AnsweredRuns(runs, Filter<nat>(order, WaitingIn(runs))) == AnsweredRuns(runs, order)
  {
  }
}
