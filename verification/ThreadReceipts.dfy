/** What a send leaves in the tables and what its receipt says, in terms of the rows alone. */
module ThreadReceipts {
  import opened Wrappers
  import opened Sequences
  import opened ThreadSends

  /** The receipt names rows: the first run and its task, the message's number, and only runs that exist. */
  predicate Acknowledges(t: Thread, m: nat, x: Receipt) {
    && m < |t.messages| && x.seqNo == t.messages[m].seqNo
    && x.runIds != [] && x.runId == x.runIds[0]
    && (forall r :: r in x.runIds ==> r < |t.runs|)
    && x.runId < |t.runs| && x.taskId == t.runs[x.runId].task
  }

  predicate WaitsFor(t: Thread, bot: nat, r: nat) {
    r < |t.runs| && t.runs[r].bot == bot && t.runs[r].status.WaitingInput?
  }

  predicate IsBusy(t: Thread, bot: nat, r: nat) {
    && r < |t.runs| && t.runs[r].bot == bot
    && (t.runs[r].status.Queued? || t.runs[r].status.Leased? || t.runs[r].status.InProgress? || t.runs[r].status.WaitingTakeover?)
  }

  /** No run of the bot waits for an answer, and `r` is the first listed of those under way. */
  ghost predicate SteersInto(t: Thread, order: seq<nat>, bot: nat, r: nat) {
    && (forall x :: !WaitsFor(t, bot, x))
    && exists k :: 0 <= k < |order| && order[k] == r && IsBusy(t, bot, r) && forall j :: 0 <= j < k ==> !IsBusy(t, bot, order[j])
  }

  /** Old runs are as they were, but those of the targets that waited for an answer are queued again. */
  ghost predicate OldRunsAnswered(t: Thread, targets: seq<nat>, u: Thread) {
    && |t.runs| <= |u.runs|
    && forall r: nat :: r < |t.runs| ==>
      u.runs[r] == if t.runs[r].bot in targets && t.runs[r].status.WaitingInput? then t.runs[r].(status := Queued) else t.runs[r]
  }

  /** The steering rows of the send: one for each target that is steered, and no other. */
  ghost predicate SteeringOf(t: Thread, order: seq<nat>, targets: seq<nat>, added: seq<Steering>) {
    && (forall s :: s in added <==> s.message == |t.messages| && s.bot in targets && SteersInto(t, order, s.bot, s.run))
    && (forall j, k :: 0 <= j < k < |added| ==> added[j].bot != added[k].bot)
  }

  /** Every target gets its outcome. */
  ghost predicate EachHasOutcome(t: Thread, q: Request, order: seq<nat>, u: Thread, ids: seq<nat>) {
    forall b: nat :: if b in q.targets then Outcome(t.runs, order, u.runs, |t.runs|, |t.messages|, b, OwnedBy(ids, u.runs, b))
                     else OwnedBy(ids, u.runs, b) == []
  }

  /** One message, one event that names the runs unless a bot thread was steered, the answered runs, the steering, and
      for every target its outcome. */
  ghost predicate Leaves(t: Thread, q: Request, order: seq<nat>, u: Thread, ids: seq<nat>) {
    && ids != []
    && u.messages == t.messages + [Message(q.nonce, t.nextSeq, true, Some(ids[0]))] && u.nextSeq == t.nextSeq + 1
    && OldRunsAnswered(t, q.targets, u)
    && EachHasOutcome(t, q, order, u, ids)
    && t.steering <= u.steering && SteeringOf(t, order, q.targets, u.steering[|t.steering|..])
    && u.events == t.events + [Event(|t.messages|, if !q.group && t.steering < u.steering then [] else ids)]
  }

  /** When the transaction commits: the request resolves, the nonce is new, and all runs of the targets that wait take the text. */
  ghost predicate Accepts(t: Thread, q: Request) {
    && q.valid && q.targets != []
    && (q.nonce.Some? ==> forall m :: 0 <= m < |t.messages| ==> t.messages[m].nonce != q.nonce)
    && (forall r: nat :: r < |t.runs| && t.runs[r].bot in q.targets && t.runs[r].status.WaitingInput? ==> q.hasText && r in q.answerable)
  }

  lemma CommitsExactlyWhenAccepted(t: Thread, q: Request, order: seq<nat>)
    requires WellPosed(t, q, order)
    ensures Rejection(t, q, order).None? <==> Accepts(t, q)
    ensures Rejection(t, q, order) == Some(DuplicateNonce) <==>
      q.valid && q.nonce.Some? && exists m :: 0 <= m < |t.messages| && t.messages[m].nonce == q.nonce
    ensures Rejection(t, q, order) == Some(Isolation) ==> !q.valid || q.targets == []
  {
    forall r: nat | r < |t.runs| && t.runs[r].bot in q.targets && t.runs[r].status.WaitingInput? ensures r in order {
      assert IsActive(t.runs[r].status);
    }
  }

  // --- steering ----------------------------------------------------------------------

  lemma {:induction false} FirstOfFilter(s: seq<nat>, p: nat -> bool, r: nat)
    ensures (exists k :: 0 <= k < |s| && s[k] == r && p(r) && forall j :: 0 <= j < k ==> !p(s[j]))
            <==> Filter(s, p) != [] && Filter(s, p)[0] == r
  {
    if s != [] {
      FirstOfFilter(s[1..], p, r);
      if p(s[0]) {
      } else {
        if k :| 0 <= k < |s| && s[k] == r && p(r) && forall j :: 0 <= j < k ==> !p(s[j]) {
          assert s[1..][k - 1] == r;
          forall j | 0 <= j < k - 1 ensures !p(s[1..][j]) { assert s[1..][j] == s[j + 1]; }
        }
        if k :| 0 <= k < |s[1..]| && s[1..][k] == r && p(r) && forall j :: 0 <= j < k ==> !p(s[1..][j]) {
          assert s[k + 1] == r;
          forall j | 0 <= j < k + 1 ensures !p(s[j]) { if j > 0 { assert s[1..][j - 1] == s[j]; } }
        }
      }
    }
  }

  /** What the maps of a send call steered is steered in terms of the rows. */
  lemma SteeredInto(t: Thread, q: Request, order: seq<nat>, bot: nat, r: nat)
    requires WellPosed(t, q, order) && bot in q.targets
    ensures SteersInto(t, order, bot, r) <==>
      Of(t.runs, order, bot, true) == [] && Of(t.runs, order, bot, false) != [] && Of(t.runs, order, bot, false)[0] == r
  {
    var w := Of(t.runs, order, bot, true);
    if w == [] {
      forall x: nat ensures !WaitsFor(t, bot, x) {
        assert x !in w && (WaitsFor(t, bot, x) ==> IsActive(t.runs[x].status));
      }
    } else {
      assert w[0] in w;
      assert WaitsFor(t, bot, w[0]);
    }
    forall x: nat | x in order ensures Matching(t.runs, bot, false)(x) == IsBusy(t, bot, x) {
      assert IsActive(t.runs[x].status);
    }
    FirstOfFilter(order, Matching(t.runs, bot, false), r);
    if k :| 0 <= k < |order| && order[k] == r && IsBusy(t, bot, r) && forall j :: 0 <= j < k ==> !IsBusy(t, bot, order[j]) {
      assert Matching(t.runs, bot, false)(order[k]) && forall j :: 0 <= j < k ==> !Matching(t.runs, bot, false)(order[j]);
    }
    if k :| 0 <= k < |order| && order[k] == r && Matching(t.runs, bot, false)(r) && forall j :: 0 <= j < k ==> !Matching(t.runs, bot, false)(order[j]) {
      assert IsBusy(t, bot, order[k]) && forall j :: 0 <= j < k ==> !IsBusy(t, bot, order[j]);
    }
  }

  lemma {:induction false} NewSteeringIs(runs: seq<Run>, order: seq<nat>, targets: seq<nat>, m: nat)
    requires Distinct(targets)
    ensures var added := NewSteering(runs, order, targets, m);
      && (forall s :: s in added <==>
            s.message == m && s.bot in targets && Of(runs, order, s.bot, true) == [] && Of(runs, order, s.bot, false) != []
            && s.run == Of(runs, order, s.bot, false)[0])
      && (forall j, k :: 0 <= j < k < |added| ==> added[j].bot != added[k].bot)
  {
    if targets != [] {
      NewSteeringIs(runs, order, targets[1..], m);
      assert targets[0] !in targets[1..];
    }
  }

  lemma SendSteers(t: Thread, q: Request, order: seq<nat>)
    requires WellPosed(t, q, order)
    ensures SteeringOf(t, order, q.targets, NewSteering(t.runs, order, q.targets, |t.messages|))
  {
    NewSteeringIs(t.runs, order, q.targets, |t.messages|);
    forall s: Steering | s.bot in q.targets
      ensures SteersInto(t, order, s.bot, s.run) <==>
        Of(t.runs, order, s.bot, true) == [] && Of(t.runs, order, s.bot, false) != [] && s.run == Of(t.runs, order, s.bot, false)[0]
    {
      SteeredInto(t, q, order, s.bot, s.run);
    }
  }

  // --- the whole send ----------------------------------------------------------------

  lemma SendAnswersOldRuns(t: Thread, q: Request, order: seq<nat>)
    requires WellPosed(t, q, order) && q.targets != []
    ensures OldRunsAnswered(t, q.targets, SentThread(t, q, order))
  {
    forall r: nat | r < |t.runs| && t.runs[r].status.WaitingInput? ensures t.runs[r].bot in q.targets <==> r in order {
      assert IsActive(t.runs[r].status);
    }
  }

  lemma SendServesEach(t: Thread, q: Request, order: seq<nat>)
    requires WellPosed(t, q, order) && q.targets != []
    ensures EachHasOutcome(t, q, order, SentThread(t, q, order), PlaceAll(t.runs, order, q.targets, |t.runs|))
  {
    hide Outcome, OwnedBy, PlaceAll, SentThread, WellPosed;
    forall b: nat
      ensures var u, ids := SentThread(t, q, order), PlaceAll(t.runs, order, q.targets, |t.runs|);
        if b in q.targets then Outcome(t.runs, order, u.runs, |t.runs|, |t.messages|, b, OwnedBy(ids, u.runs, b))
        else OwnedBy(ids, u.runs, b) == []
    {
      EachTargetIsServedOnce(t, q, order, b);
    }
  }

  lemma SendAppends(t: Thread, q: Request, order: seq<nat>)
    requires q.targets != []
    ensures var u, ids := SentThread(t, q, order), PlaceAll(t.runs, order, q.targets, |t.runs|);
      && u.messages == t.messages + [Message(q.nonce, t.nextSeq, true, Some(ids[0]))] && u.nextSeq == t.nextSeq + 1
      && t.steering <= u.steering && u.steering[|t.steering|..] == NewSteering(t.runs, order, q.targets, |t.messages|)
      && u.events == t.events + [Event(|t.messages|, if !q.group && t.steering < u.steering then [] else ids)]
  {
    hide PlaceAll, NewSteering, NewRuns, AnsweredRuns;
  }

  /** Every send leaves exactly these rows. */
  lemma SendServes(t: Thread, q: Request, order: seq<nat>)
    requires WellPosed(t, q, order) && q.targets != []
    ensures Leaves(t, q, order, SentThread(t, q, order), PlaceAll(t.runs, order, q.targets, |t.runs|))
  {
    SendAnswersOldRuns(t, q, order);
    SendSteers(t, q, order);
    SendAppends(t, q, order);
    SendServesEach(t, q, order);
    hide EachHasOutcome, SteeringOf, OldRunsAnswered, PlaceAll, SentThread, WellPosed, NewSteering;
  }

  lemma SendAcknowledges(t: Thread, q: Request, order: seq<nat>, x: Receipt)
    requires WellPosed(t, q, order) && q.targets != []
    requires var placed := PlaceAll(t.runs, order, q.targets, |t.runs|);
      placed[0] < |SentThread(t, q, order).runs| && x == MakeReceipt(SentThread(t, q, order).runs, placed, t.nextSeq)
    ensures Acknowledges(SentThread(t, q, order), |t.messages|, x)
    ensures Leaves(t, q, order, SentThread(t, q, order), x.runIds)
  {
    SentRunsFollow(t, q, order);
    PlacedExist(t.runs, order, q.targets, |t.messages|, |t.runs|, SentThread(t, q, order).runs);
    SendServes(t, q, order);
    hide Leaves, PlaceAll, Follows;
  }
}
