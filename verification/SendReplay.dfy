/**
 Any number of requests that carry one client nonce, retried and racing, against a thread that goes
 on living: how many messages they commit and which receipt each of them gets.
 */
module SendReplay {
  import opened Wrappers
  import opened Sequences
  import opened ThreadReceipts
  import opened ThreadSends

  // --- answering from the receipt ----------------------------------------------------

  /** The message with the nonce, as a position below `bound`. */
  function FindSent(messages: seq<Message>, nonce: string, bound: nat): (r: Option<nat>)
    requires bound <= |messages|
    ensures r.Some? ==> r.value < bound && messages[r.value].nonce == Some(nonce)
    ensures r.None? ==> forall m :: 0 <= m < bound ==> messages[m].nonce != Some(nonce)
  {
    if bound == 0 then None
    else if messages[bound - 1].nonce == Some(nonce) then Some(bound - 1)
    else FindSent(messages, nonce, bound - 1)
  }

  /** The runs started for the message, in order of creation. */
  function SourceRuns(runs: seq<Run>, m: nat, bound: nat): (r: seq<nat>)
    requires bound <= |runs|
    ensures forall x: nat :: x in r <==> x < bound && runs[x].source == Some(m)
    ensures forall j, k :: 0 <= j < k < |r| ==> r[j] < r[k]
  {
    if bound == 0 then []
    else
      var earlier := SourceRuns(runs, m, bound - 1);
      assert forall j :: 0 <= j < |earlier| ==> earlier[j] in earlier;
      earlier + (if runs[bound - 1].source == Some(m) then [bound - 1] else [])
  }

  /** The run ids named by the message's last event. */
  function NamedBy(events: seq<Event>, m: nat): (r: seq<nat>) {
    match FindLast(events, (e: Event) => e.message == m)
    case Some(e) => e.runIds
    case None => []
  }

  function Stored(ids: seq<nat>, runs: seq<Run>): seq<nat> {
    Filter(ids, (r: nat) => r < |runs|)
  }

  /** The receipt rebuilt from the rows; `sources` was read with the message. */
  function Replayed(t: Thread, m: nat, sources: seq<nat>): Option<Receipt>
    requires m < |t.messages| && forall r :: r in sources ==> r < |t.runs|
  {
    var named := Stored(NamedBy(t.events, m), t.runs);
    var linked :=
      if sources != [] then Some(sources[0])
      else if t.messages[m].run.Some? && t.messages[m].run.value < |t.runs| then t.messages[m].run
      else None;
    var ids := if named != [] then named else if sources != [] then sources else if linked.Some? then [linked.value] else [];
    if ids == [] then None
    else
      assert ids[0] < |t.runs| by { if named != [] { assert named[0] in named; } else if sources != [] { assert sources[0] in sources; } }
      Some(MakeReceipt(t.runs, ids, t.messages[m].seqNo))
  }

  // --- the requests and the thread they race on --------------------------------------

  /** Where a request is; `again` once its transaction has failed. */
  datatype Sender =
    | Reading(again: bool)
    | Read(again: bool, seen: Option<nat>, sources: seq<nat>)
    | Committing
    | Answered(receipt: Receipt)
    | Threw

  /** What the send that committed answered, and whether it steered a bot thread's active run. */
  datatype Sent = Sent(message: nat, receipt: Receipt, steered: bool)

  datatype World = World(thread: Thread, sent: Option<Sent>, senders: seq<Sender>)

  datatype Outcome = Confirmed | Unconfirmed | Aborted

  datatype Action =
    | Live(next: Thread)
    | ReadMessage(i: nat)
    | ReadReceipt(i: nat)
    | Commit(i: nat, request: Request, order: seq<nat>, outcome: Outcome)

  /**
   What others may do to the thread: append messages with other nonces, append runs, with any
   source, append events about the messages they create, and change the status of any run.
   */
  ghost predicate Lives(t: Thread, u: Thread, nonce: string) {
    && t.messages <= u.messages && t.events <= u.events && |t.runs| <= |u.runs|
    && (forall m :: |t.messages| <= m < |u.messages| ==> u.messages[m].nonce != Some(nonce))
    && (forall r :: 0 <= r < |t.runs| ==> u.runs[r] == t.runs[r].(status := u.runs[r].status))
    && (forall r :: |t.runs| <= r < |u.runs| && u.runs[r].source.Some? ==> u.runs[r].source.value < |u.messages|)
    && (forall e :: |t.events| <= e < |u.events| ==> |t.messages| <= u.events[e].message < |u.messages|)
  }

  ghost predicate Fits(t: Thread, q: Request, order: seq<nat>, nonce: string) {
    q.nonce == Some(nonce) && WellPosed(t, q, order) && (!q.group ==> |q.targets| == 1)
  }

  /** Steered in a bot thread: the event names no runs. */
  function Steers(t: Thread, q: Request, order: seq<nat>): bool {
    !q.group && NewSteering(t.runs, order, q.targets, |t.messages|) != []
  }

  ghost function ReceiptOf(t: Thread, q: Request, order: seq<nat>): Receipt
    requires WellPosed(t, q, order) && q.targets != []
  {
    var u, placed := SentThread(t, q, order), PlaceAll(t.runs, order, q.targets, |t.runs|);
    SomeoneIsPlaced(t, q, order);
    MakeReceipt(u.runs, placed, t.nextSeq)
  }

  lemma SomeoneIsPlaced(t: Thread, q: Request, order: seq<nat>)
    requires WellPosed(t, q, order) && q.targets != []
    ensures forall r :: r in PlaceAll(t.runs, order, q.targets, |t.runs|) ==> r < |SentThread(t, q, order).runs|
    ensures PlaceAll(t.runs, order, q.targets, |t.runs|)[0] < |SentThread(t, q, order).runs|
  {
    var after, placed := SentThread(t, q, order).runs, PlaceAll(t.runs, order, q.targets, |t.runs|);
    SentRunsFollow(t, q, order);
    PlacedExist(t.runs, order, q.targets, |t.messages|, |t.runs|, after);
    assert placed[0] in placed;
  }

  ghost function Put(w: World, i: nat, s: Sender): World
    requires i < |w.senders|
  {
    w.(senders := w.senders[i := s])
  }

  /** The message read at one moment, its receipt rebuilt at a later one. */
  ghost function Rebuilt(t: Thread, seen: Option<nat>, sources: seq<nat>): Option<Receipt> {
    if seen.Some? && seen.value < |t.messages| && (forall r :: r in sources ==> r < |t.runs|)
    then Replayed(t, seen.value, sources) else None
  }

  ghost function Do(w: World, nonce: string, a: Action): World {
    match a
    case Live(u) => if Lives(w.thread, u, nonce) then w.(thread := u) else w
    case ReadMessage(i) =>
      if i < |w.senders| && w.senders[i].Reading? then
        var seen := FindSent(w.thread.messages, nonce, |w.thread.messages|);
        Put(w, i, Read(w.senders[i].again, seen,
                       if seen.Some? then SourceRuns(w.thread.runs, seen.value, |w.thread.runs|) else []))
      else w
    case ReadReceipt(i) =>
      if i < |w.senders| && w.senders[i].Read? then
        var answer := Rebuilt(w.thread, w.senders[i].seen, w.senders[i].sources);
        Put(w, i, if answer.Some? then Answered(answer.value) else if w.senders[i].again then Threw else Committing)
      else w
    case Commit(i, q, order, outcome) =>
      if !(i < |w.senders| && w.senders[i].Committing? && Fits(w.thread, q, order, nonce)) then w
      else if outcome.Aborted? || Rejection(w.thread, q, order).Some? then Put(w, i, Reading(true))
      else
        var receipt := ReceiptOf(w.thread, q, order);
        Put(w.(thread := SentThread(w.thread, q, order),
               sent := Some(Sent(|w.thread.messages|, receipt, Steers(w.thread, q, order)))),
            i, if outcome.Confirmed? then Answered(receipt) else Reading(true))
  }

  ghost function After(w: World, nonce: string, actions: seq<Action>): World {
    if actions == [] then w else Do(After(w, nonce, actions[..|actions| - 1]), nonce, actions[|actions| - 1])
  }

  /** Rows that refer to each other, no message with the nonce, and requests that have done nothing. */
  ghost predicate Initial(w: World, nonce: string) {
    && Sound(w.thread)
    && (forall m :: 0 <= m < |w.thread.messages| ==> w.thread.messages[m].nonce != Some(nonce))
    && w.sent == None
    && (forall i :: 0 <= i < |w.senders| ==> w.senders[i] == Reading(false))
  }

  ghost predicate Sound(t: Thread) {
    SourcesBelow(t.runs, |t.messages|) && forall e :: 0 <= e < |t.events| ==> t.events[e].message < |t.messages|
  }

  ghost predicate SourcesBelow(runs: seq<Run>, bound: nat) {
    forall r :: 0 <= r < |runs| && runs[r].source.Some? ==> runs[r].source.value < bound
  }

  /** Some run was started for the message. */
  ghost predicate Continued(t: Thread, m: nat) {
    exists r: nat :: r < |t.runs| && t.runs[r].source == Some(m)
  }

  // --- the invariant -----------------------------------------------------------------

  ghost predicate OnlyCarrier(messages: seq<Message>, m: nat, nonce: string) {
    m < |messages| && forall k :: 0 <= k < |messages| ==> (messages[k].nonce == Some(nonce) <==> k == m)
  }

  /** Every run started for the message is later than `bound`. */
  ghost predicate StartedAfter(runs: seq<Run>, m: nat, bound: nat) {
    forall r :: 0 <= r < |runs| && runs[r].source == Some(m) ==> bound < r
  }

  /** The one message with the nonce, its rows, and the receipt the send answered. */
  ghost predicate Settled(t: Thread, s: Sent, nonce: string) {
    && OnlyCarrier(t.messages, s.message, nonce)
    && Acknowledges(t, s.message, s.receipt)
    && t.messages[s.message].run == Some(s.receipt.runId)
    && NamedBy(t.events, s.message) == (if s.steered then [] else s.receipt.runIds)
    && (s.steered ==> s.receipt.runIds == [s.receipt.runId] && StartedAfter(t.runs, s.message, s.receipt.runId))
  }

  /** No run was started for the message before `first`. */
  ghost predicate StartedFrom(runs: seq<Run>, m: nat, first: nat) {
    forall r :: 0 <= r < |runs| && runs[r].source == Some(m) ==> first <= r
  }

  /** The receipt names runs that were started for the message, from the first on. */
  ghost predicate NamesFollowUps(t: Thread, m: nat, x: Receipt) {
    && (forall r :: r in x.runIds ==> r < |t.runs| && t.runs[r].source == Some(m))
    && x.runId in x.runIds && StartedFrom(t.runs, m, x.runId)
  }

  ghost predicate SenderOk(t: Thread, sent: Option<Sent>, s: Sender) {
    match s
    case Read(_, seen, sources) =>
      seen.Some? ==>
        && sent.Some? && seen.value == sent.value.message
        && (forall r :: r in sources ==> r < |t.runs| && t.runs[r].source == seen)
        && (sources != [] ==> StartedFrom(t.runs, seen.value, sources[0]))
    case Answered(receipt) =>
      && sent.Some?
      && Acknowledges(t, sent.value.message, receipt)
      && (receipt == sent.value.receipt || (sent.value.steered && NamesFollowUps(t, sent.value.message, receipt)))
    case _ => true
  }

  ghost predicate Inv(w: World, nonce: string) {
    && Sound(w.thread)
    && (match w.sent
        case None => forall m :: 0 <= m < |w.thread.messages| ==> w.thread.messages[m].nonce != Some(nonce)
        case Some(s) => Settled(w.thread, s, nonce))
    && (forall i :: 0 <= i < |w.senders| ==> SenderOk(w.thread, w.sent, w.senders[i]))
  }

  lemma {:induction false} LaterEventsNameOthers(events: seq<Event>, more: seq<Event>, m: nat)
    requires events <= more && forall e :: |events| <= e < |more| ==> more[e].message != m
    ensures NamedBy(more, m) == NamedBy(events, m)
    decreases |more|
  {
    if |more| > |events| {
      LaterEventsNameOthers(events, more[..|more| - 1], m);
    } else {
      assert more == events;
    }
  }

  lemma LivingKeepsSettled(t: Thread, u: Thread, s: Sent, nonce: string)
    requires Sound(t) && Settled(t, s, nonce) && Lives(t, u, nonce)
    ensures Settled(u, s, nonce)
  {
    LaterEventsNameOthers(t.events, u.events, s.message);
  }

  lemma LivingKeepsInv(w: World, nonce: string, u: Thread)
    requires Inv(w, nonce) && Lives(w.thread, u, nonce)
    ensures Inv(w.(thread := u), nonce)
  {
    if w.sent.Some? {
      LivingKeepsSettled(w.thread, u, w.sent.value, nonce);
    }
    forall i | 0 <= i < |w.senders| ensures SenderOk(u, w.sent, w.senders[i]) {
      assert SenderOk(w.thread, w.sent, w.senders[i]);
      assert w.senders[i].Read? && w.senders[i].sources != [] ==> w.senders[i].sources[0] in w.senders[i].sources;
      if w.senders[i].Answered? && w.senders[i].receipt != w.sent.value.receipt {
        var r: nat :| r < |w.thread.runs| && w.thread.runs[r].source == Some(w.sent.value.message);
        assert u.runs[r].source == Some(w.sent.value.message);
      }
    }
  }

  lemma PutKeepsInv(w: World, nonce: string, i: nat, s: Sender)
    requires Inv(w, nonce) && i < |w.senders| && SenderOk(w.thread, w.sent, s)
    ensures Inv(Put(w, i, s), nonce)
  {
  }

  /** What a retry rebuilds: the receipt the send answered, or, after steering, one that names the runs started for the message. */
  lemma RebuiltReceipt(t: Thread, s: Sent, nonce: string, sources: seq<nat>)
    requires Settled(t, s, nonce)
    requires forall r :: r in sources ==> r < |t.runs| && t.runs[r].source == Some(s.message)
    ensures Replayed(t, s.message, sources).Some? && Acknowledges(t, s.message, Replayed(t, s.message, sources).value)
    ensures (!s.steered || sources == []) ==> Replayed(t, s.message, sources) == Some(s.receipt)
    ensures s.steered && sources != [] ==>
      Replayed(t, s.message, sources).value.runIds == sources && s.receipt.runId < sources[0] && Continued(t, s.message)
  {
    var named := NamedBy(t.events, s.message);
    FilterAll<nat>(s.receipt.runIds, (r: nat) => r < |t.runs|);
    if sources != [] {
      assert sources[0] in sources;
    }
    if !s.steered {
      assert Stored(named, t.runs) == named;
    } else {
      assert Stored(named, t.runs) == [];
    }
  }

  lemma LastEventNames(events: seq<Event>, e: Event)
    ensures NamedBy(events + [e], e.message) == e.runIds
  {
    var all := events + [e];
    assert all[|all| - 1] == e;
  }

  lemma NewSourcesBelow(runs: seq<Run>, order: seq<nat>, targets: seq<nat>, m: nat, next: nat)
    requires Distinct(targets)
    ensures SourcesBelow(NewRuns(runs, order, targets, m, next), m + 1)
  {
    var added := NewRuns(runs, order, targets, m, next);
    NewRunsAreForIdleTargets(runs, order, targets, m, next);
    forall r | 0 <= r < |added| ensures added[r].source == Some(m) {
      assert added[r] in added;
    }
  }

  lemma SourcesBelowBoth(runs: seq<Run>, added: seq<Run>, bound: nat)
    requires SourcesBelow(runs, bound) && SourcesBelow(added, bound)
    ensures SourcesBelow(runs + added, bound)
  {
  }

  lemma SendIsSound(t: Thread, q: Request, order: seq<nat>)
    requires Sound(t) && Distinct(q.targets) && q.targets != []
    ensures Sound(SentThread(t, q, order))
  {
    NewSourcesBelow(t.runs, order, q.targets, |t.messages|, |t.runs|);
    SourcesBelowBoth(AnsweredRuns(t.runs, order), NewRuns(t.runs, order, q.targets, |t.messages|, |t.runs|), |t.messages| + 1);
  }

  lemma SteeringStartsNothing(t: Thread, q: Request, order: seq<nat>, bound: nat)
    requires Sound(t) && |q.targets| == 1 && Steers(t, q, order)
    ensures |PlaceAll(t.runs, order, q.targets, |t.runs|)| == 1
    ensures StartedAfter(SentThread(t, q, order).runs, |t.messages|, bound)
  {
    var u, m := SentThread(t, q, order), |t.messages|;
    assert q.targets == [q.targets[0]];
    OneTargetPlaced(t, q.targets[0], order, m);
    assert u.runs == AnsweredRuns(t.runs, order);
    forall r | 0 <= r < |u.runs| ensures u.runs[r].source != Some(m) {
      assert u.runs[r].source == t.runs[r].source;
    }
  }

  lemma FirstCarrier(messages: seq<Message>, message: Message, nonce: string)
    requires forall m :: 0 <= m < |messages| ==> messages[m].nonce != Some(nonce)
    requires message.nonce == Some(nonce)
    ensures OnlyCarrier(messages + [message], |messages|, nonce)
  {
  }

  lemma NoCarrier(t: Thread, nonce: string)
    requires !HasNonce(t, Some(nonce))
    ensures forall m :: 0 <= m < |t.messages| ==> t.messages[m].nonce != Some(nonce)
  {
  }

  /** A committed send is settled: its event names every run it answers with, except after steering a bot thread. */
  lemma SendSettles(t: Thread, q: Request, order: seq<nat>, nonce: string)
    requires Sound(t) && Fits(t, q, order, nonce) && Rejection(t, q, order).None?
    ensures q.targets != []
    ensures Settled(SentThread(t, q, order), Sent(|t.messages|, ReceiptOf(t, q, order), Steers(t, q, order)), nonce)
  {
    var m, placed := |t.messages|, PlaceAll(t.runs, order, q.targets, |t.runs|);
    SomeoneIsPlaced(t, q, order);
    LastEventNames(t.events, Event(m, NamedRuns(t, q, order, placed)));
    NoCarrier(t, nonce);
    FirstCarrier(t.messages, Message(q.nonce, t.nextSeq, true, Some(placed[0])), nonce);
    if Steers(t, q, order) {
      SteeringStartsNothing(t, q, order, placed[0]);
    }
  }

  lemma ReadMessageKeepsInv(w: World, nonce: string, i: nat)
    requires Inv(w, nonce)
    ensures Inv(Do(w, nonce, ReadMessage(i)), nonce)
  {
    if i < |w.senders| && w.senders[i].Reading? {
      var seen := FindSent(w.thread.messages, nonce, |w.thread.messages|);
      PutKeepsInv(w, nonce, i, Read(w.senders[i].again, seen,
                                    if seen.Some? then SourceRuns(w.thread.runs, seen.value, |w.thread.runs|) else []));
    }
  }

  lemma ReadReceiptKeepsInv(w: World, nonce: string, i: nat)
    requires Inv(w, nonce)
    ensures Inv(Do(w, nonce, ReadReceipt(i)), nonce)
  {
    if i < |w.senders| && w.senders[i].Read? {
      var s := w.senders[i];
      var answer := Rebuilt(w.thread, s.seen, s.sources);
      assert SenderOk(w.thread, w.sent, s);
      if s.seen.Some? {
        RebuiltReceipt(w.thread, w.sent.value, nonce, s.sources);
      }
      PutKeepsInv(w, nonce, i, if answer.Some? then Answered(answer.value) else if s.again then Threw else Committing);
    }
  }

  lemma CommitKeepsInv(w: World, nonce: string, i: nat, q: Request, order: seq<nat>, outcome: Outcome)
    requires Inv(w, nonce)
    ensures Inv(Do(w, nonce, Commit(i, q, order, outcome)), nonce)
    ensures w.sent.Some? ==> Do(w, nonce, Commit(i, q, order, outcome)).sent == w.sent
  {
    if i < |w.senders| && w.senders[i].Committing? && Fits(w.thread, q, order, nonce) {
      var t := w.thread;
      if w.sent.Some? {
        NonceIsTaken(w, nonce);
      }
      if outcome.Aborted? || Rejection(t, q, order).Some? {
        PutKeepsInv(w, nonce, i, Reading(true));
      } else {
        SendIsSound(t, q, order);
        SendSettles(t, q, order, nonce);
        var receipt := ReceiptOf(t, q, order);
        var v := w.(thread := SentThread(t, q, order), sent := Some(Sent(|t.messages|, receipt, Steers(t, q, order))));
        forall j | 0 <= j < |v.senders| ensures SenderOk(v.thread, v.sent, v.senders[j]) {
          assert SenderOk(w.thread, w.sent, w.senders[j]);
        }
        PutKeepsInv(v, nonce, i, if outcome.Confirmed? then Answered(receipt) else Reading(true));
      }
    }
  }

  lemma NonceIsTaken(w: World, nonce: string)
    requires Inv(w, nonce) && w.sent.Some?
    ensures HasNonce(w.thread, Some(nonce))
  {
    assert w.thread.messages[w.sent.value.message].nonce == Some(nonce);
  }

  lemma StepKeepsInv(w: World, nonce: string, a: Action)
    requires Inv(w, nonce)
    ensures Inv(Do(w, nonce, a), nonce)
    ensures w.sent.Some? ==> Do(w, nonce, a).sent == w.sent
  {
    match a
    case Live(u) => if Lives(w.thread, u, nonce) { LivingKeepsInv(w, nonce, u); }
    case ReadMessage(i) => ReadMessageKeepsInv(w, nonce, i);
    case ReadReceipt(i) => ReadReceiptKeepsInv(w, nonce, i);
    case Commit(i, q, order, outcome) => CommitKeepsInv(w, nonce, i, q, order, outcome);
  }

  lemma {:induction false} RunKeepsInv(w: World, nonce: string, actions: seq<Action>)
    requires Initial(w, nonce)
    ensures Inv(After(w, nonce, actions), nonce)
  {
    if actions != [] {
      RunKeepsInv(w, nonce, actions[..|actions| - 1]);
      StepKeepsInv(After(w, nonce, actions[..|actions| - 1]), nonce, actions[|actions| - 1]);
    }
  }

  // --- what every request gets -------------------------------------------------------

  /** However the requests race, at most one message carries the nonce, and an answer means it is there. */
  lemma OneMessagePerNonce(w: World, nonce: string, actions: seq<Action>, i: nat, j: nat)
    requires Initial(w, nonce)
    ensures var t := After(w, nonce, actions).thread;
      i < j < |t.messages| ==> !(t.messages[i].nonce == Some(nonce) && t.messages[j].nonce == Some(nonce))
    ensures var v := After(w, nonce, actions);
      i < |v.senders| && v.senders[i].Answered? ==> v.sent.Some? && Settled(v.thread, v.sent.value, nonce)
  {
    RunKeepsInv(w, nonce, actions);
    var v := After(w, nonce, actions);
    if i < |v.senders| {
      assert SenderOk(v.thread, v.sent, v.senders[i]);
    }
  }

  lemma LastStepKeepsSent(w: World, nonce: string, actions: seq<Action>)
    requires actions != [] && Inv(After(w, nonce, actions[..|actions| - 1]), nonce)
    requires After(w, nonce, actions[..|actions| - 1]).sent.Some?
    ensures After(w, nonce, actions).sent == After(w, nonce, actions[..|actions| - 1]).sent
  {
    StepKeepsInv(After(w, nonce, actions[..|actions| - 1]), nonce, actions[|actions| - 1]);
  }

  /** What the send committed is final. */
  lemma {:induction false} OneCommitPerNonce(w: World, nonce: string, actions: seq<Action>, more: seq<Action>)
    requires Initial(w, nonce) && After(w, nonce, actions).sent.Some?
    ensures After(w, nonce, actions + more).sent == After(w, nonce, actions).sent
    decreases |more|
  {
    if more == [] {
      assert actions + more == actions;
    } else {
      var shorter, all := more[..|more| - 1], actions + more;
      OneCommitPerNonce(w, nonce, actions, shorter);
      assert all[..|all| - 1] == actions + shorter;
      RunKeepsInv(w, nonce, actions + shorter);
      LastStepKeepsSent(w, nonce, all);
    }
  }

  /** Every request that is answered at all gets a receipt of the one message with the nonce: the receipt of the send that
      committed, or, if that steered a bot thread and runs have since been started for its message, one that names such runs. */
  lemma EveryAnswerIsTheReceipt(w: World, nonce: string, actions: seq<Action>, i: nat)
    requires Initial(w, nonce)
    ensures var v := After(w, nonce, actions);
      i < |v.senders| && v.senders[i].Answered?
      ==> && v.sent.Some? && Acknowledges(v.thread, v.sent.value.message, v.senders[i].receipt)
          && v.thread.messages[v.sent.value.message].nonce == Some(nonce)
          && (v.senders[i].receipt == v.sent.value.receipt
              || (v.sent.value.steered && v.sent.value.receipt.runId < v.senders[i].receipt.runId
                  && NamesFollowUps(v.thread, v.sent.value.message, v.senders[i].receipt)))
  {
    RunKeepsInv(w, nonce, actions);
    var v := After(w, nonce, actions);
    if i < |v.senders| {
      assert SenderOk(v.thread, v.sent, v.senders[i]);
    }
  }

  /** Exactly when a retry made now is answered with the original receipt. */
  lemma RetryRepeatsTheReceiptExactlyUntilContinued(w: World, nonce: string, actions: seq<Action>)
    requires Initial(w, nonce) && After(w, nonce, actions).sent.Some?
    ensures var v := After(w, nonce, actions);
      var m := v.sent.value.message;
      && m < |v.thread.messages|
      && (Replayed(v.thread, m, SourceRuns(v.thread.runs, m, |v.thread.runs|)) == Some(v.sent.value.receipt)
          <==> !(v.sent.value.steered && Continued(v.thread, m)))
  {
    hide After, Do, Replayed, SourceRuns, SenderOk, Acknowledges;
    RunKeepsInv(w, nonce, actions);
    var v := After(w, nonce, actions);
    var m, t := v.sent.value.message, v.thread;
    var sources := SourceRuns(t.runs, m, |t.runs|);
    RebuiltReceipt(t, v.sent.value, nonce, sources);
    if Continued(t, m) {
      var r: nat :| r < |t.runs| && t.runs[r].source == Some(m);
      assert r in sources;
    }
  }

  /** The request has made its one attempt at the transaction. */
  predicate Tried(s: Sender) {
    match s
    case Reading(again) => again
    case Read(again, _, _) => again
    case Committing => false
    case _ => true
  }

  lemma StepKeepsTried(w: World, nonce: string, a: Action, i: nat)
    requires i < |w.senders| && Tried(w.senders[i])
    ensures i < |Do(w, nonce, a).senders| && Tried(Do(w, nonce, a).senders[i])
  {
  }

  lemma {:induction false} TriedOnceForAll(w: World, nonce: string, more: seq<Action>, i: nat)
    requires i < |w.senders| && Tried(w.senders[i])
    ensures i < |After(w, nonce, more).senders| && Tried(After(w, nonce, more).senders[i])
  {
    if more != [] {
      TriedOnceForAll(w, nonce, more[..|more| - 1], i);
      StepKeepsTried(After(w, nonce, more[..|more| - 1]), nonce, more[|more| - 1], i);
    }
  }

  /** However its transaction ends, a request never tries again: it is answered, or looks for the message once more and
      is answered from it, or throws. */
  lemma RequestTriesOnce(w: World, nonce: string, i: nat, q: Request, order: seq<nat>, outcome: Outcome, more: seq<Action>)
    requires i < |w.senders| && w.senders[i].Committing? && Fits(w.thread, q, order, nonce)
    ensures var v := After(Do(w, nonce, Commit(i, q, order, outcome)), nonce, more);
      && i < |v.senders| && !v.senders[i].Committing?
      && (outcome.Confirmed? && Rejection(w.thread, q, order).None? ==> Do(w, nonce, Commit(i, q, order, outcome)).senders[i].Answered?)
  {
    TriedOnceForAll(Do(w, nonce, Commit(i, q, order, outcome)), nonce, more, i);
  }

  // --- a steered send whose retry is answered with another run ------------------------

  /** Two requests with the nonce are answered, each with a different run. */
  ghost predicate AnswersDiffer(w: World, nonce: string, actions: seq<Action>) {
    var v := After(w, nonce, actions);
    && Initial(w, nonce) && |v.senders| == 2
    && v.senders[0].Answered? && v.senders[1].Answered?
    && v.senders[0].receipt.runId != v.senders[1].receipt.runId
  }

  lemma AfterOneMore(w: World, nonce: string, actions: seq<Action>, a: Action)
    ensures After(w, nonce, actions + [a]) == Do(After(w, nonce, actions), nonce, a)
  {
    assert (actions + [a])[..|actions|] == actions;
  }

  /** One bot, whose only run is under way. */
  function BusyThread(): Thread {
    Thread([], [Run(0, 0, InProgress, ByUser, None)], [], [], 0)
  }

  function Steer(nonce: string): Request {
    Request(Some(nonce), false, [0], true, {}, true)
  }

  function SteeredThread(nonce: string): Thread {
    Thread([Message(Some(nonce), 0, true, Some(0))], [Run(0, 0, InProgress, ByUser, None)], [Event(0, [])], [Steering(0, 0, 0)], 1)
  }

  /** The run has ended without taking up the message, and a run to follow it up was started. */
  function FollowedUp(nonce: string): Thread {
    SteeredThread(nonce).(runs := [Run(0, 0, Completed, ByUser, None), Run(0, 1, Queued, Elsewise, Some(0))])
  }

  lemma SteerCommits(nonce: string)
    ensures Fits(BusyThread(), Steer(nonce), [0], nonce) && Rejection(BusyThread(), Steer(nonce), [0]) == None
    ensures SentThread(BusyThread(), Steer(nonce), [0]) == SteeredThread(nonce)
    ensures ReceiptOf(BusyThread(), Steer(nonce), [0]) == Receipt(0, 0, 0, [0])
  {
    var t, q := BusyThread(), Steer(nonce);
    assert t.runs[0].bot in [0] && IsActive(t.runs[0].status);
    OneTargetPlaced(t, 0, [0], 0);
    assert Of(t.runs, [0], 0, false) == [0] && Of(t.runs, [0], 0, true) == [] by {
      assert [0][1..] == [];
      assert Matching(t.runs, 0, false)(0) && !Matching(t.runs, 0, true)(0);
    }
  }

  lemma Step(w: World, nonce: string, actions: seq<Action>, v: World, a: Action, u: World) returns (all: seq<Action>)
    requires After(w, nonce, actions) == v && Do(v, nonce, a) == u
    ensures After(w, nonce, all) == u
  {
    all := actions + [a];
    AfterOneMore(w, nonce, actions, a);
  }

  function TwoRequests(t: Thread, sent: Option<Sent>, first: Sender, second: Sender): World {
    World(t, sent, [first, second])
  }

  function SteerReceipt(): Receipt {
    Receipt(0, 0, 0, [0])
  }

  lemma SteerRequested(nonce: string) returns (w: World, actions: seq<Action>)
    ensures Initial(w, nonce)
    ensures After(w, nonce, actions) == TwoRequests(BusyThread(), None, Committing, Reading(false))
  {
    w := TwoRequests(BusyThread(), None, Reading(false), Reading(false));
    var w1 := TwoRequests(BusyThread(), None, Read(false, None, []), Reading(false));
    actions := Step(w, nonce, [], w, ReadMessage(0), w1);
    actions := Step(w, nonce, actions, w1, ReadReceipt(0), TwoRequests(BusyThread(), None, Committing, Reading(false)));
  }

  /** The first request steers and is answered with the run under way. */
  lemma SteeredAnswer(nonce: string) returns (w: World, actions: seq<Action>)
    ensures Initial(w, nonce)
    ensures After(w, nonce, actions) ==
      TwoRequests(SteeredThread(nonce), Some(Sent(0, SteerReceipt(), true)), Answered(SteerReceipt()), Reading(false))
  {
    w, actions := SteerRequested(nonce);
    SteerCommits(nonce);
    actions := Step(w, nonce, actions, TwoRequests(BusyThread(), None, Committing, Reading(false)),
      Commit(0, Steer(nonce), [0], Confirmed),
      TwoRequests(SteeredThread(nonce), Some(Sent(0, SteerReceipt(), true)), Answered(SteerReceipt()), Reading(false)));
  }

  /** A retry made after the run was followed up. */
  lemma FollowedUpAnswer(nonce: string, v: World)
    requires v.thread == FollowedUp(nonce) && |v.senders| == 2 && v.senders[1] == Reading(false)
    ensures Do(v, nonce, ReadMessage(1)) == Put(v, 1, Read(false, Some(0), [1]))
  {
    var t := v.thread;
    assert FindSent(t.messages, nonce, 1) == Some(0);
    assert SourceRuns(t.runs, 0, 2) == [1] by {
      assert SourceRuns(t.runs, 0, 0) == [] && SourceRuns(t.runs, 0, 1) == [];
    }
  }

  lemma FollowedUpReceipt(nonce: string, v: World)
    requires v.thread == FollowedUp(nonce) && |v.senders| == 2 && v.senders[1] == Read(false, Some(0), [1])
    ensures Do(v, nonce, ReadReceipt(1)) == Put(v, 1, Answered(Receipt(1, 1, 0, [1])))
  {
    var t := v.thread;
    assert NamedBy(t.events, 0) == [] by {
      LastEventNames([], Event(0, []));
      assert [] + [Event(0, [])] == t.events;
    }
  }

  lemma FollowUpIsAllowed(nonce: string, v: World)
    requires v.thread == SteeredThread(nonce)
    ensures Do(v, nonce, Live(FollowedUp(nonce))) == v.(thread := FollowedUp(nonce))
  {
    assert Lives(SteeredThread(nonce), FollowedUp(nonce), nonce);
  }

  /** The run then ends and is followed up. */
  lemma SteeredThenFollowedUp(nonce: string) returns (w: World, actions: seq<Action>)
    ensures Initial(w, nonce)
    ensures After(w, nonce, actions) ==
      TwoRequests(FollowedUp(nonce), Some(Sent(0, SteerReceipt(), true)), Answered(SteerReceipt()), Reading(false))
  {
    w, actions := SteeredAnswer(nonce);
    var sent, first := Some(Sent(0, SteerReceipt(), true)), Answered(SteerReceipt());
    var v := TwoRequests(SteeredThread(nonce), sent, first, Reading(false));
    FollowUpIsAllowed(nonce, v);
    actions := Step(w, nonce, actions, v, Live(FollowedUp(nonce)), TwoRequests(FollowedUp(nonce), sent, first, Reading(false)));
  }

  /** The second request finds the message and the run started for it. */
  lemma SteeredThenRead(nonce: string) returns (w: World, actions: seq<Action>)
    ensures Initial(w, nonce)
    ensures After(w, nonce, actions) ==
      TwoRequests(FollowedUp(nonce), Some(Sent(0, SteerReceipt(), true)), Answered(SteerReceipt()), Read(false, Some(0), [1]))
  {
    w, actions := SteeredThenFollowedUp(nonce);
    var v := TwoRequests(FollowedUp(nonce), Some(Sent(0, SteerReceipt(), true)), Answered(SteerReceipt()), Reading(false));
    FollowedUpAnswer(nonce, v);
    actions := Step(w, nonce, actions, v, ReadMessage(1), v.(senders := [Answered(SteerReceipt()), Read(false, Some(0), [1])]));
  }

  /** The exception is real: two requests with one nonce answered with different runs. */
  lemma SteeredRetryGetsAnotherRun(nonce: string)
    ensures exists w: World, actions: seq<Action> :: AnswersDiffer(w, nonce, actions)
  {
    var w, actions := SteeredThenRead(nonce);
    var v := TwoRequests(FollowedUp(nonce), Some(Sent(0, SteerReceipt(), true)), Answered(SteerReceipt()), Read(false, Some(0), [1]));
    FollowedUpReceipt(nonce, v);
    actions := Step(w, nonce, actions, v, ReadReceipt(1), v.(senders := [Answered(SteerReceipt()), Answered(Receipt(1, 1, 0, [1]))]));
    assert AnswersDiffer(w, nonce, actions);
  }
}
