/**
 One ambient pass: which observed rows are ignored, which wait, and which single row of a
 conversation is promoted.

 The batch is read once, and before each statement of the pass other actors may have written
 any row. So nothing is assumed of what a statement finds, and each re-checks the statuses.
 */
module TeamChatAmbient {
  import opened Wrappers
  import opened Sequences
  import opened TeamChatRow

  const AMBIENT_CONTEXT_MESSAGES := 20
  const HOUR_MS := 3_600_000

  datatype Message = Message(id: nat, conversation: nat, sender: nat, senderIsBot: bool, createdAt: int, event: nat)

  datatype Mode = Ignore | Rollup(hours: nat) | Action | User

  /** Sender policies of a conversation, and whether ambient engagement is on there. */
  datatype Policy = Policy(enabled: bool, senders: map<nat, Mode>)

  datatype Decision = Decision(act: bool, askedBy: Option<nat>, reason: Option<string>)

  /** Everything a pass reads besides the batch. `judged` holds the last time a sender was judged. */
  datatype Context = Context(
    now: int,
    debounce: int,
    policies: map<nat, Policy>,
    fallback: Policy,
    judged: map<(nat, nat), int>,
    judge: Option<seq<Message> -> Decision>)

  /** A sender without a policy is treated as one to ignore. */
  function ModeOf(m: Message, policy: Policy): Mode {
    if m.sender in policy.senders then policy.senders[m.sender] else Ignore
  }

  function PolicyOf(c: Context, conversation: nat): Policy {
    if conversation in c.policies then c.policies[conversation] else c.fallback
  }

  predicate IsIgnored(m: Message, policy: Policy) {
    m.senderIsBot && ModeOf(m, policy).Ignore?
  }

  predicate IsImmediate(m: Message, policy: Policy) {
    !m.senderIsBot || !ModeOf(m, policy).Rollup?
  }

  predicate IsActionable(m: Message, policy: Policy) {
    m.senderIsBot && ModeOf(m, policy).Action?
  }

  /** A rollup sender is due when it was never judged, or not within its period. */
  predicate IsDue(m: Message, policy: Policy, c: Context) {
    ModeOf(m, policy).Rollup? && ModeOf(m, policy).hours != 0
    && ((m.conversation, m.sender) !in c.judged
        || c.judged[(m.conversation, m.sender)] <= c.now - ModeOf(m, policy).hours * HOUR_MS)
  }

  // --- the decision for one conversation ---------------------------------------------

  datatype Verdict = Wait | Dismiss | Promote(trigger: Message, reason: Option<string>)

  /** `ignored` and `evaluated` are parts of the conversation's batch; the rest is held back. */
  datatype Treatment = Treatment(ignored: seq<Message>, evaluated: seq<Message>, verdict: Verdict)

  function Evaluated(candidates: seq<Message>, policy: Policy, c: Context): (r: seq<Message>)
    ensures forall m :: m in r ==> m in candidates
  {
    if exists m :: m in candidates && IsImmediate(m, policy) then candidates
    else Filter(candidates, m => IsDue(m, policy, c))
  }

  function Decide(judged: seq<Message>, policy: Policy, c: Context): Decision {
    var actionable := FindLast(judged, m => IsActionable(m, policy));
    if actionable.Some? then Decision(true, Some(actionable.value.event), Some("configured as actionable"))
    else if c.judge.Some? then c.judge.value(judged)
    else Decision(false, None, None)
  }

  /** The verdict on what is left after the ignored senders, rollups and the debounce. */
  function VerdictOf(evaluated: seq<Message>, policy: Policy, c: Context): (v: Verdict)
    ensures v.Promote? ==> v.trigger in evaluated
  {
    if evaluated == [] || evaluated[|evaluated| - 1].createdAt > c.now - c.debounce then Wait
    else
      var judged := Last(evaluated, AMBIENT_CONTEXT_MESSAGES);
      var decision := Decide(judged, policy, c);
      if !decision.act then Dismiss
      else
        var asked := Find(judged, (m: Message) => decision.askedBy == Some(m.event));
        Promote(if asked.Some? then asked.value else evaluated[|evaluated| - 1], decision.reason)
  }

  function Treat(messages: seq<Message>, policy: Policy, c: Context): Treatment {
    if !policy.enabled then Treatment(messages, [], Wait)
    else
      var candidates := Filter(messages, m => !IsIgnored(m, policy));
      var evaluated := Evaluated(candidates, policy, c);
      Treatment(Filter(messages, m => IsIgnored(m, policy)), evaluated, VerdictOf(evaluated, policy, c))
  }

  function Ids(messages: seq<Message>): set<nat> {
    set m | m in messages :: m.id
  }

  /** Every message is ignored, evaluated or held back, and never two of them. */
  lemma TreatmentPartitions(messages: seq<Message>, policy: Policy, c: Context, m: Message)
    requires m in messages
    ensures var t := Treat(messages, policy, c);
      && !(m in t.ignored && m in t.evaluated)
      && (m !in t.ignored && m !in t.evaluated ==>
            // Only a rollup that is not due yet is held back, and only when nothing needs an answer now.
            && ModeOf(m, policy).Rollup? && m.senderIsBot && !IsDue(m, policy, c)
            && forall x :: x in messages ==> x in t.ignored || !IsImmediate(x, policy))
    ensures var t := Treat(messages, policy, c);
      t.verdict.Promote? ==> t.verdict.trigger in t.evaluated && t.verdict.trigger in messages
  {
  }

  // --- the writes of one conversation ------------------------------------------------

  /** A statement of the pass: one over a set of rows, or one over the trigger. */
  datatype Write = Ignoring(ids: set<nat>) | Promoting(id: nat, reason: Option<string>)

  predicate StillObserved(rows: map<nat, Row>, id: nat) {
    id in rows && rows[id].status.Observed?
  }

  /** What a statement makes of a row that has this id. */
  function RowEffect(row: Row, id: nat, write: Write): Row {
    match write
    case Ignoring(ids) => if id in ids then IgnoreAmbient(row).row else row
    case Promoting(trigger, reason) => if id == trigger then PromoteAmbient(row, reason).row else row
  }

  /** A statement changes the rows it names and finds observed, all at once. */
  function Effect(rows: map<nat, Row>, write: Write): (rows': map<nat, Row>)
    ensures rows'.Keys == rows.Keys
  {
    map id | id in rows :: RowEffect(rows[id], id, write)
  }

  /** A statement: the table when the pass issued it, what others had made of it, and what the statement left. */
  datatype Entry = Entry(write: Write, before: map<nat, Row>, found: map<nat, Row>, left: map<nat, Row>)

  predicate Sound(e: Entry) {
    e.left == Effect(e.found, e.write)
  }

  /** The promotion found its row still observed. */
  predicate Promoted(e: Entry) {
    e.write.Promoting? && StillObserved(e.found, e.write.id)
  }

  function Others(evaluated: seq<Message>, trigger: Message): seq<Message> {
    Filter(evaluated, (m: Message) => m.id != trigger.id)
  }

  function IgnoreWrite(messages: seq<Message>): seq<Write> {
    if messages == [] then [] else [Ignoring(Ids(messages))]
  }

  /** The statements of a verdict; `won`: the promotion found its row observed. */
  function VerdictWrites(evaluated: seq<Message>, verdict: Verdict, won: bool): seq<Write> {
    match verdict
    case Wait => []
    case Dismiss => IgnoreWrite(evaluated)
    case Promote(trigger, reason) => [Promoting(trigger.id, reason)] + if won then IgnoreWrite(Others(evaluated, trigger)) else []
  }

  function Writes(t: Treatment, won: bool): seq<Write> {
    IgnoreWrite(t.ignored) + VerdictWrites(t.evaluated, t.verdict, won)
  }

  /** The first of these statements, in order. */
  predicate Begins(log: seq<Entry>, writes: seq<Write>) {
    |log| <= |writes| && forall k :: 0 <= k < |log| ==> Sound(log[k]) && log[k].write == writes[k]
  }

  predicate Performs(log: seq<Entry>, writes: seq<Write>) {
    |log| == |writes| && Begins(log, writes)
  }

  /** The entries of a treatment that may have been cut short by an exception. */
  ghost predicate TreatsPartly(log: seq<Entry>, t: Treatment) {
    exists won :: Begins(log, Writes(t, won)) && (t.verdict.Promote? ==> (won <==> exists e :: e in log && Promoted(e)))
  }

  /** The entries of one treatment: its statements in order, each on whatever table it found. */
  ghost predicate Treats(log: seq<Entry>, t: Treatment) {
    exists won :: Performs(log, Writes(t, won)) && (t.verdict.Promote? ==> (won <==> exists e :: e in log && Promoted(e)))
  }

  /** The table after the statements. */
  function End(start: map<nat, Row>, log: seq<Entry>): map<nat, Row> {
    if log == [] then start else log[|log| - 1].left
  }

  /** Each statement was issued on what the one before had left. */
  predicate Chained(start: map<nat, Row>, log: seq<Entry>) {
    log == [] || (Chained(start, log[..|log| - 1]) && log[|log| - 1].before == End(start, log[..|log| - 1]))
  }

  lemma ChainedOne(start: map<nat, Row>, e: Entry)
    requires e.before == start
    ensures Chained(start, [e]) && End(start, [e]) == e.left
  {
    assert [e][..0] == [];
  }

  lemma {:induction false} ChainsCompose(start: map<nat, Row>, first: seq<Entry>, second: seq<Entry>)
    ensures Chained(start, first + second) <==> Chained(start, first) && Chained(End(start, first), second)
    ensures End(start, first + second) == End(End(start, first), second)
    decreases |second|
  {
    if second == [] {
      assert first + second == first;
    } else {
      var all := first + second;
      assert all[..|all| - 1] == first + second[..|second| - 1];
      ChainsCompose(start, first, second[..|second| - 1]);
    }
  }

  /** Some statements on a table and the log of them: what they left, and the log then. */
  ghost predicate Wrote(before: map<nat, Row>, past: seq<Entry>, done: seq<Entry>, rows: map<nat, Row>, log: seq<Entry>) {
    log == past + done && Chained(before, done) && rows == End(before, done)
  }

  lemma WroteNothing(rows: map<nat, Row>, log: seq<Entry>)
    ensures Wrote(rows, log, [], rows, log)
  {
    assert log + [] == log;
  }

  lemma WroteMore(before: map<nat, Row>, past: seq<Entry>, first: seq<Entry>, middle: map<nat, Row>, log: seq<Entry>,
                  second: seq<Entry>, rows: map<nat, Row>, log': seq<Entry>)
    requires Wrote(before, past, first, middle, log) && Wrote(middle, log, second, rows, log')
    ensures Wrote(before, past, first + second, rows, log')
  {
    ChainsCompose(before, first, second);
    assert past + (first + second) == past + first + second;
  }

  ghost predicate DistinctIds(messages: seq<Message>) {
    forall m, x :: m in messages && x in messages && m.id == x.id ==> m == x
  }

  lemma IdsOfPart(part: seq<Message>, messages: seq<Message>, m: Message)
    requires DistinctIds(messages) && m in messages && forall x :: x in part ==> x in messages
    ensures m.id in Ids(part) <==> m in part
  {
  }

  /** What one statement of a treatment does to one row of the conversation, whatever it finds. */
  ghost predicate RowOutcome(e: Entry, t: Treatment, m: Message)
    requires m.id in e.found && m.id in e.left
  {
    var before, after := e.found[m.id], e.left[m.id];
    // A row that left the observed state meanwhile is not written, nor is one that is held back.
    && (!before.status.Observed? || (m !in t.ignored && m !in t.evaluated) ==> after == before)
    && (m in t.ignored ==> after == before || after == before.(status := Ignored))
    && (m in t.evaluated && t.verdict.Wait? ==> after == before)
    && (m in t.evaluated && t.verdict.Dismiss? ==> after == before || after == before.(status := Ignored))
    && (m in t.evaluated && t.verdict.Promote? && m == t.verdict.trigger ==>
          after == before || (after.status.Received? && Promoted(e)))
    && (m in t.evaluated && t.verdict.Promote? && m != t.verdict.trigger ==>
          after == before || after == before.(status := Ignored))
  }

  /** The treatment's parts are told apart by their ids. */
  ghost predicate ToldApart(t: Treatment, m: Message) {
    && !(m in t.ignored && m in t.evaluated)
    && (m.id in Ids(t.ignored) <==> m in t.ignored)
    && (m.id in Ids(t.evaluated) <==> m in t.evaluated)
    && (t.verdict.Promote? ==>
          && t.verdict.trigger in t.evaluated
          && (m.id == t.verdict.trigger.id <==> m == t.verdict.trigger)
          && (m.id in Ids(Others(t.evaluated, t.verdict.trigger)) <==> m in t.evaluated && m != t.verdict.trigger))
  }

  lemma TreatmentToldApart(messages: seq<Message>, policy: Policy, c: Context, m: Message)
    requires DistinctIds(messages) && m in messages
    ensures ToldApart(Treat(messages, policy, c), m)
  {
    var t := Treat(messages, policy, c);
    TreatmentPartitions(messages, policy, c, m);
    IdsOfPart(t.ignored, messages, m);
    IdsOfPart(t.evaluated, messages, m);
    if t.verdict.Promote? {
      IdsOfPart(Others(t.evaluated, t.verdict.trigger), messages, m);
    }
  }

  lemma OutcomeOfWrite(e: Entry, won: bool, t: Treatment, m: Message)
    requires ToldApart(t, m) && m.id in e.found && Sound(e) && e.write in Writes(t, won)
    ensures RowOutcome(e, t, m)
  {
    hide Ids, Others;
    assert e.write in IgnoreWrite(t.ignored) || e.write in VerdictWrites(t.evaluated, t.verdict, won);
  }

  /** Each statement of a conversation's treatment treats each of its rows as the treatment says. */
  lemma OutcomeOfRow(log: seq<Entry>, k: nat, messages: seq<Message>, policy: Policy, c: Context, m: Message)
    requires DistinctIds(messages) && TreatsPartly(log, Treat(messages, policy, c))
    requires k < |log| && m in messages && m.id in log[k].found
    ensures m.id in log[k].left && RowOutcome(log[k], Treat(messages, policy, c), m)
  {
    hide Treat, Writes, RowOutcome;
    var won :| Begins(log, Writes(Treat(messages, policy, c), won));
    TreatmentToldApart(messages, policy, c, m);
    OutcomeOfWrite(log[k], won, Treat(messages, policy, c), m);
  }

  lemma PromotionIsAlone(t: Treatment, won: bool, j: nat, k: nat)
    requires j < |Writes(t, won)| && k < |Writes(t, won)| && Writes(t, won)[j].Promoting? && Writes(t, won)[k].Promoting?
    ensures j == k
  {
  }

  lemma PromotedByVerdict(t: Treatment, won: bool, j: nat)
    requires j < |Writes(t, won)| && Writes(t, won)[j].Promoting?
    ensures t.verdict.Promote? && Writes(t, won)[j].id == t.verdict.trigger.id
  {
  }

  /** At most one row of a conversation is promoted, the trigger's, whoever writes beside the pass and wherever it ends. */
  lemma OnePromotionPerConversation(log: seq<Entry>, t: Treatment, j: nat)
    requires TreatsPartly(log, t) && j < |log| && Promoted(log[j])
    ensures forall k :: 0 <= k < |log| && Promoted(log[k]) ==> k == j
    ensures t.verdict.Promote? && log[j].write.id == t.verdict.trigger.id
  {
    hide Writes;
    var won :| Begins(log, Writes(t, won));
    PromotedByVerdict(t, won, j);
    forall k | 0 <= k < |log| && Promoted(log[k]) ensures k == j {
      PromotionIsAlone(t, won, j, k);
    }
  }

  /** After a promotion the last statement of a whole treatment leaves no other evaluated row observed, so the judge does
      not see them again. */
  lemma PromotionClearsTheOthers(log: seq<Entry>, t: Treatment, j: nat)
    requires Treats(log, t) && j < |log| && Promoted(log[j])
    ensures t.verdict.Promote?
    ensures forall m :: m in t.evaluated && m.id != t.verdict.trigger.id && m.id in log[|log| - 1].left ==>
              !log[|log| - 1].left[m.id].status.Observed?
  {
    hide Writes;
    var won :| Performs(log, Writes(t, won)) && (t.verdict.Promote? ==> (won <==> exists e :: e in log && Promoted(e)));
    PromotedByVerdict(t, won, j);
    assert log[j] in log && won;
    forall m | m in t.evaluated && m.id != t.verdict.trigger.id && m.id in log[|log| - 1].left
      ensures !log[|log| - 1].left[m.id].status.Observed?
    {
      OthersAreIgnoredLast(t, m);
    }
  }

  lemma OthersAreIgnoredLast(t: Treatment, m: Message)
    requires t.verdict.Promote? && m in t.evaluated && m.id != t.verdict.trigger.id
    ensures var w := Writes(t, true); w != [] && w[|w| - 1].Ignoring? && m.id in w[|w| - 1].ids
  {
    assert m in Others(t.evaluated, t.verdict.trigger);
  }

  predicate Names(write: Write, id: nat) {
    match write
    case Ignoring(ids) => id in ids
    case Promoting(trigger, _) => id == trigger
  }

  lemma WritesNameTheBatch(messages: seq<Message>, policy: Policy, c: Context, won: bool, write: Write, id: nat)
    requires write in Writes(Treat(messages, policy, c), won) && Names(write, id)
    ensures id in Ids(messages)
  {
    var t := Treat(messages, policy, c);
    assert write in IgnoreWrite(t.ignored) || write in VerdictWrites(t.evaluated, t.verdict, won);
  }

  /** A treatment names rows of its own batch only, so it leaves all others alone. */
  lemma WritesAreLocal(log: seq<Entry>, k: nat, messages: seq<Message>, policy: Policy, c: Context, id: nat)
    requires TreatsPartly(log, Treat(messages, policy, c)) && k < |log| && id in log[k].found && id !in Ids(messages)
    ensures id in log[k].left && log[k].left[id] == log[k].found[id]
  {
    hide Treat, Writes;
    var won :| Begins(log, Writes(Treat(messages, policy, c), won));
    if Names(log[k].write, id) {
      WritesNameTheBatch(messages, policy, c, won, log[k].write, id);
    }
  }

  /** The ignored senders first, then the verdict, which may be cut short. */
  lemma TreatsInTwo(t: Treatment, first: seq<Entry>, rest: seq<Entry>, won: bool)
    requires Performs(first, IgnoreWrite(t.ignored)) && Begins(rest, VerdictWrites(t.evaluated, t.verdict, won))
    requires won <==> exists e :: e in rest && Promoted(e)
    ensures TreatsPartly(first + rest, t)
    ensures Performs(rest, VerdictWrites(t.evaluated, t.verdict, won)) ==> Treats(first + rest, t)
  {
    assert Begins(first + rest, Writes(t, won));
    assert Performs(rest, VerdictWrites(t.evaluated, t.verdict, won)) ==> Performs(first + rest, Writes(t, won));
    if e :| e in first + rest && Promoted(e) {
      assert e in rest;
    }
    if won {
      var e :| e in rest && Promoted(e);
      assert e in first + rest;
    }
  }

  /** Cut short before the verdict. */
  lemma TreatsTheIgnored(t: Treatment, first: seq<Entry>)
    requires Begins(first, IgnoreWrite(t.ignored))
    ensures TreatsPartly(first, t)
  {
    assert Begins(first, Writes(t, false));
  }

  // --- when nobody writes beside the pass --------------------------------------------

  function Played(rows: map<nat, Row>, writes: seq<Write>): (rows': map<nat, Row>)
    ensures rows'.Keys == rows.Keys
  {
    if writes == [] then rows else Effect(Played(rows, writes[..|writes| - 1]), writes[|writes| - 1])
  }

  predicate Undisturbed(log: seq<Entry>) {
    forall e :: e in log ==> e.found == e.before
  }

  lemma {:induction false} UndisturbedIsPlayed(rows: map<nat, Row>, log: seq<Entry>, writes: seq<Write>)
    requires Performs(log, writes) && Chained(rows, log) && Undisturbed(log)
    ensures End(rows, log) == Played(rows, writes)
    decreases |log|
  {
    hide Effect;
    if log != [] {
      var n := |log| - 1;
      ShorterLog(log, writes, n);
      UndisturbedIsPlayed(rows, log[..n], writes[..n]);
      assert log[n] in log && Sound(log[n]);
    }
  }

  lemma ShorterLog(log: seq<Entry>, writes: seq<Write>, k: nat)
    requires Performs(log, writes) && k <= |log|
    ensures Performs(log[..k], writes[..k])
    ensures Undisturbed(log) ==> Undisturbed(log[..k])
  {
  }

  lemma {:induction false} ChainedBefore(rows: map<nat, Row>, log: seq<Entry>, k: nat)
    requires Chained(rows, log) && k < |log|
    ensures Chained(rows, log[..k]) && log[k].before == End(rows, log[..k])
    decreases |log|
  {
    var n := |log| - 1;
    if k < n {
      ChainedBefore(rows, log[..n], k);
      assert log[..n][..k] == log[..k];
    }
  }

  /** What becomes of one row of a conversation that only the pass writes. */
  ghost predicate FinalOutcome(before: Row, after: Row, t: Treatment, m: Message, triggerObserved: bool) {
    && (!before.status.Observed? ==> after == before)
    && (before.status.Observed? && m in t.ignored ==> after == before.(status := Ignored))
    && (m !in t.ignored && m !in t.evaluated ==> after == before)
    && (m in t.evaluated && t.verdict.Wait? ==> after == before)
    && (before.status.Observed? && m in t.evaluated && t.verdict.Dismiss? ==> after == before.(status := Ignored))
    && (m in t.evaluated && t.verdict.Promote? && !triggerObserved ==> after == before)
    && (before.status.Observed? && m in t.evaluated && t.verdict.Promote? && triggerObserved ==>
          after.status == if m == t.verdict.trigger then Received else Ignored)
  }

  lemma PlayedOne(rows: map<nat, Row>, w: Write)
    ensures Played(rows, [w]) == Effect(rows, w)
  {
    assert [w][..0] == [];
  }

  lemma {:induction false} PlayedConcat(rows: map<nat, Row>, first: seq<Write>, second: seq<Write>)
    ensures Played(rows, first + second) == Played(Played(rows, first), second)
    decreases |second|
  {
    if second == [] {
      assert first + second == first;
    } else {
      var all := first + second;
      assert all[..|all| - 1] == first + second[..|second| - 1];
      PlayedConcat(rows, first, second[..|second| - 1]);
    }
  }

  lemma IgnoringPlayed(rows: map<nat, Row>, messages: seq<Message>)
    ensures Played(rows, IgnoreWrite(messages)) == Effect(rows, Ignoring(Ids(messages)))
  {
    if messages != [] {
      PlayedOne(rows, Ignoring(Ids(messages)));
    }
  }

  lemma VerdictPlayed(rows: map<nat, Row>, messages: seq<Message>, policy: Policy, c: Context, won: bool, m: Message)
    requires DistinctIds(messages) && m in messages && m.id in rows
    requires var t := Treat(messages, policy, c); t.verdict.Promote? ==> won == StillObserved(rows, t.verdict.trigger.id)
    ensures var t := Treat(messages, policy, c);
      var after := Played(rows, VerdictWrites(t.evaluated, t.verdict, won))[m.id];
      if m in t.evaluated then FinalOutcome(rows[m.id], after, t.(ignored := []), m, won) else after == rows[m.id]
  {
    var t := Treat(messages, policy, c);
    IdsOfPart(t.evaluated, messages, m);
    match t.verdict
    case Wait =>
    case Dismiss => IgnoringPlayed(rows, t.evaluated);
    case Promote(trigger, reason) =>
      var others := Others(t.evaluated, trigger);
      IdsOfPart(others, messages, m);
      PlayedOne(rows, Promoting(trigger.id, reason));
      PlayedConcat(rows, [Promoting(trigger.id, reason)], if won then IgnoreWrite(others) else []);
      IgnoringPlayed(Effect(rows, Promoting(trigger.id, reason)), others);
  }

  /** The table after an undisturbed treatment: the ignored senders' rows first, then the verdict's. */
  lemma UndisturbedEnd(rows: map<nat, Row>, log: seq<Entry>, t: Treatment, won: bool)
    requires Performs(log, Writes(t, won)) && Chained(rows, log) && Undisturbed(log)
    ensures End(rows, log) == Played(Effect(rows, Ignoring(Ids(t.ignored))), VerdictWrites(t.evaluated, t.verdict, won))
  {
    UndisturbedIsPlayed(rows, log, Writes(t, won));
    PlayedConcat(rows, IgnoreWrite(t.ignored), VerdictWrites(t.evaluated, t.verdict, won));
    IgnoringPlayed(rows, t.ignored);
  }

  lemma PromotionComesNext(t: Treatment, won: bool)
    requires t.verdict.Promote?
    ensures var k, w := |IgnoreWrite(t.ignored)|, Writes(t, won);
      k < |w| && w[k] == Promoting(t.verdict.trigger.id, t.verdict.reason) && w[..k] == IgnoreWrite(t.ignored)
  {
  }

  /** The promotion is won exactly if the trigger's row was observed when the pass began. */
  lemma WinsIfObserved(rows: map<nat, Row>, log: seq<Entry>, t: Treatment, won: bool)
    requires t.verdict.Promote? && t.verdict.trigger.id !in Ids(t.ignored)
    requires Performs(log, Writes(t, won)) && Chained(rows, log) && Undisturbed(log)
    requires won <==> exists e :: e in log && Promoted(e)
    ensures won == StillObserved(rows, t.verdict.trigger.id)
  {
    hide Writes, Chained, Effect, Ids, IgnoreWrite, Played, StillObserved;
    var k := |IgnoreWrite(t.ignored)|;
    PromotionComesNext(t, won);
    ChainedBefore(rows, log, k);
    ShorterLog(log, Writes(t, won), k);
    UndisturbedIsPlayed(rows, log[..k], IgnoreWrite(t.ignored));
    IgnoringPlayed(rows, t.ignored);
    IgnoringRow(rows, Ids(t.ignored), t.verdict.trigger.id);
    assert log[k] in log && Promoted(log[k]) == StillObserved(rows, t.verdict.trigger.id);
    if e :| e in log && Promoted(e) {
      var j :| 0 <= j < |log| && log[j] == e;
      PromotionIsAlone(t, won, j, k);
    }
  }

  lemma TreatedEnd(rows: map<nat, Row>, log: seq<Entry>, t: Treatment) returns (won: bool)
    requires Treats(log, t) && Chained(rows, log) && Undisturbed(log)
    requires t.verdict.Promote? ==> t.verdict.trigger.id !in Ids(t.ignored)
    ensures t.verdict.Promote? ==> won == StillObserved(rows, t.verdict.trigger.id)
    ensures End(rows, log) == Played(Effect(rows, Ignoring(Ids(t.ignored))), VerdictWrites(t.evaluated, t.verdict, won))
  {
    hide Writes, Chained, Undisturbed, End, Played, VerdictWrites, Ids, StillObserved;
    won :| Performs(log, Writes(t, won)) && (t.verdict.Promote? ==> (won <==> exists e :: e in log && Promoted(e)));
    UndisturbedEnd(rows, log, t, won);
    if t.verdict.Promote? {
      WinsIfObserved(rows, log, t, won);
    }
  }

  lemma IgnoringRow(rows: map<nat, Row>, ids: set<nat>, id: nat)
    ensures StillObserved(Effect(rows, Ignoring(ids)), id) == (StillObserved(rows, id) && id !in ids)
    ensures id in rows ==> Effect(rows, Ignoring(ids))[id] == if id in ids then IgnoreAmbient(rows[id]).row else rows[id]
  {
  }

  /** If nobody writes beside the pass, a conversation's rows end exactly as its treatment says. */
  lemma UndisturbedOutcome(rows: map<nat, Row>, log: seq<Entry>, messages: seq<Message>, policy: Policy, c: Context, m: Message)
    requires DistinctIds(messages) && m in messages && m.id in rows
    requires Treats(log, Treat(messages, policy, c)) && Chained(rows, log) && Undisturbed(log)
    ensures m.id in End(rows, log)
    ensures var t := Treat(messages, policy, c);
      FinalOutcome(rows[m.id], End(rows, log)[m.id], t, m, t.verdict.Promote? && StillObserved(rows, t.verdict.trigger.id))
  {
    hide Treat, Treats, Chained, Undisturbed, End, Played, VerdictWrites, DistinctIds, FinalOutcome, Effect, Ids, StillObserved;
    var t := Treat(messages, policy, c);
    TreatmentPartitions(messages, policy, c, m);
    TreatmentToldApart(messages, policy, c, m);
    if t.verdict.Promote? {
      TreatmentToldApart(messages, policy, c, t.verdict.trigger);
    }
    var won := TreatedEnd(rows, log, t);
    var rest := Effect(rows, Ignoring(Ids(t.ignored)));
    IgnoringRow(rows, Ids(t.ignored), m.id);
    if t.verdict.Promote? {
      IgnoringRow(rows, Ids(t.ignored), t.verdict.trigger.id);
    }
    VerdictPlayed(rest, messages, policy, c, won, m);
    FinalRow(rows[m.id], rest[m.id], End(rows, log)[m.id], t, m, won);
  }

  /** An ignored row is settled before the verdict, any other by it. */
  lemma FinalRow(before: Row, middle: Row, after: Row, t: Treatment, m: Message, won: bool)
    requires middle == if m in t.ignored then IgnoreAmbient(before).row else before
    requires !(m in t.ignored && m in t.evaluated)
    requires if m in t.evaluated then FinalOutcome(middle, after, t.(ignored := []), m, won) else after == middle
    ensures FinalOutcome(before, after, t, m, won) && FinalOutcome(before, after, t, m, t.verdict.Promote? && won)
  {
  }

  // --- the whole pass ----------------------------------------------------------------

  function Batch(observed: seq<Message>, conversation: nat): seq<Message> {
    Filter(observed, (m: Message) => m.conversation == conversation)
  }

  function TreatmentOf(observed: seq<Message>, c: Context, conversation: nat): Treatment {
    Treat(Batch(observed, conversation), PolicyOf(c, conversation), c)
  }

  /** The batch's conversations, each once. */
  ghost predicate Groups(observed: seq<Message>, order: seq<nat>) {
    && (forall m :: m in observed ==> m.conversation in order)
    && (forall j, k :: 0 <= j < k < |order| ==> order[j] != order[k])
  }

  function Flat(logs: seq<seq<Entry>>): seq<Entry> {
    if logs == [] then [] else Flat(logs[..|logs| - 1]) + logs[|logs| - 1]
  }

  /** One log for each conversation so far, of its own treatment. */
  ghost predicate TreatsEach(logs: seq<seq<Entry>>, observed: seq<Message>, c: Context, order: seq<nat>) {
    |logs| <= |order| && forall k :: 0 <= k < |logs| ==> Treats(logs[k], TreatmentOf(observed, c, order[k]))
  }

  lemma TreatsOneMore(logs: seq<seq<Entry>>, log: seq<Entry>, observed: seq<Message>, c: Context, order: seq<nat>)
    requires TreatsEach(logs, observed, c, order) && |logs| < |order|
    requires Treats(log, TreatmentOf(observed, c, order[|logs|]))
    ensures TreatsEach(logs + [log], observed, c, order)
  {
    hide Treats, TreatmentOf;
  }

  /** The same, with a last one that was cut short. */
  ghost predicate TreatsUpTo(logs: seq<seq<Entry>>, observed: seq<Message>, c: Context, order: seq<nat>) {
    var n := |logs| - 1;
    0 <= n < |order| && TreatsEach(logs[..n], observed, c, order) && TreatsPartly(logs[n], TreatmentOf(observed, c, order[n]))
  }

  lemma TreatsTheLastPartly(logs: seq<seq<Entry>>, log: seq<Entry>, observed: seq<Message>, c: Context, order: seq<nat>)
    requires TreatsEach(logs, observed, c, order) && |logs| < |order|
    requires TreatsPartly(log, TreatmentOf(observed, c, order[|logs|]))
    ensures TreatsUpTo(logs + [log], observed, c, order)
  {
    assert (logs + [log])[..|logs|] == logs;
  }

  lemma FlatGrows(logs: seq<seq<Entry>>, log: seq<Entry>)
    ensures Flat(logs + [log]) == Flat(logs) + log
  {
    assert (logs + [log])[..|logs|] == logs;
  }

  // --- a whole pass that nobody writes beside ----------------------------------------

  /** The same rows are there, and the one with this id is the same. */
  predicate Same(rows: map<nat, Row>, rows': map<nat, Row>, id: nat) {
    rows'.Keys == rows.Keys && (id in rows ==> rows'[id] == rows[id])
  }

  lemma SameTwice(rows: map<nat, Row>, middle: map<nat, Row>, rows': map<nat, Row>, id: nat)
    requires Same(rows, middle, id) && Same(middle, rows', id)
    ensures Same(rows, rows', id)
  {
  }

  lemma {:induction false} PlayedLeaves(rows: map<nat, Row>, writes: seq<Write>, id: nat)
    requires forall w :: w in writes ==> !Names(w, id)
    ensures Same(rows, Played(rows, writes), id)
    decreases |writes|
  {
    if writes != [] {
      var n := |writes| - 1;
      PlayedLeaves(rows, writes[..n], id);
      assert writes[n] in writes;
    }
  }

  /** A conversation's treatment leaves the rows of the others. */
  lemma UndisturbedLeaves(rows: map<nat, Row>, log: seq<Entry>, messages: seq<Message>, policy: Policy, c: Context, id: nat)
    requires Treats(log, Treat(messages, policy, c)) && Chained(rows, log) && Undisturbed(log)
    requires id !in Ids(messages)
    ensures Same(rows, End(rows, log), id)
  {
    hide Treat, Writes, Chained, End, Played;
    var won :| Performs(log, Writes(Treat(messages, policy, c), won));
    var writes := Writes(Treat(messages, policy, c), won);
    forall w | w in writes ensures !Names(w, id) {
      if Names(w, id) {
        WritesNameTheBatch(messages, policy, c, won, w, id);
      }
    }
    UndisturbedIsPlayed(rows, log, writes);
    PlayedLeaves(rows, writes, id);
  }

  /** The logs so far and the last one. */
  lemma LastLog(rows: map<nat, Row>, logs: seq<seq<Entry>>, observed: seq<Message>, c: Context, order: seq<nat>)
    requires logs != [] && TreatsEach(logs, observed, c, order) && Chained(rows, Flat(logs)) && Undisturbed(Flat(logs))
    ensures var n := |logs| - 1;
      var middle := End(rows, Flat(logs[..n]));
      && TreatsEach(logs[..n], observed, c, order) && Chained(rows, Flat(logs[..n])) && Undisturbed(Flat(logs[..n]))
      && Treats(logs[n], TreatmentOf(observed, c, order[n])) && Chained(middle, logs[n]) && Undisturbed(logs[n])
      && End(rows, Flat(logs)) == End(middle, logs[n])
  {
    hide Treats, TreatmentOf, Chained, End;
    ChainsCompose(rows, Flat(logs[..|logs| - 1]), logs[|logs| - 1]);
  }

  /** Rows of other conversations, and rows outside the batch, are left alone. */
  lemma {:induction false} PassLeaves(rows: map<nat, Row>, logs: seq<seq<Entry>>, observed: seq<Message>, c: Context, order: seq<nat>, id: nat)
    requires TreatsEach(logs, observed, c, order) && Chained(rows, Flat(logs)) && Undisturbed(Flat(logs))
    requires forall k :: 0 <= k < |logs| ==> id !in Ids(Batch(observed, order[k]))
    ensures Same(rows, End(rows, Flat(logs)), id)
    decreases |logs|
  {
    if logs != [] {
      var n := |logs| - 1;
      LastLog(rows, logs, observed, c, order);
      hide Treat, Treats, TreatsEach, Chained, End, Undisturbed, Flat, Ids, Batch, Same;
      PassLeaves(rows, logs[..n], observed, c, order, id);
      UndisturbedLeaves(End(rows, Flat(logs[..n])), logs[n], Batch(observed, order[n]), PolicyOf(c, order[n]), c, id);
      SameTwice(rows, End(rows, Flat(logs[..n])), End(rows, Flat(logs)), id);
    } else {
      assert End(rows, Flat(logs)) == rows;
    }
  }

  lemma OtherBatches(observed: seq<Message>, conversation: nat, m: Message)
    requires DistinctIds(observed) && m in observed
    ensures DistinctIds(Batch(observed, conversation))
    ensures m in Batch(observed, conversation) <==> m.conversation == conversation
    ensures m.id in Ids(Batch(observed, conversation)) <==> m.conversation == conversation
  {
  }

  /** If nobody writes beside the pass, every row of the batch ends as its own conversation's treatment says. */
  lemma {:induction false} UndisturbedPass(rows: map<nat, Row>, logs: seq<seq<Entry>>, observed: seq<Message>, c: Context,
                                           order: seq<nat>, m: Message)
    requires DistinctIds(observed) && Groups(observed, order) && TreatsEach(logs, observed, c, order)
    requires Chained(rows, Flat(logs)) && Undisturbed(Flat(logs))
    requires m in observed && m.id in rows && m.conversation in order[..|logs|]
    ensures m.id in End(rows, Flat(logs))
    ensures var t := TreatmentOf(observed, c, m.conversation);
      FinalOutcome(rows[m.id], End(rows, Flat(logs))[m.id], t, m, t.verdict.Promote? && StillObserved(rows, t.verdict.trigger.id))
    decreases |logs|
  {
    hide Treat, Treats, Groups, Chained, End, Undisturbed, Flat, Ids, Batch, FinalOutcome, DistinctIds;
    var n := |logs| - 1;
    var middle := End(rows, Flat(logs[..n]));
    if m.conversation == order[n] {
      LastOutcome(rows, logs, observed, c, order, m);
    } else {
      LastLog(rows, logs, observed, c, order);
      OtherBatches(observed, order[n], m);
      assert order[..|logs|] == order[..n] + [order[n]];
      UndisturbedPass(rows, logs[..n], observed, c, order, m);
      UndisturbedLeaves(middle, logs[n], Batch(observed, order[n]), PolicyOf(c, order[n]), c, m.id);
    }
  }

  /** The conversation whose turn was last. */
  lemma LastOutcome(rows: map<nat, Row>, logs: seq<seq<Entry>>, observed: seq<Message>, c: Context, order: seq<nat>, m: Message)
    requires logs != [] && DistinctIds(observed) && Groups(observed, order) && TreatsEach(logs, observed, c, order)
    requires Chained(rows, Flat(logs)) && Undisturbed(Flat(logs))
    requires m in observed && m.id in rows && m.conversation == order[|logs| - 1]
    ensures m.id in End(rows, Flat(logs))
    ensures var t := TreatmentOf(observed, c, m.conversation);
      FinalOutcome(rows[m.id], End(rows, Flat(logs))[m.id], t, m, t.verdict.Promote? && StillObserved(rows, t.verdict.trigger.id))
  {
    var n := |logs| - 1;
    LastLog(rows, logs, observed, c, order);
    OtherBatches(observed, order[n], m);
    TreatmentOfBatch(observed, c, order[n]);
    LastIsFirst(rows, logs, observed, c, order, m);
    hide Treat, Treats, TreatsEach, Groups, Chained, End, Undisturbed, Flat, Ids, Batch, FinalOutcome, DistinctIds, StillObserved;
    var t := TreatmentOf(observed, c, order[n]);
    if t.verdict.Promote? {
      LastIsFirst(rows, logs, observed, c, order, t.verdict.trigger);
      StillTheSame(rows, End(rows, Flat(logs[..n])), t.verdict.trigger.id);
    }
    UndisturbedOutcome(End(rows, Flat(logs[..n])), logs[n], Batch(observed, order[n]), PolicyOf(c, order[n]), c, m);
  }

  lemma StillTheSame(rows: map<nat, Row>, rows': map<nat, Row>, id: nat)
    requires Same(rows, rows', id)
    ensures StillObserved(rows', id) == StillObserved(rows, id)
  {
  }

  lemma TreatmentOfBatch(observed: seq<Message>, c: Context, conversation: nat)
    ensures var t := TreatmentOf(observed, c, conversation);
      t.verdict.Promote? ==> t.verdict.trigger in observed && t.verdict.trigger.conversation == conversation
  {
  }

  /** A conversation's rows are as the pass found them when its turn comes. */
  lemma LastIsFirst(rows: map<nat, Row>, logs: seq<seq<Entry>>, observed: seq<Message>, c: Context, order: seq<nat>, m: Message)
    requires logs != [] && DistinctIds(observed) && Groups(observed, order) && TreatsEach(logs, observed, c, order)
    requires Chained(rows, Flat(logs)) && Undisturbed(Flat(logs))
    requires m in observed && m.conversation == order[|logs| - 1]
    ensures Same(rows, End(rows, Flat(logs[..|logs| - 1])), m.id)
  {
    var n := |logs| - 1;
    LastLog(rows, logs, observed, c, order);
    forall k | 0 <= k < n ensures m.id !in Ids(Batch(observed, order[k])) {
      OtherBatches(observed, order[k], m);
    }
    hide Treats, TreatsEach, Chained, End, Undisturbed, Flat, Ids, Batch, Same;
    PassLeaves(rows, logs[..n], observed, c, order, m.id);
  }

  class ExternalMessages {
    var rows: map<nat, Row>
    /** The statements of the passes so far. */
    ghost var log: seq<Entry>
    /** How many calls have failed: statements, reads of rollups, and the judge. */
    ghost var faults: nat

    constructor (rows: map<nat, Row>)
      ensures this.rows == rows && log == []
    {
      this.rows, log, faults := rows, [], 0;
    }

    /** One statement, after whatever other actors did to the table during the await. It may fail before or after it
        takes effect; one without effect leaves no entry. */
    method Issue(write: Write) returns (threw: bool, hit: bool, ghost done: seq<Entry>)
      modifies this
      ensures (if threw then Begins(done, [write]) else Performs(done, [write])) && Wrote(old(rows), old(log), done, rows, log)
      ensures hit <==> exists e :: e in done && Promoted(e)
      ensures faults == old(faults) + if threw then 1 else 0
    {
      var fails: bool := *;
      threw, hit, done := fails, false, [];
      WroteNothing(rows, log);
      if fails {
        faults := faults + 1;
        return;
      }
      ghost var before := rows;
      rows := *;
      ghost var e := Entry(write, before, rows, Effect(rows, write));
      hit := write.Promoting? && write.id in rows && rows[write.id].status.Observed?;
      rows := Effect(rows, write);
      done, log := [e], log + [e];
      ChainedOne(before, e);
      assert e in done;
      threw := *;
      if threw {
        faults := faults + 1;
      }
    }

    method MarkAmbientIgnored(messages: seq<Message>) returns (threw: bool, ghost done: seq<Entry>)
      modifies this
      ensures if threw then Begins(done, IgnoreWrite(messages)) else Performs(done, IgnoreWrite(messages))
      ensures Wrote(old(rows), old(log), done, rows, log) && faults == old(faults) + if threw then 1 else 0
    {
      threw, done := false, [];
      WroteNothing(rows, log);
      if messages != [] {
        var hit;
        threw, hit, done := Issue(Ignoring(Ids(messages)));
      }
    }

    method PromoteAmbientTrigger(id: nat, reason: Option<string>) returns (threw: bool, promoted: bool, ghost done: seq<Entry>)
      modifies this
      ensures if threw then Begins(done, [Promoting(id, reason)]) else Performs(done, [Promoting(id, reason)])
      ensures Wrote(old(rows), old(log), done, rows, log) && faults == old(faults) + if threw then 1 else 0
      ensures promoted <==> exists e :: e in done && Promoted(e)
    {
      threw, promoted, done := Issue(Promoting(id, reason));
    }

    /** `Map` grouping: conversations in the order of their first message. */
    static method GroupByConversation(observed: seq<Message>) returns (order: seq<nat>)
      ensures Groups(observed, order)
    {
      order := [];
      for i := 0 to |observed|
        invariant forall k :: 0 <= k < i ==> observed[k].conversation in order
        invariant forall j, k :: 0 <= j < k < |order| ==> order[j] != order[k]
      {
        if observed[i].conversation !in order {
          order := order + [observed[i].conversation];
        }
      }
    }

    /** Ask for a decision on the evaluated messages and write it. The judge may fail. */
    method JudgeEvaluated(evaluated: seq<Message>, policy: Policy, c: Context)
      returns (threw: bool, ghost done: seq<Entry>, ghost won: bool)
      modifies this
      ensures var writes := VerdictWrites(evaluated, VerdictOf(evaluated, policy, c), won);
        if threw then Begins(done, writes) else Performs(done, writes)
      ensures Wrote(old(rows), old(log), done, rows, log) && (won <==> exists e :: e in done && Promoted(e))
      ensures faults == old(faults) + if threw then 1 else 0
    {
      threw, done, won := false, [], false;
      WroteNothing(rows, log);
      if |evaluated| == 0 || evaluated[|evaluated| - 1].createdAt > c.now - c.debounce {
        return;
      }
      var latest := evaluated[|evaluated| - 1];
      var judged := Last(evaluated, AMBIENT_CONTEXT_MESSAGES);
      var judgeFails: bool := *;
      if judgeFails && c.judge.Some? && FindLast(judged, m => IsActionable(m, policy)).None? {
        faults := faults + 1;
        threw := true;
        return;
      }
      var decision := Decide(judged, policy, c);
      var asked := Find(judged, (m: Message) => decision.askedBy == Some(m.event));
      var trigger := if asked.Some? then asked.value else latest;
      if !decision.act {
        threw, done := MarkAmbientIgnored(evaluated);
        return;
      }
      threw, done, won := PromoteAndIgnore(evaluated, trigger, decision.reason);
    }

    method PromoteAndIgnore(evaluated: seq<Message>, trigger: Message, reason: Option<string>)
      returns (threw: bool, ghost done: seq<Entry>, ghost won: bool)
      modifies this
      ensures var writes := VerdictWrites(evaluated, Promote(trigger, reason), won);
        if threw then Begins(done, writes) else Performs(done, writes)
      ensures Wrote(old(rows), old(log), done, rows, log) && (won <==> exists e :: e in done && Promoted(e))
      ensures faults == old(faults) + if threw then 1 else 0
    {
      ghost var before, past := rows, log;
      var promoted;
      threw, promoted, done := PromoteAmbientTrigger(trigger.id, reason);
      won := promoted;
      if promoted && !threw {
        ghost var middle, log1, rest := rows, log, [];
        threw, rest := MarkAmbientIgnored(Filter(evaluated, (m: Message) => m.id != trigger.id));
        WroteMore(before, past, done, middle, log1, rest, rows, log);
        assert (done + rest)[0] in done + rest;
        done := done + rest;
      }
    }

    /** One conversation: ignore, wait, dismiss, or promote one row and ignore the others. */
    method EvaluateConversation(messages: seq<Message>, policy: Policy, c: Context) returns (threw: bool, ghost done: seq<Entry>)
      modifies this
      ensures var t := Treat(messages, policy, c); if threw then TreatsPartly(done, t) else Treats(done, t)
      ensures Wrote(old(rows), old(log), done, rows, log) && faults == old(faults) + if threw then 1 else 0
    {
      ghost var t := Treat(messages, policy, c);
      assert Performs([], VerdictWrites([], Wait, false)) && Begins([], VerdictWrites([], Wait, false));
      hide Wrote, Treats, TreatsPartly, Writes, Performs, Begins, VerdictOf, VerdictWrites;
      if !policy.enabled {
        threw, done := MarkAmbientIgnored(messages);
        if threw {
          TreatsTheIgnored(t, done);
        } else {
          TreatsInTwo(t, done, [], false);
          assert done + [] == done;
        }
        return;
      }
      ghost var before, past := rows, log;
      var ignored := Filter(messages, m => IsIgnored(m, policy));
      threw, done := MarkAmbientIgnored(ignored);
      var candidates := Filter(messages, m => !IsIgnored(m, policy));
      var immediate := exists m :: m in candidates && IsImmediate(m, policy);
      var rollupsUnread: bool := *;
      if threw || (rollupsUnread && candidates != [] && !immediate) {
        if !threw {
          faults := faults + 1;
        }
        WholeBegins(done, IgnoreWrite(ignored));
        TreatsTheIgnored(t, done);
        return true, done;
      }
      var evaluated := if immediate then candidates else Filter(candidates, m => IsDue(m, policy, c));
      ghost var middle, log1, rest, won := rows, log, [], false;
      threw, rest, won := JudgeEvaluated(evaluated, policy, c);
      WholeBegins(rest, VerdictWrites(t.evaluated, t.verdict, won));
      WroteMore(before, past, done, middle, log1, rest, rows, log);
      TreatsInTwo(t, done, rest, won);
      done := done + rest;
    }

    method EvaluateBatch(observed: seq<Message>, c: Context, conversation: nat) returns (threw: bool, ghost done: seq<Entry>)
      modifies this
      ensures var t := TreatmentOf(observed, c, conversation); if threw then TreatsPartly(done, t) else Treats(done, t)
      ensures Wrote(old(rows), old(log), done, rows, log) && faults == old(faults) + if threw then 1 else 0
    {
      hide Wrote, Treats, TreatsPartly, Treat;
      threw, done := EvaluateConversation(Batch(observed, conversation), PolicyOf(c, conversation), c);
    }

    /** The pass gives every conversation of the batch its own treatment, once, and writes nothing else. An exception
        ends it in the middle of one treatment, and there is one exactly when a call has failed. */
    method EvaluateAmbient(observed: seq<Message>, c: Context)
      returns (threw: bool, ghost order: seq<nat>, ghost logs: seq<seq<Entry>>)
      modifies this
      ensures Groups(observed, order)
      ensures if threw then TreatsUpTo(logs, observed, c, order) else |logs| == |order| && TreatsEach(logs, observed, c, order)
      ensures Wrote(old(rows), old(log), Flat(logs), rows, log) && faults == old(faults) + if threw then 1 else 0
    {
      assert Flat([]) == [];
      assert forall order :: TreatsEach([], observed, c, order);
      WroteNothing(rows, log);
      hide Wrote, Flat, Treats, TreatsPartly, TreatsEach, TreatsUpTo, TreatmentOf, Groups;
      ghost var before, past := rows, log;
      var conversations := GroupByConversation(observed);
      threw, order, logs := false, conversations, [];
      for k := 0 to |conversations|
        invariant |logs| == k && TreatsEach(logs, observed, c, conversations)
        invariant Wrote(before, past, Flat(logs), rows, log) && faults == old(faults)
      {
        ghost var middle, log1, done := rows, log, [];
        threw, done := EvaluateBatch(observed, c, conversations[k]);
        WroteMore(before, past, Flat(logs), middle, log1, done, rows, log);
        FlatGrows(logs, done);
        if threw {
          TreatsTheLastPartly(logs, done, observed, c, conversations);
          logs := logs + [done];
          return;
        }
        TreatsOneMore(logs, done, observed, c, conversations);
        logs := logs + [done];
      }
      threw := false;
    }
  }

  lemma WholeBegins(log: seq<Entry>, writes: seq<Write>)
    ensures Performs(log, writes) ==> Begins(log, writes)
  {
  }
}
