/** Who decides what an ambient pass does with a conversation: its policies, the debounce, an actionable sender, or the judge. */
module TeamChatVerdicts {
  import opened Wrappers
  import opened Sequences
  import opened TeamChatAmbient

  /** A bot without a policy, or with one to ignore it. */
  predicate ToIgnore(m: Message, policy: Policy) {
    m.senderIsBot && (m.sender !in policy.senders || policy.senders[m.sender] == Mode.Ignore)
  }

  /** A bot that is summed up every so many hours, and when it is due again; zero hours are never due. */
  predicate IsRollup(m: Message, policy: Policy) {
    m.senderIsBot && m.sender in policy.senders && policy.senders[m.sender].Rollup?
  }

  predicate RollupIsDue(m: Message, policy: Policy, c: Context)
    requires IsRollup(m, policy)
  {
    var key, hours := (m.conversation, m.sender), policy.senders[m.sender].hours;
    hours > 0 && (key in c.judged ==> c.now - c.judged[key] >= hours * 3_600_000)
  }

  /** What a pass looks at: everything but the ignored senders; of rollups, unless somebody else wrote, only the due ones. */
  predicate IsLookedAt(messages: seq<Message>, policy: Policy, c: Context, m: Message) {
    && policy.enabled && !ToIgnore(m, policy)
    && ((exists x :: x in messages && !ToIgnore(x, policy) && !IsRollup(x, policy)) || (IsRollup(m, policy) && RollupIsDue(m, policy, c)))
  }

  /** A conversation that is not enabled is ignored altogether, otherwise exactly the senders to ignore are, and what is
      looked at is evaluated, in order. */
  lemma TreatmentIs(messages: seq<Message>, policy: Policy, c: Context)
    ensures var t := Treat(messages, policy, c);
      && t.ignored == Filter(messages, (m: Message) => !policy.enabled || ToIgnore(m, policy))
      && t.evaluated == Filter(messages, (m: Message) => IsLookedAt(messages, policy, c, m))
  {
    hide Filter;
    if !policy.enabled {
      FilterAll(messages, (m: Message) => !policy.enabled || ToIgnore(m, policy));
      FilterNone(messages, (m: Message) => IsLookedAt(messages, policy, c, m));
    } else {
      IgnoredAre(messages, policy);
      EvaluatedAre(messages, policy, c);
    }
  }

  lemma IgnoredAre(messages: seq<Message>, policy: Policy)
    requires policy.enabled
    ensures Filter(messages, m => IsIgnored(m, policy)) == Filter(messages, (m: Message) => !policy.enabled || ToIgnore(m, policy))
  {
    FilterAgrees(messages, m => IsIgnored(m, policy), (m: Message) => !policy.enabled || ToIgnore(m, policy));
  }

  lemma EvaluatedAre(messages: seq<Message>, policy: Policy, c: Context)
    requires policy.enabled
    ensures Evaluated(Filter(messages, m => !IsIgnored(m, policy)), policy, c)
         == Filter(messages, (m: Message) => IsLookedAt(messages, policy, c, m))
  {
    var candidates := Filter(messages, m => !IsIgnored(m, policy));
    var lookedAt := (m: Message) => IsLookedAt(messages, policy, c, m);
    forall m | m in candidates ensures IsImmediate(m, policy) <==> !IsRollup(m, policy) {
    }
    if x :| x in candidates && IsImmediate(x, policy) {
      assert x in messages && !ToIgnore(x, policy) && !IsRollup(x, policy);
      FilterAgrees(messages, m => !IsIgnored(m, policy), lookedAt);
    } else {
      forall x | x in messages && !ToIgnore(x, policy) ensures IsRollup(x, policy) {
        assert x in candidates;
      }
      FilterTwice(messages, m => !IsIgnored(m, policy), m => IsDue(m, policy, c), lookedAt);
    }
  }

  lemma {:induction false} FilterTwice(s: seq<Message>, p: Message -> bool, q: Message -> bool, both: Message -> bool)
    requires forall m :: m in s ==> both(m) == (p(m) && q(m))
    ensures Filter(Filter(s, p), q) == Filter(s, both)
  {
    if s != [] {
      FilterTwice(s[1..], p, q, both);
      if p(s[0]) {
        assert ([s[0]] + Filter(s[1..], p))[1..] == Filter(s[1..], p);
      }
    }
  }

  /** The last twenty messages that are looked at. */
  function JudgedOf(evaluated: seq<Message>): seq<Message> {
    if |evaluated| <= 20 then evaluated else evaluated[|evaluated| - 20..]
  }

  /** Nothing to look at, or something came within the debounce. */
  predicate IsUnsettled(evaluated: seq<Message>, c: Context) {
    evaluated == [] || c.now - evaluated[|evaluated| - 1].createdAt < c.debounce
  }

  /** The last message of a sender configured as actionable. */
  ghost predicate LastActionable(judged: seq<Message>, policy: Policy, m: Message) {
    exists k :: 0 <= k < |judged| && judged[k] == m && ActionSender(m, policy) && forall j :: k < j < |judged| ==> !ActionSender(judged[j], policy)
  }

  predicate ActionSender(m: Message, policy: Policy) {
    m.senderIsBot && m.sender in policy.senders && policy.senders[m.sender] == Mode.Action
  }

  /** The first message of the event the decision was asked by, or the latest one. */
  ghost predicate IsTrigger(evaluated: seq<Message>, askedBy: Option<nat>, m: Message)
    requires evaluated != []
  {
    var judged := JudgedOf(evaluated);
    if k :| 0 <= k < |judged| && askedBy == Some(judged[k].event) && forall j :: 0 <= j < k ==> askedBy != Some(judged[j].event)
    then m == judged[k] else m == evaluated[|evaluated| - 1]
  }

  lemma {:induction false} FindLastIs(s: seq<Message>, policy: Policy)
    ensures var found := FindLast(s, m => IsActionable(m, policy));
      if found.Some? then LastActionable(s, policy, found.value) else forall k :: 0 <= k < |s| ==> !ActionSender(s[k], policy)
  {
    if s != [] {
      var shorter, last := s[..|s| - 1], s[|s| - 1];
      FindLastIs(shorter, policy);
      if ActionSender(last, policy) {
        assert s[|s| - 1] == last;
      } else {
        var found := FindLast(shorter, m => IsActionable(m, policy));
        if found.Some? {
          var k :| 0 <= k < |shorter| && shorter[k] == found.value && ActionSender(found.value, policy)
                   && forall j :: k < j < |shorter| ==> !ActionSender(shorter[j], policy);
          forall j | k < j < |s| ensures !ActionSender(s[j], policy) {
            if j < |shorter| { assert !ActionSender(shorter[j], policy); }
          }
          assert s[k] == found.value;
        }
      }
    }
  }

  lemma {:induction false} FirstAsked(s: seq<Message>, askedBy: Option<nat>)
    ensures var found := Find(s, (m: Message) => askedBy == Some(m.event));
      if found.Some? then exists k :: 0 <= k < |s| && s[k] == found.value && askedBy == Some(s[k].event) && forall j :: 0 <= j < k ==> askedBy != Some(s[j].event)
      else forall k :: 0 <= k < |s| ==> askedBy != Some(s[k].event)
  {
    if s != [] && askedBy != Some(s[0].event) {
      FirstAsked(s[1..], askedBy);
      var found := Find(s[1..], (m: Message) => askedBy == Some(m.event));
      if found.Some? {
        var k :| 0 <= k < |s[1..]| && s[1..][k] == found.value && askedBy == Some(s[1..][k].event)
                 && forall j :: 0 <= j < k ==> askedBy != Some(s[1..][j].event);
        forall j | 0 <= j < k + 1 ensures askedBy != Some(s[j].event) {
          if j > 0 { assert s[j] == s[1..][j - 1]; }
        }
        assert s[k + 1] == found.value;
      } else {
        forall j | 0 <= j < |s| ensures askedBy != Some(s[j].event) {
          if j > 0 { assert s[j] == s[1..][j - 1]; }
        }
      }
    }
  }

  lemma TriggerIs(evaluated: seq<Message>, askedBy: Option<nat>)
    requires evaluated != []
    ensures var asked := Find(JudgedOf(evaluated), (m: Message) => askedBy == Some(m.event));
      IsTrigger(evaluated, askedBy, if asked.Some? then asked.value else evaluated[|evaluated| - 1])
  {
    FirstAsked(JudgedOf(evaluated), askedBy);
  }

  /** While a conversation is not settled the pass waits. Then the last message of an actionable sender promotes, else the
      judge decides, and without a judge everything is dismissed. What is promoted is the message that was asked by, or
      the latest one. */
  lemma VerdictIs(messages: seq<Message>, policy: Policy, c: Context)
    ensures var t := Treat(messages, policy, c);
      var judged := JudgedOf(t.evaluated);
      if IsUnsettled(t.evaluated, c) then t.verdict == Wait
      else if exists m :: m in judged && ActionSender(m, policy) then
        && t.verdict.Promote? && t.verdict.reason == Some("configured as actionable")
        && exists m :: LastActionable(judged, policy, m) && IsTrigger(t.evaluated, Some(m.event), t.verdict.trigger)
      else if c.judge.Some? && c.judge.value(judged).act then
        t.verdict.Promote? && t.verdict.reason == c.judge.value(judged).reason
        && IsTrigger(t.evaluated, c.judge.value(judged).askedBy, t.verdict.trigger)
      else t.verdict == Dismiss
  {
    hide Filter, Find, FindLast, IsTrigger, LastActionable, IsActionable;
    var t := Treat(messages, policy, c);
    if policy.enabled && !IsUnsettled(t.evaluated, c) {
      var judged := JudgedOf(t.evaluated);
      assert judged == Last(t.evaluated, AMBIENT_CONTEXT_MESSAGES);
      FindLastIs(judged, policy);
      Decides(judged, policy, c);
      TriggerIs(t.evaluated, Decide(judged, policy, c).askedBy);
    }
  }

  lemma Decides(judged: seq<Message>, policy: Policy, c: Context)
    ensures var d := Decide(judged, policy, c);
      if exists m :: m in judged && ActionSender(m, policy) then
        d.act && d.reason == Some("configured as actionable") && exists m :: LastActionable(judged, policy, m) && d.askedBy == Some(m.event)
      else if c.judge.Some? then d == c.judge.value(judged)
      else !d.act
  {
    FindLastIs(judged, policy);
  }
}
