/**
 The client nonces that make a delivery idempotent and a routine wake findable. The digest is
 an injective function whose results hold no colon.
 */
module Nonces {
  datatype Source = Webhook | Github | Messaging

  function Name(source: Source): string {
    match source
    case Webhook => "webhook"
    case Github => "github"
    case Messaging => "messaging"
  }

  function MessagingWakeIdempotencyKey(provider: string, handle: string): string {
    provider + [':'] + handle
  }

  function InboundDeliveryClientNonce(source: Source, bot: string, key: string, digest: string -> string): string {
    Name(source) + [':'] + (bot + [':'] + digest(key))
  }

  /** The nonce of the fallback agent run. */
  function AgentNonce(provider: string, event: string): string {
    "teamchat" + [':'] + (provider + [':'] + event)
  }

  ghost predicate IsDigest(digest: string -> string) {
    && (forall a, b :: digest(a) == digest(b) ==> a == b)
    && (forall a :: ':' !in digest(a))
  }

  lemma SplitsAtFirstColon(a: string, b: string, c: string, d: string)
    requires ':' !in a && ':' !in c && a + [':'] + b == c + [':'] + d
    ensures a == c && b == d
  {
    var s := a + [':'] + b;
    assert s[|a|] == ':' && s[|c|] == ':';
    assert forall i :: 0 <= i < |a| ==> s[i] == a[i];
    assert forall i :: 0 <= i < |c| ==> s[i] == c[i];
    assert |a| == |c|;
    assert a == s[..|a|] && c == s[..|c|] && b == s[|a| + 1..] && d == s[|c| + 1..];
  }

  /** A colon further on in `c` is taken for the separator: what lies between moves over to `d`. */
  predicate MovesOver(a: string, b: string, c: string, d: string) {
    |a| < |c| && c[..|a| + 1] == a + [':'] && b == c[|a| + 1..] + [':'] + d
  }

  /** Two pairs that are joined by a colon give the same text exactly if they are the same or a part moves over. */
  lemma SplitsExactly(a: string, b: string, c: string, d: string)
    ensures a + [':'] + b == c + [':'] + d <==> (a == c && b == d) || MovesOver(a, b, c, d) || MovesOver(c, d, a, b)
  {
    var s, t := a + [':'] + b, c + [':'] + d;
    if s == t {
      if |a| <= |c| {
        SplitsBefore(a, b, c, d);
      } else {
        SplitsBefore(c, d, a, b);
      }
    } else {
      if MovesOver(a, b, c, d) {
        JoinsUp(a, b, c, d);
      }
      if MovesOver(c, d, a, b) {
        JoinsUp(c, d, a, b);
      }
    }
  }

  lemma SplitsBefore(a: string, b: string, c: string, d: string)
    requires |a| <= |c| && a + [':'] + b == c + [':'] + d
    ensures (a == c && b == d) || MovesOver(a, b, c, d)
  {
    var s := c + [':'] + d;
    assert s[..|a|] == a && s[|a|] == ':' && s[|a| + 1..] == b by {
      assert s == a + [':'] + b;
    }
    assert s[..|c|] == c && s[|c| + 1..] == d;
    if |a| < |c| {
      assert s[..|a| + 1] == c[..|a| + 1];
      assert s[|a| + 1..] == c[|a| + 1..] + [':'] + d;
    }
  }

  lemma JoinsUp(a: string, b: string, c: string, d: string)
    requires MovesOver(a, b, c, d)
    ensures a + [':'] + b == c + [':'] + d
  {
    assert c == c[..|a| + 1] + c[|a| + 1..];
    assert a + [':'] + (c[|a| + 1..] + [':'] + d) == (a + [':'] + c[|a| + 1..]) + [':'] + d;
  }

  lemma SplitsAtLastColon(a: string, b: string, c: string, d: string)
    requires ':' !in b && ':' !in d && a + [':'] + b == c + [':'] + d
    ensures a == c && b == d
  {
    var s := a + [':'] + b;
    assert s[|a|] == ':' && s[|c|] == ':';
    assert forall i :: 0 <= i < |b| ==> s[|a| + 1 + i] == b[i];
    assert forall i :: 0 <= i < |d| ==> s[|c| + 1 + i] == d[i];
    assert |a| == |c|;
    assert a == s[..|a|] && c == s[..|c|] && b == s[|a| + 1..] && d == s[|c| + 1..];
  }

  /** A nonce names its source, its bot and its key, whatever the bot is called. */
  lemma DeliveryNonceIsInjective(source: Source, bot: string, key: string, source': Source, bot': string, key': string, digest: string -> string)
    requires IsDigest(digest)
    ensures InboundDeliveryClientNonce(source, bot, key, digest) == InboundDeliveryClientNonce(source', bot', key', digest)
      <==> source == source' && bot == bot' && key == key'
  {
    if InboundDeliveryClientNonce(source, bot, key, digest) == InboundDeliveryClientNonce(source', bot', key', digest) {
      SplitsAtFirstColon(Name(source), bot + [':'] + digest(key), Name(source'), bot' + [':'] + digest(key'));
      SplitsAtLastColon(bot, digest(key), bot', digest(key'));
      assert Name(source)[0] == Name(source')[0];
    }
  }

  /** Looking a wake up by provider and handle finds that event's wake, and another's exactly if a part of the provider moves over. */
  lemma WakeIsFoundByItsEvent(bot: string, provider: string, handle: string, provider': string, handle': string, digest: string -> string)
    requires IsDigest(digest)
    ensures InboundDeliveryClientNonce(Messaging, bot, MessagingWakeIdempotencyKey(provider, handle), digest)
         == InboundDeliveryClientNonce(Messaging, bot, MessagingWakeIdempotencyKey(provider', handle'), digest)
      <==> (provider == provider' && handle == handle')
           || MovesOver(provider, handle, provider', handle') || MovesOver(provider', handle', provider, handle)
  {
    var key, key' := MessagingWakeIdempotencyKey(provider, handle), MessagingWakeIdempotencyKey(provider', handle');
    DeliveryNonceIsInjective(Messaging, bot, key, Messaging, bot, key', digest);
    SplitsExactly(provider, handle, provider', handle');
  }

  /** Only a provider with a colon has a part that moves over, so providers without one never share a key. */
  lemma OnlyColonsMoveOver(provider: string, handle: string, provider': string, handle': string)
    ensures MovesOver(provider, handle, provider', handle') ==> ':' in provider'
  {
    if MovesOver(provider, handle, provider', handle') {
      assert provider'[..|provider| + 1][|provider|] == ':';
    }
  }

  /** With a colon in a provider's name two events can share a key. */
  lemma ColonsMakeKeysClash()
    ensures MessagingWakeIdempotencyKey("a:b", "c") == MessagingWakeIdempotencyKey("a", "b:c")
    ensures MovesOver("a", "b:c", "a:b", "c")
  {
  }

  /** The agent's message is never taken for a wake, nor a wake for the agent's message. */
  lemma AgentIsNoWake(source: Source, bot: string, key: string, digest: string -> string, provider: string, event: string)
    ensures InboundDeliveryClientNonce(source, bot, key, digest) != AgentNonce(provider, event)
  {
    if InboundDeliveryClientNonce(source, bot, key, digest) == AgentNonce(provider, event) {
      SplitsAtFirstColon(Name(source), bot + [':'] + digest(key), "teamchat", provider + [':'] + event);
      assert false;
    }
  }

  /** Two events share an agent nonce exactly if they share a wake key. */
  lemma AgentNonceIsInjective(provider: string, event: string, provider': string, event': string)
    ensures AgentNonce(provider, event) == AgentNonce(provider', event')
      <==> (provider == provider' && event == event')
           || MovesOver(provider, event, provider', event') || MovesOver(provider', event', provider, event)
  {
    if AgentNonce(provider, event) == AgentNonce(provider', event') {
      SplitsAtFirstColon("teamchat", provider + [':'] + event, "teamchat", provider' + [':'] + event');
    }
    SplitsExactly(provider, event, provider', event');
  }
}
