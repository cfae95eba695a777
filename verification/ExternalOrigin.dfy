/**
 The walk from a delegated run back to the chat message that started it.

 The reply graph is whatever the tables hold: links may be missing, and they may form cycles.
 */
module ExternalOrigin {
  import opened Wrappers

  const BOT_MESSAGE_MAX_HOPS := 6

  datatype External = External(conversation: nat, replyThread: Option<nat>)

  /** `replies`: the run a message replies to. `sources`: the message a run came from. */
  datatype Graph = Graph(replies: map<nat, nat>, sources: map<nat, nat>, externals: map<nat, External>)

  function Lookup<T>(m: map<nat, T>, key: Option<nat>): Option<T> {
    if key.Some? && key.value in m then Some(m[key.value]) else None
  }

  /** The run reached after `k` more hops, if every link on the way is there. */
  function Ancestor(g: Graph, source: Option<nat>, k: nat): Option<nat> {
    if k == 0 then Lookup(g.replies, source)
    else Lookup(g.replies, Lookup(g.sources, Ancestor(g, source, k - 1)))
  }

  predicate Linked(g: Graph, run: Option<nat>) {
    Lookup(g.externals, run).Some?
  }

  /** `k` is the nearest linked ancestor. */
  ghost predicate Nearest(g: Graph, source: Option<nat>, k: nat) {
    Linked(g, Ancestor(g, source, k)) && forall j :: 0 <= j < k ==> !Linked(g, Ancestor(g, source, j))
  }

  lemma {:induction false} GapsLast(g: Graph, source: Option<nat>, k: nat, n: nat)
    requires k <= n && Ancestor(g, source, k).None?
    ensures Ancestor(g, source, n).None?
  {
    if k < n {
      GapsLast(g, source, k, n - 1);
    }
  }

  /** Once a run repeats, the walk goes round in a circle. */
  lemma {:induction false} RepeatsAreCycles(g: Graph, source: Option<nat>, j: nat, k: nat, n: nat)
    requires j < k <= n && Ancestor(g, source, j) == Ancestor(g, source, k)
    ensures Ancestor(g, source, n) == Ancestor(g, source, n - (k - j))
  {
    if k < n {
      RepeatsAreCycles(g, source, j, k, n - 1);
    }
  }

  /** So stopping at a repeated run loses nothing: no linked ancestor lies beyond it. */
  lemma {:induction false} NothingBeyondARepeat(g: Graph, source: Option<nat>, j: nat, k: nat, n: nat)
    requires j < k && Ancestor(g, source, j) == Ancestor(g, source, k)
    requires forall i :: 0 <= i < k ==> !Linked(g, Ancestor(g, source, i))
    ensures !Linked(g, Ancestor(g, source, n))
    decreases n
  {
    if k <= n {
      RepeatsAreCycles(g, source, j, k, n);
      NothingBeyondARepeat(g, source, j, k, n - (k - j));
    }
  }

  /**
   The nearest linked ancestor within the hop bound, or nothing when there is none. The check
   for repeated runs saves steps on a cyclic graph and never changes the answer.
   */
  method FindExternalOrigin(g: Graph, source: Option<nat>) returns (origin: Option<External>)
    ensures origin.None? ==> forall k :: 0 <= k <= BOT_MESSAGE_MAX_HOPS ==> !Linked(g, Ancestor(g, source, k))
    ensures origin.Some? ==> exists k :: 0 <= k <= BOT_MESSAGE_MAX_HOPS && Nearest(g, source, k)
                                         && Lookup(g.externals, Ancestor(g, source, k)) == origin
  {
    var current := source;
    var visited: set<nat> := {};
    var depth := 0;
    while current.Some? && depth <= BOT_MESSAGE_MAX_HOPS
      invariant 0 <= depth <= BOT_MESSAGE_MAX_HOPS + 1
      invariant Lookup(g.replies, current) == Ancestor(g, source, depth)
      invariant forall i :: 0 <= i < depth ==> Ancestor(g, source, i).Some? && !Linked(g, Ancestor(g, source, i))
      invariant forall run :: run in visited ==> exists i :: 0 <= i < depth && Ancestor(g, source, i) == Some(run)
      decreases BOT_MESSAGE_MAX_HOPS + 1 - depth
    {
      var parent := Lookup(g.replies, current);
      if parent.None? || parent.value in visited {
        forall k | 0 <= k <= BOT_MESSAGE_MAX_HOPS
          ensures !Linked(g, Ancestor(g, source, k))
        {
          if k >= depth {
            if parent.None? {
              GapsLast(g, source, depth, k);
            } else {
              var j :| 0 <= j < depth && Ancestor(g, source, j) == parent;
              NothingBeyondARepeat(g, source, j, depth, k);
            }
          }
        }
        return None;
      }
      visited := visited + {parent.value};
      var external := Lookup(g.externals, parent);
      if external.Some? {
        assert Nearest(g, source, depth);
        return external;
      }
      current := Lookup(g.sources, parent);
      depth := depth + 1;
    }
    if current.None? {
      forall k | 0 <= k <= BOT_MESSAGE_MAX_HOPS
        ensures !Linked(g, Ancestor(g, source, k))
      {
        if k >= depth {
          GapsLast(g, source, depth, k);
        }
      }
    }
    return None;
  }
}
