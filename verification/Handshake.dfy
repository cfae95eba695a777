/**
 Forwarding an upgrade handshake: the response head is held back until its end is seen, searching
 each chunk with only the last three bytes of what came before.
 */
module Handshake {
  import opened Wrappers

  newtype byte = b: int | 0 <= b < 256

  const LIMIT := 64 * 1024

  /** CR LF CR LF, the end of a header section. */
  const BOUNDARY: seq<byte> := [13, 10, 13, 10]

  ghost predicate BoundaryAt(s: seq<byte>, i: nat) {
    i + 4 <= |s| && s[i..i + 4] == BOUNDARY
  }

  ghost predicate HasBoundary(s: seq<byte>) {
    exists i: nat :: BoundaryAt(s, i)
  }

  /** The position of the first boundary at or after `from`, or -1. */
  function IndexOf(s: seq<byte>, from: nat): (r: int)
    requires from <= |s|
    ensures r >= 0 ==> r >= from && BoundaryAt(s, r)
    ensures forall i: nat :: from <= i && BoundaryAt(s, i) ==> 0 <= r <= i
    decreases |s| - from
  {
    if from + 4 > |s| then -1
    else if s[from..from + 4] == BOUNDARY then from
    else IndexOf(s, from + 1)
  }

  /** The last three bytes, or all there are. */
  function Tail(s: seq<byte>): seq<byte> {
    if |s| <= 3 then s else s[|s| - 3..]
  }

  function Concat(chunks: seq<seq<byte>>): seq<byte> {
    if chunks == [] then [] else Concat(chunks[..|chunks| - 1]) + chunks[|chunks| - 1]
  }

  // --- the sliding tail --------------------------------------------------------------

  lemma TailAdvances(a: seq<byte>, b: seq<byte>)
    ensures Tail(Tail(a) + b) == Tail(a + b)
  {
  }

  lemma BoundaryMoves(a: seq<byte>, b: seq<byte>, i: nat)
    requires BoundaryAt(b, i)
    ensures BoundaryAt(a + b, |a| + i)
  {
    assert (a + b)[|a| + i..|a| + i + 4] == b[i..i + 4];
  }

  lemma BoundaryStays(a: seq<byte>, b: seq<byte>, i: nat)
    requires BoundaryAt(a + b, i)
    ensures i + 4 <= |a| ==> BoundaryAt(a, i)
  {
    if i + 4 <= |a| {
      assert a[i..i + 4] == (a + b)[i..i + 4];
    }
  }

  /** Three bytes are enough: a boundary that was not there before is found across the seam. */
  lemma TailSearchIsFullSearch(a: seq<byte>, b: seq<byte>)
    requires !HasBoundary(a)
    ensures HasBoundary(Tail(a) + b) <==> HasBoundary(a + b)
  {
    var cut := if |a| <= 3 then 0 else |a| - 3;
    var near := Tail(a) + b;
    assert a[..cut] + near == a + b;
    if HasBoundary(near) {
      var i: nat :| BoundaryAt(near, i);
      BoundaryMoves(a[..cut], near, i);
    }
    if HasBoundary(a + b) {
      var i: nat :| BoundaryAt(a + b, i);
      BoundaryStays(a, b, i);
      assert near[i - cut..i - cut + 4] == (a + b)[i..i + 4];
      assert BoundaryAt(near, i - cut);
    }
  }

  // --- the whole-prefix specification ------------------------------------------------

  /** What became of the handshake; `Released` holds the bytes written to the client. */
  datatype Outcome = Waiting | Released(head: seq<byte>) | Refused

  /** Decided by searching everything received at each chunk. */
  ghost function Decide(chunks: seq<seq<byte>>, strip: seq<byte> -> Option<seq<byte>>): Outcome {
    if chunks == [] then Waiting
    else
      var before, whole := Decide(chunks[..|chunks| - 1], strip), Concat(chunks);
      if !before.Waiting? then before
      else if |whole| > LIMIT then Refused
      else if !HasBoundary(whole) then Waiting
      else match strip(whole) case Some(safe) => Released(safe) case None => Refused
  }

  /** Nothing up to the `k`-th chunk ended the head or passed the limit. */
  ghost predicate Open(chunks: seq<seq<byte>>, k: nat)
    requires k <= |chunks|
  {
    forall j :: 0 <= j <= k ==> |Concat(chunks[..j])| <= LIMIT && !HasBoundary(Concat(chunks[..j]))
  }

  lemma {:induction false} WaitingIsOpen(chunks: seq<seq<byte>>, strip: seq<byte> -> Option<seq<byte>>)
    ensures Decide(chunks, strip).Waiting? <==> Open(chunks, |chunks|)
  {
    if chunks == [] {
      assert chunks[..0] == [];
    } else {
      var front := chunks[..|chunks| - 1];
      WaitingIsOpen(front, strip);
      assert chunks[..|chunks|] == chunks;
      assert forall j :: 0 <= j <= |front| ==> front[..j] == chunks[..j];
    }
  }

  /** The head is released, with every byte received so far, exactly at the first chunk that completes it
      within the limit, and never earlier. */
  lemma {:induction false} ReleasedAtTheFirstBoundary(chunks: seq<seq<byte>>, strip: seq<byte> -> Option<seq<byte>>, head: seq<byte>)
    ensures Decide(chunks, strip) == Released(head) <==>
      exists k :: 0 <= k < |chunks| && Open(chunks, k) && Completes(chunks, k, strip, Some(head))
  {
    if chunks != [] {
      var n := |chunks| - 1;
      var front := chunks[..n];
      ReleasedAtTheFirstBoundary(front, strip, head);
      hide Open, Completes;
      forall k | 0 <= k < n
        ensures Open(front, k) == Open(chunks, k) && Completes(front, k, strip, Some(head)) == Completes(chunks, k, strip, Some(head))
      {
        FrontAgrees(chunks, k, strip, Some(head));
      }
      LastChunk(chunks, strip, head);
    }
  }

  lemma FrontAgrees(chunks: seq<seq<byte>>, k: nat, strip: seq<byte> -> Option<seq<byte>>, result: Option<seq<byte>>)
    requires k < |chunks|
    ensures var front := chunks[..|chunks| - 1];
      Open(front, k) == Open(chunks, k) && (k < |front| ==> Completes(front, k, strip, result) == Completes(chunks, k, strip, result))
  {
    var front := chunks[..|chunks| - 1];
    assert forall j :: 0 <= j <= |front| ==> front[..j] == chunks[..j];
  }

  /** The head is out already, or the last chunk completes it. */
  lemma LastChunk(chunks: seq<seq<byte>>, strip: seq<byte> -> Option<seq<byte>>, head: seq<byte>)
    requires chunks != []
    ensures var n := |chunks| - 1;
      Decide(chunks, strip) == Released(head) <==>
        Decide(chunks[..n], strip) == Released(head) || (Open(chunks, n) && Completes(chunks, n, strip, Some(head)))
  {
    var n := |chunks| - 1;
    WaitingIsOpen(chunks[..n], strip);
    FrontAgrees(chunks, n, strip, Some(head));
    assert chunks[..n + 1] == chunks;
  }

  /** The chunk at `k` completes the head within the limit, and stripping it gives `result`. */
  ghost predicate Completes(chunks: seq<seq<byte>>, k: nat, strip: seq<byte> -> Option<seq<byte>>, result: Option<seq<byte>>)
    requires k < |chunks|
  {
    var whole := Concat(chunks[..k + 1]);
    |whole| <= LIMIT && HasBoundary(whole) && strip(whole) == result
  }

  // --- the handler -------------------------------------------------------------------

  class ForwardHandshake {
    const strip: seq<byte> -> Option<seq<byte>>
    var responseChunks: seq<seq<byte>>
    var responseSize: nat
    var responseTail: seq<byte>
    var outcome: Outcome

    constructor (strip: seq<byte> -> Option<seq<byte>>)
      ensures Valid() && responseChunks == [] && this.strip == strip
    {
      this.strip, responseChunks, responseSize, responseTail, outcome := strip, [], 0, [], Waiting;
      new;
      assert Concat([]) == [];
    }

    ghost predicate Valid()
      reads this
    {
      && outcome == Decide(responseChunks, strip)
      && responseSize == |Concat(responseChunks)|
      && (outcome.Waiting? ==> responseTail == Tail(Concat(responseChunks)) && !HasBoundary(Concat(responseChunks)))
    }

    /** The listener; it is off once the head has been released or the connection destroyed. */
    method Data(chunk: seq<byte>)
      requires Valid() && outcome.Waiting?
      modifies this
      ensures Valid() && responseChunks == old(responseChunks) + [chunk]
    {
      ghost var before := Concat(responseChunks);
      ghost var chunks := responseChunks;
      responseChunks := responseChunks + [chunk];
      responseSize := responseSize + |chunk|;
      assert responseChunks[..|responseChunks| - 1] == chunks;
      assert Concat(responseChunks) == before + chunk;
      if responseSize > LIMIT {
        outcome := Refused;
        return;
      }
      var boundarySearch := responseTail + chunk;
      TailSearchIsFullSearch(before, chunk);
      if IndexOf(boundarySearch, 0) < 0 {
        TailAdvances(before, chunk);
        responseTail := Tail(boundarySearch);
        return;
      }
      var head := Concat(responseChunks);
      match strip(head) {
        case Some(safe) => outcome := Released(safe);
        case None => outcome := Refused;
      }
    }
  }
}
