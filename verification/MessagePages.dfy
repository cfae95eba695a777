/**
 Reading a thread's messages page by page, newest first, while messages are being appended: pages of
 a cursor loop with filtering and rescans against the plain list of messages.
 */
module MessagePages {
  import opened Wrappers
  import opened Sequences

  datatype Block = SentToBot | ReceivedFromBot | Ask | Text | OtherBlock

  datatype Message = Message(seqNo: nat, run: Option<nat>, hasPolicy: bool, blocks: seq<Block>)

  datatype Page = Page(messages: seq<Message>, older: Option<nat>)

  /** What the two flags of a page ask for. */
  datatype Mode = Mode(peerRuns: bool, peerReceipts: bool)

  /** A thread's messages in ascending sequence number, each number once. */
  predicate Ordered(l: seq<Message>) {
    forall j, k :: 0 <= j < k < |l| ==> l[j].seqNo < l[k].seqNo
  }

  // --- queries -----------------------------------------------------------------------

  predicate IsOlder(m: Message, before: Option<nat>) {
    before.None? || m.seqNo < before.value
  }

  function OlderThan(before: Option<nat>): Message -> bool {
    (m: Message) => IsOlder(m, before)
  }

  /** The messages older than the cursor, or all of them. */
  function Older(l: seq<Message>, before: Option<nat>): seq<Message> {
    Filter(l, OlderThan(before))
  }

  function Reversed<T>(s: seq<T>): (r: seq<T>)
    ensures |r| == |s| && forall k :: 0 <= k < |s| ==> r[k] == s[|s| - 1 - k]
  {
    seq(|s|, k requires 0 <= k < |s| => s[|s| - 1 - k])
  }

  /** The newest `take` messages older than the cursor, newest first. */
  function Newest(l: seq<Message>, before: Option<nat>, take: nat): (r: seq<Message>)
    ensures |r| == if take < |Older(l, before)| then take else |Older(l, before)|
  {
    Reversed(Last(Older(l, before), take))
  }

  // --- the filters -------------------------------------------------------------------

  /** Shown although its run was started by another bot. */
  predicate SurvivesPeer(m: Message) {
    exists b :: b in m.blocks && (b.SentToBot? || b.ReceivedFromBot? || b.Ask? || b.Text?)
  }

  predicate IsShown(peer: nat -> bool, m: Message) {
    m.hasPolicy || m.run.None? || !peer(m.run.value) || SurvivesPeer(m)
  }

  function Shown(peer: nat -> bool): Message -> bool {
    (m: Message) => IsShown(peer, m)
  }

  function RunIds(rows: seq<Message>): set<nat> {
    set m | m in rows && m.run.Some? :: m.run.value
  }

  /** Looks up which of the rows' runs are peer runs, then drops what those runs only chatter. */
  function WithoutPeerRunMessages(rows: seq<Message>, peer: nat -> bool): seq<Message> {
    var ids := RunIds(rows);
    if ids == {} then rows
    else
      var peerIds := set r | r in ids && peer(r);
      Filter(rows, (m: Message) => m.hasPolicy || m.run.None? || m.run.value !in peerIds || SurvivesPeer(m))
  }

  /** The lookup is local to the rows, yet the result is the one filter of the whole thread. */
  lemma PeerFilterIsPointwise(rows: seq<Message>, peer: nat -> bool)
    ensures WithoutPeerRunMessages(rows, peer) == Filter(rows, Shown(peer))
  {
    var ids := RunIds(rows);
    forall m | m in rows && m.run.Some? ensures m.run.value in ids {
    }
    if ids == {} {
      FilterAll(rows, Shown(peer));
    } else {
      var peerIds := set r | r in ids && peer(r);
      FilterAgrees(rows, (m: Message) => m.hasPolicy || m.run.None? || m.run.value !in peerIds || SurvivesPeer(m), Shown(peer));
    }
  }

  /** What is hidden: messages of peer runs that are nothing but activity, be they empty or not. A receipt, a question or
      any text in a message keeps it. */
  lemma OnlyChatterIsHidden(rows: seq<Message>, peer: nat -> bool, m: Message)
    requires m in rows
    ensures m !in WithoutPeerRunMessages(rows, peer) <==>
      !m.hasPolicy && m.run.Some? && peer(m.run.value) && forall k :: 0 <= k < |m.blocks| ==> m.blocks[k] == OtherBlock
  {
    PeerFilterIsPointwise(rows, peer);
    assert Shown(peer)(m) == IsShown(peer, m);
    forall k | 0 <= k < |m.blocks| ensures m.blocks[k] in m.blocks {
    }
  }

  /** So it commutes with splitting the thread into pages. */
  lemma PeerFilterCommutesWithPages(a: seq<Message>, b: seq<Message>, peer: nat -> bool)
    ensures WithoutPeerRunMessages(a + b, peer) == WithoutPeerRunMessages(a, peer) + WithoutPeerRunMessages(b, peer)
  {
    PeerFilterIsPointwise(a, peer);
    PeerFilterIsPointwise(b, peer);
    PeerFilterIsPointwise(a + b, peer);
    FilterConcat(a, b, Shown(peer));
  }

  // --- one page ----------------------------------------------------------------------

  function Visible(rows: seq<Message>, peer: nat -> bool, mode: Mode): seq<Message> {
    if mode.peerRuns then rows else Filter(rows, Shown(peer))
  }

  function Substantive(receipt: seq<Block> -> bool): Message -> bool {
    (m: Message) => !receipt(m.blocks)
  }

  predicate HasSubstantive(rows: seq<Message>, receipt: seq<Block> -> bool) {
    exists m :: m in rows && !receipt(m.blocks)
  }

  /** Where the newest `size` messages of a list begin. */
  function Start(l: seq<Message>, size: nat): nat {
    if size < |l| then |l| - size else 0
  }

  predicate Stops(raw: seq<Message>, start: nat, peer: nat -> bool, receipt: seq<Block> -> bool, mode: Mode) {
    HasSubstantive(Visible(raw, peer, mode), receipt) || mode.peerReceipts || start == 0 || mode.peerRuns
  }

  /** The page of a list by position: skip pages without anything to show. */
  function PageOf(l: seq<Message>, size: nat, peer: nat -> bool, receipt: seq<Block> -> bool, mode: Mode): Page
    requires size >= 1
  {
    var start := Start(l, size);
    var raw := l[start..];
    if Stops(raw, start, peer, receipt, mode) then
      Page(Visible(raw, peer, mode), if start > 0 then Some(l[start].seqNo) else None)
    else PageOf(l[..start], size, peer, receipt, mode)
  }

  // --- the cursor against positions --------------------------------------------------

  /** A filter that holds just on a stretch gives the stretch. */
  lemma FilterIsStretch(l: seq<Message>, p: Message -> bool, a: nat, c: nat)
    requires a <= c <= |l| && forall k :: 0 <= k < |l| ==> (a <= k < c <==> p(l[k]))
    ensures Filter(l, p) == l[a..c]
  {
    hide Filter;
    StretchWithin(l, p, a, c);
    FilterMiddle(l[..a], l[a..c], l[c..], p);
    assert l[..a] + l[a..c] + l[c..] == l;
  }

  lemma FilterMiddle(x: seq<Message>, y: seq<Message>, z: seq<Message>, p: Message -> bool)
    requires (forall m :: m in y ==> p(m)) && (forall m :: m in x || m in z ==> !p(m))
    ensures Filter(x + y + z, p) == y
  {
    hide Filter;
    FilterNone(x, p);
    FilterAll(y, p);
    FilterNone(z, p);
    FilterConcat(x, y, p);
    FilterConcat(x + y, z, p);
  }

  lemma StretchWithin(l: seq<Message>, p: Message -> bool, a: nat, c: nat)
    requires a <= c <= |l| && forall k :: 0 <= k < |l| ==> (a <= k < c <==> p(l[k]))
    ensures forall m :: m in l[a..c] ==> p(m)
    ensures forall m :: m in l[..a] || m in l[c..] ==> !p(m)
  {
    forall m | m in l[a..c] ensures p(m) {
      var k :| 0 <= k < |l[a..c]| && l[a..c][k] == m;
      assert m == l[a + k];
    }
    forall m | m in l[..a] || m in l[c..] ensures !p(m) {
      if m in l[..a] {
        var k :| 0 <= k < a && l[..a][k] == m;
        assert m == l[k];
      } else {
        var k :| 0 <= k < |l[c..]| && l[c..][k] == m;
        assert m == l[c + k];
      }
    }
  }

  /** In an ordered list the messages before a cursor that is one of its numbers are a prefix. */
  lemma {:induction false} OlderIsPrefix(l: seq<Message>, k: nat)
    requires Ordered(l) && k < |l|
    ensures Older(l, Some(l[k].seqNo)) == l[..k]
  {
    FilterIsStretch(l, OlderThan(Some(l[k].seqNo)), 0, k);
  }

  lemma OlderIsAll(l: seq<Message>)
    ensures Older(l, None) == l
  {
    FilterAll(l, OlderThan(None));
  }

  /** Messages appended later are never before a cursor into the thread. */
  lemma OlderIsStable(l: seq<Message>, later: seq<Message>, k: nat)
    requires Ordered(later) && l <= later && k < |l|
    ensures Older(later, Some(l[k].seqNo)) == l[..k]
  {
    assert later[k] == l[k];
    OlderIsPrefix(later, k);
    assert later[..k] == l[..k];
  }

  /** The first `n` messages, and no others, are older than the cursor. */
  predicate OlderAreFirst(l: seq<Message>, before: Option<nat>, n: nat) {
    n <= |l| && (forall k :: 0 <= k < n ==> IsOlder(l[k], before)) && (forall k :: n <= k < |l| ==> !IsOlder(l[k], before))
  }

  lemma CountOlder(l: seq<Message>, before: Option<nat>) returns (n: nat)
    requires Ordered(l)
    ensures OlderAreFirst(l, before, n)
  {
    n := |l|;
    while n > 0 && !IsOlder(l[n - 1], before)
      invariant n <= |l| && forall k :: n <= k < |l| ==> !IsOlder(l[k], before)
    {
      n := n - 1;
    }
    forall k | 0 <= k < n ensures IsOlder(l[k], before) {
      assert l[k].seqNo <= l[n - 1].seqNo;
    }
  }

  lemma OlderIsSomePrefix(l: seq<Message>, before: Option<nat>) returns (n: nat)
    requires Ordered(l)
    ensures OlderAreFirst(l, before, n) && Older(l, before) == l[..n]
  {
    n := CountOlder(l, before);
    FilterIsStretch(l, OlderThan(before), 0, n);
  }

  /** At most `size` of the descending rows, in ascending order. */
  function PageRows(rows: seq<Message>, size: nat): (r: seq<Message>)
    ensures |r| == if |rows| > size then size else |rows|
  {
    Reversed(if |rows| > size then rows[..size] else rows)
  }

  /** The descending rows of a query, cut to the page and turned round, are the end of the list. */
  lemma QueriedRows(l: seq<Message>, before: Option<nat>, size: nat)
    requires size >= 1
    ensures var rows, older := Newest(l, before, size + 1), Older(l, before);
      && (|rows| > size <==> Start(older, size) > 0)
      && PageRows(rows, size) == older[Start(older, size)..]
  {
    hide Older;
    NewestCut(Older(l, before), size);
  }

  lemma NewestCut(older: seq<Message>, size: nat)
    requires size >= 1
    ensures var rows := Reversed(Last(older, size + 1));
      && (|rows| > size <==> Start(older, size) > 0)
      && PageRows(rows, size) == older[Start(older, size)..]
  {
    var last := Last(older, size + 1);
    var rows, page := Reversed(last), PageRows(Reversed(last), size);
    assert |page| == |older| - Start(older, size);
    forall k | 0 <= k < |page| ensures page[k] == older[Start(older, size) + k] {
      assert page[k] == rows[|page| - 1 - k] == last[|last| - |page| + k];
    }
  }

  // --- the page loop -----------------------------------------------------------------

  /** The message table; between two reads others may append messages with higher numbers. */
  class MessageTable {
    var messages: seq<Message>

    constructor (l: seq<Message>)
      ensures messages == l
    {
      messages := l;
    }

    method FindNewest(before: Option<nat>, take: nat) returns (rows: seq<Message>)
      requires Ordered(messages)
      modifies this
      ensures old(messages) <= messages && Ordered(messages)
      ensures rows == Newest(messages, before, take)
    {
      var more: seq<Message> := *;
      if Ordered(messages + more) {
        messages := messages + more;
      }
      rows := Newest(messages, before, take);
    }

    /** One turn of the page loop: the page, or the cursor to scan on from. */
    method ReadOnePage(cursor: Option<nat>, size: nat, peer: nat -> bool, receipt: seq<Block> -> bool, mode: Mode)
      returns (done: bool, page: Page)
      requires Ordered(messages) && size >= 1
      modifies this
      ensures old(messages) <= messages && Ordered(messages)
      ensures Turn(Older(messages, cursor), done, page, size, peer, receipt, mode)
    {
      var rows := FindNewest(cursor, size + 1);
      done, page := FormPage(rows, size, peer, receipt, mode, messages, cursor);
    }

    /** What a turn makes of the rows it read. */
    static method FormPage(rows: seq<Message>, size: nat, peer: nat -> bool, receipt: seq<Block> -> bool, mode: Mode,
                           ghost l: seq<Message>, ghost cursor: Option<nat>)
      returns (done: bool, page: Page)
      requires size >= 1 && rows == Newest(l, cursor, size + 1)
      ensures Turn(Older(l, cursor), done, page, size, peer, receipt, mode)
    {
      QueriedRows(l, cursor, size);
      var hasOlder, pageRows := |rows| > size, PageRows(rows, size);
      var visible := if mode.peerRuns then pageRows else WithoutPeerRunMessages(pageRows, peer);
      done := HasSubstantive(visible, receipt) || mode.peerReceipts || !hasOlder || mode.peerRuns;
      page := Page(visible, if hasOlder then Some(pageRows[0].seqNo) else None);
      PageStep(Older(l, cursor), size, peer, receipt, mode, pageRows, done, page);
    }

    /** One page older than the cursor. `at` is the thread as of the first read. */
    method LoadMessagePage(before: Option<nat>, size: nat, peer: nat -> bool, receipt: seq<Block> -> bool, mode: Mode)
      returns (page: Page, ghost at: seq<Message>)
      requires Ordered(messages) && size >= 1
      modifies this
      ensures old(messages) <= at <= messages && Ordered(messages)
      ensures page == PageOf(Older(at, before), size, peer, receipt, mode)
    {
      var done;
      done, page := ReadOnePage(before, size, peer, receipt, mode);
      at := messages;
      ghost var k := Start(Older(at, before), size);
      while !done
        invariant at <= messages && Ordered(messages)
        invariant done ==> page == PageOf(Older(at, before), size, peer, receipt, mode)
        invariant !done ==> RescanFrom(Older(at, before), k, page.older, size, peer, receipt, mode)
        decreases if done then 0 else k + 1
      {
        ghost var cursor, previous := page.older, messages;
        done, page := ReadOnePage(page.older, size, peer, receipt, mode);
        PrefixOfPrefix(at, previous, messages);
        RescanReads(at, messages, before, k, cursor, size, peer, receipt, mode);
        if !done {
          RescanGoesOn(Older(at, before), Older(messages, cursor), size, peer, receipt, mode);
          k := Start(Older(messages, cursor), size);
        }
      }
    }
  }

  /** Nothing on the newest page of the list: the cursor is its first number, and the page is the rest's. */
  ghost predicate ScansOn(l: seq<Message>, cursor: Option<nat>, size: nat, peer: nat -> bool, receipt: seq<Block> -> bool, mode: Mode)
    requires size >= 1
  {
    RescanFrom(l, Start(l, size), cursor, size, peer, receipt, mode)
  }

  /** The page of the whole list is the page of its first `k` messages, which the cursor selects. */
  ghost predicate RescanFrom(whole: seq<Message>, k: nat, cursor: Option<nat>, size: nat,
                             peer: nat -> bool, receipt: seq<Block> -> bool, mode: Mode)
    requires size >= 1
  {
    && k < |whole| && cursor == Some(whole[k].seqNo)
    && PageOf(whole, size, peer, receipt, mode) == PageOf(whole[..k], size, peer, receipt, mode)
  }

  lemma RescanReads(at: seq<Message>, later: seq<Message>, before: Option<nat>, k: nat, cursor: Option<nat>, size: nat,
                    peer: nat -> bool, receipt: seq<Block> -> bool, mode: Mode)
    requires size >= 1 && Ordered(later) && at <= later
    requires RescanFrom(Older(at, before), k, cursor, size, peer, receipt, mode)
    ensures Older(later, cursor) <= Older(at, before) && |Older(later, cursor)| == k
    ensures PageOf(Older(at, before), size, peer, receipt, mode) == PageOf(Older(later, cursor), size, peer, receipt, mode)
  {
    OlderAgain(at, later, before, k);
  }

  lemma RescanGoesOn(whole: seq<Message>, l: seq<Message>, size: nat, peer: nat -> bool, receipt: seq<Block> -> bool, mode: Mode)
    requires size >= 1 && l <= whole
    requires PageOf(whole, size, peer, receipt, mode) == PageOf(l, size, peer, receipt, mode)
    requires Start(l, size) < |l| && ScansOn(l, Some(l[Start(l, size)].seqNo), size, peer, receipt, mode)
    ensures RescanFrom(whole, Start(l, size), Some(l[Start(l, size)].seqNo), size, peer, receipt, mode)
  {
    assert l[..Start(l, size)] == whole[..Start(l, size)];
  }

  /** The page of the list, or the cursor to scan on from. */
  ghost predicate Turn(l: seq<Message>, done: bool, page: Page, size: nat, peer: nat -> bool, receipt: seq<Block> -> bool, mode: Mode)
    requires size >= 1
  {
    if done then page == PageOf(l, size, peer, receipt, mode) else ScansOn(l, page.older, size, peer, receipt, mode)
  }

  lemma PageStep(l: seq<Message>, size: nat, peer: nat -> bool, receipt: seq<Block> -> bool, mode: Mode,
                 raw: seq<Message>, done: bool, page: Page)
    requires size >= 1 && raw == l[Start(l, size)..]
    requires page.messages == if mode.peerRuns then raw else WithoutPeerRunMessages(raw, peer)
    requires page.older == if Start(l, size) > 0 then Some(raw[0].seqNo) else None
    requires done == (HasSubstantive(page.messages, receipt) || mode.peerReceipts || Start(l, size) == 0 || mode.peerRuns)
    ensures Turn(l, done, page, size, peer, receipt, mode)
  {
    PeerFilterIsPointwise(raw, peer);
  }

  lemma PrefixOfPrefix(a: seq<Message>, b: seq<Message>, c: seq<Message>)
    requires a <= b <= c
    ensures a <= c
  {
  }

  /** A cursor taken from the first read finds the same messages later. */
  lemma OlderAgain(at: seq<Message>, later: seq<Message>, before: Option<nat>, k: nat)
    requires Ordered(later) && at <= later && k < |Older(at, before)|
    ensures Older(later, Some(Older(at, before)[k].seqNo)) == Older(at, before)[..k]
  {
    assert forall j :: 0 <= j < |at| ==> at[j] == later[j];
    var n := OlderIsSomePrefix(at, before);
    OlderIsStable(at, later, k);
    assert at[..n][..k] == at[..k];
  }

  // --- following the cursors ---------------------------------------------------------

  /** Which stretch of a list its page shows. */
  datatype Span = Span(start: nat, end: nat)

  function PageSpan(l: seq<Message>, size: nat, peer: nat -> bool, receipt: seq<Block> -> bool, mode: Mode): (s: Span)
    requires size >= 1
    ensures s.start <= s.end <= |l| && (l != [] ==> s.start < s.end)
  {
    var start := Start(l, size);
    if Stops(l[start..], start, peer, receipt, mode) then Span(start, |l|)
    else PageSpan(l[..start], size, peer, receipt, mode)
  }

  function Substantives(rows: seq<Message>, receipt: seq<Block> -> bool): seq<Message> {
    Filter(rows, Substantive(receipt))
  }

  lemma VisibleConcat(a: seq<Message>, b: seq<Message>, peer: nat -> bool, mode: Mode)
    ensures Visible(a + b, peer, mode) == Visible(a, peer, mode) + Visible(b, peer, mode)
  {
    FilterConcat(a, b, Shown(peer));
  }

  function PageAt(l: seq<Message>, s: Span, peer: nat -> bool, mode: Mode): Page
    requires s.start <= s.end <= |l| && (s.start > 0 ==> s.start < |l|)
  {
    Page(Visible(l[s.start..s.end], peer, mode), if s.start > 0 then Some(l[s.start].seqNo) else None)
  }

  lemma PageAtPrefix(l: seq<Message>, k: nat, s: Span, peer: nat -> bool, mode: Mode)
    requires s.start <= s.end <= k <= |l| && (s.start > 0 ==> s.start < k)
    ensures PageAt(l[..k], s, peer, mode) == PageAt(l, s, peer, mode)
  {
    assert l[..k][s.start..s.end] == l[s.start..s.end];
  }

  lemma NothingSubstantive(rows: seq<Message>, receipt: seq<Block> -> bool)
    requires !HasSubstantive(rows, receipt)
    ensures Substantives(rows, receipt) == []
  {
    FilterNone(rows, Substantive(receipt));
  }

  /** Two skipped stretches next to each other. */
  lemma SkippedTogether(a: seq<Message>, b: seq<Message>, peer: nat -> bool, receipt: seq<Block> -> bool, mode: Mode)
    requires Substantives(Visible(a, peer, mode), receipt) == []
    requires Substantives(Visible(b, peer, mode), receipt) == []
    ensures Substantives(Visible(a + b, peer, mode), receipt) == []
  {
    VisibleConcat(a, b, peer, mode);
    FilterConcat(Visible(a, peer, mode), Visible(b, peer, mode), Substantive(receipt));
  }

  /** A page shows its stretch, names where it begins, and skipped only what has nothing to show. */
  lemma {:induction false} PageShowsItsSpan(l: seq<Message>, size: nat, peer: nat -> bool, receipt: seq<Block> -> bool, mode: Mode)
    requires size >= 1
    ensures var s := PageSpan(l, size, peer, receipt, mode);
      && PageOf(l, size, peer, receipt, mode) == PageAt(l, s, peer, mode)
      && Substantives(Visible(l[s.end..], peer, mode), receipt) == []
      && (mode.peerRuns || mode.peerReceipts ==> s.end == |l|)
  {
    var start := Start(l, size);
    var s := PageSpan(l, size, peer, receipt, mode);
    if Stops(l[start..], start, peer, receipt, mode) {
      assert l[start..|l|] == l[start..];
      assert l[|l|..] == [];
    } else {
      PageShowsItsSpan(l[..start], size, peer, receipt, mode);
      PageAtPrefix(l, start, s, peer, mode);
      NothingSubstantive(Visible(l[start..], peer, mode), receipt);
      SkippedTogether(l[..start][s.end..], l[start..], peer, receipt, mode);
      PrefixTail(l, s.end, start);
    }
  }

  lemma PrefixTail(l: seq<Message>, end: nat, start: nat)
    requires end <= start <= |l|
    ensures l[..start][end..] + l[start..] == l[end..]
  {
  }

  /** All pages, from the newest by their cursors to the oldest, laid out oldest first. */
  function Follow(l: seq<Message>, size: nat, peer: nat -> bool, receipt: seq<Block> -> bool, mode: Mode): seq<Message>
    requires size >= 1 && Ordered(l)
    decreases |l|
  {
    var page := PageOf(l, size, peer, receipt, mode);
    if page.older.None? then page.messages
    else
      CursorCutsAPrefix(l, size, peer, receipt, mode);
      Follow(Older(l, page.older), size, peer, receipt, mode) + page.messages
  }

  /** What is older than the cursor is the part of the thread before the page, which is shorter. */
  lemma CursorCutsAPrefix(l: seq<Message>, size: nat, peer: nat -> bool, receipt: seq<Block> -> bool, mode: Mode)
    requires size >= 1 && Ordered(l)
    ensures var page, s := PageOf(l, size, peer, receipt, mode), PageSpan(l, size, peer, receipt, mode);
      && (page.older.Some? <==> s.start > 0)
      && (page.older.Some? ==> Older(l, page.older) == l[..s.start] && s.start < |l| && Ordered(l[..s.start]))
  {
    var s := PageSpan(l, size, peer, receipt, mode);
    PageShowsItsSpan(l, size, peer, receipt, mode);
    if s.start > 0 {
      OlderIsPrefix(l, s.start);
    }
  }

  /** The cursor is below every message scanned, so following cursors goes strictly down. */
  lemma CursorDecreases(l: seq<Message>, before: Option<nat>, size: nat, peer: nat -> bool, receipt: seq<Block> -> bool, mode: Mode)
    requires size >= 1 && Ordered(l)
    ensures var older := PageOf(Older(l, before), size, peer, receipt, mode).older;
      older.Some? && before.Some? ==> older.value < before.value
  {
    var all := Older(l, before);
    var s := PageSpan(all, size, peer, receipt, mode);
    PageShowsItsSpan(all, size, peer, receipt, mode);
    if s.start > 0 {
      assert all[s.start] in all;
    }
  }

  /** A list falls into the part before a stretch, the stretch, and what was skipped after it. */
  lemma VisibleSplits(l: seq<Message>, s: Span, peer: nat -> bool, receipt: seq<Block> -> bool, mode: Mode)
    requires s.start <= s.end <= |l|
    requires Substantives(Visible(l[s.end..], peer, mode), receipt) == []
    ensures var v, w := Visible(l[..s.start], peer, mode), Visible(l[s.start..s.end], peer, mode);
      && Substantives(Visible(l, peer, mode), receipt) == Substantives(v, receipt) + Substantives(w, receipt)
      && (s.end == |l| ==> Visible(l, peer, mode) == v + w)
  {
    var older, shown, skipped := l[..s.start], l[s.start..s.end], l[s.end..];
    var v, w := Visible(older, peer, mode), Visible(shown, peer, mode);
    assert l == older + shown + skipped;
    VisibleConcat(older + shown, skipped, peer, mode);
    VisibleConcat(older, shown, peer, mode);
    FilterConcat(v + w, Visible(skipped, peer, mode), Substantive(receipt));
    FilterConcat(v, w, Substantive(receipt));
  }

  /** Following the cursors visits every visible message exactly once and in order when the reader takes
      peer runs or peer receipts, and otherwise every visible message that is more than a receipt. */
  lemma {:induction false} PagesCoverTheThread(l: seq<Message>, size: nat, peer: nat -> bool, receipt: seq<Block> -> bool, mode: Mode)
    requires size >= 1 && Ordered(l)
    ensures var all := Follow(l, size, peer, receipt, mode);
      && (mode.peerRuns || mode.peerReceipts ==> all == Visible(l, peer, mode))
      && Substantives(all, receipt) == Substantives(Visible(l, peer, mode), receipt)
    decreases |l|
  {
    var s := PageSpan(l, size, peer, receipt, mode);
    PageShowsItsSpan(l, size, peer, receipt, mode);
    CursorCutsAPrefix(l, size, peer, receipt, mode);
    VisibleSplits(l, s, peer, receipt, mode);
    if s.start > 0 {
      PagesCoverTheThread(l[..s.start], size, peer, receipt, mode);
      FilterConcat(Follow(l[..s.start], size, peer, receipt, mode), Visible(l[s.start..s.end], peer, mode), Substantive(receipt));
    } else {
      assert Visible(l[..s.start], peer, mode) == [];
    }
  }

  // --- the whole thread --------------------------------------------------------------

  function Flat(pages: seq<seq<Message>>): seq<Message> {
    if pages == [] then [] else pages[0] + Flat(pages[1..])
  }

  lemma FlatWithPage(pages: seq<seq<Message>>, page: seq<Message>)
    ensures Flat(Reversed(pages + [page])) == page + Flat(Reversed(pages))
  {
    var all := Reversed(pages + [page]);
    assert all[0] == page && all[1..] == Reversed(pages);
  }

  /** The pages read so far are the end of the thread; the cursor stands for the rest. */
  ghost predicate ReadBackTo(at: seq<Message>, before: Option<nat>, k: nat, pages: seq<seq<Message>>) {
    && k <= |at| && at[..k] + Flat(Reversed(pages)) == at
    && (if before.Some? then 0 < k < |at| && before == Some(at[k].seqNo) else k == 0)
  }

  /** One more page of raw messages. */
  lemma ReadsBack(at: seq<Message>, k: nat, pages: seq<seq<Message>>, size: nat, peer: nat -> bool, receipt: seq<Block> -> bool)
    requires size >= 1 && k <= |at| && at[..k] + Flat(Reversed(pages)) == at
    ensures var page := PageOf(at[..k], size, peer, receipt, Mode(true, false));
      ReadBackTo(at, page.older, Start(at[..k], size), pages + [page.messages])
  {
    var start := Start(at[..k], size);
    var page := PageOf(at[..k], size, peer, receipt, Mode(true, false));
    FlatWithPage(pages, page.messages);
    assert at[..k] == at[..start] + at[..k][start..];
    assert at[..start] + (at[..k][start..] + Flat(Reversed(pages))) == at[..k] + Flat(Reversed(pages));
  }

  lemma AllRead(at: seq<Message>, k: nat, pages: seq<seq<Message>>)
    requires ReadBackTo(at, None, k, pages)
    ensures Flat(Reversed(pages)) == at
  {
    assert at[..0] + Flat(Reversed(pages)) == Flat(Reversed(pages));
  }

  /** Every message of the thread, as of the first read, in order and once. */
  method LoadAllMessages(table: MessageTable, size: nat, peer: nat -> bool, receipt: seq<Block> -> bool)
    returns (all: seq<Message>, ghost at: seq<Message>)
    requires Ordered(table.messages) && size >= 1
    modifies table
    ensures old(table.messages) <= at <= table.messages && Ordered(table.messages)
    ensures all == at
  {
    var page;
    ghost var k;
    page, at, k := ReadNewestPage(table, size, peer, receipt);
    var pages, before := [page.messages], page.older;
    while before.Some?
      invariant at <= table.messages && Ordered(table.messages)
      invariant ReadBackTo(at, before, k, pages)
      decreases k
    {
      page, k := ReadPageBefore(table, before, size, peer, receipt, at, k, pages);
      pages, before := pages + [page.messages], page.older;
    }
    AllRead(at, k, pages);
    all := Flat(Reversed(pages));
  }

  /** The first turn of the loop, which fixes what the thread is. */
  method ReadNewestPage(table: MessageTable, size: nat, peer: nat -> bool, receipt: seq<Block> -> bool)
    returns (page: Page, ghost at: seq<Message>, ghost rest: nat)
    requires Ordered(table.messages) && size >= 1
    modifies table
    ensures old(table.messages) <= at <= table.messages && Ordered(table.messages)
    ensures ReadBackTo(at, page.older, rest, [page.messages])
  {
    page, at := table.LoadMessagePage(None, size, peer, receipt, Mode(true, false));
    OlderIsAll(at);
    rest := Start(at, size);
    assert at[..|at|] == at;
    ReadsBack(at, |at|, [], size, peer, receipt);
    assert [] + [page.messages] == [page.messages];
  }

  method ReadPageBefore(table: MessageTable, before: Option<nat>, size: nat, peer: nat -> bool, receipt: seq<Block> -> bool,
                        ghost at: seq<Message>, ghost k: nat, ghost pages: seq<seq<Message>>)
    returns (page: Page, ghost rest: nat)
    requires Ordered(table.messages) && at <= table.messages && size >= 1
    requires before.Some? && ReadBackTo(at, before, k, pages)
    modifies table
    ensures Ordered(table.messages) && at <= table.messages
    ensures ReadBackTo(at, page.older, rest, pages + [page.messages]) && rest < k
  {
    ghost var previous, seen := table.messages, at;
    page, seen := table.LoadMessagePage(before, size, peer, receipt, Mode(true, false));
    StillOlder(at, previous, seen, table.messages, k);
    ReadsBack(at, k, pages, size, peer, receipt);
    rest := Start(at[..k], size);
  }

  lemma StillOlder(at: seq<Message>, previous: seq<Message>, seen: seq<Message>, later: seq<Message>, k: nat)
    requires at <= previous <= seen <= later && Ordered(later) && k < |at|
    ensures Older(seen, Some(at[k].seqNo)) == at[..k] && at <= later
  {
    PrefixOfPrefix(at, previous, seen);
    PrefixOfPrefix(at, seen, later);
    assert Ordered(seen) by {
      assert forall j :: 0 <= j < |seen| ==> seen[j] == later[j];
    }
    OlderIsStable(at, seen, k);
  }

  // --- following the cursors while messages arrive ------------------------------------

  /** What was collected are the newest pages of the thread; the cursor stands for the others. */
  ghost predicate CollectedFrom(at: seq<Message>, before: Option<nat>, k: nat, collected: seq<Message>, size: nat,
                                peer: nat -> bool, receipt: seq<Block> -> bool, mode: Mode)
    requires size >= 1
  {
    && k <= |at| && Ordered(at)
    && (before.Some? ==> k < |at| && before == Some(at[k].seqNo))
    && Follow(at, size, peer, receipt, mode)
       == (if before.Some? then Follow(at[..k], size, peer, receipt, mode) else []) + collected
  }

  /** One page of the pages. */
  lemma FollowsOn(l: seq<Message>, size: nat, peer: nat -> bool, receipt: seq<Block> -> bool, mode: Mode)
    requires size >= 1 && Ordered(l)
    ensures var page, start := PageOf(l, size, peer, receipt, mode), PageSpan(l, size, peer, receipt, mode).start;
      CollectedFrom(l, page.older, start, page.messages, size, peer, receipt, mode)
  {
    CursorCutsAPrefix(l, size, peer, receipt, mode);
    PageShowsItsSpan(l, size, peer, receipt, mode);
    var page := PageOf(l, size, peer, receipt, mode);
    assert [] + page.messages == page.messages;
  }

  lemma Regroup(all: seq<Message>, front: seq<Message>, rest: seq<Message>, page: seq<Message>, collected: seq<Message>)
    requires all == front + collected && front == rest + page
    ensures all == rest + (page + collected)
  {
  }

  lemma CollectsOn(at: seq<Message>, k: nat, collected: seq<Message>, size: nat,
                   peer: nat -> bool, receipt: seq<Block> -> bool, mode: Mode)
    requires size >= 1 && k <= |at| && Ordered(at)
    requires Follow(at, size, peer, receipt, mode) == Follow(at[..k], size, peer, receipt, mode) + collected
    ensures var page, start := PageOf(at[..k], size, peer, receipt, mode), PageSpan(at[..k], size, peer, receipt, mode).start;
      && (page.older.Some? ==> start < k)
      && CollectedFrom(at, page.older, start, page.messages + collected, size, peer, receipt, mode)
  {
    hide Follow, PageOf, PageSpan;
    var l := at[..k];
    var page, start := PageOf(l, size, peer, receipt, mode), PageSpan(l, size, peer, receipt, mode).start;
    FollowsOn(l, size, peer, receipt, mode);
    assert l[..start] == at[..start];
    Regroup(Follow(at, size, peer, receipt, mode), Follow(l, size, peer, receipt, mode),
            if page.older.Some? then Follow(l[..start], size, peer, receipt, mode) else [], page.messages, collected);
  }

  /**
   Reads the whole history page by page, whatever the pages show, while messages arrive: the
   pages cover the thread as of the first read.
   */
  method LoadHistory(table: MessageTable, size: nat, peer: nat -> bool, receipt: seq<Block> -> bool, mode: Mode)
    returns (collected: seq<Message>, ghost at: seq<Message>)
    requires Ordered(table.messages) && size >= 1
    modifies table
    ensures old(table.messages) <= at <= table.messages && Ordered(table.messages)
    ensures mode.peerRuns || mode.peerReceipts ==> collected == Visible(at, peer, mode)
    ensures Substantives(collected, receipt) == Substantives(Visible(at, peer, mode), receipt)
  {
    hide Follow, PageOf, PageSpan;
    var page, before;
    ghost var k;
    page, at, k := ReadFirst(table, size, peer, receipt, mode);
    collected, before := page.messages, page.older;
    while before.Some?
      invariant at <= table.messages && Ordered(table.messages)
      invariant CollectedFrom(at, before, k, collected, size, peer, receipt, mode)
      decreases k, before.Some?
    {
      page, k := ReadBefore(table, before, size, peer, receipt, mode, at, k, collected);
      collected, before := page.messages + collected, page.older;
    }
    assert [] + collected == collected;
    PagesCoverTheThread(at, size, peer, receipt, mode);
  }

  /** The newest page, which fixes what the thread is. */
  method ReadFirst(table: MessageTable, size: nat, peer: nat -> bool, receipt: seq<Block> -> bool, mode: Mode)
    returns (page: Page, ghost at: seq<Message>, ghost rest: nat)
    requires Ordered(table.messages) && size >= 1
    modifies table
    ensures old(table.messages) <= at <= table.messages && Ordered(table.messages)
    ensures CollectedFrom(at, page.older, rest, page.messages, size, peer, receipt, mode)
  {
    page, at := table.LoadMessagePage(None, size, peer, receipt, mode);
    OlderIsAll(at);
    assert at[..|at|] == at;
    CollectsOn(at, |at|, [], size, peer, receipt, mode);
    assert page.messages + [] == page.messages;
    rest := PageSpan(at, size, peer, receipt, mode).start;
  }

  method ReadBefore(table: MessageTable, before: Option<nat>, size: nat, peer: nat -> bool, receipt: seq<Block> -> bool, mode: Mode,
                    ghost at: seq<Message>, ghost k: nat, ghost collected: seq<Message>)
    returns (page: Page, ghost rest: nat)
    requires Ordered(table.messages) && at <= table.messages && size >= 1
    requires before.Some? && CollectedFrom(at, before, k, collected, size, peer, receipt, mode)
    modifies table
    ensures Ordered(table.messages) && at <= table.messages
    ensures CollectedFrom(at, page.older, rest, page.messages + collected, size, peer, receipt, mode)
    ensures page.older.Some? ==> rest < k
    ensures rest <= k
  {
    ghost var previous, seen := table.messages, at;
    page, seen := table.LoadMessagePage(before, size, peer, receipt, mode);
    StillOlder(at, previous, seen, table.messages, k);
    CollectsOn(at, k, collected, size, peer, receipt, mode);
    rest := PageSpan(at[..k], size, peer, receipt, mode).start;
  }

  // --- a page around a message -------------------------------------------------------

  function Within(lo: nat, hi: nat): Message -> bool {
    (m: Message) => lo <= m.seqNo <= hi
  }

  function InRange(l: seq<Message>, target: nat, half: nat): seq<Message> {
    Filter(l, Within(if target < half then 0 else target - half, target + half))
  }

  function Cut(rows: seq<Message>, size: nat): seq<Message> {
    if |rows| > size then rows[..size] else rows
  }

  /** The raw rows of the page around a sequence number. */
  function AroundRows(l: seq<Message>, target: nat, size: nat): seq<Message> {
    Cut(InRange(l, target, size / 2), size)
  }

  /** The cursor of the page around a sequence number: its first row, if there are older ones. */
  function AroundOlder(l: seq<Message>, target: nat, size: nat): Option<nat> {
    var rows := AroundRows(l, target, size);
    if rows != [] && Older(l, Some(rows[0].seqNo)) != [] then Some(rows[0].seqNo) else None
  }

  lemma {:induction false} NumbersSpread(l: seq<Message>, a: nat, t: nat)
    requires Ordered(l) && a <= t < |l|
    ensures l[t].seqNo >= l[a].seqNo + (t - a)
  {
    if a < t {
      NumbersSpread(l, a, t - 1);
    }
  }

  /** The messages in a range of numbers stand together. */
  lemma RangeIsContiguous(l: seq<Message>, lo: nat, hi: nat) returns (a: nat, c: nat)
    requires Ordered(l) && lo <= hi
    ensures a <= c <= |l| && Filter(l, Within(lo, hi)) == l[a..c]
    ensures forall k :: 0 <= k < |l| ==> (a <= k < c <==> lo <= l[k].seqNo <= hi)
  {
    a := OlderIsSomePrefix(l, Some(lo));
    c := OlderIsSomePrefix(l, Some(hi + 1));
    var next := if c < |l| then l[c].seqNo else hi + 1;
    assert next > hi;
    FilterIsStretch(l, Within(lo, hi), a, c);
  }

  /** The page around a sequence number; like any page, it is filtered. */
  function AroundPage(l: seq<Message>, target: nat, size: nat, peer: nat -> bool, mode: Mode): Page {
    var rows := AroundRows(l, target, size);
    Page(if mode.peerRuns then rows else WithoutPeerRunMessages(rows, peer), AroundOlder(l, target, size))
  }

  /**
   The page around a message is what is visible of a stretch of the thread with the message in
   it; the message itself is on the page exactly when the filter lets it through.
   */
  lemma AroundShowsTheTarget(l: seq<Message>, t: nat, size: nat, peer: nat -> bool, mode: Mode) returns (a: nat, b: nat)
    requires Ordered(l) && t < |l| && size >= 1
    ensures a <= t < b <= |l| && b - a <= size
    ensures var page := AroundPage(l, l[t].seqNo, size, peer, mode);
      && page == PageAt(l, Span(a, b), peer, mode)
      && (l[t] in page.messages <==> mode.peerRuns || IsShown(peer, l[t]))
  {
    hide AroundRows, WithoutPeerRunMessages;
    a, b := AroundTarget(l, t, size);
    PeerFilterIsPointwise(l[a..b], peer);
    AroundCursorLeadsBack(l, l[t].seqNo, size, a, b);
    assert l[a..b][t - a] == l[t];
  }

  /** The raw rows around a message are a stretch of the thread that holds it. */
  lemma AroundTarget(l: seq<Message>, t: nat, size: nat) returns (a: nat, b: nat)
    requires Ordered(l) && t < |l| && size >= 1
    ensures a <= t < b <= |l| && b - a <= size && AroundRows(l, l[t].seqNo, size) == l[a..b]
  {
    var c;
    a, c := TargetWindow(l, t, size / 2);
    b := if c - a > size then a + size else c;
    CutStretch(l, a, c, size);
  }

  lemma CutStretch(l: seq<Message>, a: nat, c: nat, size: nat)
    requires a <= c <= |l|
    ensures Cut(l[a..c], size) == l[a..if c - a > size then a + size else c]
  {
  }

  /** At most `half` messages of the range come before the target. */
  lemma TargetWindow(l: seq<Message>, t: nat, half: nat) returns (a: nat, c: nat)
    requires Ordered(l) && t < |l|
    ensures a <= t < c <= |l| && t - a <= half
    ensures InRange(l, l[t].seqNo, half) == l[a..c]
  {
    var target := l[t].seqNo;
    a, c := RangeIsContiguous(l, if target < half then 0 else target - half, target + half);
    NumbersSpread(l, a, t);
  }

  /** Its cursor is there exactly when something is older, and then leads to all of it. */
  lemma AroundCursorLeadsBack(l: seq<Message>, target: nat, size: nat, a: nat, b: nat)
    requires Ordered(l) && a < b <= |l| && AroundRows(l, target, size) == l[a..b]
    ensures AroundOlder(l, target, size) == if a > 0 then Some(l[a].seqNo) else None
    ensures Older(l, Some(l[a].seqNo)) == l[..a]
  {
    OlderIsPrefix(l, a);
    assert AroundRows(l, target, size)[0] == l[a];
  }
}
