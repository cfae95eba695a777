/**
 The bridge object and its recovery pass: which deferred rows a pass moves, and that a
 bounded number of passes moves all of them.
 */
module TeamChatRecovery {
  import opened Wrappers
  import opened TeamChatRow

  const BATCH_SIZE := 20

  /** One external message; its position in the table is its identifier and its age. */
  datatype Record = Record(kind: Kind, row: Row)

  datatype Resolution = ByRoutine | ByAgent

  /** A routine also takes rows back that left the deferred state; the agent path does not. */
  predicate Resolvable(row: Row, resolution: Resolution) {
    row.status.Deferred? || (resolution.ByRoutine? && (row.status.Received? || row.status.Observed?))
  }

  predicate Stale(row: Row, now: int) {
    row.status.Deferred? && Expired(row.lease, now)
  }

  // --- what a pass does, row by row --------------------------------------------------

  /** What recovery does about a selected row: the wake is committed, the wake still runs here, its owner is gone, or it has none. */
  datatype Move = Ignore | Keep | Free | Release

  function MoveOf(seen: Reason, woken: bool, inFlight: bool): Move {
    if woken then Ignore else if !IsRoutingReason(seen) then Release else if inFlight then Keep else Free
  }

  /** What the statement of a move makes of the row it finds. */
  function Moved(row: Row, kind: Kind, move: Move, now: int): Row {
    match move
    case Ignore => IgnoreWoken(row, now).row
    case Keep => row
    case Free => ClearOwnership(row, now).row
    case Release => PromoteFree(row, kind, now).row
  }

  /** Recovery of one selected row. `woken`: its wake is committed; `inFlight`: this process still wakes. */
  function Recovered(r: Record, woken: bool, inFlight: bool, now: int): Row {
    Moved(r.row, r.kind, MoveOf(r.row.reason, woken, inFlight), now)
  }

  function StaleAt(now: int): Row -> bool {
    (row: Row) => Stale(row, now)
  }

  /** The oldest `limit` wanted rows from position `from` on. */
  function Batch(rows: seq<Record>, wanted: Row -> bool, from: nat, limit: nat): (ids: seq<nat>)
    requires from <= |rows|
    ensures |ids| <= limit
    ensures forall k :: 0 <= k < |ids| ==> from <= ids[k] < |rows| && wanted(rows[ids[k]].row)
    ensures forall j, k :: 0 <= j < k < |ids| ==> ids[j] < ids[k]
    decreases |rows| - from
  {
    if from == |rows| || limit == 0 then []
    else if wanted(rows[from].row) then [from] + Batch(rows, wanted, from + 1, limit - 1)
    else Batch(rows, wanted, from + 1, limit)
  }

  lemma BatchNext(rows: seq<Record>, wanted: Row -> bool, from: nat, limit: nat)
    requires from < |rows| && limit > 0
    ensures Batch(rows, wanted, from, limit)
      == if wanted(rows[from].row) then [from] + Batch(rows, wanted, from + 1, limit - 1) else Batch(rows, wanted, from + 1, limit)
  {
  }

  /** The rows a recovery pass selects. */
  function Selected(rows: seq<Record>, now: int): seq<nat> {
    Batch(rows, StaleAt(now), 0, BATCH_SIZE)
  }

  function After(rows: seq<Record>, woken: set<nat>, inFlight: set<nat>, now: int, i: nat): Record
    requires i < |rows|
  {
    if i in Selected(rows, now) then rows[i].(row := Recovered(rows[i], i in woken, i in inFlight, now))
    else rows[i]
  }

  /** The whole table after one recovery pass. */
  function Pass(rows: seq<Record>, woken: set<nat>, inFlight: set<nat>, now: int): (rows': seq<Record>)
    ensures |rows'| == |rows|
  {
    seq(|rows|, i requires 0 <= i < |rows| => After(rows, woken, inFlight, now, i))
  }

  /** The committed wakes, and those that run in this process. */
  datatype Wakes = Wakes(woken: set<nat>, inFlight: set<nat>)

  /** The bridge object: the table it shares with other actors, and its in-flight set. */
  class TeamChatBridge {
    var rows: seq<Record>
    var woken: set<nat>
    var inFlightRoutineWakes: set<nat>

    /** How many of the recovery's calls have failed. */
    ghost var faults: nat
    /** What the others had made of the wakes and the in-flight set, at each await of the recovery. */
    ghost var awaits: seq<Wakes>

    constructor (rows: seq<Record>, woken: set<nat>)
      ensures this.rows == rows && this.woken == woken && inFlightRoutineWakes == {}
    {
      this.rows, this.woken, inFlightRoutineWakes, faults, awaits := rows, woken, {}, 0, [];
    }

    method MarkRoutineWakeInFlight(id: nat)
      modifies `inFlightRoutineWakes
      ensures inFlightRoutineWakes == old(inFlightRoutineWakes) + {id}
    {
      inFlightRoutineWakes := inFlightRoutineWakes + {id};
    }

    method ClearRoutineWakeInFlight(id: nat)
      modifies `inFlightRoutineWakes
      ensures inFlightRoutineWakes == old(inFlightRoutineWakes) - {id}
    {
      inFlightRoutineWakes := inFlightRoutineWakes - {id};
    }

    /** `updateMany` on one row found by its identifier; an unknown row counts as a miss. */
    method Update(id: nat, cas: Cas) returns (hit: bool)
      requires id < |rows| && !cas.hit ==> cas.row == rows[id].row
      modifies `rows
      ensures hit == (id < |old(rows)| && cas.hit)
      ensures rows == if id < |old(rows)| then old(rows)[id := old(rows)[id].(row := cas.row)] else old(rows)
    {
      hit := id < |rows| && cas.hit;
      if id < |rows| {
        rows := rows[id := rows[id].(row := cas.row)];
      }
    }

    method ExtendDeferredReservation(id: nat, now: int) returns (held: bool)
      modifies `rows
      ensures held == (id < |old(rows)| && old(rows)[id].row.status.Deferred?)
      ensures |rows| == |old(rows)|
      ensures forall i :: 0 <= i < |rows| && i != id ==> rows[i] == old(rows)[i]
      ensures held ==> rows[id].row == old(rows)[id].row.(reason := Routing, lease := Some(now + ROUTING_RESERVATION_MS))
      ensures !held ==> rows == old(rows)
    {
      if id < |rows| {
        held := Update(id, Extend(rows[id].row, now));
        assert !held ==> rows == old(rows);
      } else {
        held := false;
      }
    }

    method ResolveDeferredMessage(id: nat, resolution: Resolution, kind: Kind) returns (resolved: bool)
      modifies `rows
      ensures |rows| == |old(rows)|
      ensures forall i :: 0 <= i < |rows| && i != id ==> rows[i] == old(rows)[i]
      ensures resolved ==> id < |rows| && rows[id].row.status == (if resolution.ByRoutine? then Ignored else Released(kind))
      ensures resolved ==> rows[id].row.lease.None? && !rows[id].row.status.Queueing? && !IsRoutingReason(rows[id].row.reason)
      ensures resolved == (id < |old(rows)| && Resolvable(old(rows)[id].row, resolution))
      ensures !resolved ==> rows == old(rows)
    {
      if id < |rows| {
        resolved := Update(id, if resolution.ByRoutine? then ResolveRoutine(rows[id].row) else ResolveAgent(rows[id].row, kind));
        assert !resolved ==> rows == old(rows);
      } else {
        resolved := false;
      }
    }

    /** Startup releases every expired routing claim in one statement, whatever wakes are in flight. */
    method RecoverInterruptedRoutineRoutes(now: int)
      modifies `rows
      ensures |rows| == |old(rows)|
      ensures forall i :: 0 <= i < |rows| ==> rows[i] == old(rows)[i].(row := ClearOwnership(old(rows)[i].row, now).row)
    {
      var before := rows;
      rows := seq(|before|, i requires 0 <= i < |before| => before[i].(row := ClearOwnership(before[i].row, now).row));
    }

    /** `findMany` of the oldest stale rows. */
    method FindExpired(now: int) returns (expired: seq<nat>)
      ensures expired == Selected(rows, now)
    {
      expired := [];
      var i := 0;
      ScanBegins(rows, now);
      hide Scanned;
      while i < |rows| && |expired| < BATCH_SIZE
        invariant 0 <= i <= |rows| && |expired| <= BATCH_SIZE
        invariant Scanned(rows, now, i, expired)
      {
        ScanNext(rows, now, i, expired);
        if Stale(rows[i].row, now) {
          expired := expired + [i];
        }
        i := i + 1;
      }
      ScanEnds(rows, now, i, expired);
    }

    /** Whatever other actors do during an await; rows are never deleted. */
    method Meanwhile()
      modifies this
      ensures |old(rows)| <= |rows| && faults == old(faults) && awaits == old(awaits) + [Wakes(woken, inFlightRoutineWakes)]
    {
      var r: seq<Record>, w: set<nat>, f: set<nat> := *, *, *;
      if |rows| <= |r| {
        rows := r;
      }
      woken, inFlightRoutineWakes, awaits := w, f, awaits + [Wakes(w, f)];
    }

    /** The turn of one selected row, of which the pass knows what it read: looks for its wake, then ignores, keeps,
        frees or releases it. A call that fails without effect leaves no turn; the statement may also fail after it. */
    method RecoverExpired(id: nat, seen: Reason, kind: Kind, now: int) returns (threw: bool, ghost done: seq<Turn>)
      requires id < |rows|
      modifies this
      ensures |old(rows)| <= |rows| && |done| <= 1 && (done == [] ==> threw)
      ensures forall t :: t in done ==> Sound(t, now) && t.id == id && t.seen == seen && t.kind == kind
      ensures old(awaits) <= awaits && forall t :: t in done ==> |old(awaits)| < |awaits| && Looked(t, awaits[|old(awaits)|])
      ensures Chained(old(rows), done) && rows == End(old(rows), done) && faults == old(faults) + if threw then 1 else 0
    {
      ghost var before := rows;
      var fails: bool := *;
      done := [];
      if fails {
        faults := faults + 1;
        return true, [];
      }
      Meanwhile();
      var wake, inFlight := id in woken, id in inFlightRoutineWakes;
      var move := MoveOf(seen, wake, inFlight);
      if move.Keep? {
        done := [Turn(id, seen, kind, wake, inFlight, before, rows, rows)];
        ChainedOne(before, done[0]);
        assert rows == rows[id := rows[id].(row := rows[id].row)];
        return false, done;
      }
      Meanwhile();
      ghost var found := rows;
      rows := rows[id := rows[id].(row := Moved(rows[id].row, kind, move, now))];
      done := [Turn(id, seen, kind, wake, inFlight, before, found, rows)];
      ChainedOne(before, done[0]);
      threw := *;
      if threw {
        faults := faults + 1;
      }
    }

    /** The recovery loop over the oldest stale rows, with others writing during each of its awaits. */
    method RecoverExpiredDeferredMessages(now: int) returns (threw: bool, ghost turns: seq<Turn>)
      modifies this
      ensures Takes(turns, old(rows), now) && (!threw ==> |turns| == |Selected(old(rows), now)|)
      ensures Chained(old(rows), turns) && rows == End(old(rows), turns) && faults == old(faults) + if threw then 1 else 0
      // Each turn decided by the wakes as they were at one of its own awaits.
      ensures old(awaits) <= awaits
      ensures AllLooked(turns, awaits, |old(awaits)|)
    {
      ghost var before := rows;
      var fails: bool := *;
      turns := [];
      if fails {
        faults := faults + 1;
        return true, [];
      }
      var expired := FindExpired(now);
      var messages := rows;
      hide Takes, Chained, End, AllLooked;
      var k := 0;
      while k < |expired|
        invariant 0 <= k <= |expired| && |turns| == k && |before| <= |rows|
        invariant Takes(turns, before, now) && Chained(before, turns) && rows == End(before, turns) && faults == old(faults)
        invariant old(awaits) <= awaits
        invariant AllLooked(turns, awaits, |old(awaits)|)
      {
        var m := messages[expired[k]];
        ghost var done, known := [], awaits;
        threw, done := RecoverExpired(expired[k], m.row.reason, m.kind, now);
        ChainsCompose(before, turns, done);
        TakesOneMore(turns, done, before, now);
        AllLookedOneMore(turns, done, known, awaits, |old(awaits)|);
        turns := turns + done;
        if threw { return; }
        k := k + 1;
      }
      threw := false;
    }
  }

  /** What was found before position `i`, and what the rest of the table still gives. */
  ghost predicate Scanned(rows: seq<Record>, now: int, i: nat, expired: seq<nat>) {
    i <= |rows| && |expired| <= BATCH_SIZE && expired + Batch(rows, StaleAt(now), i, BATCH_SIZE - |expired|) == Selected(rows, now)
  }

  lemma ScanBegins(rows: seq<Record>, now: int)
    ensures Scanned(rows, now, 0, [])
  {
    assert [] + Selected(rows, now) == Selected(rows, now);
  }

  lemma ScanNext(rows: seq<Record>, now: int, i: nat, expired: seq<nat>)
    requires i < |rows| && |expired| < BATCH_SIZE && Scanned(rows, now, i, expired)
    ensures Scanned(rows, now, i + 1, if Stale(rows[i].row, now) then expired + [i] else expired)
  {
    hide Selected, Batch;
    BatchNext(rows, StaleAt(now), i, BATCH_SIZE - |expired|);
    if Stale(rows[i].row, now) {
      var rest := Batch(rows, StaleAt(now), i + 1, BATCH_SIZE - |expired| - 1);
      assert expired + ([i] + rest) == (expired + [i]) + rest;
    }
  }

  lemma ScanEnds(rows: seq<Record>, now: int, i: nat, expired: seq<nat>)
    requires Scanned(rows, now, i, expired) && (i == |rows| || |expired| == BATCH_SIZE)
    ensures expired == Selected(rows, now)
  {
    assert expired + [] == expired;
  }

  // --- the log of a pass -------------------------------------------------------------

  /** One selected row: what was read of it, and the table when its turn came, at its statement, and after it. */
  datatype Turn = Turn(id: nat, seen: Reason, kind: Kind, woken: bool, inFlight: bool,
                       before: seq<Record>, found: seq<Record>, left: seq<Record>)

  /** The turn went by these wakes. */
  predicate Looked(t: Turn, w: Wakes) {
    t.woken == (t.id in w.woken) && t.inFlight == (t.id in w.inFlight)
  }

  ghost predicate AllLooked(turns: seq<Turn>, awaits: seq<Wakes>, from: nat) {
    forall t :: t in turns ==> exists n :: from <= n < |awaits| && Looked(t, awaits[n])
  }

  lemma AllLookedOneMore(turns: seq<Turn>, done: seq<Turn>, known: seq<Wakes>, awaits: seq<Wakes>, from: nat)
    requires AllLooked(turns, known, from) && known <= awaits && from <= |known|
    requires forall t :: t in done ==> |known| < |awaits| && Looked(t, awaits[|known|])
    ensures AllLooked(turns + done, awaits, from)
  {
    forall t | t in turns + done ensures exists n :: from <= n < |awaits| && Looked(t, awaits[n]) {
      if t in turns {
        var n :| from <= n < |known| && Looked(t, known[n]);
        assert awaits[n] == known[n];
      }
    }
  }

  predicate Sound(t: Turn, now: int) {
    t.id < |t.found|
    && t.left == t.found[t.id := t.found[t.id].(row := Moved(t.found[t.id].row, t.kind, MoveOf(t.seen, t.woken, t.inFlight), now))]
  }

  /** The turns of the selected rows in order, perhaps not of all, each with what the selection read. */
  predicate Takes(turns: seq<Turn>, rows: seq<Record>, now: int) {
    var ids := Selected(rows, now);
    |turns| <= |ids| && forall k :: 0 <= k < |turns| ==>
      Sound(turns[k], now) && turns[k].id == ids[k] && turns[k].seen == rows[ids[k]].row.reason && turns[k].kind == rows[ids[k]].kind
  }

  lemma TakesOneMore(turns: seq<Turn>, done: seq<Turn>, rows: seq<Record>, now: int)
    requires Takes(turns, rows, now) && |turns| < |Selected(rows, now)| && |done| <= 1
    requires var id := Selected(rows, now)[|turns|];
      forall t :: t in done ==> Sound(t, now) && t.id == id && t.seen == rows[id].row.reason && t.kind == rows[id].kind
    ensures Takes(turns + done, rows, now)
  {
    if |done| == 1 {
      assert done[0] in done;
    }
  }

  function End(start: seq<Record>, turns: seq<Turn>): seq<Record> {
    if turns == [] then start else turns[|turns| - 1].left
  }

  /** Each turn began with what the one before had left. */
  predicate Chained(start: seq<Record>, turns: seq<Turn>) {
    turns == [] || (Chained(start, turns[..|turns| - 1]) && turns[|turns| - 1].before == End(start, turns[..|turns| - 1]))
  }

  lemma ChainedOne(start: seq<Record>, t: Turn)
    requires t.before == start
    ensures Chained(start, [t]) && End(start, [t]) == t.left
  {
    assert [t][..0] == [];
  }

  lemma {:induction false} ChainsCompose(start: seq<Record>, first: seq<Turn>, second: seq<Turn>)
    ensures Chained(start, first + second) <==> Chained(start, first) && Chained(End(start, first), second)
    ensures End(start, first + second) == End(End(start, first), second)
    decreases |second|
  {
    if second == [] {
      assert first + second == first;
    } else {
      var all := first + second;
      assert all[..|all| - 1] == first + second[..|second| - 1];
      ChainsCompose(start, first, second[..|second| - 1]);
    }
  }

  /** Whatever others did since the selection, a turn changes its own row only, and only one that is still deferred with
      its lease over: a routing marker goes only with its owner, and no owned row is released. */
  lemma TurnMovesOnlyStaleRows(t: Turn, now: int, i: nat)
    requires Sound(t, now) && i < |t.found|
    ensures i < |t.left| && (t.left[i] != t.found[i] ==> i == t.id && Stale(t.found[i].row, now))
    ensures t.left[i] != t.found[i] && !t.woken ==>
      if IsRoutingReason(t.seen)
      then !t.inFlight && IsRoutingReason(t.found[i].row.reason) && t.left[i].row == t.found[i].row.(reason := NoReason, lease := Some(now))
      else FreeOfOwnership(t.found[i].row.reason) && t.left[i].row.status == Released(t.kind)
  {
  }

  /** Nobody wrote beside the pass, and its lookups read these sets. */
  predicate Undisturbed(turns: seq<Turn>, woken: set<nat>, inFlight: set<nat>) {
    forall k :: 0 <= k < |turns| ==>
      turns[k].found == turns[k].before && turns[k].woken == (turns[k].id in woken) && turns[k].inFlight == (turns[k].id in inFlight)
  }

  lemma {:induction false} UndisturbedSoFar(rows: seq<Record>, turns: seq<Turn>, woken: set<nat>, inFlight: set<nat>, now: int, k: nat)
    requires Takes(turns, rows, now) && Chained(rows, turns) && Undisturbed(turns, woken, inFlight) && k == |turns|
    ensures PassedUpTo(rows, End(rows, turns), woken, inFlight, now, k)
    decreases k
  {
    hide Selected, PassedUpTo, Takes, Undisturbed, Sound, Chained, End;
    if k > 0 {
      ShorterTurns(rows, turns, woken, inFlight, now, k - 1);
      UndisturbedSoFar(rows, turns[..k - 1], woken, inFlight, now, k - 1);
      UndisturbedTurn(rows, turns, woken, inFlight, now, k - 1);
    } else {
      NonePassed(rows, turns, woken, inFlight, now);
    }
  }

  lemma ShorterTurns(rows: seq<Record>, turns: seq<Turn>, woken: set<nat>, inFlight: set<nat>, now: int, k: nat)
    requires Takes(turns, rows, now) && Chained(rows, turns) && Undisturbed(turns, woken, inFlight) && k + 1 == |turns|
    ensures Takes(turns[..k], rows, now) && Chained(rows, turns[..k]) && Undisturbed(turns[..k], woken, inFlight)
  {
    hide Selected, Sound;
  }

  lemma NonePassed(rows: seq<Record>, turns: seq<Turn>, woken: set<nat>, inFlight: set<nat>, now: int)
    requires turns == []
    ensures PassedUpTo(rows, End(rows, turns), woken, inFlight, now, 0)
  {
  }

  lemma UndisturbedTurn(rows: seq<Record>, turns: seq<Turn>, woken: set<nat>, inFlight: set<nat>, now: int, k: nat)
    requires Takes(turns, rows, now) && Chained(rows, turns) && Undisturbed(turns, woken, inFlight) && k == |turns| - 1
    requires PassedUpTo(rows, End(rows, turns[..k]), woken, inFlight, now, k)
    ensures PassedUpTo(rows, End(rows, turns), woken, inFlight, now, k + 1)
  {
    hide Selected, Moved;
    var ids, middle := Selected(rows, now), End(rows, turns[..k]);
    OneMorePassed(rows, middle, woken, inFlight, now, k);
    NotYetPassed(rows, now, k);
    assert turns[k].found == middle && middle[ids[k]] == rows[ids[k]];
  }

  lemma NotYetPassed(rows: seq<Record>, now: int, k: nat)
    requires k < |Selected(rows, now)|
    ensures var ids := Selected(rows, now); ids[k] !in ids[..k] && ids[k] < |rows|
  {
  }

  /** If nobody writes beside the pass, it comes to `Pass`. */
  lemma UndisturbedPass(rows: seq<Record>, turns: seq<Turn>, woken: set<nat>, inFlight: set<nat>, now: int)
    requires Takes(turns, rows, now) && |turns| == |Selected(rows, now)|
    requires Chained(rows, turns) && Undisturbed(turns, woken, inFlight)
    ensures End(rows, turns) == Pass(rows, woken, inFlight, now)
  {
    UndisturbedSoFar(rows, turns, woken, inFlight, now, |turns|);
    AllPassed(rows, End(rows, turns), woken, inFlight, now);
  }

  /** The first `k` rows of the batch are done, the others are as before. */
  ghost predicate PassedUpTo(before: seq<Record>, rows: seq<Record>, woken: set<nat>, inFlight: set<nat>, now: int, k: nat) {
    var ids := Selected(before, now);
    && |rows| == |before| && k <= |ids|
    && forall i :: 0 <= i < |rows| ==>
         rows[i] == if i in ids[..k] then before[i].(row := Recovered(before[i], i in woken, i in inFlight, now)) else before[i]
  }

  lemma OneMorePassed(before: seq<Record>, rows: seq<Record>, woken: set<nat>, inFlight: set<nat>, now: int, k: nat)
    requires PassedUpTo(before, rows, woken, inFlight, now, k) && k < |Selected(before, now)|
    ensures var id := Selected(before, now)[k];
      PassedUpTo(before, rows[id := rows[id].(row := Recovered(rows[id], id in woken, id in inFlight, now))], woken, inFlight, now, k + 1)
  {
    var ids := Selected(before, now);
    assert ids[..k + 1] == ids[..k] + [ids[k]];
    assert ids[k] !in ids[..k];
  }

  lemma AllPassed(before: seq<Record>, rows: seq<Record>, woken: set<nat>, inFlight: set<nat>, now: int)
    requires PassedUpTo(before, rows, woken, inFlight, now, |Selected(before, now)|)
    ensures rows == Pass(before, woken, inFlight, now)
  {
    var ids := Selected(before, now);
    assert ids[..|ids|] == ids;
  }

  /** The in-flight mark decides what a pass does to a routing-owned row of its batch, and to no other row: marked, the
      row is left to its wake, unmarked it loses its owner. */
  lemma MarkShieldsTheWake(rows: seq<Record>, woken: set<nat>, inFlight: set<nat>, now: int, i: nat)
    requires i in Selected(rows, now) && IsRoutingReason(rows[i].row.reason) && i !in woken
    ensures var marked, cleared := Pass(rows, woken, inFlight + {i}, now), Pass(rows, woken, inFlight - {i}, now);
      && marked[i] == rows[i]
      && cleared[i] == rows[i].(row := rows[i].row.(reason := NoReason, lease := Some(now)))
      && forall k :: 0 <= k < |rows| && k != i ==> marked[k] == cleared[k]
  {
    assert Stale(rows[i].row, now);
  }

  // --- progress ----------------------------------------------------------------------

  /** A stale row this pass may not touch: its wake is running here and has not committed. */
  predicate Blocked(r: Record, woken: bool, inFlight: bool, now: int) {
    Stale(r.row, now) && !woken && inFlight && IsRoutingReason(r.row.reason)
  }

  /** The invariant of the protocol: the agent marker never sits on a deferred row. */
  predicate Unclaimed(r: Record) {
    r.row.status.Deferred? ==> !r.row.reason.AgentOwned?
  }

  /** Passes a deferred row still needs: one to drop its routing marker, one to leave. */
  function Rank(row: Row, now: int): nat {
    if !Stale(row, now) then 0 else if IsRoutingReason(row.reason) then 2 else 1
  }

  /** Selection always makes progress, as seen at any later time. */
  lemma RecoveryDecreasesRank(r: Record, woken: bool, inFlight: bool, now: int, later: int)
    requires Stale(r.row, now) && Unclaimed(r) && !Blocked(r, woken, inFlight, now) && now <= later
    ensures Rank(Recovered(r, woken, inFlight, now), later) < Rank(r.row, later)
    ensures Unclaimed(r.(row := Recovered(r, woken, inFlight, now)))
  {
  }

  /** A row selected twice without a running wake is no longer deferred. */
  lemma TwoSelectionsSuffice(r: Record, woken: bool, now: int, later: int)
    requires Stale(r.row, now) && Unclaimed(r) && now <= later
    ensures var once := r.(row := Recovered(r, woken, false, now));
      once.row.status.Deferred? ==>
        Stale(once.row, later) && !Recovered(once, woken, false, later).status.Deferred?
  {
  }

  function TotalRank(rows: seq<Record>, now: int): nat {
    if rows == [] then 0 else Rank(rows[0].row, now) + TotalRank(rows[1..], now)
  }

  lemma {:induction false} TotalRankDrops(rows: seq<Record>, rows': seq<Record>, now: int, i: nat)
    requires |rows| == |rows'| && i < |rows|
    requires forall k :: 0 <= k < |rows| ==> Rank(rows'[k].row, now) <= Rank(rows[k].row, now)
    requires Rank(rows'[i].row, now) < Rank(rows[i].row, now)
    ensures TotalRank(rows', now) < TotalRank(rows, now)
    decreases |rows|
  {
    if i > 0 {
      TotalRankDrops(rows[1..], rows'[1..], now, i - 1);
    } else {
      TotalRankGrowsNowhere(rows[1..], rows'[1..], now);
    }
  }

  lemma {:induction false} TotalRankGrowsNowhere(rows: seq<Record>, rows': seq<Record>, now: int)
    requires |rows| == |rows'|
    requires forall k :: 0 <= k < |rows| ==> Rank(rows'[k].row, now) <= Rank(rows[k].row, now)
    ensures TotalRank(rows', now) <= TotalRank(rows, now)
    decreases |rows|
  {
    if rows != [] {
      TotalRankGrowsNowhere(rows[1..], rows'[1..], now);
    }
  }

  lemma {:induction false} TotalRankIsBounded(rows: seq<Record>, now: int)
    ensures TotalRank(rows, now) <= 2 * |rows|
    decreases |rows|
  {
    if rows != [] {
      TotalRankIsBounded(rows[1..], now);
    }
  }

  ghost predicate AllUnclaimed(rows: seq<Record>) {
    forall i :: 0 <= i < |rows| ==> Unclaimed(rows[i])
  }

  /** A row that recovery may move now. */
  predicate Movable(rows: seq<Record>, woken: set<nat>, inFlight: set<nat>, now: int, i: nat) {
    i < |rows| && Stale(rows[i].row, now) && !Blocked(rows[i], i in woken, i in inFlight, now)
  }

  /** How many wanted rows stand at or after `from` and before `i`. */
  function WantedBetween(rows: seq<Record>, wanted: Row -> bool, from: nat, i: nat): nat
    requires from <= i <= |rows|
    decreases i - from
  {
    if from == i then 0 else (if wanted(rows[from].row) then 1 else 0) + WantedBetween(rows, wanted, from + 1, i)
  }

  /** A wanted row is in the batch exactly when fewer wanted rows than the batch holds are older. */
  lemma {:induction false} InBatchExactlyWhenRoom(rows: seq<Record>, wanted: Row -> bool, from: nat, limit: nat, i: nat)
    requires from <= i < |rows| && wanted(rows[i].row)
    ensures i in Batch(rows, wanted, from, limit) <==> WantedBetween(rows, wanted, from, i) < limit
    decreases |rows| - from
  {
    if limit != 0 && from < i {
      if wanted(rows[from].row) {
        InBatchExactlyWhenRoom(rows, wanted, from + 1, limit - 1, i);
      } else {
        InBatchExactlyWhenRoom(rows, wanted, from + 1, limit, i);
      }
    }
  }

  lemma {:induction false} WantedBetweenGrows(rows: seq<Record>, wanted: Row -> bool, from: nat, i: nat, j: nat)
    requires from <= i <= j <= |rows|
    ensures WantedBetween(rows, wanted, from, i) <= WantedBetween(rows, wanted, from, j)
    decreases i - from
  {
    if from < i {
      WantedBetweenGrows(rows, wanted, from + 1, i, j);
    }
  }

  /** Among the wanted rows some are useful. The batch holds a useful one exactly when the oldest of them has room. */
  lemma BatchHoldsUsefulOne(rows: seq<Record>, wanted: Row -> bool, useful: nat -> bool, limit: nat, w: nat)
    requires w < |rows| && wanted(rows[w].row) && useful(w)
    requires forall i :: 0 <= i < w ==> !(wanted(rows[i].row) && useful(i))
    ensures (exists j: nat :: j in Batch(rows, wanted, 0, limit) && useful(j)) <==> WantedBetween(rows, wanted, 0, w) < limit
  {
    InBatchExactlyWhenRoom(rows, wanted, 0, limit, w);
    forall j: nat | j in Batch(rows, wanted, 0, limit) && useful(j) ensures WantedBetween(rows, wanted, 0, w) < limit {
      InBatchExactlyWhenRoom(rows, wanted, 0, limit, j);
      WantedBetweenGrows(rows, wanted, 0, w, j);
    }
  }

  /** The oldest movable row, which everything older and stale stands in front of. */
  predicate OldestMovable(rows: seq<Record>, woken: set<nat>, inFlight: set<nat>, now: int, w: nat) {
    Movable(rows, woken, inFlight, now, w) && forall i :: 0 <= i < w ==> !Movable(rows, woken, inFlight, now, i)
  }

  /** A whole batch of older rows, all of whose wakes run here, stands before the oldest movable row. */
  ghost predicate Starved(rows: seq<Record>, woken: set<nat>, inFlight: set<nat>, now: int) {
    exists w: nat :: OldestMovable(rows, woken, inFlight, now, w) && WantedBetween(rows, StaleAt(now), 0, w) >= BATCH_SIZE
  }

  ghost predicate NothingMovable(rows: seq<Record>, woken: set<nat>, inFlight: set<nat>, now: int) {
    forall i: nat :: !Movable(rows, woken, inFlight, now, i)
  }

  ghost predicate Selects(rows: seq<Record>, woken: set<nat>, inFlight: set<nat>, now: int, i: nat) {
    i in Selected(rows, now) && Movable(rows, woken, inFlight, now, i)
  }

  lemma {:induction false} FindOldest(rows: seq<Record>, woken: set<nat>, inFlight: set<nat>, now: int, i: nat) returns (w: nat)
    requires Movable(rows, woken, inFlight, now, i)
    ensures w <= i && OldestMovable(rows, woken, inFlight, now, w)
  {
    if k: nat :| k < i && Movable(rows, woken, inFlight, now, k) {
      w := FindOldest(rows, woken, inFlight, now, k);
    } else {
      w := i;
    }
  }

  /** While there is a movable row, a pass selects one exactly when the oldest of them has room in the batch. */
  lemma PassSelectsMovable(rows: seq<Record>, woken: set<nat>, inFlight: set<nat>, now: int, w: nat)
    requires OldestMovable(rows, woken, inFlight, now, w)
    ensures (exists j: nat :: Selects(rows, woken, inFlight, now, j)) <==> WantedBetween(rows, StaleAt(now), 0, w) < BATCH_SIZE
  {
    var useful := (i: nat) => Movable(rows, woken, inFlight, now, i);
    BatchHoldsUsefulOne(rows, StaleAt(now), useful, BATCH_SIZE, w);
    if j: nat :| j in Selected(rows, now) && useful(j) {
      assert Selects(rows, woken, inFlight, now, j);
    }
    if j: nat :| Selects(rows, woken, inFlight, now, j) {
      assert j in Selected(rows, now) && useful(j);
    }
  }

  lemma PassKeepsRanks(rows: seq<Record>, woken: set<nat>, inFlight: set<nat>, now: int, later: int)
    requires AllUnclaimed(rows) && now <= later
    ensures var rows' := Pass(rows, woken, inFlight, now);
      AllUnclaimed(rows') && forall k :: 0 <= k < |rows| ==> Rank(rows'[k].row, later) <= Rank(rows[k].row, later)
  {
    var rows' := Pass(rows, woken, inFlight, now);
    forall k | 0 <= k < |rows|
      ensures Unclaimed(rows'[k]) && Rank(rows'[k].row, later) <= Rank(rows[k].row, later)
    {
      if k in Selected(rows, now) && !Blocked(rows[k], k in woken, k in inFlight, now) {
        RecoveryDecreasesRank(rows[k], k in woken, k in inFlight, now, later);
      }
    }
  }

  /** A pass that selects a movable row makes the table's total rank smaller. */
  lemma SelectionDecreasesTotalRank(rows: seq<Record>, woken: set<nat>, inFlight: set<nat>, now: int, later: int, j: nat)
    requires AllUnclaimed(rows) && Selects(rows, woken, inFlight, now, j) && now <= later
    ensures TotalRank(Pass(rows, woken, inFlight, now), later) < TotalRank(rows, later)
  {
    var rows' := Pass(rows, woken, inFlight, now);
    PassKeepsRanks(rows, woken, inFlight, now, later);
    RecoveryDecreasesRank(rows[j], j in woken, j in inFlight, now, later);
    TotalRankDrops(rows, rows', later, j);
  }

  /** Exactly when a pass does anything: there is a movable row and the table is not starved. Then the total rank
      drops; otherwise the table stays as it is. */
  lemma PassDecreasesTotalRank(rows: seq<Record>, woken: set<nat>, inFlight: set<nat>, now: int, later: int)
    requires AllUnclaimed(rows) && now <= later
    ensures var rows' := Pass(rows, woken, inFlight, now);
      if NothingMovable(rows, woken, inFlight, now) || Starved(rows, woken, inFlight, now) then rows' == rows
      else TotalRank(rows', later) < TotalRank(rows, later)
  {
    if NothingMovable(rows, woken, inFlight, now) || Starved(rows, woken, inFlight, now) {
      IdlePassChangesNothing(rows, woken, inFlight, now);
    } else {
      var i: nat :| Movable(rows, woken, inFlight, now, i);
      var w := FindOldest(rows, woken, inFlight, now, i);
      PassSelectsMovable(rows, woken, inFlight, now, w);
      var j: nat :| Selects(rows, woken, inFlight, now, j);
      SelectionDecreasesTotalRank(rows, woken, inFlight, now, later, j);
    }
  }

  lemma IdlePassChangesNothing(rows: seq<Record>, woken: set<nat>, inFlight: set<nat>, now: int)
    requires NothingMovable(rows, woken, inFlight, now) || Starved(rows, woken, inFlight, now)
    ensures Pass(rows, woken, inFlight, now) == rows
  {
    if Starved(rows, woken, inFlight, now) {
      var w: nat :| OldestMovable(rows, woken, inFlight, now, w) && WantedBetween(rows, StaleAt(now), 0, w) >= BATCH_SIZE;
      PassSelectsMovable(rows, woken, inFlight, now, w);
    }
    forall i: nat | i in Selected(rows, now)
      ensures rows[i].(row := Recovered(rows[i], i in woken, i in inFlight, now)) == rows[i]
    {
      assert !Selects(rows, woken, inFlight, now, i);
      assert Blocked(rows[i], i in woken, i in inFlight, now);
    }
  }

  /** The table after one pass at each of the given times. */
  function Passes(rows: seq<Record>, woken: set<nat>, inFlight: set<nat>, times: seq<int>): (rows': seq<Record>)
    ensures |rows'| == |rows|
    decreases |times|
  {
    if times == [] then rows else Pass(Passes(rows, woken, inFlight, times[..|times| - 1]), woken, inFlight, times[|times| - 1])
  }

  ghost predicate Ascending(times: seq<int>) {
    forall j, k :: 0 <= j < k < |times| ==> times[j] <= times[k]
  }

  /** Pass `k` finds nothing it may move, or everything it may move behind a full batch of running wakes. */
  ghost predicate Rests(rows: seq<Record>, woken: set<nat>, inFlight: set<nat>, times: seq<int>, k: nat)
    requires k < |times|
  {
    var found := Passes(rows, woken, inFlight, times[..k]);
    NothingMovable(found, woken, inFlight, times[k]) || Starved(found, woken, inFlight, times[k])
  }

  lemma {:induction false} PassesShrinkBacklog(rows: seq<Record>, woken: set<nat>, inFlight: set<nat>, times: seq<int>, end: int)
    requires AllUnclaimed(rows)
    requires forall k :: 0 <= k < |times| ==> times[k] <= end
    ensures var rows' := Passes(rows, woken, inFlight, times);
      && AllUnclaimed(rows')
      && (TotalRank(rows', end) + |times| <= TotalRank(rows, end)
          || exists k :: 0 <= k < |times| && Rests(rows, woken, inFlight, times, k))
    decreases |times|
  {
    if times != [] {
      var last := |times| - 1;
      var before := Passes(rows, woken, inFlight, times[..last]);
      PassesShrinkBacklog(rows, woken, inFlight, times[..last], end);
      PassKeepsRanks(before, woken, inFlight, times[last], end);
      if exists k :: 0 <= k < last && Rests(rows, woken, inFlight, times[..last], k) {
        var k :| 0 <= k < last && Rests(rows, woken, inFlight, times[..last], k);
        assert times[..last][..k] == times[..k];
        assert Rests(rows, woken, inFlight, times, k);
      } else if !Rests(rows, woken, inFlight, times, last) {
        PassDecreasesTotalRank(before, woken, inFlight, times[last], end);
      }
    }
  }

  /** However long the backlog of n rows, one of the first 2n + 1 passes finds every movable row gone, unless one finds
      the table starved. */
  lemma BacklogClears(rows: seq<Record>, woken: set<nat>, inFlight: set<nat>, times: seq<int>)
    requires AllUnclaimed(rows) && Ascending(times) && |times| == 2 * |rows| + 1
    ensures exists k :: 0 <= k < |times| && Rests(rows, woken, inFlight, times, k)
  {
    PassesShrinkBacklog(rows, woken, inFlight, times, times[|times| - 1]);
    TotalRankIsBounded(rows, times[|times| - 1]);
  }

  // --- a starved table ---------------------------------------------------------------

  /** Twenty wakes under way whose leases have run out, and a younger row that waits for recovery. */
  function StarvingTable(): (rows: seq<Record>)
    ensures |rows| == BATCH_SIZE + 1
  {
    seq(BATCH_SIZE + 1, i requires 0 <= i =>
      Record(Direct, Row(Deferred, if i < BATCH_SIZE then Routing else NoReason, Some(0), None, None)))
  }

  function UpTo(n: nat): (s: set<nat>)
    ensures forall x: nat :: x in s <==> x < n
  {
    if n == 0 then {} else UpTo(n - 1) + {n - 1}
  }

  lemma {:induction false} AllWantedBefore(rows: seq<Record>, wanted: Row -> bool, from: nat, i: nat)
    requires from <= i <= |rows| && forall k :: from <= k < i ==> wanted(rows[k].row)
    ensures WantedBetween(rows, wanted, from, i) == i - from
    decreases i - from
  {
    if from < i {
      AllWantedBefore(rows, wanted, from + 1, i);
    }
  }

  /** The exception is real: no pass at any time moves anything although the last row is movable. */
  lemma FullBatchStarves(now: int)
    requires now >= 0
    ensures var busy := UpTo(BATCH_SIZE);
      && Movable(StarvingTable(), {}, busy, now, BATCH_SIZE)
      && Starved(StarvingTable(), {}, busy, now)
      && Pass(StarvingTable(), {}, busy, now) == StarvingTable()
  {
    var rows, busy := StarvingTable(), UpTo(BATCH_SIZE);
    AllWantedBefore(rows, StaleAt(now), 0, BATCH_SIZE);
    forall i | 0 <= i < BATCH_SIZE ensures !Movable(rows, {}, busy, now, i) {
      assert i in busy && rows[i].row.reason == Routing;
    }
    assert OldestMovable(rows, {}, busy, now, BATCH_SIZE);
    IdlePassChangesNothing(rows, {}, busy, now);
  }

  // --- a starved queue ---------------------------------------------------------------

  /** What the queue loop selects; it skips what carries a routing marker, and leaves it due. */
  function ReceivedAt(now: int): Row -> bool {
    (row: Row) => row.status.Received? && Due(row.lease, now)
  }

  predicate Queueable(rows: seq<Record>, now: int, i: nat) {
    i < |rows| && ReceivedAt(now)(rows[i].row) && !IsRoutingReason(rows[i].row.reason)
  }

  /** A pass comes to a received row it may queue exactly when fewer due rows than the batch holds are older than the
      oldest such row, parked ones included. */
  lemma QueueReachesExactlyWhenRoom(rows: seq<Record>, now: int, w: nat)
    requires Queueable(rows, now, w) && forall i :: 0 <= i < w ==> !Queueable(rows, now, i)
    ensures (exists j: nat :: j in Batch(rows, ReceivedAt(now), 0, BATCH_SIZE) && Queueable(rows, now, j))
      <==> WantedBetween(rows, ReceivedAt(now), 0, w) < BATCH_SIZE
  {
    var useful := (i: nat) => Queueable(rows, now, i);
    BatchHoldsUsefulOne(rows, ReceivedAt(now), useful, BATCH_SIZE, w);
    if j: nat :| j in Batch(rows, ReceivedAt(now), 0, BATCH_SIZE) && Queueable(rows, now, j) {
      assert useful(j);
    }
    if j: nat :| j in Batch(rows, ReceivedAt(now), 0, BATCH_SIZE) && useful(j) {
      assert Queueable(rows, now, j);
    }
  }

  /** Twenty parked rows whose leases are over, and a younger row that nothing keeps from the agent. */
  function ParkedTable(): (rows: seq<Record>)
    ensures |rows| == BATCH_SIZE + 1
  {
    seq(BATCH_SIZE + 1, i requires 0 <= i =>
      Record(Direct, Row(Received, if i < BATCH_SIZE then Routing else NoReason, Some(0), None, None)))
  }

  /** No pass at any time comes to the younger row. */
  lemma ParkedRowsStarveTheQueue(now: int)
    requires now >= 0
    ensures Queueable(ParkedTable(), now, BATCH_SIZE)
    ensures forall j: nat :: j in Batch(ParkedTable(), ReceivedAt(now), 0, BATCH_SIZE) ==> !Queueable(ParkedTable(), now, j)
  {
    var rows := ParkedTable();
    AllWantedBefore(rows, ReceivedAt(now), 0, BATCH_SIZE);
    QueueReachesExactlyWhenRoom(rows, now, BATCH_SIZE);
  }
}
