/**
 One row of the external message table, and every write the TeamChat code makes to it.
 A write with a `where` clause is a compare-and-set: it changes the row when the clause
 holds, and `hit` is the count the database reports.

 One write depends on another row: the ambient pass ignores the other evaluated rows only once
 their trigger was promoted (TeamChatAmbient). A pass that may dismiss any observed row covers it.
 */
module TeamChatRow {
  import opened Wrappers

  datatype Kind = Direct | Ambient

  /** `Absent` stands for a row the webhook has not created yet. */
  datatype Status =
    | Absent | Deferred | Observed | Received | Queueing
    | Running | Delivering | Delivered | Ignored

  /** The engagement reason column: ownership markers, or text of the ambient judge. */
  datatype Reason = NoReason | Routing | Rearmed | AgentOwned | RoutineWake | Judged(text: string)

  datatype Row = Row(status: Status, reason: Reason, lease: Option<int>, runId: Option<nat>, handle: Option<string>)

  datatype Cas = Cas(row: Row, hit: bool)

  const DEFERRED_RESERVATION_MS := 120_000
  const ROUTING_RESERVATION_MS := 1_800_000
  const QUEUE_RESERVATION_MS := 120_000
  const DELIVERY_RESERVATION_MS := 120_000

  const SILENT := "silent"
  const SILENT_FAILURE := "silent-failure"
  const UNCONFIRMED := "unconfirmed"

  const NO_ROW := Row(Absent, NoReason, None, None, None)

  predicate IsRoutingReason(reason: Reason) {
    reason.Routing? || reason.Rearmed?
  }

  /** No ownership marker: empty, or text that is not one of the three markers. */
  predicate FreeOfOwnership(reason: Reason) {
    !IsRoutingReason(reason) && !reason.AgentOwned?
  }

  /** `nextAttemptAt <= now`; an empty deadline is never at or before anything. */
  predicate Expired(lease: Option<int>, now: int) {
    lease.Some? && lease.value <= now
  }

  /** `nextAttemptAt is null or nextAttemptAt <= now`. */
  predicate Due(lease: Option<int>, now: int) {
    lease.None? || lease.value <= now
  }

  /** A handle the JavaScript truthiness test accepts: present and not empty. */
  predicate Truthy(handle: Option<string>) {
    handle.Some? && handle.value != ""
  }

  predicate Sentinel(handle: string) {
    handle in {SILENT, SILENT_FAILURE, UNCONFIRMED}
  }

  predicate Linked(row: Row) {
    row.status.Running? || row.status.Delivering? || row.status.Delivered?
  }

  predicate Reserved(row: Row) {
    row.status.Delivering? || row.status.Delivered?
  }

  /** Where an unowned row goes: ambient rows wait for the judge, the others for the queue. */
  function Released(kind: Kind): Status {
    if kind.Ambient? then Observed else Received
  }

  // --- inbound -----------------------------------------------------------------------

  /** The create branch of the upsert; an existing row is left as it is. */
  function Upsert(row: Row, created: Row): Row {
    if row.status.Absent? then created else row
  }

  function Defer(row: Row, at: int): Cas {
    if row.status.Received? || row.status.Observed? || (row.status.Deferred? && Expired(row.lease, at)) then
      Cas(row.(status := Deferred, lease := Some(at + DEFERRED_RESERVATION_MS)), true)
    else
      Cas(row, false)
  }

  function Extend(row: Row, now: int): Cas {
    if row.status.Deferred? then
      Cas(row.(reason := Routing, lease := Some(now + ROUTING_RESERVATION_MS)), true)
    else
      Cas(row, false)
  }

  function ReserveWake(row: Row, now: int): Cas {
    if (row.status.Deferred? || row.status.Received? || row.status.Observed?)
       && (row.reason.NoReason? || IsRoutingReason(row.reason)) then
      Cas(row.(reason := Routing, lease := Some(now + ROUTING_RESERVATION_MS)), true)
    else
      Cas(row, false)
  }

  function ResolveRoutine(row: Row): Cas {
    if row.status.Deferred? || row.status.Received? || row.status.Observed? then
      Cas(row.(status := Ignored, reason := RoutineWake, lease := None), true)
    else
      Cas(row, false)
  }

  function ResolveAgent(row: Row, kind: Kind): Cas {
    if row.status.Deferred? then
      Cas(row.(status := Released(kind), reason := NoReason, lease := None), true)
    else
      Cas(row, false)
  }

  // --- recovery ----------------------------------------------------------------------

  function IgnoreWoken(row: Row, now: int): Cas {
    if row.status.Deferred? && Expired(row.lease, now) then
      Cas(row.(status := Ignored, reason := RoutineWake, lease := None), true)
    else
      Cas(row, false)
  }

  function ClearOwnership(row: Row, now: int): Cas {
    if row.status.Deferred? && Expired(row.lease, now) && IsRoutingReason(row.reason) then
      Cas(row.(reason := NoReason, lease := Some(now)), true)
    else
      Cas(row, false)
  }

  function PromoteFree(row: Row, kind: Kind, now: int): Cas {
    if row.status.Deferred? && Expired(row.lease, now) && FreeOfOwnership(row.reason) then
      Cas(row.(status := Released(kind), reason := NoReason, lease := None), true)
    else
      Cas(row, false)
  }

  function ResetQueueing(row: Row, now: int): Cas {
    if row.status.Queueing? && Expired(row.lease, now) then
      Cas(row.(status := Received, reason := NoReason, lease := None), true)
    else
      Cas(row, false)
  }

  // --- ambient judge -----------------------------------------------------------------

  function IgnoreAmbient(row: Row): Cas {
    if row.status.Observed? then Cas(row.(status := Ignored), true) else Cas(row, false)
  }

  /** The judge's reason replaces whatever marker the observed row carried. */
  function PromoteAmbient(row: Row, reason: Option<string>): Cas {
    if row.status.Observed? then
      Cas(row.(status := Received, reason := if reason.Some? then Judged(reason.value) else NoReason), true)
    else
      Cas(row, false)
  }

  // --- queue -------------------------------------------------------------------------

  function AbandonReceived(row: Row): Cas {
    if row.status.Received? then
      Cas(row.(status := Ignored, reason := RoutineWake, lease := None), true)
    else
      Cas(row, false)
  }

  function AbandonQueueing(row: Row): Cas {
    if row.status.Queueing? && row.runId.None? then
      Cas(row.(status := Ignored, reason := RoutineWake, lease := None), true)
    else
      Cas(row, false)
  }

  function ClaimQueue(row: Row, now: int): Cas {
    if row.status.Received? && FreeOfOwnership(row.reason) then
      Cas(row.(status := Queueing, reason := AgentOwned, lease := Some(now + QUEUE_RESERVATION_MS)), true)
    else
      Cas(row, false)
  }

  function Link(row: Row, run: nat): Cas {
    if row.status.Queueing? && row.reason.AgentOwned? then
      Cas(row.(status := Running, runId := Some(run), lease := None), true)
    else
      Cas(row, false)
  }

  // --- delivery ----------------------------------------------------------------------

  function ReserveDelivery(row: Row, at: int): Cas {
    if row.status.Running? && row.handle.None? then
      Cas(row.(status := Delivering, lease := Some(at + DELIVERY_RESERVATION_MS)), true)
    else
      Cas(row, false)
  }

  function GiveUpDelivery(row: Row, at: int): Cas {
    if row.status.Delivering? && row.handle.None? && Due(row.lease, at) then
      Cas(row.(status := Delivered, handle := Some(UNCONFIRMED), lease := None), true)
    else
      Cas(row, false)
  }

  /** Unconditional: the row is found by its id alone. */
  function StoreHandle(row: Row, handle: string): Row {
    row.(handle := Some(handle))
  }

  /** Unconditional: the row is found by its id alone. */
  function MarkDelivered(row: Row, handle: string): Row {
    row.(status := Delivered, handle := Some(handle), lease := None)
  }

  /** `current` is the status read just before; a queueing row falls back to received. */
  function Retry(row: Row, current: Status, until: int): Cas {
    if row.handle.None? && row.status == current then
      Cas(row.(status := if current.Queueing? then Received else current,
               reason := if current.Queueing? then NoReason else row.reason,
               lease := Some(until)), true)
    else
      Cas(row, false)
  }
}
