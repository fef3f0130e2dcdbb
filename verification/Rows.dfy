/**
 The `tickr_messages` table and the SQL statements that change it.

 A table is a finite map from message ids to rows. Every statement is a function from a
 table to a table; the Postgres and MySQL adapters differ in their ack guards and in a few
 columns they leave behind, which the `Dialect` parameter selects. CockroachDB runs the
 Postgres statements. Ids are UUIDv7 values, ordered as numbers; times are nanoseconds on
 the database clock.
 */
module Rows {

  datatype Option<+T> = None | Some(value: T)

  type Id = nat
  type Time = int
  type WorkerId = string
  type EventType = string

  const MILLISECOND: int := 1_000_000
  const SECOND: int := 1_000_000_000
  const HOUR: int := 3600 * SECOND

  datatype Dialect = Postgres | MySQL

  datatype Status = CREATED | HANDLING | SUCCESS | FAILED | RETRYING | DEAD

  datatype Row = Row(
    eventType: EventType,
    payload: string,
    key: Option<string>,
    maxAttempts: int,
    shard: int,
    status: Status,
    attempt: int,
    processAt: Time,
    claimedBy: Option<WorkerId>,
    claimedUntil: Option<Time>,
    completedAt: Option<Time>)
  {
    /** Waiting to be claimed. */
    predicate Pending() { status == CREATED || status == RETRYING }

    /** No further transition except an admin requeue. */
    predicate Terminal() { status == SUCCESS || status == DEAD }

    /** Same message: the columns no statement ever rewrites. */
    predicate SameMessage(other: Row) {
      && eventType == other.eventType && payload == other.payload && key == other.key
      && maxAttempts == other.maxAttempts && shard == other.shard
    }
  }

  type Table = map<Id, Row>

  // ----- Enqueue -----------------------------------------------------------------------

  /** `processAt` is None for the zero time, `key` is empty when the producer set none. */
  datatype EnqueueParams = EnqueueParams(
    eventType: EventType,
    payload: string,
    key: string,
    maxAttempts: int,
    processAt: Option<Time>)

  function KeyColumn(key: string): Option<string> {
    if key == "" then None else Some(key)
  }

  function NewRow(p: EnqueueParams, now: Time, shard: int): Row {
    Row(p.eventType, p.payload, KeyColumn(p.key),
        if p.maxAttempts <= 0 then 10 else p.maxAttempts,
        shard, CREATED, 0,
        if p.processAt.None? then now else p.processAt.value,
        None, None, None)
  }

  /** The row holds the idempotency key that `p` asks for. */
  predicate SameKey(r: Row, p: EnqueueParams) {
    r.key.Some? && r.key == KeyColumn(p.key) && r.eventType == p.eventType
  }

  predicate KeyTaken(t: Table, p: EnqueueParams) {
    exists i :: i in t && SameKey(t[i], p)
  }

  /** The unique index on (event_type, idempotency_key) over rows that have a key. */
  ghost predicate UniqueKeys(t: Table) {
    forall i, j ::
      (i in t && j in t && t[i].key.Some? && t[i].key == t[j].key && t[i].eventType == t[j].eventType)
      ==> i == j
  }

  /** INSERT .. ON CONFLICT (event_type, idempotency_key) DO NOTHING, for one row. */
  function InsertStmt(t: Table, id: Id, shard: int, now: Time, p: EnqueueParams): Table {
    if KeyTaken(t, p) then t else t[id := NewRow(p, now, shard)]
  }

  // ----- Claim -------------------------------------------------------------------------

  /** Nothing selects all event types in Postgres; the MySQL adapter claims nothing then. */
  predicate Eligible(r: Row, now: Time, types: seq<EventType>, shard: Option<int>) {
    && r.Pending()
    && (shard.None? || r.shard == shard.value)
    && r.processAt <= now
    && (types == [] || r.eventType in types)
  }

  function ClaimedRow(r: Row, worker: WorkerId, until: Time): Row {
    r.(status := HANDLING, attempt := r.attempt + 1,
       claimedBy := Some(worker), claimedUntil := Some(until))
  }

  function ClaimStmt(t: Table, ids: set<Id>, worker: WorkerId, until: Time): Table {
    map i | i in t :: if i in ids then ClaimedRow(t[i], worker, until) else t[i]
  }

  // ----- Acks --------------------------------------------------------------------------

  /** What a worker presents when it writes an outcome back. */
  datatype Ack = Ack(id: Id, attempt: int, worker: WorkerId)

  /** The WHERE clause of a single Succeed, Fail or ReleaseShutdown. */
  predicate Accepts(b: Dialect, r: Row, attempt: int, worker: WorkerId) {
    r.status == HANDLING &&
    match b
    case Postgres => r.attempt == attempt
    case MySQL => r.claimedBy == Some(worker)
  }

  /** The WHERE clause of each BatchSucceed entry, the same in both adapters. */
  predicate BatchAccepts(r: Row, attempt: int) {
    r.status == HANDLING && r.attempt == attempt
  }

  /** Postgres clears the claim on a terminal write, MySQL leaves the old claim in place. */
  function EndClaim(b: Dialect, r: Row): Row {
    match b
    case Postgres => r.(claimedBy := None, claimedUntil := None)
    case MySQL => r
  }

  function SucceededRow(b: Dialect, r: Row, now: Time): Row {
    EndClaim(b, r).(status := SUCCESS, completedAt := Some(now))
  }

  function DeadRow(b: Dialect, r: Row, now: Time): Row {
    EndClaim(b, r).(status := DEAD, completedAt := Some(now))
  }

  function RetriedRow(r: Row, retryAt: Time): Row {
    r.(status := RETRYING, claimedBy := None, claimedUntil := None, processAt := retryAt)
  }

  function Decrement(attempt: int): int {
    if attempt - 1 < 0 then 0 else attempt - 1
  }

  /** Postgres reschedules for now as RETRYING; MySQL keeps process_at and may say CREATED. */
  function ReleasedRow(b: Dialect, r: Row, now: Time): Row {
    var base := r.(attempt := Decrement(r.attempt), claimedBy := None, claimedUntil := None);
    match b
    case Postgres => base.(status := RETRYING, processAt := now)
    case MySQL => base.(status := if r.attempt > 1 then RETRYING else CREATED)
  }

  /** The outcome a single guarded write records. */
  datatype Write = Succeed | FailDead | FailRetry(retryAt: Time) | Release

  function WrittenRow(b: Dialect, r: Row, now: Time, w: Write): Row {
    match w
    case Succeed => SucceededRow(b, r, now)
    case FailDead => DeadRow(b, r, now)
    case FailRetry(at) => RetriedRow(r, at)
    case Release => ReleasedRow(b, r, now)
  }

  /** Succeed, Fail and ReleaseShutdown: a guarded update of one row. */
  function AckStmt(b: Dialect, t: Table, now: Time, a: Ack, w: Write): Table {
    if a.id in t && Accepts(b, t[a.id], a.attempt, a.worker)
    then t[a.id := WrittenRow(b, t[a.id], now, w)] else t
  }

  /** One entry of a BatchSucceed transaction. */
  function BatchEntryStmt(b: Dialect, t: Table, now: Time, a: Ack): Table {
    if a.id in t && BatchAccepts(t[a.id], a.attempt)
    then t[a.id := SucceededRow(b, t[a.id], now)] else t
  }

  /** Some entry of the batch names this row at its current attempt. */
  predicate BatchMatches(r: Row, i: Id, acks: seq<Ack>) {
    exists k :: 0 <= k < |acks| && acks[k].id == i && BatchAccepts(r, acks[k].attempt)
  }

  /** BatchSucceed as one statement: each row that some entry matches becomes SUCCESS. */
  function BatchStmt(b: Dialect, t: Table, now: Time, acks: seq<Ack>): Table {
    map i | i in t :: if BatchMatches(t[i], i, acks) then SucceededRow(b, t[i], now) else t[i]
  }

  /** Guarded by claimed_by alone in both adapters. */
  predicate ExtendAccepts(t: Table, id: Id, worker: WorkerId) {
    id in t && t[id].status == HANDLING && t[id].claimedBy == Some(worker)
  }

  function ExtendStmt(t: Table, id: Id, worker: WorkerId, until: Time): Table {
    if ExtendAccepts(t, id, worker) then t[id := t[id].(claimedUntil := Some(until))] else t
  }

  // ----- Requeue, reclaim, purge -------------------------------------------------------

  /** MySQL also clears the claim columns, which its DEAD rows still carry. */
  function RequeuedRow(b: Dialect, r: Row, at: Time): Row {
    var base := r.(status := CREATED, attempt := 0, processAt := at, completedAt := None);
    match b
    case Postgres => base
    case MySQL => base.(claimedBy := None, claimedUntil := None)
  }

  function RequeueStmt(b: Dialect, t: Table, id: Id, at: Time): Table {
    if id in t && t[id].status == DEAD then t[id := RequeuedRow(b, t[id], at)] else t
  }

  predicate Expired(r: Row, now: Time) {
    r.status == HANDLING && r.claimedUntil.Some? && r.claimedUntil.value < now
  }

  function ReclaimedRow(r: Row, now: Time): Row {
    r.(status := RETRYING, claimedBy := None, claimedUntil := None, processAt := now)
  }

  function ReclaimStmt(t: Table, ids: set<Id>, now: Time): Table {
    map i | i in t :: if i in ids then ReclaimedRow(t[i], now) else t[i]
  }

  /** Both terminal statuses share the one cutoff. */
  predicate Purgeable(r: Row, before: Time) {
    r.Terminal() && r.completedAt.Some? && r.completedAt.value < before
  }

  function PurgeStmt(t: Table, ids: set<Id>): Table {
    t - ids
  }
}
