/** What the writes to one row mean for the caller, column by column. */
module Transitions {
  import opened Rows
  import opened Protocol

  /** Only row i may differ. */
  ghost predicate OnlyRow(t: Table, t': Table, i: Id) {
    t'.Keys == t.Keys && forall j :: j in t && j != i ==> t'[j] == t[j]
  }

  predicate Unclaimed(r: Row) {
    r.claimedBy.None? && r.claimedUntil.None?
  }

  /** The row an admitted write leaves behind. */
  predicate Shows(b: Dialect, what: Write, r: Row, now: Time, r': Row) {
    && r'.SameMessage(r)
    && match what
       case FailRetry(at) =>
         r'.status == RETRYING && r'.attempt == r.attempt && r'.processAt == at
         && r'.completedAt == r.completedAt && Unclaimed(r')
       case Release =>
         && r'.attempt == (if r.attempt >= 1 then r.attempt - 1 else 0)
         && r'.completedAt == r.completedAt && Unclaimed(r')
         && if b.Postgres? then r'.status == RETRYING && r'.processAt == now
            else r'.status == (if r.attempt > 1 then RETRYING else CREATED) && r'.processAt == r.processAt
       case _ =>
         && r'.status == (if what.Succeed? then SUCCESS else DEAD) && r'.attempt == r.attempt
         && r'.processAt == r.processAt && r'.completedAt == Some(now)
         && if b.Postgres? then Unclaimed(r') else r'.claimedBy == r.claimedBy && r'.claimedUntil == r.claimedUntil
  }

  /** A write changes at most the row it names, and that one exactly if it is admitted. */
  ghost predicate Written(b: Dialect, t: Table, now: Time, a: Ack, what: Write, t': Table) {
    && OnlyRow(t, t', a.id)
    && (a.id in t ==>
          if Accepts(b, t[a.id], a.attempt, a.worker) then Shows(b, what, t[a.id], now, t'[a.id])
          else t'[a.id] == t[a.id])
  }

  /** These conditions determine the table, and it is the one the protocol's step leaves. */
  lemma WrittenIsAck(b: Dialect, t: Table, now: Time, a: Ack, what: Write, t': Table)
    ensures Written(b, t, now, a, what, t') <==> t' == AckStmt(b, t, now, a, what)
  {
    var u := AckStmt(b, t, now, a, what);
    if Written(b, t, now, a, what, t') {
      assert t'.Keys == u.Keys;
      forall i | i in t ensures t'[i] == u[i] {
        if i == a.id && Accepts(b, t[i], a.attempt, a.worker) { assert t'[i] == WrittenRow(b, t[i], now, what); }
      }
    }
  }

  /** A shutdown release undoes the claim: the row is as before, on Postgres as a retry due at once. */
  lemma ReleaseUndoesClaim(b: Dialect, r: Row, w: WorkerId, until: Time, now: Time)
    requires WellFormed(b, r) && r.Pending()
    ensures ReleasedRow(b, ClaimedRow(r, w, until), now)
         == if b.Postgres? then r.(status := RETRYING, processAt := now) else r
  {
  }

  /** A requeued message is the message as first enqueued, scheduled for the requeue time. */
  lemma RequeueIsNew(b: Dialect, p: EnqueueParams, start: Time, shard: int, r: Row, at: Time)
    requires WellFormed(b, r) && r.status == DEAD && r.SameMessage(NewRow(p, start, shard))
    ensures RequeuedRow(b, r, at) == NewRow(p.(processAt := Some(at)), start, shard)
  {
  }
}
