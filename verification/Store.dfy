/**
 The SQL adapter as an object: one table, changed in place by the statements of each
 storage method. The database clock, locks held by other sessions, and storage errors are
 inputs.
 */
module Stores {
  import opened Rows
  import opened Claiming
  import opened ClaimContract
  import opened Enqueueing
  import opened BatchAck
  import opened Transitions
  import Protocol

  // ----- Parameter defaults ------------------------------------------------------------

  /** Seconds() truncated to an integer, toward zero. */
  function WholeSeconds(d: int): int {
    if d >= 0 then d / SECOND else -((-d) / SECOND)
  }

  /** The lease a claim writes: whole seconds in Postgres, exact in MySQL. */
  function LeaseColumn(b: Dialect, lease: int): (d: int)
    ensures b.MySQL? ==> d == lease
    ensures b.Postgres? && lease == 0 ==> d == 30 * SECOND
    ensures b.Postgres? && lease > 0 ==> d % SECOND == 0 && d <= lease < d + SECOND
    ensures b.Postgres? && lease < 0 ==> d % SECOND == 0 && d - SECOND < lease <= d
  {
    match b
    case Postgres => (if lease == 0 then 30 else WholeSeconds(lease)) * SECOND
    case MySQL => lease
  }

  function ClaimBatch(b: Dialect, batch: int): nat {
    if batch > 0 then batch else if b.Postgres? then 1 else 100
  }

  function LimitOr(limit: int, default: nat): nat {
    if limit <= 0 then default else limit
  }

  /** A purge takes completed candidates up to the limit, on Postgres the oldest; ties fall either way. */
  ghost predicate IsPurge(b: Dialect, t: Table, before: Time, n: nat, ids: set<Id>) {
    && (forall i :: i in ids ==> i in t && Purgeable(t[i], before))
    && |ids| <= n
    && (|ids| < n ==> forall i :: i in t && Purgeable(t[i], before) ==> i in ids)
    && (b.Postgres? ==>
          forall i, j :: i in ids && j in t && j !in ids && Purgeable(t[j], before) ==>
            t[i].completedAt.value <= t[j].completedAt.value)
  }

  /** Some of the purgeable rows are picked, on Postgres the oldest, and c holds the others. */
  ghost predicate Purging(b: Dialect, t: Table, before: Time, ids: set<Id>, c: set<Id>) {
    && ids !! c
    && (forall i :: i in ids || i in c <==> i in t && Purgeable(t[i], before))
    && (b.Postgres? ==> forall i, j :: i in ids && j in c ==> t[i].completedAt.value <= t[j].completedAt.value)
  }

  lemma PurgeOne(b: Dialect, t: Table, before: Time, ids: set<Id>, c: set<Id>, i: Id)
    requires Purging(b, t, before, ids, c) && i in c
    requires b.Postgres? ==> forall j :: j in c ==> t[i].completedAt.value <= t[j].completedAt.value
    ensures Purging(b, t, before, ids + {i}, c - {i})
  {
  }

  /** The rows a reclaim may free: under way past the end of their lease, and not locked. */
  function Overdue(t: Table, now: Time, locked: set<Id>): set<Id> {
    set i | i in t && i !in locked && t[i].status == HANDLING
            && t[i].claimedUntil.Some? && t[i].claimedUntil.value < now
  }

  /** A freed row is due at once, its attempt used. */
  predicate Freed(r: Row, now: Time, r': Row) {
    && r'.SameMessage(r) && r'.status == RETRYING && r'.attempt == r.attempt && r'.processAt == now
    && r'.completedAt == r.completedAt && Unclaimed(r')
  }

  /** Expired, unlocked rows are freed, as many as limit and supply allow, and no other row changes. */
  ghost predicate Reclaimed(t: Table, now: Time, limit: int, locked: set<Id>, ids: set<Id>, t': Table) {
    var c, n: nat := Overdue(t, now, locked), if limit >= 1 then limit else 500;
    && ids <= c && |ids| == (if |c| < n then |c| else n)
    && t'.Keys == t.Keys
    && forall i :: i in t ==> if i in ids then Freed(t[i], now, t'[i]) else t'[i] == t[i]
  }

  /** The lease is moved exactly if the worker holds the row, which then expires after the new end. */
  ghost predicate Extended(t: Table, id: Id, worker: WorkerId, until: Time, ok: bool, t': Table) {
    && OnlyRow(t, t', id)
    && (ok <==> id in t && t[id].status == HANDLING && t[id].claimedBy == Some(worker))
    && (id in t && !ok ==> t'[id] == t[id])
    && (ok ==> t'[id].claimedUntil == Some(until) && t'[id].(claimedUntil := None) == t[id].(claimedUntil := None)
               && forall now :: Expired(t'[id], now) <==> until < now)
  }

  /** A DEAD row starts over, claimable from the given time on; any other one is unchanged, on Postgres an error. */
  ghost predicate Requeued(b: Dialect, t: Table, id: Id, at: Time, ok: bool, t': Table) {
    && OnlyRow(t, t', id)
    && (ok <==> b.MySQL? || (id in t && t[id].status == DEAD))
    && (id in t && t[id].status != DEAD ==> t'[id] == t[id])
    && (id in t && t[id].status == DEAD ==>
          && t'[id].SameMessage(t[id]) && t'[id].status == CREATED && t'[id].attempt == 0
          && t'[id].processAt == at && t'[id].completedAt.None?
          && (if b.MySQL? then Unclaimed(t'[id])
              else t'[id].claimedBy == t[id].claimedBy && t'[id].claimedUntil == t[id].claimedUntil)
          && (Protocol.WellFormed(b, t[id]) ==> Protocol.WellFormed(b, t'[id]))
          && forall now :: Eligible(t'[id], now, [], None) <==> at <= now)
  }

  /** An ack parameter as the engine sends it; a malformed id does not parse. */
  datatype RawAck = RawAck(id: Option<Id>, attempt: int, worker: WorkerId)

  predicate AllParse(ps: seq<RawAck>) {
    forall k :: 0 <= k < |ps| ==> ps[k].id.Some?
  }

  function Parsed(ps: seq<RawAck>): (acks: seq<Ack>)
    ensures |acks| <= |ps|
    ensures |acks| == |ps| <==> AllParse(ps)
  {
    if ps == [] then []
    else
      var rest, p := Parsed(ps[..|ps| - 1]), ps[|ps| - 1];
      assert AllParse(ps) <==> AllParse(ps[..|ps| - 1]) && p.id.Some?;
      if p.id.Some? then rest + [Ack(p.id.value, p.attempt, p.worker)] else rest
  }

  /** The first k parameters are queued: those that parse are applied to the open transaction. */
  ghost predicate Queued(b: Dialect, t: Table, now: Time, ps: seq<RawAck>, k: nat, queued: nat, tx: Table)
    requires k <= |ps|
  {
    queued == |Parsed(ps[..k])| && tx == BatchFold(b, t, now, Parsed(ps[..k]))
  }

  lemma QueuedNext(b: Dialect, t: Table, now: Time, ps: seq<RawAck>, k: nat, queued: nat, tx: Table)
    requires k < |ps| && Queued(b, t, now, ps, k, queued, tx)
    ensures match ps[k].id
            case None => Queued(b, t, now, ps, k + 1, queued, tx)
            case Some(id) =>
              Queued(b, t, now, ps, k + 1, queued + 1, BatchEntryStmt(b, tx, now, Ack(id, ps[k].attempt, ps[k].worker)))
  {
    assert ps[..k + 1][..k] == ps[..k];
    var after := Parsed(ps[..k + 1]);
    if ps[k].id.Some? { assert after[..|after| - 1] == Parsed(ps[..k]); }
  }

  lemma QueuedAll(b: Dialect, t: Table, now: Time, ps: seq<RawAck>, queued: nat, tx: Table)
    requires Queued(b, t, now, ps, |ps|, queued, tx)
    ensures tx == BatchStmt(b, t, now, Parsed(ps)) && (queued < |ps| <==> !AllParse(ps))
  {
    assert ps[..|ps|] == ps;
    FoldIsBatch(b, t, now, Parsed(ps));
  }

  function Messages(rs: seq<Reply>): seq<Msg> {
    if rs == [] then [] else Messages(rs[..|rs| - 1]) + [rs[|rs| - 1].msg]
  }

  /** The existing message named by the first duplicate error. */
  function FirstDuplicate(rs: seq<Reply>): Option<Msg> {
    if rs == [] then None
    else
      var d, last := FirstDuplicate(rs[..|rs| - 1]), rs[|rs| - 1];
      if d.None? && last.dup then Some(last.msg) else d
  }

  /** The first k replies have been gathered. */
  ghost predicate Gathered(rs: seq<Reply>, k: nat, out: seq<Msg>, firstDup: Option<Msg>)
    requires k <= |rs|
  {
    out == Messages(rs[..k]) && firstDup == FirstDuplicate(rs[..k])
  }

  lemma GatherNext(rs: seq<Reply>, k: nat, out: seq<Msg>, firstDup: Option<Msg>)
    requires k < |rs| && Gathered(rs, k, out, firstDup)
    ensures Gathered(rs, k + 1, out + [rs[k].msg], if firstDup.None? && rs[k].dup then Some(rs[k].msg) else firstDup)
  {
    assert rs[..k + 1][..k] == rs[..k];
  }

  /** SELECT by (event_type, idempotency_key). */
  method Lookup(t: Table, p: EnqueueParams) returns (m: Msg)
    requires UniqueKeys(t) && KeyTaken(t, p)
    ensures m == Msg(Holder(t, p), t[Holder(t, p)])
  {
    var i :| i in t && SameKey(t[i], p);
    HolderIs(t, p, i);
    m := Msg(i, t[i]);
  }

  /** The reply to an item, read off the inserted rows or looked up in the table. */
  ghost predicate Answers(rows: Table, inserted: Table, it: Item, r: Reply) {
    if it.id in inserted then r == Reply(Msg(it.id, inserted[it.id]), false)
    else KeyTaken(rows, it.p) && r == Reply(Msg(Holder(rows, it.p), rows[Holder(rows, it.p)]), true)
  }

  lemma AnswersAfter(t: Table, now: Time, items: seq<Item>, k: nat)
    requires UniqueKeys(t) && FreshIds(t, items) && k < |items|
    ensures var fold := EnqueueFold(t, now, items);
            Answers(fold.table, Inserted(t, now, items), items[k], fold.replies[k])
  {
    ReplyAfter(t, now, items, k);
  }

  /** The messages in input order and the first duplicate, after the statement. */
  method Collect(items: seq<Item>, rows: Table, inserted: Table, ghost replies: seq<Reply>)
    returns (out: seq<Msg>, firstDup: Option<Msg>)
    requires UniqueKeys(rows) && |replies| == |items|
    requires forall k :: 0 <= k < |items| ==> Answers(rows, inserted, items[k], replies[k])
    ensures out == Messages(replies) && firstDup == FirstDuplicate(replies)
  {
    out, firstDup := [], None;
    for k := 0 to |items|
      invariant Gathered(replies, k, out, firstDup)
    {
      GatherNext(replies, k, out, firstDup);
      assert Answers(rows, inserted, items[k], replies[k]);
      if items[k].id in inserted {
        out := out + [Msg(items[k].id, inserted[items[k].id])];
      } else {
        var m := Lookup(rows, items[k].p);
        out := out + [m];
        if firstDup.None? {
          firstDup := Some(m);
        }
      }
    }
    assert replies[..|items|] == replies;
  }

  /** One more item, enqueued after the others. */
  lemma FoldNext(t: Table, now: Time, items: seq<Item>, k: nat)
    requires FreshIds(t, items) && k < |items|
    ensures var before, after := EnqueueFold(t, now, items[..k]), EnqueueFold(t, now, items[..k + 1]);
            var it := items[k];
            && it.id !in before.table && after.table == InsertStmt(before.table, it.id, it.shard, now, it.p)
            && Messages(after.replies) == Messages(before.replies) + [ReplyTo(before.table, now, it).msg]
  {
    assert items[..k + 1][..k] == items[..k];
    FoldGrows(t, now, items[..k], items[k].id);
    var before, after := EnqueueFold(t, now, items[..k]), EnqueueFold(t, now, items[..k + 1]);
    assert after.replies[..k] == before.replies;
  }

  lemma {:induction false} MessagesAt(rs: seq<Reply>, k: nat)
    requires k < |rs|
    ensures |Messages(rs)| == |rs| && Messages(rs)[k] == rs[k].msg
    decreases |rs|
  {
    var n := |rs| - 1;
    if k < n {
      MessagesAt(rs[..n], k);
    } else if n > 0 {
      MessagesAt(rs[..n], 0);
    }
  }

  lemma AllPlaced(t: Table, now: Time, items: seq<Item>)
    requires UniqueKeys(t) && FreshIds(t, items)
    ensures var fold := EnqueueFold(t, now, items); var out := Messages(fold.replies);
            && |out| == |items| && OnlyAdds(t, items, fold.table)
            && forall k :: 0 <= k < |items| ==> Placed(t, now, items, k, out[k], fold.table)
  {
    var fold := EnqueueFold(t, now, items);
    FoldAdds(t, now, items);
    if items != [] { MessagesAt(fold.replies, 0); }
    forall k | 0 <= k < |items| ensures Placed(t, now, items, k, Messages(fold.replies)[k], fold.table) {
      MessagesAt(fold.replies, k);
      FoldPlaces(t, now, items, k);
    }
  }

  /** Statements that keep each row's message, or drop the row, keep the index. */
  lemma KeysKept(t: Table, t': Table)
    requires UniqueKeys(t) && t'.Keys <= t.Keys
    requires forall i :: i in t' ==> t'[i].key == t[i].key && t'[i].eventType == t[i].eventType
    ensures UniqueKeys(t')
  {
  }

  class Store {
    const dialect: Dialect
    var rows: Table

    constructor (dialect: Dialect)
      ensures this.dialect == dialect && rows == map[] && Valid()
    {
      this.dialect := dialect;
      rows := map[];
    }

    /** The unique index holds. */
    ghost predicate Valid()
      reads this
    {
      UniqueKeys(rows)
    }

    method Enqueue(it: Item, now: Time) returns (reply: Reply)
      requires Valid() && it.id !in rows
      modifies this
      ensures Valid() && rows == InsertStmt(old(rows), it.id, it.shard, now, it.p)
      ensures reply == old(ReplyTo(rows, now, it))
      ensures reply.dup <==> Taken(old(rows), it.p)
      ensures Placed(old(rows), now, [it], 0, reply.msg, rows) && OnlyAdds(old(rows), [it], rows)
    {
      TakenIsKeyTaken(rows, it.p);
      assert [it][0] == it;
      if KeyTaken(rows, it.p) {
        var m := Lookup(rows, it.p);
        reply := Reply(m, true);
      } else {
        rows := rows[it.id := NewRow(it.p, now, it.shard)];
        reply := Reply(Msg(it.id, rows[it.id]), false);
      }
    }

    /**
     On Postgres one statement for the whole batch, then the messages in input order and the
     first duplicate; on MySQL one Enqueue after the other, duplicates not reported.
     */
    method EnqueueBatch(items: seq<Item>, now: Time) returns (out: seq<Msg>, firstDup: Option<Msg>)
      requires Valid() && FreshIds(rows, items)
      modifies this
      ensures Valid() && rows == EnqueueFold(old(rows), now, items).table
      ensures out == Messages(EnqueueFold(old(rows), now, items).replies)
      ensures firstDup == if dialect.MySQL? then None else FirstDuplicate(EnqueueFold(old(rows), now, items).replies)
      ensures |out| == |items| && OnlyAdds(old(rows), items, rows)
      ensures forall k :: 0 <= k < |items| ==> Placed(old(rows), now, items, k, out[k], rows)
    {
      if dialect.MySQL? {
        out := EnqueueEach(items, now);
        return out, None;
      }
      ghost var t := rows;
      var inserted := Inserted(rows, now, items);
      BulkIsFold(rows, now, items);
      FoldUnique(rows, now, items);
      rows := rows + inserted;
      ghost var replies := EnqueueFold(t, now, items).replies;
      forall k | 0 <= k < |items| ensures Answers(rows, inserted, items[k], replies[k]) {
        AnswersAfter(t, now, items, k);
      }
      out, firstDup := Collect(items, rows, inserted, replies);
      AllPlaced(t, now, items);
    }

    method EnqueueEach(items: seq<Item>, now: Time) returns (out: seq<Msg>)
      requires Valid() && FreshIds(rows, items)
      modifies this
      ensures Valid() && rows == EnqueueFold(old(rows), now, items).table
      ensures out == Messages(EnqueueFold(old(rows), now, items).replies)
      ensures |out| == |items| && OnlyAdds(old(rows), items, rows)
      ensures forall k :: 0 <= k < |items| ==> Placed(old(rows), now, items, k, out[k], rows)
    {
      ghost var t := rows;
      out := [];
      for k := 0 to |items|
        invariant Valid() && rows == EnqueueFold(t, now, items[..k]).table
        invariant out == Messages(EnqueueFold(t, now, items[..k]).replies)
      {
        FoldNext(t, now, items, k);
        var reply := Enqueue(items[k], now);
        out := out + [reply.msg];
      }
      assert items[..|items|] == items;
      AllPlaced(t, now, items);
    }

    /** One claim statement over one shard, or over all of them. */
    method ClaimQuery(worker: WorkerId, types: seq<EventType>, batch: nat, until: Time, shard: Option<int>,
                      now: Time, locked: set<Id>)
      returns (out: seq<Msg>)
      requires Valid()
      modifies this
      ensures Valid()
      ensures Claims(old(rows), now, types, shard, locked, batch, worker, until, out, rows)
      ensures batch >= 1 ==> (out == [] <==> Claimable(old(rows), now, types, shard, locked) == {})
    {
      ghost var t := rows;
      var ids := Take(rows, Candidates(rows, now, types, shard, locked), batch);
      rows := ClaimStmt(rows, (set i | i in ids), worker, until);
      out := [];
      for k := 0 to |ids|
        invariant |out| == k && forall j :: 0 <= j < k ==> out[j] == Msg(ids[j], ClaimedRow(t[ids[j]], worker, until))
      {
        out := out + [Msg(ids[k], rows[ids[k]])];
      }
      ReadBack(t, now, types, shard, locked, batch, worker, until, out);
      KeysKept(t, rows);
    }

    /**
     Two passes: one random shard, then all shards if that came back empty. The passes are
     separate statements, so the second one finds the table as other sessions left it.
     */
    method Claim(worker: WorkerId, types: seq<EventType>, batch: int, lease: int, shard: int,
                 now: Time, locked: set<Id>, meanwhile: Table, later: Time, lockedLater: set<Id>)
      returns (out: seq<Msg>)
      requires Valid() && UniqueKeys(meanwhile)
      modifies this
      ensures Valid()
      ensures var n: nat := if batch >= 1 then batch else if dialect.Postgres? then 1 else 100;
              var d := LeaseColumn(dialect, lease);
              if dialect.MySQL? && types == [] then out == [] && rows == old(rows)
              else if Claimable(old(rows), now, types, Some(shard), locked) != {}
              then out != [] && Claims(old(rows), now, types, Some(shard), locked, n, worker, now + d, out, rows)
              else Claims(meanwhile, later, types, None, lockedLater, n, worker, later + d, out, rows)
    {
      if dialect.MySQL? && types == [] {
        return [];
      }
      var n, d := ClaimBatch(dialect, batch), LeaseColumn(dialect, lease);
      out := ClaimQuery(worker, types, n, now + d, Some(shard), now, locked);
      if |out| == 0 {
        rows := meanwhile;
        out := ClaimQuery(worker, types, n, later + d, None, later, lockedLater);
      }
    }

    method Succeed(a: Ack, now: Time)
      requires Valid()
      modifies this
      ensures Valid()
      ensures Written(dialect, old(rows), now, a, Write.Succeed, rows)
    {
      if a.id in rows && Accepts(dialect, rows[a.id], a.attempt, a.worker) {
        rows := rows[a.id := SucceededRow(dialect, rows[a.id], now)];
      }
      KeysKept(old(rows), rows);
    }

    method Fail(a: Ack, dead: bool, retryAt: Time, now: Time)
      requires Valid()
      modifies this
      ensures Valid()
      ensures Written(dialect, old(rows), now, a, if dead then FailDead else FailRetry(retryAt), rows)
    {
      if a.id in rows && Accepts(dialect, rows[a.id], a.attempt, a.worker) {
        if dead {
          rows := rows[a.id := DeadRow(dialect, rows[a.id], now)];
        } else {
          rows := rows[a.id := RetriedRow(rows[a.id], retryAt)];
        }
      }
      KeysKept(old(rows), rows);
    }

    method ReleaseShutdown(a: Ack, now: Time)
      requires Valid()
      modifies this
      ensures Valid()
      ensures Written(dialect, old(rows), now, a, Release, rows)
    {
      if a.id in rows && Accepts(dialect, rows[a.id], a.attempt, a.worker) {
        rows := rows[a.id := ReleasedRow(dialect, rows[a.id], now)];
      }
      KeysKept(old(rows), rows);
    }

    /**
     One transaction. The Postgres adapter drops entries whose id does not parse but still
     reads one result per parameter, so a single malformed id rolls the whole batch back.
     */
    method BatchSucceed(ps: seq<RawAck>, now: Time, broken: bool) returns (ok: bool)
      requires Valid()
      modifies this
      ensures Valid()
      ensures ok <==> ps == [] || (!broken && (dialect.MySQL? || AllParse(ps)))
      ensures rows == if ok then BatchStmt(dialect, old(rows), now, Parsed(ps)) else old(rows)
    {
      if |ps| == 0 {
        QueuedAll(dialect, rows, now, ps, 0, rows);
        return true;
      }
      if broken {
        return false;
      }
      var tx, queued := rows, 0;
      for k := 0 to |ps|
        invariant Queued(dialect, rows, now, ps, k, queued, tx)
        invariant rows == old(rows)
      {
        QueuedNext(dialect, rows, now, ps, k, queued, tx);
        if ps[k].id.Some? {
          tx := BatchEntryStmt(dialect, tx, now, Ack(ps[k].id.value, ps[k].attempt, ps[k].worker));
          queued := queued + 1;
        }
      }
      QueuedAll(dialect, rows, now, ps, queued, tx);
      if dialect.Postgres? && queued < |ps| {
        return false;
      }
      rows := tx;
      KeysKept(old(rows), rows);
      ok := true;
    }

    /** Reports whether the worker still holds the row, which then cannot be reclaimed before the new end. */
    method Extend(id: Id, worker: WorkerId, until: Time) returns (ok: bool)
      requires Valid()
      modifies this
      ensures Valid()
      ensures Extended(old(rows), id, worker, until, ok, rows)
    {
      ok := ExtendAccepts(rows, id, worker);
      if ok {
        rows := rows[id := rows[id].(claimedUntil := Some(until))];
      }
      KeysKept(old(rows), rows);
    }

    /**
     Gives a DEAD message its attempts back from `at` on; any other row is an error, which the MySQL
     adapter does not report.
     */
    method Requeue(id: Id, at: Time) returns (ok: bool)
      requires Valid()
      modifies this
      ensures Valid()
      ensures Requeued(dialect, old(rows), id, at, ok, rows)
    {
      ok := dialect.MySQL? || (id in rows && rows[id].status == DEAD);
      if id in rows && rows[id].status == DEAD {
        rows := rows[id := RequeuedRow(dialect, rows[id], at)];
      }
      KeysKept(old(rows), rows);
    }

    /** Any of the expired, unlocked rows, up to the limit. */
    method ReclaimExpired(limit: int, now: Time, locked: set<Id>) returns (ids: set<Id>)
      requires Valid()
      modifies this
      ensures Valid()
      ensures Reclaimed(old(rows), now, limit, locked, ids, rows)
    {
      var c := set i | i in rows && i !in locked && Expired(rows[i], now);
      assert c == Overdue(rows, now, locked);
      ids := AnyOf(c, LimitOr(limit, 500));
      rows := ReclaimStmt(rows, ids, now);
      KeysKept(old(rows), rows);
    }

    method PurgeTerminal(before: Time, limit: int) returns (ids: set<Id>)
      requires Valid()
      modifies this
      ensures Valid()
      ensures IsPurge(dialect, old(rows), before, if limit >= 1 then limit else 5000, ids)
      ensures rows == PurgeStmt(old(rows), ids)
    {
      ids := {};
      var n := LimitOr(limit, 5000);
      var c := set i | i in rows && Purgeable(rows[i], before);
      while |ids| < n && c != {}
        invariant rows == old(rows) && |ids| <= n && Purging(dialect, rows, before, ids, c)
        decreases |c|
      {
        var i :| i in c;
        if dialect.Postgres? {
          i := Oldest(rows, c, before);
        }
        PurgeOne(dialect, rows, before, ids, c, i);
        ids, c := ids + {i}, c - {i};
      }
      rows := PurgeStmt(rows, ids);
      KeysKept(old(rows), rows);
    }
  }

  /** As many elements as limit and supply allow. */
  method AnyOf(c: set<Id>, n: nat) returns (ids: set<Id>)
    ensures ids <= c && |ids| == (if |c| < n then |c| else n)
  {
    ids := {};
    var rest := c;
    while |ids| < n && rest != {}
      invariant ids + rest == c && ids !! rest && |ids| <= n && |ids| + |rest| == |c|
      decreases |rest|
    {
      var i :| i in rest;
      ids, rest := ids + {i}, rest - {i};
    }
  }

  method Oldest(t: Table, c: set<Id>, before: Time) returns (m: Id)
    requires c != {} && forall i :: i in c ==> i in t && Purgeable(t[i], before)
    ensures m in c && t[m].completedAt.Some?
    ensures forall i :: i in c ==> t[i].completedAt.Some? && t[m].completedAt.value <= t[i].completedAt.value
  {
    m :| m in c;
    var rest := c - {m};
    while rest != {}
      invariant rest <= c && m in c
      invariant forall i :: i in c && i !in rest ==> t[m].completedAt.value <= t[i].completedAt.value
      decreases |rest|
    {
      var i :| i in rest;
      rest := rest - {i};
      if t[i].completedAt.value < t[m].completedAt.value {
        m := i;
      }
    }
  }
}
