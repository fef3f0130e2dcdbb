/**
 Single and bulk enqueue. The bulk form is one INSERT over unnested arrays; it leaves the
 same table and reports the same messages as enqueueing the items one by one.
 */
module Enqueueing {
  import opened Rows

  /** A row as the adapter returns it. */
  datatype Msg = Msg(id: Id, row: Row)

  /** An enqueue request with the id and shard the adapter picked for it. */
  datatype Item = Item(id: Id, shard: int, p: EnqueueParams)

  /** The stored or already existing message, and whether it was a duplicate. */
  datatype Reply = Reply(msg: Msg, dup: bool)

  datatype Enqueued = Enqueued(table: Table, replies: seq<Reply>)

  /** Picked ids are new to the table and pairwise different. */
  ghost predicate FreshIds(t: Table, items: seq<Item>) {
    && (forall k :: 0 <= k < |items| ==> items[k].id !in t)
    && (forall j, k :: 0 <= j < k < |items| ==> items[j].id != items[k].id)
  }

  /** The row that holds a taken key; the unique index makes it the only one. */
  ghost function Holder(t: Table, p: EnqueueParams): (i: Id)
    requires KeyTaken(t, p)
    ensures i in t && SameKey(t[i], p)
  {
    var i :| i in t && SameKey(t[i], p);
    i
  }

  ghost function ReplyTo(t: Table, now: Time, it: Item): Reply {
    if KeyTaken(t, it.p) then Reply(Msg(Holder(t, it.p), t[Holder(t, it.p)]), true)
    else Reply(Msg(it.id, NewRow(it.p, now, it.shard)), false)
  }

  /** The stored row says what was asked for, waiting and unclaimed; the zero time means now, no limit means ten. */
  predicate AsRequested(it: Item, now: Time, r: Row) {
    && r.eventType == it.p.eventType && r.payload == it.p.payload && r.shard == it.shard
    && (if it.p.key == "" then r.key.None? else r.key == Some(it.p.key))
    && (if it.p.maxAttempts >= 1 then r.maxAttempts == it.p.maxAttempts else r.maxAttempts == 10)
    && r.status == CREATED && r.attempt == 0
    && (if it.p.processAt.Some? then r.processAt == it.p.processAt.value else r.processAt == now)
    && r.claimedBy.None? && r.claimedUntil.None? && r.completedAt.None?
  }

  /** A row of this type has this key. */
  ghost predicate Taken(t: Table, p: EnqueueParams) {
    p.key != "" && exists i :: i in t && t[i].eventType == p.eventType && t[i].key == Some(p.key)
  }

  lemma TakenIsKeyTaken(t: Table, p: EnqueueParams)
    ensures Taken(t, p) <==> KeyTaken(t, p)
  {
    if i :| i in t && t[i].eventType == p.eventType && t[i].key == Some(p.key) {
      assert p.key != "" ==> SameKey(t[i], p);
    }
  }

  /** The reference: Enqueue item after item. */
  ghost function EnqueueFold(t: Table, now: Time, items: seq<Item>): (r: Enqueued)
    ensures |r.replies| == |items|
  {
    if items == [] then Enqueued(t, [])
    else
      var it := items[|items| - 1];
      var r := EnqueueFold(t, now, items[..|items| - 1]);
      Enqueued(InsertStmt(r.table, it.id, it.shard, now, it.p), r.replies + [ReplyTo(r.table, now, it)])
  }

  lemma {:induction false} FoldUnique(t: Table, now: Time, items: seq<Item>)
    requires UniqueKeys(t)
    ensures UniqueKeys(EnqueueFold(t, now, items).table)
    decreases |items|
  {
    if items != [] {
      FoldUnique(t, now, items[..|items| - 1]);
    }
  }

  // ----- The bulk statement ------------------------------------------------------------

  predicate Rivals(p: EnqueueParams, q: EnqueueParams) {
    p.key != "" && p.key == q.key && p.eventType == q.eventType
  }

  /** ON CONFLICT DO NOTHING skips an item whose key is in the table or earlier in the same statement. */
  predicate Wins(t: Table, items: seq<Item>, k: nat)
    requires k < |items|
  {
    !KeyTaken(t, items[k].p) && forall j :: 0 <= j < k ==> !Rivals(items[j].p, items[k].p)
  }

  /** The rows the statement inserts, which are also the rows it returns. */
  function Inserted(t: Table, now: Time, items: seq<Item>): (m: Table)
    requires FreshIds(t, items)
    ensures forall k :: 0 <= k < |items| ==>
      (items[k].id in m <==> Wins(t, items, k))
      && (items[k].id in m ==> m[items[k].id] == NewRow(items[k].p, now, items[k].shard))
    ensures forall i :: i in m ==> exists k :: 0 <= k < |items| && items[k].id == i
  {
    map k | 0 <= k < |items| && Wins(t, items, k) :: items[k].id := NewRow(items[k].p, now, items[k].shard)
  }

  function BulkInsert(t: Table, now: Time, items: seq<Item>): Table
    requires FreshIds(t, items)
  {
    t + Inserted(t, now, items)
  }

  // ----- Bulk equals fold --------------------------------------------------------------

  lemma TakenInsert(t: Table, now: Time, it: Item, p: EnqueueParams)
    requires it.id !in t
    ensures KeyTaken(InsertStmt(t, it.id, it.shard, now, it.p), p) <==> KeyTaken(t, p) || Rivals(it.p, p)
  {
    var t' := InsertStmt(t, it.id, it.shard, now, it.p);
    if i :| i in t && SameKey(t[i], p) {
      assert i in t' && SameKey(t'[i], p);
    }
    if Rivals(it.p, p) {
      if i :| i in t && SameKey(t[i], it.p) {
        assert SameKey(t'[i], p);
      } else {
        assert SameKey(t'[it.id], p);
      }
    }
  }

  /** Enqueueing only adds rows, under the picked ids. */
  lemma {:induction false} FoldGrows(t: Table, now: Time, items: seq<Item>, i: Id)
    ensures i in t && (forall k :: 0 <= k < |items| ==> items[k].id != i) ==>
      i in EnqueueFold(t, now, items).table && EnqueueFold(t, now, items).table[i] == t[i]
    ensures i !in t && (forall k :: 0 <= k < |items| ==> items[k].id != i) ==> i !in EnqueueFold(t, now, items).table
    decreases |items|
  {
    if items != [] {
      FoldGrows(t, now, items[..|items| - 1], i);
    }
  }

  /** A key is taken after the fold exactly if it was before or some item asked for it. */
  lemma {:induction false} TakenAfter(t: Table, now: Time, items: seq<Item>, p: EnqueueParams)
    requires FreshIds(t, items)
    ensures KeyTaken(EnqueueFold(t, now, items).table, p) <==>
            KeyTaken(t, p) || exists j :: 0 <= j < |items| && Rivals(items[j].p, p)
    decreases |items|
  {
    if items != [] {
      var rest, it := items[..|items| - 1], items[|items| - 1];
      TakenAfter(t, now, rest, p);
      FoldGrows(t, now, rest, it.id);
      TakenInsert(EnqueueFold(t, now, rest).table, now, it, p);
      assert forall j :: 0 <= j < |rest| ==> rest[j] == items[j];
    }
  }

  lemma WinsPrefix(t: Table, items: seq<Item>, n: nat, k: nat)
    requires k < n <= |items|
    ensures Wins(t, items[..n], k) <==> Wins(t, items, k)
  {
    assert forall j :: 0 <= j <= k ==> items[..n][j] == items[j];
  }

  lemma FoldAtLast(t: Table, now: Time, items: seq<Item>)
    requires FreshIds(t, items) && items != []
    ensures var end, k := EnqueueFold(t, now, items).table, |items| - 1;
            && (items[k].id in end <==> Wins(t, items, k))
            && (items[k].id in end ==> end[items[k].id] == NewRow(items[k].p, now, items[k].shard))
  {
    var n := |items| - 1;
    var rest := items[..n];
    FoldGrows(t, now, rest, items[n].id);
    TakenAfter(t, now, rest, items[n].p);
    assert forall j :: 0 <= j < n ==> rest[j] == items[j];
  }

  /** The fold stores item k, and stores it as a new row, exactly if the bulk statement would. */
  lemma {:induction false} FoldAt(t: Table, now: Time, items: seq<Item>, k: nat)
    requires FreshIds(t, items) && k < |items|
    ensures var end := EnqueueFold(t, now, items).table;
            && (items[k].id in end <==> Wins(t, items, k))
            && (items[k].id in end ==> end[items[k].id] == NewRow(items[k].p, now, items[k].shard))
    decreases |items|
  {
    var n := |items| - 1;
    if k < n {
      WinsPrefix(t, items, n, k);
      FoldAt(t, now, items[..n], k);
      assert items[..n][k] == items[k];
    } else {
      FoldAtLast(t, now, items);
    }
  }

  predicate SameAt(a: Table, b: Table, i: Id) {
    (i in a <==> i in b) && (i in a ==> a[i] == b[i])
  }

  lemma SameTables(a: Table, b: Table)
    requires forall i :: SameAt(a, b, i)
    ensures a == b
  {
    assert forall i :: i in a ==> SameAt(a, b, i);
    assert forall i :: i in b ==> SameAt(a, b, i);
  }

  lemma BulkAt(t: Table, now: Time, items: seq<Item>, i: Id)
    requires FreshIds(t, items)
    ensures SameAt(BulkInsert(t, now, items), EnqueueFold(t, now, items).table, i)
  {
    if k :| 0 <= k < |items| && items[k].id == i {
      FoldAt(t, now, items, k);
    } else {
      FoldGrows(t, now, items, i);
    }
  }

  lemma BulkIsFold(t: Table, now: Time, items: seq<Item>)
    requires FreshIds(t, items)
    ensures BulkInsert(t, now, items) == EnqueueFold(t, now, items).table
  {
    var bulk, end := BulkInsert(t, now, items), EnqueueFold(t, now, items).table;
    forall i ensures SameAt(bulk, end, i) { BulkAt(t, now, items, i); }
    SameTables(bulk, end);
  }

  lemma HolderIs(t: Table, p: EnqueueParams, i: Id)
    requires UniqueKeys(t) && i in t && SameKey(t[i], p)
    ensures KeyTaken(t, p) && Holder(t, p) == i
  {
  }

  lemma KeepsOne(t: Table, now: Time, items: seq<Item>, i: Id)
    requires FreshIds(t, items) && items != []
    requires i in EnqueueFold(t, now, items[..|items| - 1]).table
    ensures var before, after := EnqueueFold(t, now, items[..|items| - 1]).table, EnqueueFold(t, now, items).table;
            i in after && after[i] == before[i]
  {
    var m := |items| - 1;
    FoldGrows(t, now, items[..m], items[m].id);
  }

  lemma {:induction false} KeepsRow(t: Table, now: Time, items: seq<Item>, n: nat, i: Id)
    requires FreshIds(t, items) && n <= |items| && i in EnqueueFold(t, now, items[..n]).table
    ensures i in EnqueueFold(t, now, items).table
    ensures EnqueueFold(t, now, items).table[i] == EnqueueFold(t, now, items[..n]).table[i]
    decreases |items|
  {
    if n == |items| {
      assert items[..n] == items;
    } else {
      var m := |items| - 1;
      assert items[..m][..n] == items[..n];
      KeepsRow(t, now, items[..m], n, i);
      KeepsOne(t, now, items, i);
    }
  }

  lemma {:induction false} ReplyAt(t: Table, now: Time, items: seq<Item>, k: nat)
    requires FreshIds(t, items) && k < |items|
    ensures EnqueueFold(t, now, items).replies[k] == ReplyTo(EnqueueFold(t, now, items[..k]).table, now, items[k])
    decreases |items|
  {
    var n := |items| - 1;
    if k < n {
      ReplyAt(t, now, items[..n], k);
      assert items[..n][..k] == items[..k];
    }
  }

  /** The reply to item k can be worked out after the whole statement, as the bulk form does. */
  lemma ReplyAfter(t: Table, now: Time, items: seq<Item>, k: nat)
    requires UniqueKeys(t) && FreshIds(t, items) && k < |items|
    ensures var r := EnqueueFold(t, now, items); var it := items[k];
            if Wins(t, items, k) then r.replies[k] == Reply(Msg(it.id, NewRow(it.p, now, it.shard)), false)
            else it.p.key != "" && KeyTaken(r.table, it.p)
                 && r.replies[k] == Reply(Msg(Holder(r.table, it.p), r.table[Holder(r.table, it.p)]), true)
  {
    ReplyAt(t, now, items, k);
    TakenAfter(t, now, items[..k], items[k].p);
    assert forall j :: 0 <= j < k ==> items[..k][j] == items[j];
    if !Wins(t, items, k) {
      var h := Holder(EnqueueFold(t, now, items[..k]).table, items[k].p);
      KeepsRow(t, now, items, k, h);
      FoldUnique(t, now, items);
      HolderIs(EnqueueFold(t, now, items).table, items[k].p, h);
    }
  }

  // ----- What a batch leaves, item by item ---------------------------------------------

  /**
   Item k of the batch is answered by the row it was stored as, or by the one that already had
   its key, in the table or from an earlier item; the answer is a row of the table.
   */
  ghost predicate Placed(t: Table, now: Time, items: seq<Item>, k: nat, m: Msg, t': Table)
    requires k < |items|
  {
    var it := items[k];
    && m.id in t' && t'[m.id] == m.row
    && if Taken(t, it.p) || (it.p.key != "" && exists j :: 0 <= j < k && items[j].p.key == it.p.key
                                                           && items[j].p.eventType == it.p.eventType)
       then it.id !in t' && m.row.eventType == it.p.eventType && m.row.key == Some(it.p.key)
       else m.id == it.id && AsRequested(it, now, m.row)
  }

  /** Rows that were there stay as they were, and every new one is an item's. */
  ghost predicate OnlyAdds(t: Table, items: seq<Item>, t': Table) {
    && (forall i :: i in t ==> i in t' && t'[i] == t[i])
    && (forall i :: i in t' && i !in t ==> exists k :: 0 <= k < |items| && items[k].id == i)
  }

  lemma FoldAdds(t: Table, now: Time, items: seq<Item>)
    requires FreshIds(t, items)
    ensures OnlyAdds(t, items, EnqueueFold(t, now, items).table)
  {
    var end := EnqueueFold(t, now, items).table;
    forall i | i in t ensures i in end && end[i] == t[i] { FoldGrows(t, now, items, i); }
    forall i | i in end && i !in t ensures exists k :: 0 <= k < |items| && items[k].id == i {
      FoldGrows(t, now, items, i);
    }
  }

  lemma FoldPlaces(t: Table, now: Time, items: seq<Item>, k: nat)
    requires UniqueKeys(t) && FreshIds(t, items) && k < |items|
    ensures var fold := EnqueueFold(t, now, items); Placed(t, now, items, k, fold.replies[k].msg, fold.table)
  {
    ReplyAfter(t, now, items, k);
    FoldAt(t, now, items, k);
    TakenIsKeyTaken(t, items[k].p);
  }
}
