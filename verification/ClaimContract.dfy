/**
 What a claim statement returns and leaves, column by column; these conditions determine it.
 */
module ClaimContract {
  import opened Rows
  import opened Claiming
  import opened Enqueueing

  /** What one claim statement on table `t` returned and left behind. */
  ghost predicate ClaimOutcome(t: Table, c: set<Id>, n: nat, worker: WorkerId, until: Time, out: seq<Msg>, t': Table)
    requires c <= t.Keys
  {
    && IsPrefix(t, c, n, Ids(out))
    && (forall k :: 0 <= k < |out| ==> out[k].id in t && out[k].row == ClaimedRow(t[out[k].id], worker, until))
    && t' == ClaimStmt(t, (set i | i in Ids(out)), worker, until)
  }

  function Ids(ms: seq<Msg>): (ids: seq<Id>)
    ensures |ids| == |ms| && forall k :: 0 <= k < |ms| ==> ids[k] == ms[k].id
  {
    if ms == [] then [] else [ms[0].id] + Ids(ms[1..])
  }

  /** One claim statement: the messages it returns and the table it leaves. */
  function ClaimEffect(t: Table, c: set<Id>, n: nat, worker: WorkerId, until: Time): (seq<Msg>, Table)
    requires c <= t.Keys
  {
    var ids := Take(t, c, n);
    (seq(|ids|, k requires 0 <= k < |ids| => Msg(ids[k], ClaimedRow(t[ids[k]], worker, until))),
     ClaimStmt(t, (set i | i in ids), worker, until))
  }

  /** It takes the first candidates by (process_at, id), and comes back empty only if there are none. */
  lemma ClaimTakesFirst(t: Table, c: set<Id>, n: nat, worker: WorkerId, until: Time)
    requires c <= t.Keys
    ensures var e := ClaimEffect(t, c, n, worker, until);
            ClaimOutcome(t, c, n, worker, until, e.0, e.1) && (n >= 1 ==> (e.0 == [] <==> c == {}))
  {
    TakeIsPrefix(t, c, n);
    assert Ids(ClaimEffect(t, c, n, worker, until).0) == Take(t, c, n);
  }

  /** The rows a claim may take: waiting, due, of a wanted type or any, in the wanted shard or any, not locked. */
  function Claimable(t: Table, now: Time, types: seq<EventType>, shard: Option<int>, locked: set<Id>): set<Id> {
    set i | i in t && i !in locked && (t[i].status == CREATED || t[i].status == RETRYING)
            && t[i].processAt <= now && (types != [] ==> t[i].eventType in types)
            && (shard.Some? ==> t[i].shard == shard.value)
  }

  /** The row a worker has taken up: the same message, under way for one more attempt. */
  predicate TakenUp(r: Row, worker: WorkerId, until: Time, r': Row) {
    && r'.SameMessage(r) && r'.processAt == r.processAt && r'.completedAt == r.completedAt
    && r'.status == HANDLING && r'.attempt == r.attempt + 1
    && r'.claimedBy == Some(worker) && r'.claimedUntil == Some(until)
  }

  /** By process_at, then id; claiming changes neither. */
  predicate InOrder(m: Msg, m': Msg) {
    m.row.processAt < m'.row.processAt || (m.row.processAt == m'.row.processAt && m.id < m'.id)
  }

  /** Row i was passed over: the limit is filled by rows that come before it by (process_at, id). */
  ghost predicate PassedOver(t: Table, n: nat, out: seq<Msg>, i: Id)
    requires i in t
  {
    && |out| == n
    && forall m :: m in out ==> InOrder(m, Msg(i, t[i]))
  }

  /** Row i after a claim, in columns: taken up and returned, or left alone. */
  ghost predicate ClaimedAt(t: Table, c: set<Id>, n: nat, worker: WorkerId, until: Time, out: seq<Msg>, t': Table,
                            i: Id)
    requires i in t
  {
    && i in t'
    && if Msg(i, t'[i]) in out then i in c && TakenUp(t[i], worker, until, t'[i])
       else t'[i] == t[i] && (i in c ==> PassedOver(t, n, out, i))
  }

  /** Of the rows in c a claim takes the first n, and returns them as it leaves them. */
  ghost predicate ClaimsFrom(t: Table, c: set<Id>, n: nat, worker: WorkerId, until: Time, out: seq<Msg>, t': Table) {
    && t'.Keys == t.Keys && |out| <= n
    && (forall m :: m in out ==> m.id in t' && m.row == t'[m.id])
    && (forall j, k :: 0 <= j < k < |out| ==> InOrder(out[j], out[k]))
    && (forall i :: i in t ==> ClaimedAt(t, c, n, worker, until, out, t', i))
  }

  ghost predicate Claims(t: Table, now: Time, types: seq<EventType>, shard: Option<int>, locked: set<Id>, n: nat,
                         worker: WorkerId, until: Time, out: seq<Msg>, t': Table)
  {
    ClaimsFrom(t, Claimable(t, now, types, shard, locked), n, worker, until, out, t')
  }

  // ----- The statement meets it --------------------------------------------------------

  lemma EffectAt(t: Table, c: set<Id>, n: nat, worker: WorkerId, until: Time, i: Id)
    requires c <= t.Keys && i in t
    ensures var e := ClaimEffect(t, c, n, worker, until); ClaimedAt(t, c, n, worker, until, e.0, e.1, i)
  {
    var ids, e := Take(t, c, n), ClaimEffect(t, c, n, worker, until);
    TakeIsPrefix(t, c, n);
    if i in c && |c| <= n { TakeAll(t, c, n, i); }
    if i in ids {
      var k :| 0 <= k < |ids| && ids[k] == i;
      assert e.0[k] == Msg(i, e.1[i]);
    } else {
      assert forall k :: 0 <= k < |e.0| ==> e.0[k].id == ids[k];
      assert Msg(i, e.1[i]) !in e.0;
    }
  }

  lemma EffectReturned(t: Table, c: set<Id>, n: nat, worker: WorkerId, until: Time)
    requires c <= t.Keys
    ensures var e := ClaimEffect(t, c, n, worker, until);
            && e.1.Keys == t.Keys && |e.0| <= n
            && (forall m :: m in e.0 ==> m.id in e.1 && m.row == e.1[m.id])
            && (forall j, k :: 0 <= j < k < |e.0| ==> InOrder(e.0[j], e.0[k]))
  {
    var ids, e := Take(t, c, n), ClaimEffect(t, c, n, worker, until);
    TakeIsPrefix(t, c, n);
    assert forall k :: 0 <= k < |ids| ==> e.0[k].id == ids[k] && ids[k] in ids;
    assert forall j, k :: 0 <= j < k < |ids| ==> Before(t, ids[j], ids[k]);
  }

  lemma EffectClaims(t: Table, now: Time, types: seq<EventType>, shard: Option<int>, locked: set<Id>, n: nat,
                     worker: WorkerId, until: Time)
    ensures Candidates(t, now, types, shard, locked) == Claimable(t, now, types, shard, locked)
    ensures var e := ClaimEffect(t, Candidates(t, now, types, shard, locked), n, worker, until);
            Claims(t, now, types, shard, locked, n, worker, until, e.0, e.1)
  {
    var c := Candidates(t, now, types, shard, locked);
    assert c == Claimable(t, now, types, shard, locked);
    var e := ClaimEffect(t, c, n, worker, until);
    EffectReturned(t, c, n, worker, until);
    forall i | i in t ensures ClaimedAt(t, c, n, worker, until, e.0, e.1, i) { EffectAt(t, c, n, worker, until, i); }
  }

  /** Messages read back from the table the statement left are the ones it returns. */
  lemma ReadBack(t: Table, now: Time, types: seq<EventType>, shard: Option<int>, locked: set<Id>, n: nat,
                 worker: WorkerId, until: Time, out: seq<Msg>)
    requires var ids := Take(t, Candidates(t, now, types, shard, locked), n);
             && |out| == |ids|
             && forall k :: 0 <= k < |ids| ==> out[k] == Msg(ids[k], ClaimedRow(t[ids[k]], worker, until))
    ensures var ids := Take(t, Candidates(t, now, types, shard, locked), n);
            Claims(t, now, types, shard, locked, n, worker, until, out, ClaimStmt(t, (set i | i in ids), worker, until))
    ensures n >= 1 ==> (out == [] <==> Claimable(t, now, types, shard, locked) == {})
  {
    EffectClaims(t, now, types, shard, locked, n, worker, until);
    var c := Candidates(t, now, types, shard, locked);
    assert out == ClaimEffect(t, c, n, worker, until).0;
    ClaimTakesFirst(t, c, n, worker, until);
  }

  // ----- And nothing else does ---------------------------------------------------------

  lemma ReturnedRow(t: Table, c: set<Id>, n: nat, worker: WorkerId, until: Time, out: seq<Msg>, t': Table, k: nat)
    requires ClaimsFrom(t, c, n, worker, until, out, t') && k < |out|
    ensures out[k].id in t && out[k].id in c && TakenUp(t[out[k].id], worker, until, out[k].row)
    ensures out[k] == Msg(out[k].id, t'[out[k].id]) && out[k].id in Ids(out)
  {
    assert out[k] in out;
    assert out[k] == Msg(out[k].id, t'[out[k].id]);
    assert ClaimedAt(t, c, n, worker, until, out, t', out[k].id);
    assert Ids(out)[k] == out[k].id;
  }

  lemma OtherRow(t: Table, c: set<Id>, n: nat, worker: WorkerId, until: Time, out: seq<Msg>, t': Table, i: Id)
    requires ClaimsFrom(t, c, n, worker, until, out, t') && i in t && i !in Ids(out)
    ensures t'[i] == t[i] && (i in c ==> PassedOver(t, n, out, i))
  {
    assert ClaimedAt(t, c, n, worker, until, out, t', i);
    assert forall k :: 0 <= k < |out| ==> Ids(out)[k] == out[k].id;
  }

  lemma {:induction false} Distinct(ids: seq<Id>) returns (all: set<Id>)
    requires forall j, k :: 0 <= j < k < |ids| ==> ids[j] != ids[k]
    ensures |all| == |ids| && forall i :: i in all <==> i in ids
    decreases |ids|
  {
    all := {};
    if ids != [] {
      var n := |ids| - 1;
      var rest := Distinct(ids[..n]);
      all := rest + {ids[n]};
    }
  }

  lemma IdsDiffer(out: seq<Msg>, t': Table)
    requires forall m :: m in out ==> m.id in t' && m.row == t'[m.id]
    requires forall j, k :: 0 <= j < k < |out| ==> InOrder(out[j], out[k])
    ensures forall j, k :: 0 <= j < k < |out| ==> Ids(out)[j] != Ids(out)[k]
  {
    forall j, k | 0 <= j < k < |out| ensures Ids(out)[j] != Ids(out)[k] {
      assert InOrder(out[j], out[k]) && out[j] in out && out[k] in out;
    }
  }

  lemma SubsetSize(a: set<Id>, c: set<Id>)
    requires a <= c
    ensures |a| <= |c|
  {
    assert c == a + (c - a);
  }

  lemma ReturnedCount(t: Table, c: set<Id>, n: nat, worker: WorkerId, until: Time, out: seq<Msg>, t': Table)
    requires c <= t.Keys && ClaimsFrom(t, c, n, worker, until, out, t')
    ensures |out| == if |c| < n then |c| else n
  {
    IdsDiffer(out, t');
    var all := Distinct(Ids(out));
    forall i | i in all ensures i in c {
      var k :| 0 <= k < |out| && Ids(out)[k] == i;
      ReturnedRow(t, c, n, worker, until, out, t', k);
    }
    SubsetSize(all, c);
    if all != c {
      var i :| i in c && i !in all;
      OtherRow(t, c, n, worker, until, out, t', i);
    }
  }

  lemma ClaimsPrefix(t: Table, c: set<Id>, n: nat, worker: WorkerId, until: Time, out: seq<Msg>, t': Table)
    requires c <= t.Keys && ClaimsFrom(t, c, n, worker, until, out, t')
    ensures IsPrefix(t, c, n, Ids(out))
  {
    ReturnedCount(t, c, n, worker, until, out, t');
    var ids := Ids(out);
    forall k | 0 <= k < |out| ensures ids[k] in c && t[ids[k]].processAt == out[k].row.processAt {
      ReturnedRow(t, c, n, worker, until, out, t', k);
    }
    forall j, k | 0 <= j < k < |ids| ensures Before(t, ids[j], ids[k]) { assert InOrder(out[j], out[k]); }
    forall i, k | i in c && i !in ids && 0 <= k < |ids| ensures Before(t, ids[k], i) {
      OtherRow(t, c, n, worker, until, out, t', i);
      assert InOrder(out[k], Msg(i, t[i]));
    }
  }

  lemma SameTable(t: Table, c: set<Id>, n: nat, worker: WorkerId, until: Time, out: seq<Msg>, t': Table, t'': Table)
    requires ClaimsFrom(t, c, n, worker, until, out, t') && ClaimsFrom(t, c, n, worker, until, out, t'')
    ensures t' == t''
  {
    forall i | i in t ensures t'[i] == t''[i] {
      if i in Ids(out) {
        var k :| 0 <= k < |out| && Ids(out)[k] == i;
        ReturnedRow(t, c, n, worker, until, out, t', k);
        ReturnedRow(t, c, n, worker, until, out, t'', k);
      } else {
        OtherRow(t, c, n, worker, until, out, t', i);
        OtherRow(t, c, n, worker, until, out, t'', i);
      }
    }
  }

  lemma SameReturned(t: Table, c: set<Id>, n: nat, worker: WorkerId, until: Time, out: seq<Msg>, t': Table,
                     more: seq<Msg>, t'': Table)
    requires c <= t.Keys && ClaimsFrom(t, c, n, worker, until, out, t')
    requires ClaimsFrom(t, c, n, worker, until, more, t'')
    ensures out == more
  {
    ClaimsPrefix(t, c, n, worker, until, out, t');
    ClaimsPrefix(t, c, n, worker, until, more, t'');
    PrefixUnique(t, c, n, Ids(out), Ids(more));
    forall k | 0 <= k < |out| ensures out[k] == more[k] {
      assert Ids(out)[k] == out[k].id && Ids(more)[k] == more[k].id;
      ReturnedRow(t, c, n, worker, until, out, t', k);
      ReturnedRow(t, c, n, worker, until, more, t'', k);
    }
  }

  /** The conditions determine what a claim returns and leaves, and it is what the statement does. */
  lemma ClaimDetermined(t: Table, now: Time, types: seq<EventType>, shard: Option<int>, locked: set<Id>, n: nat,
                        worker: WorkerId, until: Time, out: seq<Msg>, t': Table)
    ensures Claims(t, now, types, shard, locked, n, worker, until, out, t')
       <==> (out, t') == ClaimEffect(t, Candidates(t, now, types, shard, locked), n, worker, until)
  {
    EffectClaims(t, now, types, shard, locked, n, worker, until);
    if Claims(t, now, types, shard, locked, n, worker, until, out, t') {
      var c := Candidates(t, now, types, shard, locked);
      var e := ClaimEffect(t, c, n, worker, until);
      SameReturned(t, c, n, worker, until, out, t', e.0, e.1);
      SameTable(t, c, n, worker, until, out, t', e.1);
    }
  }
}
