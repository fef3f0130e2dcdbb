/**
 BatchSucceed: many successful acks in one transaction. It is the fold of its entries, yet
 neither their order nor their repetition matters, and it moves each message at most once.
 */
module BatchAck {
  import opened Rows
  import opened Protocol

  /** The transaction's statements one after the other. */
  function BatchFold(b: Dialect, t: Table, now: Time, acks: seq<Ack>): Table {
    if acks == [] then t
    else BatchEntryStmt(b, BatchFold(b, t, now, acks[..|acks| - 1]), now, acks[|acks| - 1])
  }

  /** On Postgres each entry is exactly a Succeed; on MySQL Succeed is guarded by worker instead. */
  function SucceedFold(b: Dialect, t: Table, now: Time, acks: seq<Ack>): Table {
    if acks == [] then t
    else AckStmt(b, SucceedFold(b, t, now, acks[..|acks| - 1]), now, acks[|acks| - 1], Succeed)
  }

  lemma {:induction false} FoldIsBatch(b: Dialect, t: Table, now: Time, acks: seq<Ack>)
    ensures BatchFold(b, t, now, acks) == BatchStmt(b, t, now, acks)
    decreases |acks|
  {
    if acks == [] {
      assert BatchStmt(b, t, now, acks) == t;
    } else {
      var n := |acks| - 1;
      var rest, a := acks[..n], acks[n];
      FoldIsBatch(b, t, now, rest);
      var mid, end := BatchStmt(b, t, now, rest), BatchStmt(b, t, now, acks);
      assert forall k :: 0 <= k < n ==> rest[k] == acks[k];
      forall i | i in t ensures end[i] == BatchEntryStmt(b, mid, now, a)[i] {
        if BatchMatches(t[i], i, rest) {
          var k :| 0 <= k < |rest| && rest[k].id == i && BatchAccepts(t[i], rest[k].attempt);
          assert acks[k] == rest[k] && BatchMatches(t[i], i, acks);
        } else if k :| 0 <= k < |acks| && acks[k].id == i && BatchAccepts(t[i], acks[k].attempt) {
          assert k == n;
        }
      }
    }
  }

  lemma {:induction false} FoldIsSucceeds(t: Table, now: Time, acks: seq<Ack>)
    ensures SucceedFold(Postgres, t, now, acks) == BatchFold(Postgres, t, now, acks)
    decreases |acks|
  {
    if acks != [] {
      FoldIsSucceeds(t, now, acks[..|acks| - 1]);
    }
  }

  /** The batched form refines the fold of Succeed over its parameters. */
  lemma BatchRefinesSucceed(t: Table, now: Time, acks: seq<Ack>)
    ensures BatchStmt(Postgres, t, now, acks) == SucceedFold(Postgres, t, now, acks)
  {
    FoldIsSucceeds(t, now, acks);
    FoldIsBatch(Postgres, t, now, acks);
  }

  /** Batches with the same entries, in any order and multiplicity, have the same effect. */
  lemma OrderAndRepetitionFree(b: Dialect, t: Table, now: Time, xs: seq<Ack>, ys: seq<Ack>)
    requires forall a :: a in xs <==> a in ys
    ensures BatchFold(b, t, now, xs) == BatchFold(b, t, now, ys)
  {
    FoldIsBatch(b, t, now, xs);
    FoldIsBatch(b, t, now, ys);
    forall i | i in t ensures BatchMatches(t[i], i, xs) <==> BatchMatches(t[i], i, ys) {
      if BatchMatches(t[i], i, xs) { MatchesIn(t[i], i, xs, ys); }
      if BatchMatches(t[i], i, ys) { MatchesIn(t[i], i, ys, xs); }
    }
  }

  lemma MatchesIn(r: Row, i: Id, xs: seq<Ack>, ys: seq<Ack>)
    requires BatchMatches(r, i, xs) && forall a :: a in xs ==> a in ys
    ensures BatchMatches(r, i, ys)
  {
    var k :| 0 <= k < |xs| && xs[k].id == i && BatchAccepts(r, xs[k].attempt);
    assert xs[k] in ys;
    var j :| 0 <= j < |ys| && ys[j] == xs[k];
  }

  /** Sending a batch again, at any later time, changes nothing. */
  lemma Idempotent(b: Dialect, t: Table, now: Time, later: Time, acks: seq<Ack>)
    ensures BatchFold(b, BatchFold(b, t, now, acks), later, acks) == BatchFold(b, t, now, acks)
  {
    FoldIsBatch(b, t, now, acks);
    var done := BatchStmt(b, t, now, acks);
    FoldIsBatch(b, done, later, acks);
    assert BatchStmt(b, done, later, acks) == done;
  }

  /** Entry k moves its row when its turn comes. */
  predicate Effective(b: Dialect, t: Table, now: Time, acks: seq<Ack>, k: nat)
    requires k < |acks|
  {
    var mid := BatchFold(b, t, now, acks[..k]);
    acks[k].id in mid && BatchAccepts(mid[acks[k].id], acks[k].attempt)
  }

  /** At most one entry per message takes effect, even if several attempts of it are in the batch. */
  lemma AtMostOnePerMessage(b: Dialect, t: Table, now: Time, acks: seq<Ack>, j: nat, k: nat)
    requires j < k < |acks| && Effective(b, t, now, acks, j) && Effective(b, t, now, acks, k)
    ensures acks[j].id != acks[k].id
  {
    if acks[j].id == acks[k].id {
      FoldIsBatch(b, t, now, acks[..j]);
      FoldIsBatch(b, t, now, acks[..k]);
      var i := acks[j].id;
      assert acks[..k][j] == acks[j];
      assert BatchMatches(t[i], i, acks[..k]);
      assert false;
    }
  }

  /** The protocol's batched step is this statement, applied to the acks of its tokens. */
  lemma TokensAreAcks(b: Dialect, t: Table, now: Time, ts: seq<Token>)
    ensures BatchTokens(b, t, now, ts) == BatchFold(b, t, now, seq(|ts|, k requires 0 <= k < |ts| => ts[k].ToAck()))
  {
    var acks := seq(|ts|, k requires 0 <= k < |ts| => ts[k].ToAck());
    FoldIsBatch(b, t, now, acks);
    forall i | i in t ensures Batched(t[i], i, ts) <==> BatchMatches(t[i], i, acks) {
      if Batched(t[i], i, ts) {
        var x :| x in ts && x.id == i && BatchAccepts(t[i], x.attempt);
        var k :| 0 <= k < |ts| && ts[k] == x;
        assert acks[k].id == i;
      }
    }
  }
}
