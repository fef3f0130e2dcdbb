/** Which rows one claim statement takes: the first `LIMIT` unlocked eligible rows by (process_at, id). */
module Claiming {
  import opened Rows

  predicate Before(t: Table, i: Id, j: Id)
    requires i in t && j in t
  {
    t[i].processAt < t[j].processAt || (t[i].processAt == t[j].processAt && i < j)
  }

  /** Rows the statement sees: eligible and not locked by another session. */
  function Candidates(t: Table, now: Time, types: seq<EventType>, shard: Option<int>, locked: set<Id>): set<Id> {
    set i | i in t && i !in locked && Eligible(t[i], now, types, shard)
  }

  predicate IsFirst(t: Table, c: set<Id>, i: Id)
    requires c <= t.Keys
  {
    i in c && forall j :: j in c ==> j == i || Before(t, i, j)
  }

  lemma {:induction false} FirstExists(t: Table, c: set<Id>)
    requires c <= t.Keys && c != {}
    ensures exists i :: IsFirst(t, c, i)
    decreases |c|
  {
    var k :| k in c;
    if c == {k} {
      assert IsFirst(t, c, k);
    } else {
      FirstExists(t, c - {k});
      var m :| IsFirst(t, c - {k}, m);
      assert c == (c - {k}) + {k};
      assert IsFirst(t, c, if Before(t, k, m) then k else m);
    }
  }

  function First(t: Table, c: set<Id>): (i: Id)
    requires c <= t.Keys && c != {}
    ensures IsFirst(t, c, i)
  {
    FirstExists(t, c);
    var i :| IsFirst(t, c, i);
    i
  }

  /** ORDER BY process_at, id LIMIT n. */
  function Take(t: Table, c: set<Id>, n: nat): (ids: seq<Id>)
    requires c <= t.Keys
    ensures forall i :: i in ids ==> i in c
  {
    if n == 0 || c == {} then [] else [First(t, c)] + Take(t, c - {First(t, c)}, n - 1)
  }

  /** A claim result is a prefix of the candidates in (process_at, id) order, as long as LIMIT and supply allow. */
  ghost predicate IsPrefix(t: Table, c: set<Id>, n: nat, ids: seq<Id>)
    requires c <= t.Keys
  {
    && (forall k :: 0 <= k < |ids| ==> ids[k] in c)
    && |ids| == (if |c| < n then |c| else n)
    && (forall j, k :: 0 <= j < k < |ids| ==> Before(t, ids[j], ids[k]))
    && (forall i, k :: i in c && i !in ids && 0 <= k < |ids| ==> Before(t, ids[k], i))
  }

  lemma {:induction false} TakeIsPrefix(t: Table, c: set<Id>, n: nat)
    requires c <= t.Keys
    ensures IsPrefix(t, c, n, Take(t, c, n))
    decreases n
  {
    if n != 0 && c != {} {
      var f := First(t, c);
      TakeIsPrefix(t, c - {f}, n - 1);
      var rest := Take(t, c - {f}, n - 1);
      assert Take(t, c, n) == [f] + rest;
      assert |c - {f}| == |c| - 1;
      forall i | i in c && i !in [f] + rest ensures i in c - {f} && i !in rest {
        assert i != f by { assert ([f] + rest)[0] == f; }
        assert forall j :: j in rest ==> j in [f] + rest;
      }
    }
  }

  /** The statement's choice is determined: order, limit and candidates fix it. */
  lemma {:induction false} PrefixUnique(t: Table, c: set<Id>, n: nat, a: seq<Id>, b: seq<Id>)
    requires c <= t.Keys && IsPrefix(t, c, n, a) && IsPrefix(t, c, n, b)
    ensures a == b
  {
    forall k | 0 <= k < |a| ensures a[k] == b[k] {
      PrefixAgree(t, c, n, a, b, k);
    }
  }

  lemma {:induction false} PrefixAgree(t: Table, c: set<Id>, n: nat, a: seq<Id>, b: seq<Id>, k: nat)
    requires c <= t.Keys && IsPrefix(t, c, n, a) && IsPrefix(t, c, n, b) && k < |a|
    ensures a[k] == b[k]
    decreases k
  {
    forall j | 0 <= j < k ensures a[j] == b[j] { PrefixAgree(t, c, n, a, b, j); }
    if a[k] != b[k] {
      if Before(t, a[k], b[k]) { NotSkipped(t, c, n, b, a[k], k); } else { NotSkipped(t, c, n, a, b[k], k); }
      assert false;
    }
  }

  /** A candidate before position k of a prefix is one of its first k entries. */
  lemma NotSkipped(t: Table, c: set<Id>, n: nat, a: seq<Id>, i: Id, k: nat)
    requires c <= t.Keys && IsPrefix(t, c, n, a) && k < |a| && i in c && i != a[k] && !Before(t, a[k], i)
    ensures exists j :: 0 <= j < k && a[j] == i
  {
    if i in a {
      var j :| 0 <= j < |a| && a[j] == i;
    }
  }

  /** With a limit no smaller than the supply, a statement takes every candidate. */
  lemma {:induction false} TakeAll(t: Table, c: set<Id>, n: nat, i: Id)
    requires c <= t.Keys && |c| <= n && i in c
    ensures i in Take(t, c, n)
    decreases n
  {
    var f := First(t, c);
    assert |c - {f}| == |c| - 1;
    if i == f {
      assert Take(t, c, n)[0] == f;
    } else {
      TakeAll(t, c - {f}, n - 1, i);
    }
  }

  /** Any set of eligible rows within the limit can be what a statement takes, the rest being locked. */
  lemma AnySubsetClaimable(t: Table, now: Time, types: seq<EventType>, ids: set<Id>, n: nat)
    requires ids <= t.Keys && |ids| <= n && forall i :: i in ids ==> Eligible(t[i], now, types, None)
    ensures (set i | i in Take(t, Candidates(t, now, types, None, t.Keys - ids), n)) == ids
  {
    assert Candidates(t, now, types, None, t.Keys - ids) == ids;
    forall i | i in ids ensures i in Take(t, ids, n) { TakeAll(t, ids, n, i); }
  }
}
