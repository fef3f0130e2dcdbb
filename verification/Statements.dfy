/**
 The storage methods issue exactly the protocol's steps: what a statement does to the table
 is an enabled step, and every enabled claim is something a claim statement may do.
 */
module Statements {
  import opened Rows
  import opened Protocol
  import opened Claiming
  import opened ClaimContract
  import opened Stores
  import opened Transitions
  import Lease
  import Invariants
  import opened Enqueueing

  function IdSet(ids: seq<Id>): set<Id> { set i | i in ids }

  // ----- Claims ------------------------------------------------------------------------

  function TokenOf(no: nat, m: Msg, w: WorkerId): Token {
    Token(no, m.id, m.row.attempt, w, m.row.maxAttempts, m.row.eventType)
  }

  lemma Claimed(t: Table, c: set<Id>, n: nat, w: WorkerId, until: Time, out: seq<Msg>, t': Table, i: Id)
    requires c <= t.Keys && ClaimOutcome(t, c, n, w, until, out, t')
    ensures i in IdSet(Ids(out)) <==> exists k :: 0 <= k < |out| && out[k].id == i
    ensures i in IdSet(Ids(out)) ==> i in c
  {
    assert forall k :: 0 <= k < |out| ==> Ids(out)[k] == out[k].id;
  }

  /** A claim statement is a claim step, and the messages it returns are the step's tokens. */
  lemma ClaimIsStep(b: Dialect, s: State, types: seq<EventType>, shard: Option<int>, locked: set<Id>,
                    n: nat, w: WorkerId, until: Time, out: seq<Msg>, t': Table)
    requires Claims(s.rows, s.now, types, shard, locked, n, w, until, out, t')
    ensures var step := Claim(w, IdSet(Ids(out)), until); Enabled(s, step) && Do(b, s, step).rows == t'
    ensures NewTokens(s, IdSet(Ids(out)), w) == TokensOf(s.nextNo, out, w)
  {
    var c, ids := Candidates(s.rows, s.now, types, shard, locked), IdSet(Ids(out));
    ClaimDetermined(s.rows, s.now, types, shard, locked, n, w, until, out, t');
    ClaimTakesFirst(s.rows, c, n, w, until);
    forall i | i in ids ensures i in c && exists k :: 0 <= k < |out| && out[k].id == i {
      Claimed(s.rows, c, n, w, until, out, t', i);
    }
    TokensReturned(s, c, n, w, until, out, t');
  }

  /** The tokens of the returned messages. */
  function TokensOf(no: nat, out: seq<Msg>, w: WorkerId): set<Token> { set m | m in out :: TokenOf(no, m, w) }

  lemma TokenReturned(s: State, c: set<Id>, n: nat, w: WorkerId, until: Time, out: seq<Msg>, t': Table, k: nat)
    requires c <= s.rows.Keys && ClaimOutcome(s.rows, c, n, w, until, out, t') && k < |out|
    ensures out[k].id in s.rows && out[k].id in IdSet(Ids(out))
    ensures TokenOf(s.nextNo, out[k], w) == TokenFor(s, out[k].id, w)
  {
    assert Ids(out)[k] == out[k].id;
  }

  lemma TokensReturned(s: State, c: set<Id>, n: nat, w: WorkerId, until: Time, out: seq<Msg>, t': Table)
    requires c <= s.rows.Keys && ClaimOutcome(s.rows, c, n, w, until, out, t')
    ensures NewTokens(s, IdSet(Ids(out)), w) == TokensOf(s.nextNo, out, w)
  {
    var ids := IdSet(Ids(out));
    forall x | x in NewTokens(s, ids, w) ensures x in TokensOf(s.nextNo, out, w) {
      Claimed(s.rows, c, n, w, until, out, t', x.id);
      var k :| 0 <= k < |out| && out[k].id == x.id;
      TokenReturned(s, c, n, w, until, out, t', k);
    }
    forall m | m in out ensures TokenOf(s.nextNo, m, w) in NewTokens(s, ids, w) {
      var k :| 0 <= k < |out| && out[k] == m;
      TokenReturned(s, c, n, w, until, out, t', k);
    }
  }

  /** So is a write that a storage method reports as made, or as passed over. */
  lemma AckIsStep(b: Dialect, s: State, t: Token, what: Write, t': Table)
    requires Written(b, s.rows, s.now, t.ToAck(), what, t')
    ensures Do(b, s, Step.Ack(t, what)).rows == t'
  {
    WrittenIsAck(b, s.rows, s.now, t.ToAck(), what, t');
  }

  lemma ExtendIsStep(b: Dialect, s: State, id: Id, w: WorkerId, until: Time, ok: bool, t': Table)
    requires Extended(s.rows, id, w, until, ok, t')
    ensures Do(b, s, Step.Extend(id, w, until)).rows == t'
  {
    SameTables(ExtendStmt(s.rows, id, w, until), t');
  }

  lemma RequeueIsStep(b: Dialect, s: State, id: Id, at: Time, ok: bool, t': Table)
    requires Requeued(b, s.rows, id, at, ok, t')
    ensures Do(b, s, Step.Requeue(id, at)).rows == t'
  {
    SameTables(RequeueStmt(b, s.rows, id, at), t');
  }

  lemma ReclaimIsStep(b: Dialect, s: State, limit: int, locked: set<Id>, ids: set<Id>, t': Table)
    requires Reclaimed(s.rows, s.now, limit, locked, ids, t')
    ensures Enabled(s, Reclaim(ids)) && Do(b, s, Reclaim(ids)).rows == t'
  {
    SameTables(ReclaimStmt(s.rows, ids, s.now), t');
  }

  /** Any set of expired rows is what a reclaim with that limit may free. */
  lemma StepIsReclaim(b: Dialect, s: State, ids: set<Id>)
    requires Enabled(s, Reclaim(ids)) && ids != {}
    ensures Reclaimed(s.rows, s.now, |ids|, s.rows.Keys - ids, ids, Do(b, s, Reclaim(ids)).rows)
  {
    assert Overdue(s.rows, s.now, s.rows.Keys - ids) == ids;
  }

  lemma PurgeIsStep(b: Dialect, s: State, before: Time, n: nat, ids: set<Id>)
    requires IsPurge(b, s.rows, before, n, ids)
    ensures Enabled(s, Purge(ids, before)) && Do(b, s, Purge(ids, before)).rows == s.rows - ids
  {
  }

  lemma EnqueueIsStep(b: Dialect, s: State, it: Item, m: Msg, t': Table)
    requires it.id !in s.used && s.rows.Keys <= s.used
    requires Placed(s.rows, s.now, [it], 0, m, t') && OnlyAdds(s.rows, [it], t')
    ensures Enabled(s, Step.Enqueue(it.id, it.shard, it.p)) && Do(b, s, Step.Enqueue(it.id, it.shard, it.p)).rows == t'
  {
    TakenIsKeyTaken(s.rows, it.p);
    assert [it][0] == it;
    forall i ensures SameAt(InsertStmt(s.rows, it.id, it.shard, s.now, it.p), t', i) {
      if i in t' && i !in s.rows { var k :| 0 <= k < |[it]| && [it][k].id == i; }
    }
    SameTables(InsertStmt(s.rows, it.id, it.shard, s.now, it.p), t');
  }

  /** The event types of some rows, listed. */
  lemma {:induction false} ListTypes(t: Table, ids: set<Id>) returns (types: seq<EventType>)
    requires ids <= t.Keys
    ensures (forall i :: i in ids ==> t[i].eventType in types) && (ids != {} ==> types != [])
    decreases |ids|
  {
    types := [];
    if i :| i in ids {
      var rest := ListTypes(t, ids - {i});
      types := [t[i].eventType] + rest;
    }
  }

  /** Locks held elsewhere can make a statement for the rows' event types take any enabled set of rows. */
  lemma StepIsClaim(s: State, w: WorkerId, ids: set<Id>, until: Time)
    returns (types: seq<EventType>, locked: set<Id>, out: seq<Msg>)
    requires Enabled(s, Claim(w, ids, until))
    ensures (ids != {} ==> types != []) && IdSet(Ids(out)) == ids
    ensures Claims(s.rows, s.now, types, None, locked, |ids|, w, until, out, DoClaim(s, w, ids, until).rows)
  {
    types := ListTypes(s.rows, ids);
    locked := s.rows.Keys - ids;
    AnySubsetClaimable(s.rows, s.now, types, ids, |ids|);
    out := EffectOn(s.rows, s.now, types, locked, ids, w, until);
  }

  lemma EffectOn(t: Table, now: Time, types: seq<EventType>, locked: set<Id>, ids: set<Id>, w: WorkerId, until: Time)
    returns (out: seq<Msg>)
    requires (set i | i in Take(t, Candidates(t, now, types, None, locked), |ids|)) == ids
    ensures IdSet(Ids(out)) == ids
    ensures Claims(t, now, types, None, locked, |ids|, w, until, out, ClaimStmt(t, ids, w, until))
  {
    var c := Candidates(t, now, types, None, locked);
    out := ClaimEffect(t, c, |ids|, w, until).0;
    assert Ids(out) == Take(t, c, |ids|);
    EffectClaims(t, now, types, None, locked, |ids|, w, until);
  }

  // ----- The lease a claim writes ------------------------------------------------------

  /** The message as the claim hands it over, no extender running yet. */
  function HandedOver(s: State): Lease.World {
    Lease.World(s, Lease.Extender(Lease.Idle, s.now, false, s.now, None))
  }

  lemma ClaimOwns(s: State, w: WorkerId, ids: set<Id>, i: Id, until: Time)
    requires Enabled(s, Claim(w, ids, until)) && i in ids
    ensures var s' := DoClaim(s, w, ids, until);
            Lease.Owned(TokenFor(s, i, w), s') && Lease.Until(TokenFor(s, i, w), s') == until
  {
    assert TokenFor(s, i, w) in NewTokens(s, ids, w);
  }

  lemma ClaimStarts(b: Dialect, rules: Rules, s: State, w: WorkerId, ids: set<Id>, i: Id, until: Time, tm: Lease.Timing)
    requires Inv(b, rules, s) && i in ids && tm.interval >= 1 && s.now <= until
    requires Enabled(s, Claim(w, ids, until)) && Allowed(rules, s, Claim(w, ids, until))
    ensures var s' := Do(b, s, Claim(w, ids, until));
            && Lease.Starting(b, rules, tm, TokenFor(s, i, w), HandedOver(s'))
            && Lease.Until(TokenFor(s, i, w), s') == until && s'.now == s.now
  {
    Invariants.InvStep(b, rules, s, Claim(w, ids, until));
    ClaimOwns(s, w, ids, i, until);
  }

  /**
   Handler start, first extension and outcome fit into the lease as the claim wrote it, each
   further extension into the configured one.
   */
  predicate Fits(b: Dialect, lease: int, wait: nat, slack: nat, latency: nat, tail: nat) {
    var interval := Lease.Interval(lease);
    && wait + interval + slack + latency + tail <= LeaseColumn(b, lease)
    && Lease.Max(interval, latency) + slack + latency + tail <= lease
  }

  /**
   From a claim until its outcome is written, and whatever everyone else does, the lease lasts
   as long as the attempt owns its row exactly if all delays fit.
   */
  lemma ClaimedLeaseHeldIff(b: Dialect, rules: Rules, s: State, w: WorkerId, ids: set<Id>, i: Id, until: Time,
                            lease: int, wait: nat, slack: nat, latency: nat, tail: nat)
    requires Inv(b, rules, s) && lease > 0 && i in ids && until == s.now + LeaseColumn(b, lease)
    requires Enabled(s, Claim(w, ids, until)) && Allowed(rules, s, Claim(w, ids, until))
    ensures Lease.NeverLapses(b, rules, Lease.Timing(lease, Lease.Interval(lease), wait, slack, latency, tail),
                              TokenFor(s, i, w), HandedOver(Do(b, s, Claim(w, ids, until))))
            <==> Fits(b, lease, wait, slack, latency, tail)
  {
    var tm := Lease.Timing(lease, Lease.Interval(lease), wait, slack, latency, tail);
    ClaimStarts(b, rules, s, w, ids, i, until, tm);
    Lease.LeaseHeldIff(b, rules, tm, TokenFor(s, i, w), HandedOver(Do(b, s, Claim(w, ids, until))));
    assert Lease.Roomy(tm, s.now, until) <==> Fits(b, lease, wait, slack, latency, tail);
  }

  /**
   The Postgres claim drops fractions of a second; a lease below one second never fits, in whole
   seconds nothing is lost.
   */
  lemma LeaseRounding(lease: int, wait: nat, slack: nat, latency: nat, tail: nat)
    requires lease > 0
    ensures lease < SECOND ==> !Fits(Postgres, lease, wait, slack, latency, tail)
    ensures lease % SECOND == 0 ==>
              (Fits(Postgres, lease, wait, slack, latency, tail) <==> Fits(MySQL, lease, wait, slack, latency, tail))
    ensures Fits(Postgres, lease, wait, slack, latency, tail) ==> Fits(MySQL, lease, wait, slack, latency, tail)
  {
  }
}
