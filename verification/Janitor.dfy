/**
 The janitor pass: batched deletes until a short batch, once with the SUCCESS cutoff and
 once with the DEAD cutoff. PurgeTerminal does not look at which terminal status a row has.
 */
module Janitor {
  import opened Rows
  import opened Stores

  const DAY: int := 24 * HOUR

  datatype Retention = Retention(success: int, dead: int, purgeBatch: int)
  {
    function SuccessAge(): int { if success <= 0 then DAY else success }

    /** None: the second loop is skipped. */
    function DeadAge(): Option<int> {
      if dead < 0 then None else if dead == 0 then Some(30 * DAY) else Some(dead)
    }

    function Batch(): (n: nat)
      ensures n >= 1 && (purgeBatch >= 1 ==> n == purgeBatch) && (purgeBatch < 1 ==> n == 5000)
    {
      if purgeBatch <= 0 then 5000 else purgeBatch
    }

    /** The later of the cutoffs the pass uses. */
    function Cutoff(now: Time, later: Time): Time {
      match DeadAge()
      case None => now - SuccessAge()
      case Some(age) => if now - SuccessAge() < later - age then later - age else now - SuccessAge()
    }
  }

  /** How the storage call and the following wait turned out. */
  datatype Call = Fine | StorageError | Cancelled

  /** All rows but the purgeable ones. */
  function Unpurged(t: Table, before: Time): Table {
    map i | i in t && !Purgeable(t[i], before) :: t[i]
  }

  /** Some purgeable rows are gone, everything else is untouched. */
  ghost predicate PartlyPurged(t: Table, t': Table, before: Time) {
    && t'.Keys <= t.Keys
    && forall i :: i in t ==> if i in t' then t'[i] == t[i] else Purgeable(t[i], before)
  }

  lemma PurgeRound(b: Dialect, t: Table, mid: Table, before: Time, n: nat, ids: set<Id>)
    requires PartlyPurged(t, mid, before) && IsPurge(b, mid, before, n, ids)
    ensures PartlyPurged(t, PurgeStmt(mid, ids), before)
    ensures |ids| < n ==> PurgeStmt(mid, ids) == Unpurged(t, before)
    ensures n >= 1 && |ids| == n ==> |PurgeStmt(mid, ids)| < |mid|
  {
    assert PurgeStmt(mid, ids).Keys == mid.Keys - ids;
    assert mid.Keys == (mid.Keys - ids) + ids;
  }

  method PurgeLoop(store: Store, before: Time, batch: nat, calls: nat -> Call) returns (cancelled: bool)
    requires batch >= 1 && store.Valid()
    modifies store
    ensures store.Valid()
    ensures PartlyPurged(old(store.rows), store.rows, before)
    ensures (forall k :: calls(k) == Fine) ==> !cancelled && store.rows == Unpurged(old(store.rows), before)
  {
    var k := 0;
    while true
      invariant store.Valid() && PartlyPurged(old(store.rows), store.rows, before)
      decreases |store.rows|
    {
      if calls(k) == StorageError {
        return false;
      }
      ghost var mid := store.rows;
      var ids := store.PurgeTerminal(before, batch);
      PurgeRound(store.dialect, old(store.rows), mid, before, batch, ids);
      if |ids| < batch {
        return false;
      }
      if calls(k) == Cancelled {
        return true;
      }
      k := k + 1;
    }
  }

  /**
   Deleted by a full pass, in the settings' own terms: finished longer ago than the SUCCESS age,
   a day if unset, or than the DEAD age, thirty days if unset and never if negative.
   */
  predicate OldEnough(row: Row, r: Retention, now: Time, later: Time) {
    && (row.status == SUCCESS || row.status == DEAD) && row.completedAt.Some?
    && (|| row.completedAt.value < now - (if r.success >= 1 then r.success else 24 * 3600 * SECOND)
        || (r.dead >= 0 && row.completedAt.value < later - (if r.dead >= 1 then r.dead else 30 * 24 * 3600 * SECOND)))
  }

  lemma PurgeableIsOldEnough(row: Row, r: Retention, now: Time, later: Time)
    ensures Purgeable(row, r.Cutoff(now, later)) <==> OldEnough(row, r, now, later)
  {
  }

  method TryPurge(store: Store, r: Retention, now: Time, later: Time, calls: nat -> Call, deadCalls: nat -> Call)
    requires now <= later && store.Valid()
    modifies store
    ensures store.Valid()
    ensures PartlyPurged(old(store.rows), store.rows, r.Cutoff(now, later))
    ensures (forall k :: calls(k) == Fine && deadCalls(k) == Fine) ==>
              store.rows == map i | i in old(store.rows) && !OldEnough(old(store.rows)[i], r, now, later)
                              :: old(store.rows)[i]
  {
    forall i | i in store.rows
      ensures Purgeable(store.rows[i], r.Cutoff(now, later)) <==> OldEnough(store.rows[i], r, now, later)
    {
      PurgeableIsOldEnough(store.rows[i], r, now, later);
    }
    var cancelled := PurgeLoop(store, now - r.SuccessAge(), r.Batch(), calls);
    if cancelled {
      return;
    }
    var age := r.DeadAge();
    if age.Some? {
      var _ := PurgeLoop(store, later - age.value, r.Batch(), deadCalls);
    }
  }

  // ----- Against the documented policy -------------------------------------------------

  /** The documented retention: each terminal status has its own cutoff, and a negative Dead age keeps DEAD rows. */
  predicate DocumentedPurge(row: Row, r: Retention, now: Time, later: Time) {
    || (row.status == SUCCESS && Purgeable(row, now - r.SuccessAge()))
    || (row.status == DEAD && r.DeadAge().Some? && Purgeable(row, later - r.DeadAge().value))
  }

  /** A terminal row old enough for one status's cutoff but not for its own. */
  predicate BetweenCutoffs(row: Row, r: Retention, now: Time, later: Time) {
    && row.completedAt.Some?
    && (|| (row.status == DEAD && row.completedAt.value < now - r.SuccessAge()
            && (r.DeadAge().None? || later - r.DeadAge().value <= row.completedAt.value))
        || (row.status == SUCCESS && r.DeadAge().Some?
            && now - r.SuccessAge() <= row.completedAt.value < later - r.DeadAge().value))
  }

  /** A full pass deletes what the documentation says if and only if no row's age lies between the two cutoffs. */
  lemma MeetsDocumentationIff(t: Table, r: Retention, now: Time, later: Time)
    requires now <= later
    ensures Unpurged(t, r.Cutoff(now, later)) == (map i | i in t && !DocumentedPurge(t[i], r, now, later) :: t[i])
       <==> forall i :: i in t ==> !BetweenCutoffs(t[i], r, now, later)
  {
    var done := Unpurged(t, r.Cutoff(now, later));
    var promised := map i | i in t && !DocumentedPurge(t[i], r, now, later) :: t[i];
    forall i | i in t ensures (i in done <==> i in promised) <==> !BetweenCutoffs(t[i], r, now, later) {
    }
    if i :| i in t && BetweenCutoffs(t[i], r, now, later) {
      assert done.Keys != promised.Keys by { assert (i in done) != (i in promised); }
    }
  }

  /** With the default ages a dead letter is gone after a day, not after thirty. */
  lemma DeadPurgedAfterADay(row: Row, now: Time)
    requires row.status == DEAD && row.completedAt == Some(now - 2 * DAY)
    ensures Purgeable(row, Retention(0, 0, 0).Cutoff(now, now)) && !DocumentedPurge(row, Retention(0, 0, 0), now, now)
    ensures Purgeable(row, Retention(0, -1, 0).Cutoff(now, now))
  {
  }
}
