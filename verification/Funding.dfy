/**
 Why max_attempts plus reclaims bounds the attempt column even where the worker guard lets a
 stale retry through: each retry past the cap spends a live token of an earlier attempt, and
 only a reclaim leaves such a token behind.
 */
module Funding {
  import opened Rows
  import opened Protocol

  /** A requeue finds no live token of its message, or the message allows no retry at all. */
  ghost predicate Gentle(s: State, step: Step) {
    step.Requeue? && step.id in s.rows && s.rows[step.id].status == DEAD && s.rows[step.id].maxAttempts >= 2 ==>
      forall t :: t in s.live ==> t.id != step.id
  }

  // ----- Levels ------------------------------------------------------------------------

  predicate LevelAt(r: Row, attempt: int) {
    attempt <= r.attempt + if r.Pending() then 1 else 0
  }

  lemma LevelAck(b: Dialect, s: State, u: Token, what: Write, t: Token)
    requires TableInv(b, s) && Level(s) && Enabled(s, Step.Ack(u, what))
    requires t in s.live && t.id in s.rows && s.rows[t.id].maxAttempts >= 2
    ensures LevelAt(DoAck(b, s, u, what).rows[t.id], t.attempt)
  {
  }

  lemma LevelRow(b: Dialect, s: State, step: Step, t: Token)
    requires TableInv(b, s) && Level(s) && Enabled(s, step) && Gentle(s, step) && !step.Ack? && !step.Claim?
    requires t in s.live && t.id in s.used && t.id in Do(b, s, step).rows && Do(b, s, step).rows[t.id].maxAttempts >= 2
    ensures LevelAt(Do(b, s, step).rows[t.id], t.attempt)
  {
  }

  lemma LevelClaim(b: Dialect, s: State, w: WorkerId, ids: set<Id>, until: Time)
    requires TableInv(b, s) && Level(s) && Enabled(s, Claim(w, ids, until))
    ensures Level(DoClaim(s, w, ids, until))
  {
  }

  lemma LevelStep(b: Dialect, s: State, step: Step)
    requires TableInv(b, s) && TokenInv(s) && Level(s) && Enabled(s, step) && Gentle(s, step)
    ensures Level(Do(b, s, step))
  {
    if step.Claim? {
      LevelClaim(b, s, step.worker, step.ids, step.until);
    } else {
      var s' := Do(b, s, step);
      forall t | t in s'.live && t.id in s'.rows && s'.rows[t.id].maxAttempts >= 2
        ensures LevelAt(s'.rows[t.id], t.attempt)
      {
        if step.Ack? { LevelAck(b, s, step.t, step.what, t); } else { LevelRow(b, s, step, t); }
      }
    }
  }

  // ----- Counting live retriers --------------------------------------------------------

  lemma {:induction false} Fewer(a: set<Token>, b: set<Token>)
    requires a <= b
    ensures |a| <= |b|
    decreases |a|
  {
    if x :| x in a {
      Fewer(a - {x}, b - {x});
    }
  }

  /** Steps that hand out no token leave at most the old retriers. */
  lemma RetriersShrink(s: State, s': State, i: Id)
    requires i in s.rows && i in s'.rows && s'.live <= s.live && s'.rows[i].maxAttempts == s.rows[i].maxAttempts
    ensures |Retriers(s', i)| <= |Retriers(s, i)|
  {
    Fewer(Retriers(s', i), Retriers(s, i));
  }

  /** A write takes its own token out of them. */
  lemma RetrierSpent(s: State, s': State, i: Id, t: Token)
    requires i in s.rows && i in s'.rows && s'.live == s.live - {t} && s'.rows[i].maxAttempts == s.rows[i].maxAttempts
    requires t in s.live && t.id == i && t.attempt < s.rows[i].maxAttempts
    ensures |Retriers(s', i)| == |Retriers(s, i)| - 1
  {
    assert Retriers(s', i) == Retriers(s, i) - {t};
  }

  /** A claim adds one, unless it was the last attempt. */
  lemma RetrierAdded(s: State, w: WorkerId, ids: set<Id>, until: Time, i: Id)
    requires i in s.rows && i in ids && i in DoClaim(s, w, ids, until).rows
    ensures var s' := DoClaim(s, w, ids, until); var r := s.rows[i];
            |Retriers(s', i)| <= |Retriers(s, i)| + if r.attempt + 1 < r.maxAttempts then 1 else 0
  {
    var s', t := DoClaim(s, w, ids, until), TokenFor(s, i, w);
    var more := if s.rows[i].attempt + 1 < s.rows[i].maxAttempts then {t} else {};
    forall u | u in Retriers(s', i) ensures u in Retriers(s, i) + more {
      if u !in s.live { assert u == t; }
    }
    Fewer(Retriers(s', i), Retriers(s, i) + more);
    assert |Retriers(s, i) + more| <= |Retriers(s, i)| + |more|;
  }

  // ----- One row -----------------------------------------------------------------------

  lemma CoveredClaim(r: Row, n: nat, m: nat, reclaims: nat, w: WorkerId, until: Time)
    requires r.Pending() && Covered(r, n, reclaims) && m <= n + if r.attempt + 1 < r.maxAttempts then 1 else 0
    ensures Covered(ClaimedRow(r, w, until), m, reclaims)
  {
  }

  lemma CoveredWrite(b: Dialect, r: Row, n: nat, m: nat, reclaims: nat, now: Time, attempt: int, what: Write)
    requires r.status == HANDLING && r.attempt >= 1 && r.maxAttempts >= 1 && Covered(r, n, reclaims)
    requires r.maxAttempts >= 2 ==> attempt <= r.attempt
    requires m <= n && (attempt < r.maxAttempts ==> m <= n - 1) && (what.FailRetry? ==> attempt < r.maxAttempts)
    ensures Covered(WrittenRow(b, r, now, what), m, reclaims)
  {
  }

  lemma FundedClaim(b: Dialect, s: State, w: WorkerId, ids: set<Id>, until: Time, i: Id)
    requires Funded(s) && Enabled(s, Claim(w, ids, until)) && i in s.rows
    ensures var s' := DoClaim(s, w, ids, until);
            i in s'.rows && i in s'.accounts && Covered(s'.rows[i], |Retriers(s', i)|, s'.accounts[i].reclaims)
  {
    var s' := DoClaim(s, w, ids, until);
    if i in ids {
      RetrierAdded(s, w, ids, until, i);
      CoveredClaim(s.rows[i], |Retriers(s, i)|, |Retriers(s', i)|, s.accounts[i].reclaims, w, until);
    } else {
      assert Retriers(s', i) == Retriers(s, i);
    }
  }

  lemma FundedAck(b: Dialect, s: State, t: Token, what: Write, i: Id)
    requires TableInv(b, s) && TokenInv(s) && Level(s) && Funded(s) && Enabled(s, Step.Ack(t, what)) && i in s.rows
    ensures var s' := DoAck(b, s, t, what);
            i in s'.rows && i in s'.accounts && Covered(s'.rows[i], |Retriers(s', i)|, s'.accounts[i].reclaims)
  {
    var s', r := DoAck(b, s, t, what), s.rows[i];
    RetriersShrink(s, s', i);
    if t.id == i {
      if t.attempt < r.maxAttempts { RetrierSpent(s, s', i, t); }
      if Accepts(b, r, t.attempt, t.worker) {
        CoveredWrite(b, r, |Retriers(s, i)|, |Retriers(s', i)|, s.accounts[i].reclaims, s.now, t.attempt, what);
      }
    }
  }

  lemma NoRetriers(s: State, s': State, i: Id)
    requires i in s'.rows && forall t :: t in s'.live && t.id == i ==> t.attempt >= s'.rows[i].maxAttempts
    ensures Retriers(s', i) == {}
  {
  }

  lemma CoveredLess(r: Row, n: nat, m: nat, reclaims: nat)
    requires Covered(r, n, reclaims) && m <= n
    ensures Covered(r, m, reclaims)
  {
  }

  /** A row that is neither written nor requeued stays covered; a reclaim pays for the token it leaves behind. */
  lemma CoveredOther(b: Dialect, s: State, step: Step, i: Id, n: nat)
    requires TableInv(b, s) && i in s.rows && i in s.accounts && Covered(s.rows[i], n, s.accounts[i].reclaims)
    requires Enabled(s, step) && !step.Claim? && !step.Ack?
    requires !(step.Requeue? && step.id == i && s.rows[i].status == DEAD)
    requires i in Do(b, s, step).rows
    ensures var s' := Do(b, s, step);
            && s'.live <= s.live && s'.rows[i].maxAttempts == s.rows[i].maxAttempts && i in s'.accounts
            && Covered(s'.rows[i], n, s'.accounts[i].reclaims)
  {
  }

  lemma FundedOther(b: Dialect, s: State, step: Step, i: Id)
    requires TableInv(b, s) && TokenInv(s) && Funded(s) && Enabled(s, step) && Gentle(s, step) && !step.Claim?
    requires !step.Ack?
    requires i in Do(b, s, step).rows
    ensures var s' := Do(b, s, step);
            i in s'.accounts && Covered(s'.rows[i], |Retriers(s', i)|, s'.accounts[i].reclaims)
  {
    var s' := Do(b, s, step);
    if i !in s.rows || (step.Requeue? && step.id == i && s.rows[i].status == DEAD) {
      NoRetriers(s, s', i);
    } else {
      CoveredOther(b, s, step, i, |Retriers(s, i)|);
      RetriersShrink(s, s', i);
      CoveredLess(s'.rows[i], |Retriers(s, i)|, |Retriers(s', i)|, s'.accounts[i].reclaims);
    }
  }

  lemma FundedStep(b: Dialect, s: State, step: Step)
    requires TableInv(b, s) && TokenInv(s) && Level(s) && Funded(s) && Enabled(s, step) && Gentle(s, step)
    ensures Funded(Do(b, s, step))
  {
    var s' := Do(b, s, step);
    forall i | i in s'.rows
      ensures i in s'.accounts && Covered(s'.rows[i], |Retriers(s', i)|, s'.accounts[i].reclaims)
    {
      match step
      case Claim(w, ids, until) => FundedClaim(b, s, w, ids, until, i);
      case Ack(t, what) => FundedAck(b, s, t, what, i);
      case _ => FundedOther(b, s, step, i);
    }
  }

  /** So the attempt stays within max_attempts plus the reclaims. */
  lemma FundedBounds(s: State)
    requires Funded(s)
    ensures Bounded(s, false)
  {
  }
}
