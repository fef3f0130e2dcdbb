/**
 When a MySQL message can be attempted more often than max_attempts plus its reclaims: only
 after a requeue that left a token of it live, and then always, unless it allows no retry.
 */
module Overrun {
  import opened Rows
  import opened Protocol
  import opened Invariants
  import opened Funding
  import opened Runs
  import opened Fencing
  import opened Guards

  ghost predicate WithinReclaims(s: State) {
    forall i :: i in s.rows && i in s.accounts ==> s.rows[i].attempt <= s.rows[i].maxAttempts + s.accounts[i].reclaims
  }

  ghost predicate StaysWithinReclaims(s: State) {
    forall run :: Valid(MySQL, CLEAN, s, run) ==> WithinReclaims(Exec(MySQL, s, run))
  }

  /** Once covered, a message stays covered in every run with clean requeues. */
  lemma {:induction false} FundedRun(b: Dialect, s: State, run: seq<Step>)
    requires TableInv(b, s) && TokenInv(s) && Level(s) && Funded(s) && Valid(b, CLEAN, s, run)
    ensures Funded(Exec(b, s, run))
    decreases |run|
  {
    if run != [] {
      TableStep(b, CLEAN, s, run[0]);
      TokenStep(b, CLEAN, s, run[0]);
      LevelStep(b, s, run[0]);
      FundedStep(b, s, run[0]);
      FundedRun(b, Do(b, s, run[0]), run[1..]);
    }
  }

  // ----- A stray token is one retry too many -------------------------------------------

  /** A worker claims the message and writes a retry with the given token, its new one or an older one of its own. */
  lemma ClaimAndRetry(s: State, i: Id, x: Token, own: bool) returns (run: seq<Step>)
    requires i in s.rows && s.rows[i].Pending() && i in s.accounts && x in s.live && x.id == i && x.no < s.nextNo
    requires if own then s.rows[i].attempt + 1 < s.rows[i].maxAttempts else x.attempt < x.maxAttempts
    ensures Valid(MySQL, CLEAN, s, run)
    ensures var z := Exec(MySQL, s, run);
            && i in z.rows && z.rows[i].Pending() && z.rows[i].attempt == s.rows[i].attempt + 1
            && z.rows[i].maxAttempts == s.rows[i].maxAttempts
            && i in z.accounts && z.accounts[i].reclaims == s.accounts[i].reclaims && z.nextNo >= s.nextNo
            && (own ==> x in z.live)
  {
    var t;
    run, t := ClaimOne(MySQL, CLEAN, s, i, x.worker);
    var s1 := Exec(MySQL, s, run);
    var retry := Step.Ack(if own then t else x, FailRetry(s1.now));
    Prepend(MySQL, CLEAN, s1, retry, []);
    Append(MySQL, CLEAN, s, run, [retry] + []);
    run := run + ([retry] + []);
  }

  /** Its own retries carry a pending message to its last attempt. */
  lemma {:induction false} RetryToLast(s: State, i: Id, x: Token) returns (run: seq<Step>)
    requires i in s.rows && s.rows[i].Pending() && i in s.accounts && x in s.live && x.id == i && x.no < s.nextNo
    requires s.rows[i].attempt < s.rows[i].maxAttempts
    ensures Valid(MySQL, CLEAN, s, run)
    ensures var z := Exec(MySQL, s, run);
            && i in z.rows && z.rows[i].Pending() && z.rows[i].attempt == s.rows[i].maxAttempts - 1
            && z.rows[i].maxAttempts == s.rows[i].maxAttempts
            && i in z.accounts && z.accounts[i].reclaims == s.accounts[i].reclaims && z.nextNo >= s.nextNo
            && x in z.live
    decreases s.rows[i].maxAttempts - s.rows[i].attempt
  {
    if s.rows[i].attempt == s.rows[i].maxAttempts - 1 {
      run := [];
    } else {
      run := ClaimAndRetry(s, i, x, true);
      var rest := RetryToLast(Exec(MySQL, s, run), i, x);
      Append(MySQL, CLEAN, s, run, rest);
      run := run + rest;
    }
  }

  /** With an older token left over there is one retry more than attempts. */
  lemma StrayRetrier(s: State, i: Id, x: Token) returns (run: seq<Step>)
    requires i in s.rows && s.rows[i].Pending() && s.rows[i].attempt == 0 && i in s.accounts
    requires s.accounts[i].reclaims == 0
    requires x in s.live && x.id == i && x.no < s.nextNo && x.attempt < x.maxAttempts == s.rows[i].maxAttempts
    requires s.rows[i].maxAttempts >= 1
    ensures Valid(MySQL, CLEAN, s, run) && !WithinReclaims(Exec(MySQL, s, run))
  {
    run := RetryToLast(s, i, x);
    var s1 := Exec(MySQL, s, run);
    var extra := ClaimAndRetry(s1, i, x, false);
    var s2 := Exec(MySQL, s1, extra);
    var last, t := ClaimOne(MySQL, CLEAN, s2, i, x.worker);
    Append(MySQL, CLEAN, s1, extra, last);
    Append(MySQL, CLEAN, s, run, extra + last);
    run := run + (extra + last);
  }

  /** A token past the last attempt can turn the first one of the new life into such a stray, by releasing it. */
  lemma StrayFromRelease(s: State, i: Id, t: Token) returns (run: seq<Step>, x: Token)
    requires i in s.rows && s.rows[i].Pending() && s.rows[i].attempt == 0 && s.rows[i].maxAttempts >= 2
    requires i in s.accounts
    requires t in s.live && t.id == i && t.no < s.nextNo
    ensures Valid(MySQL, CLEAN, s, run)
    ensures var z := Exec(MySQL, s, run);
            && i in z.rows && z.rows[i].Pending() && z.rows[i].attempt == 0
            && z.rows[i].maxAttempts == s.rows[i].maxAttempts
            && i in z.accounts && z.accounts[i].reclaims == s.accounts[i].reclaims
            && x in z.live && x.id == i && x.no < z.nextNo && x.attempt == 1 && x.maxAttempts == s.rows[i].maxAttempts
  {
    run, x := ClaimOne(MySQL, CLEAN, s, i, t.worker);
    var s1 := Exec(MySQL, s, run);
    Prepend(MySQL, CLEAN, s1, Step.Ack(t, Release), []);
    Append(MySQL, CLEAN, s, run, [Step.Ack(t, Release)] + []);
    run := run + ([Step.Ack(t, Release)] + []);
  }

  lemma StrayOverruns(s: State, i: Id, t: Token) returns (run: seq<Step>)
    requires i in s.rows && s.rows[i].Pending() && s.rows[i].attempt == 0 && s.rows[i].maxAttempts >= 2
    requires i in s.accounts && s.accounts[i].reclaims == 0
    requires t in s.live && t.id == i && t.no < s.nextNo && t.maxAttempts == s.rows[i].maxAttempts
    ensures Valid(MySQL, CLEAN, s, run) && !WithinReclaims(Exec(MySQL, s, run))
  {
    if t.attempt < t.maxAttempts {
      run := StrayRetrier(s, i, t);
    } else {
      var x;
      run, x := StrayFromRelease(s, i, t);
      var rest := StrayRetrier(Exec(MySQL, s, run), i, x);
      Append(MySQL, CLEAN, s, run, rest);
      run := run + rest;
    }
  }

  // ----- The exact condition -----------------------------------------------------------

  /**
   A MySQL requeue keeps max_attempts plus reclaims a bound if and only if the message allows no
   retry or no token of it is live.
   */
  lemma RequeueKeepsBoundIff(s: State, i: Id, at: Time)
    requires Inv(MySQL, CLEAN, s) && i in s.rows && s.rows[i].status == DEAD
    ensures StaysWithinReclaims(Do(MySQL, s, Requeue(i, at)))
       <==> s.rows[i].maxAttempts == 1 || forall t :: t in s.live ==> t.id != i
  {
    var step := Requeue(i, at);
    if Gentle(s, step) {
      GentleStays(s, step);
    } else {
      var t :| t in s.live && t.id == i;
      StrayBreaks(s, i, at, t);
    }
  }

  lemma StrayBreaks(s: State, i: Id, at: Time, t: Token)
    requires TableInv(MySQL, s) && TokenInv(s) && i in s.rows && s.rows[i].status == DEAD && s.rows[i].maxAttempts >= 2
    requires t in s.live && t.id == i
    ensures !StaysWithinReclaims(Do(MySQL, s, Requeue(i, at)))
  {
    var run := StrayOverruns(Do(MySQL, s, Requeue(i, at)), i, t);
  }

  lemma GentleStays(s: State, step: Step)
    requires TableInv(MySQL, s) && TokenInv(s) && Level(s) && Funded(s) && step.Requeue? && Gentle(s, step)
    ensures StaysWithinReclaims(Do(MySQL, s, step))
  {
    var s' := Do(MySQL, s, step);
    TableStep(MySQL, ANY_RUN, s, step);
    TokenStep(MySQL, ANY_RUN, s, step);
    LevelStep(MySQL, s, step);
    FundedStep(MySQL, s, step);
    forall run | Valid(MySQL, CLEAN, s', run) ensures WithinReclaims(Exec(MySQL, s', run)) {
      FundedRun(MySQL, s', run);
      FundedBounds(Exec(MySQL, s', run));
    }
  }

  /** From an empty table: any message that allows a retry can be attempted too often. */
  lemma OverrunReachable(s0: State, p: EnqueueParams) returns (run: seq<Step>)
    requires Initial(s0) && NewRow(p, s0.now, 0).maxAttempts >= 2
    ensures Valid(MySQL, ANY_RUN, s0, run) && !WithinReclaims(Exec(MySQL, s0, run))
  {
    var t;
    run, t := BuriedWhileLive(MySQL, s0, p);
    var s := Exec(MySQL, s0, run);
    assert TokenInv(s) by {
      InitialInv(MySQL, CLEAN_SOLO, s0);
      RunInv(MySQL, CLEAN_SOLO, s0, run);
    }
    var rest := StrayOverruns(Do(MySQL, s, Requeue(0, s.now)), 0, t);
    Relax(MySQL, CLEAN, Do(MySQL, s, Requeue(0, s.now)), rest);
    Relax(MySQL, CLEAN_SOLO, s0, run);
    Prepend(MySQL, ANY_RUN, s, Requeue(0, s.now), rest);
    Append(MySQL, ANY_RUN, s0, run, [Requeue(0, s.now)] + rest);
    run := run + ([Requeue(0, s.now)] + rest);
  }

  // ----- Claims, where requeues are not clean ------------------------------------------

  ghost predicate StaysWithinSolo(s: State) {
    forall run :: Valid(MySQL, SOLO, s, run) ==> WithinReclaims(Exec(MySQL, s, run))
  }

  /** An older token of the worker named in a row asks for no retry, or finds the row with a retry to spare. */
  ghost predicate Harmless(s: State) {
    forall t ::
      (t in s.live && t.id in s.rows && t.id in s.accounts && s.rows[t.id].status == HANDLING
       && s.rows[t.id].claimedBy == Some(t.worker) && t.attempt < t.maxAttempts && !Latest(s, t))
      ==> s.rows[t.id].attempt < Allowance(s, t.id, false)
  }

  lemma HarmlessFrame(s: State, s': State)
    requires Harmless(s) && s'.live <= s.live && s'.last == s.last
    requires forall i :: i in s'.rows && i in s'.accounts && s'.rows[i].status == HANDLING ==>
               && i in s.rows && i in s.accounts && s.rows[i].status == HANDLING
               && s'.rows[i].attempt == s.rows[i].attempt
               && s'.rows[i].claimedBy == s.rows[i].claimedBy && s'.rows[i].maxAttempts == s.rows[i].maxAttempts
               && s'.accounts[i].reclaims == s.accounts[i].reclaims
    ensures Harmless(s')
  {
  }

  lemma HandlingKept(b: Dialect, s: State, step: Step, i: Id)
    requires s.rows.Keys <= s.used && s.rows.Keys <= s.accounts.Keys && Enabled(s, step) && !step.Claim?
    requires i in Do(b, s, step).rows && i in Do(b, s, step).accounts && Do(b, s, step).rows[i].status == HANDLING
    ensures i in s.rows && i in s.accounts && s.rows[i].status == HANDLING
    ensures var s' := Do(b, s, step);
            && s'.rows[i].attempt == s.rows[i].attempt && s'.rows[i].claimedBy == s.rows[i].claimedBy
            && s'.rows[i].maxAttempts == s.rows[i].maxAttempts && s'.accounts[i].reclaims == s.accounts[i].reclaims
  {
    CalmStep(b, s, step, i);
  }

  lemma HarmlessClaim(s: State, w: WorkerId, ids: set<Id>, until: Time)
    requires TokenInv(s) && Harmless(s) && Enabled(s, Claim(w, ids, until))
    requires forall t :: t in s.live && t.worker == w && t.id in ids && t.id in s.accounts
                          && t.attempt < t.maxAttempts ==>
               s.rows[t.id].attempt + 1 < Allowance(s, t.id, false)
    ensures Harmless(DoClaim(s, w, ids, until))
  {
  }

  lemma HarmlessStep(s: State, step: Step)
    requires TableInv(MySQL, s) && TokenInv(s) && s.rows.Keys <= s.accounts.Keys && Harmless(s)
    requires Enabled(s, step) && Allowed(SOLO, s, step)
    ensures Harmless(Do(MySQL, s, step))
  {
    if step.Claim? {
      HarmlessClaim(s, step.worker, step.ids, step.until);
    } else {
      var s' := Do(MySQL, s, step);
      forall i | i in s'.rows && i in s'.accounts && s'.rows[i].status == HANDLING
        ensures i in s.rows && i in s.accounts && s.rows[i].status == HANDLING
        ensures s'.rows[i].attempt == s.rows[i].attempt
        ensures s'.rows[i].claimedBy == s.rows[i].claimedBy && s'.rows[i].maxAttempts == s.rows[i].maxAttempts
        ensures s'.accounts[i].reclaims == s.accounts[i].reclaims
      {
        HandlingKept(MySQL, s, step, i);
      }
      HarmlessFrame(s, s');
    }
  }

  lemma HarmlessBounded(s: State, step: Step)
    requires TableInv(MySQL, s) && TokenInv(s) && Bounded(s, false) && Harmless(s) && Enabled(s, step)
    requires Allowed(SOLO, s, step)
    ensures Bounded(Do(MySQL, s, step), false)
  {
    if step.Ack? {
      BoundedAck(MySQL, s, step.t, step.what, false);
    } else {
      BoundedRest(MySQL, SOLO, s, step, false);
    }
  }

  lemma {:induction false} HarmlessRun(s: State, run: seq<Step>)
    requires TableInv(MySQL, s) && TokenInv(s) && Bounded(s, false) && Harmless(s) && Valid(MySQL, SOLO, s, run)
    ensures Bounded(Exec(MySQL, s, run), false)
    decreases |run|
  {
    if run != [] {
      TableStep(MySQL, SOLO, s, run[0]);
      TokenStep(MySQL, SOLO, s, run[0]);
      HarmlessStep(s, run[0]);
      HarmlessBounded(s, run[0]);
      HarmlessRun(Do(MySQL, s, run[0]), run[1..]);
    }
  }

  /**
   The worker has an older token that may ask for a retry, and the row is at the last attempt its
   reclaims pay for.
   */
  predicate LastStraw(s: State, w: WorkerId, ids: set<Id>, t: Token) {
    && t in s.live && t.worker == w && t.id in ids && t.id in s.rows && t.id in s.accounts
    && t.attempt < t.maxAttempts && s.rows[t.id].attempt + 1 >= Allowance(s, t.id, false)
  }

  lemma LastStrawBreaks(s: State, w: WorkerId, ids: set<Id>, until: Time, t: Token)
    requires TokenInv(s) && Enabled(s, Claim(w, ids, until)) && LastStraw(s, w, ids, t)
    ensures !StaysWithinSolo(DoClaim(s, w, ids, until))
  {
    var s1 := DoClaim(s, w, ids, until);
    var retry := Step.Ack(t, FailRetry(s.now));
    var s2 := DoAck(MySQL, s1, t, FailRetry(s.now));
    var v := FreshWorker(s2);
    var run, u := ClaimOne(MySQL, SOLO, s2, t.id, v);
    Prepend(MySQL, SOLO, s1, retry, run);
    assert !WithinReclaims(Exec(MySQL, s1, [retry] + run));
  }

  /**
   Where requeues may leave tokens live, a MySQL claim keeps the bound in all further runs
   without self-overlap if and only if it is no last straw.
   */
  lemma ClaimKeepsBoundIff(s: State, w: WorkerId, ids: set<Id>, until: Time)
    requires Inv(MySQL, SOLO, s) && Enabled(s, Claim(w, ids, until))
    ensures StaysWithinSolo(Do(MySQL, s, Claim(w, ids, until)))
       <==> forall t :: t in s.live ==> !LastStraw(s, w, ids, t)
  {
    if t :| t in s.live && LastStraw(s, w, ids, t) {
      LastStrawBreaks(s, w, ids, until, t);
    } else {
      SoloIsHarmless(s);
      NoStrawStays(s, w, ids, until);
    }
  }

  lemma SoloIsHarmless(s: State)
    requires Solo(s) && TokenInv(s)
    ensures Harmless(s)
  {
  }

  lemma NoStrawStays(s: State, w: WorkerId, ids: set<Id>, until: Time)
    requires TableInv(MySQL, s) && TokenInv(s) && Bounded(s, false) && Harmless(s) && Enabled(s, Claim(w, ids, until))
    requires forall t :: t in s.live ==> !LastStraw(s, w, ids, t)
    ensures StaysWithinSolo(DoClaim(s, w, ids, until))
  {
    var s' := DoClaim(s, w, ids, until);
    TableClaim(MySQL, ANY_RUN, s, w, ids, until);
    TokenClaim(MySQL, ANY_RUN, s, w, ids, until);
    HarmlessClaim(s, w, ids, until);
    BoundedClaim(MySQL, s, w, ids, until, false);
    forall run | Valid(MySQL, SOLO, s', run) ensures WithinReclaims(Exec(MySQL, s', run)) {
      HarmlessRun(s', run);
    }
  }
}
