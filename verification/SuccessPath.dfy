/**
 The batched success write, which both adapters guard by attempt. It never lacks a handler's
 success behind it. Whether that success was the most recent claim's depends on what moves
 the attempt column back: a requeue, and on MySQL a stale release let through by name.
 */
module SuccessPath {
  import opened Rows
  import opened Protocol
  import opened Invariants
  import opened Runs
  import opened Fencing
  import opened Guards

  const CLEAN_BATCHED := Rules(true, false, false, true)

  ghost predicate StaysBatchFenced(b: Dialect, s: State) {
    forall run :: Valid(b, CLEAN_SOLO, s, run) ==> BatchFenced(Exec(b, s, run))
  }

  /** In all further disciplined runs, a SUCCESS row was earned by its most recent claim. */
  ghost predicate StaysLatest(b: Dialect, s: State) {
    forall run :: Valid(b, CLEAN_SOLO, s, run) ==> Evidence(Exec(b, s, run), true)
  }

  lemma DisciplinedStays(b: Dialect, s: State)
    requires Inv(b, CLEAN_SOLO, s)
    ensures StaysBatchFenced(b, s) && StaysLatest(b, s)
  {
    forall run | Valid(b, CLEAN_SOLO, s, run) ensures BatchFenced(Exec(b, s, run)) && Evidence(Exec(b, s, run), true) {
      RunInv(b, CLEAN_SOLO, s, run);
    }
  }

  /** A stale token that the attempt guard accepts, on a row whose most recent claim has not succeeded. */
  predicate Exposed(s: State, t: Token) {
    && t in s.live && t.id in s.rows && BatchAccepts(s.rows[t.id], t.attempt) && t.id in s.last && t.no != s.last[t.id]
    && forall u :: u in s.succeeded ==> u.no != s.last[t.id]
  }

  /** Its handler's late success is written over the newer claim. */
  lemma ExposedWrites(b: Dialect, rules: Rules, s: State, t: Token) returns (run: seq<Step>)
    requires Exposed(s, t)
    ensures Valid(b, rules, s, run) && !Evidence(Exec(b, s, run), true)
    ensures t.id in Exec(b, s, run).rows && Exec(b, s, run).rows[t.id].status == SUCCESS
  {
    var s1 := Do(b, s, Return({t}));
    Prepend(b, rules, s1, BatchSucceed([t]), []);
    Prepend(b, rules, s, Return({t}), [BatchSucceed([t])] + []);
    run := [Return({t})] + ([BatchSucceed([t])] + []);
    var z := Exec(b, s, run);
    assert z == Do(b, s1, BatchSucceed([t]));
    assert z.rows[t.id].status == SUCCESS && z.last == s.last && z.succeeded == s.succeeded + {t};
  }

  lemma ExposedBreaks(b: Dialect, s: State, run: seq<Step>, t: Token)
    requires Valid(b, CLEAN_SOLO, s, run) && Exposed(Exec(b, s, run), t)
    ensures !StaysBatchFenced(b, s) && !StaysLatest(b, s)
  {
    var z := Exec(b, s, run);
    assert !BatchFenced(z) by { assert !Latest(z, t); }
    var more := ExposedWrites(b, CLEAN_SOLO, z, t);
    Append(b, CLEAN_SOLO, s, run, more);
  }

  // ----- Requeues ----------------------------------------------------------------------

  lemma RequeueExposes(b: Dialect, s: State, i: Id, at: Time, t: Token) returns (run: seq<Step>)
    requires TokenInv(s) && i in s.rows && s.rows[i].status == DEAD && t in s.live && t.id == i
    ensures Valid(b, CLEAN_SOLO, Do(b, s, Requeue(i, at)), run) && Exposed(Exec(b, Do(b, s, Requeue(i, at)), run), t)
  {
    var s' := Do(b, s, Requeue(i, at));
    var w := FreshWorker(s);
    run := ClimbAlone(b, CLEAN_SOLO, s', i, t.attempt, w);
  }

  /** A requeue leaves the batched success safe if and only if no token of the message is live. */
  lemma RequeueKeepsSuccessIff(b: Dialect, s: State, i: Id, at: Time)
    requires Inv(b, CLEAN_SOLO, s) && i in s.rows && s.rows[i].status == DEAD
    ensures StaysBatchFenced(b, Do(b, s, Requeue(i, at))) <==> forall t :: t in s.live ==> t.id != i
    ensures StaysLatest(b, Do(b, s, Requeue(i, at))) <==> forall t :: t in s.live ==> t.id != i
  {
    var s' := Do(b, s, Requeue(i, at));
    if t :| t in s.live && t.id == i {
      var run := RequeueExposes(b, s, i, at, t);
      ExposedBreaks(b, s', run, t);
    } else {
      InvStep(b, CLEAN_SOLO, s, Requeue(i, at));
      DisciplinedStays(b, s');
    }
  }

  // ----- Claims on MySQL ---------------------------------------------------------------

  lemma SelfRelease(s: State, w: WorkerId, ids: set<Id>, until: Time, t: Token)
    requires TableInv(MySQL, s) && TokenInv(s) && Enabled(s, Claim(w, ids, until)) && t in s.live && t.worker == w
    requires t.id in ids
    ensures var s1, u := DoClaim(s, w, ids, until), TokenFor(s, t.id, w); var s2 := DoAck(MySQL, s1, t, Release);
            && t in s1.live && t.id in s2.rows && s2.rows[t.id].Pending() && s2.rows[t.id].attempt + 1 == u.attempt
            && u in s2.live && s2.nextNo == s.nextNo + 1 && s2.succeeded == s.succeeded
            && forall x :: x in s2.live ==> x in s.live || x.worker == w
  {
    assert TokenFor(s, t.id, w) in NewTokens(s, ids, w);
  }

  /**
   A worker claims again what it lost. Its older token's release passes by name and takes the
   new attempt back; the next claim, by anyone, carries it a second time.
   */
  lemma SelfClaimExposesBatch(rules: Rules, s: State, w: WorkerId, ids: set<Id>, until: Time, t: Token,
                              v: WorkerId) returns (run: seq<Step>)
    requires TableInv(MySQL, s) && TokenInv(s) && Enabled(s, Claim(w, ids, until))
    requires t in s.live && t.worker == w && t.id in ids && v != w && forall u :: u in s.live ==> u.worker != v
    ensures Valid(MySQL, rules, DoClaim(s, w, ids, until), run)
    ensures Exposed(Exec(MySQL, DoClaim(s, w, ids, until), run), TokenFor(s, t.id, w))
  {
    var s1, u, i := DoClaim(s, w, ids, until), TokenFor(s, t.id, w), t.id;
    var s2 := DoAck(MySQL, s1, t, Release);
    SelfRelease(s, w, ids, until, t);
    var again, x := ClaimOne(MySQL, rules, s2, i, v);
    Prepend(MySQL, rules, s1, Step.Ack(t, Release), again);
    run := [Step.Ack(t, Release)] + again;
  }

  /** A claim leaves the batched success safe if and only if the worker holds no older token of those messages. */
  lemma ClaimKeepsSuccessIff(s: State, w: WorkerId, ids: set<Id>, until: Time)
    requires Inv(MySQL, CLEAN_SOLO, s) && Enabled(s, Claim(w, ids, until))
    ensures StaysBatchFenced(MySQL, Do(MySQL, s, Claim(w, ids, until)))
       <==> forall t :: t in s.live && t.worker == w ==> t.id !in ids
    ensures StaysLatest(MySQL, Do(MySQL, s, Claim(w, ids, until)))
       <==> forall t :: t in s.live && t.worker == w ==> t.id !in ids
  {
    var s' := DoClaim(s, w, ids, until);
    if t :| t in s.live && t.worker == w && t.id in ids {
      var v := FreshWorker(s);
      var run := SelfClaimExposesBatch(CLEAN_SOLO, s, w, ids, until, t, v);
      ExposedBreaks(MySQL, s', run, TokenFor(s, t.id, w));
    } else {
      InvStep(MySQL, CLEAN_SOLO, s, Claim(w, ids, until));
      DisciplinedStays(MySQL, s');
    }
  }

  // ----- Runs that fail ----------------------------------------------------------------

  /** A worker loses its lease and finds the message pending again. */
  lemma Stall(s0: State, p: EnqueueParams, w: WorkerId) returns (run: seq<Step>, t: Token)
    requires Initial(s0)
    ensures Valid(MySQL, CLEAN_BATCHED, s0, run)
    ensures var s := Exec(MySQL, s0, run);
            && 0 in s.rows && s.rows[0].Pending() && s.rows[0].attempt == 1 && s.live == {t} && s.succeeded == {}
            && t.id == 0 && t.worker == w && t.attempt == 1
  {
    var s1 := Do(MySQL, s0, Enqueue(0, 0, p));
    var claim;
    claim, t := ClaimOne(MySQL, CLEAN_BATCHED, s1, 0, w);
    var s2 := Exec(MySQL, s1, claim);
    var expire := ReclaimOne(MySQL, CLEAN_BATCHED, s2, 0);
    Append(MySQL, CLEAN_BATCHED, s1, claim, expire);
    Prepend(MySQL, CLEAN_BATCHED, s0, Enqueue(0, 0, p), claim + expire);
    run := [Enqueue(0, 0, p)] + (claim + expire);
  }

  /** From there, claiming the message again is enough. */
  lemma SelfOverwrites(s: State, t: Token, v: WorkerId) returns (run: seq<Step>)
    requires TableInv(MySQL, s) && TokenInv(s) && t in s.live && t.id in s.rows && s.rows[t.id].Pending()
    requires s.rows[t.id].processAt <= s.now
    requires v != t.worker && forall u :: u in s.live ==> u.worker != v
    ensures Valid(MySQL, CLEAN_BATCHED, s, run)
    ensures var z := Exec(MySQL, s, run); t.id in z.rows && z.rows[t.id].status == SUCCESS && !Evidence(z, true)
  {
    var claim := Claim(t.worker, {t.id}, s.now + LEASE);
    var s1 := DoClaim(s, t.worker, {t.id}, s.now + LEASE);
    var expose := SelfClaimExposesBatch(CLEAN_BATCHED, s, t.worker, {t.id}, s.now + LEASE, t, v);
    var more := ExposedWrites(MySQL, CLEAN_BATCHED, Exec(MySQL, s1, expose), TokenFor(s, t.id, t.worker));
    Append(MySQL, CLEAN_BATCHED, s1, expose, more);
    Prepend(MySQL, CLEAN_BATCHED, s, claim, expose + more);
    run := [claim] + (expose + more);
  }

  /** On MySQL, with clean requeues and every success batched, a stale success is written over a newer claim. */
  lemma StaleSuccessBySelf(s0: State, p: EnqueueParams, w: WorkerId) returns (run: seq<Step>)
    requires Initial(s0)
    ensures Valid(MySQL, CLEAN_BATCHED, s0, run)
    ensures var z := Exec(MySQL, s0, run); 0 in z.rows && z.rows[0].status == SUCCESS && !Evidence(z, true)
  {
    var stall, t := Stall(s0, p, w);
    var s := Exec(MySQL, s0, stall);
    assert TableInv(MySQL, s) && TokenInv(s) by {
      InitialInv(MySQL, CLEAN_BATCHED, s0);
      RunInv(MySQL, CLEAN_BATCHED, s0, stall);
    }
    var wait := Wait(s, s.rows[0].processAt);
    run := SelfOverwrites(Do(MySQL, s, wait), t, w + "another");
    Prepend(MySQL, CLEAN_BATCHED, s, wait, run);
    Append(MySQL, CLEAN_BATCHED, s0, stall, [wait] + run);
    run := stall + ([wait] + run);
  }

  /**
   An adapter without batched acks would write successes by name: then SUCCESS can lack any handler
   behind its attempt.
   */
  lemma SingleSucceedLacksEvidence(s0: State, p: EnqueueParams, w: WorkerId) returns (run: seq<Step>)
    requires Initial(s0)
    ensures Valid(MySQL, CLEAN, s0, run) && !Evidence(Exec(MySQL, s0, run), false)
  {
    var stall, t := Stall(s0, p, w);
    Unbatch(MySQL, s0, stall);
    var s := Exec(MySQL, s0, stall);
    var again, u := ClaimOne(MySQL, CLEAN, s, 0, w);
    var s1 := Exec(MySQL, s, again);
    var s2 := Do(MySQL, s1, Return({t}));
    Prepend(MySQL, CLEAN, s2, Step.Ack(t, Succeed), []);
    Prepend(MySQL, CLEAN, s1, Return({t}), [Step.Ack(t, Succeed)] + []);
    Append(MySQL, CLEAN, s, again, [Return({t})] + ([Step.Ack(t, Succeed)] + []));
    run := again + ([Return({t})] + ([Step.Ack(t, Succeed)] + []));
    var z := Do(MySQL, s2, Step.Ack(t, Succeed));
    assert z.rows[0].status == SUCCESS && z.rows[0].attempt == 2 && z.succeeded == {t};
    Append(MySQL, CLEAN, s0, stall, run);
    run := stall + run;
  }

  lemma {:induction false} Unbatch(b: Dialect, s: State, run: seq<Step>)
    requires Valid(b, CLEAN_BATCHED, s, run)
    ensures Valid(b, CLEAN, s, run)
    decreases |run|
  {
    if run != [] {
      Unbatch(b, Do(b, s, run[0]), run[1..]);
    }
  }
}
