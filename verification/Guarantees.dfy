/** What every run of the outbox promises about its messages. */
module Guarantees {
  import opened Rows
  import opened Protocol
  import opened Invariants
  import opened Funding
  import opened Runs
  import opened Fencing
  import opened Transitions
  import opened Guards

  // ----- Evidence ----------------------------------------------------------------------

  /**
   SUCCESS at attempt `a` means the handler of a claim with attempt `a` succeeded: on Postgres
   in every run; on MySQL in every run whose successes are batched, as the engine's are, or
   in which no worker overlaps its own claims.
   */
  lemma SuccessHasEvidence(b: Dialect, rules: Rules, s0: State, run: seq<Step>)
    requires Initial(s0) && Valid(b, rules, s0, run) && Earnest(b, rules)
    ensures Evidence(Exec(b, s0, run), false)
  {
    InitialInv(b, rules, s0);
    RunInv(b, rules, s0, run);
  }

  /** With clean requeues, and no self-overlap on MySQL, it was the most recent claim's own handler. */
  lemma SuccessIsLatest(b: Dialect, rules: Rules, s0: State, run: seq<Step>)
    requires Initial(s0) && Valid(b, rules, s0, run) && Exact(b, rules) && rules.cleanRequeue
    ensures Evidence(Exec(b, s0, run), true)
  {
    InitialInv(b, rules, s0);
    RunInv(b, rules, s0, run);
  }

  // ----- Attempt accounting ------------------------------------------------------------

  /** The bound needs nothing on Postgres; on MySQL either of the two disciplines is enough. */
  lemma AttemptAccounting(b: Dialect, rules: Rules, s0: State, run: seq<Step>, i: Id)
    requires Initial(s0) && Valid(b, rules, s0, run) && i in Exec(b, s0, run).rows
    ensures var s := Exec(b, s0, run);
            && i in s.accounts
            && s.rows[i].attempt == s.accounts[i].claims - s.accounts[i].releases
            && (Exact(b, rules) || rules.cleanRequeue ==>
              && s.rows[i].attempt <= s.rows[i].maxAttempts + s.accounts[i].reclaims
              && s.accounts[i].claims <= s.rows[i].maxAttempts + s.accounts[i].reclaims + s.accounts[i].releases)
  {
    InitialInv(b, rules, s0);
    RunInv(b, rules, s0, run);
    if rules.cleanRequeue { FundedBounds(Exec(b, s0, run)); }
  }

  /** No row ever uses more attempts than it was given. */
  ghost predicate WithinAttempts(s: State) {
    forall i :: i in s.rows ==> s.rows[i].attempt <= s.rows[i].maxAttempts
  }

  ghost predicate StaysWithinAttempts(b: Dialect, rules: Rules, s: State) {
    forall run :: Valid(b, rules, s, run) ==> WithinAttempts(Exec(b, s, run))
  }

  lemma WithinFrom(b: Dialect, rules: Rules, s: State)
    requires Inv(b, rules, s) && Exact(b, rules) && rules.cappedReclaim
    ensures StaysWithinAttempts(b, rules, s)
  {
    forall run | Valid(b, rules, s, run) ensures WithinAttempts(Exec(b, s, run)) {
      RunInv(b, rules, s, run);
    }
  }

  lemma OneMoreClaim(b: Dialect, rules: Rules, s: State, i: Id)
    requires i in s.rows && s.rows[i].Pending() && s.rows[i].attempt >= s.rows[i].maxAttempts
    ensures !StaysWithinAttempts(b, rules, s)
  {
    var w := FreshWorker(s);
    var run, _ := ClaimOne(b, rules, s, i, w);
    assert !WithinAttempts(Exec(b, s, run));
  }

  /** A reclaim keeps max_attempts a bound if and only if every reclaimed row has attempts left. */
  lemma ReclaimSafeIff(b: Dialect, rules: Rules, s: State, ids: set<Id>)
    requires Inv(b, rules, s) && Exact(b, rules) && rules.cappedReclaim && Enabled(s, Reclaim(ids))
    ensures StaysWithinAttempts(b, rules, Do(b, s, Reclaim(ids)))
       <==> forall i :: i in ids ==> s.rows[i].attempt < s.rows[i].maxAttempts
  {
    if i :| i in ids && s.rows[i].attempt >= s.rows[i].maxAttempts {
      OneMoreClaim(b, rules, Do(b, s, Reclaim(ids)), i);
    } else {
      InvStep(b, rules, s, Reclaim(ids));
      WithinFrom(b, rules, Do(b, s, Reclaim(ids)));
    }
  }

  /** A message whose handler always kills its worker is attempted without end, whatever its max_attempts. */
  lemma PoisonPill(b: Dialect, s0: State, p: EnqueueParams, n: nat) returns (run: seq<Step>)
    requires Initial(s0)
    ensures Valid(b, CLEAN_SOLO, s0, run)
    ensures var s := Exec(b, s0, run);
            && 0 in s.rows && s.rows[0].status == HANDLING && s.rows[0].attempt == n + 1
            && s.rows[0].maxAttempts == NewRow(p, s0.now, 0).maxAttempts
  {
    var enqueue := Enqueue(0, 0, p);
    var climb := ClimbAlone(b, CLEAN_SOLO, Do(b, s0, enqueue), 0, n + 1, "worker");
    Prepend(b, CLEAN_SOLO, s0, enqueue, climb);
    run := [enqueue] + climb;
  }

  // ----- Nothing is lost or wedged -----------------------------------------------------

  /** MySQL leaves the claim columns of a finished row as they were. */
  ghost predicate Consistent(b: Dialect, r: Row) {
    && r.status != FAILED
    && (b.Postgres? || !r.Terminal() ==>
          (r.status == HANDLING <==> r.claimedBy.Some?) && (r.status == HANDLING <==> r.claimedUntil.Some?))
    && (r.status == HANDLING ==> r.attempt >= 1)
    && (r.Terminal() <==> r.completedAt.Some?)
  }

  /** From `t` on some statement can move the row: a claim of all its event type's rows, or a reclaim. */
  ghost predicate MovableFrom(r: Row, t: Time) {
    forall now :: now > t ==> Eligible(r, now, [r.eventType], None) || Expired(r, now)
  }

  lemma RowsConsistent(b: Dialect, s0: State, run: seq<Step>, i: Id)
    requires Initial(s0) && Valid(b, ANY_RUN, s0, run) && i in Exec(b, s0, run).rows
    ensures var r := Exec(b, s0, run).rows[i];
            Consistent(b, r) && (r.Terminal() || exists t :: MovableFrom(r, t))
    ensures UniqueKeys(Exec(b, s0, run).rows)
  {
    InitialInv(b, ANY_RUN, s0);
    RunInv(b, ANY_RUN, s0, run);
    var r := Exec(b, s0, run).rows[i];
    if !r.Terminal() {
      assert MovableFrom(r, if r.Pending() then r.processAt else r.claimedUntil.value);
    }
  }

  ghost predicate Purges(run: seq<Step>, i: Id) {
    exists k :: 0 <= k < |run| && run[k].Purge? && i in run[k].ids
  }

  /** A message stays in the table, its own columns untouched, until a purge names it. */
  lemma {:induction false} MessagesSurvive(b: Dialect, s: State, run: seq<Step>, i: Id)
    requires TableInv(b, s) && Valid(b, ANY_RUN, s, run) && i in s.rows && !Purges(run, i)
    ensures i in Exec(b, s, run).rows && Exec(b, s, run).rows[i].SameMessage(s.rows[i])
    decreases |run|
  {
    if run != [] {
      TableStep(b, ANY_RUN, s, run[0]);
      MessageStep(b, s, run[0], i);
      assert forall k :: 0 <= k < |run[1..]| ==> run[1..][k] == run[k + 1];
      MessagesSurvive(b, Do(b, s, run[0]), run[1..], i);
    }
  }

  /**
   A claim and the release of its own token leave the table as it was, on Postgres with the message
   as a retry due at once.
   */
  lemma ReleaseRestores(b: Dialect, s: State, w: WorkerId, i: Id, until: Time)
    requires TableInv(b, s) && Enabled(s, Claim(w, {i}, until))
    ensures var z := DoAck(b, DoClaim(s, w, {i}, until), TokenFor(s, i, w), Release);
            z.rows == if b.Postgres? then s.rows[i := s.rows[i].(status := RETRYING, processAt := s.now)] else s.rows
  {
    ReleaseUndoesClaim(b, s.rows[i], w, until, s.now);
  }

  /** A SUCCESS row stays as it is, unless a purge takes it away. */
  lemma {:induction false} SuccessIsFinal(b: Dialect, s: State, run: seq<Step>, i: Id)
    requires TableInv(b, s) && Valid(b, ANY_RUN, s, run) && i in s.rows && s.rows[i].status == SUCCESS
    requires !Purges(run, i)
    ensures i in Exec(b, s, run).rows && Exec(b, s, run).rows[i] == s.rows[i]
    decreases |run|
  {
    if run != [] {
      SuccessStays(b, s, run[0], i);
      TableStep(b, ANY_RUN, s, run[0]);
      assert forall k :: 0 <= k < |run[1..]| ==> run[1..][k] == run[k + 1];
      SuccessIsFinal(b, Do(b, s, run[0]), run[1..], i);
    }
  }

  lemma SuccessStays(b: Dialect, s: State, step: Step, i: Id)
    requires s.rows.Keys <= s.used && Enabled(s, step) && i in s.rows && s.rows[i].status == SUCCESS
    requires !(step.Purge? && i in step.ids)
    ensures i in Do(b, s, step).rows && Do(b, s, step).rows[i] == s.rows[i]
  {
  }

  /** Sending a batch again, after whatever run, leaves every row that it marked as it marked it. */
  lemma ResendHarmless(b: Dialect, s: State, ts: seq<Token>, run: seq<Step>, i: Id)
    requires TableInv(b, s) && Enabled(s, BatchSucceed(ts)) && i in s.rows && Batched(s.rows[i], i, ts)
    requires Valid(b, ANY_RUN, Do(b, s, BatchSucceed(ts)), run) && !Purges(run, i)
    ensures var s1 := Do(b, s, BatchSucceed(ts)); var z := Exec(b, s1, run);
            && i in s1.rows && s1.rows[i].status == SUCCESS && i in z.rows
            && Do(b, z, BatchSucceed(ts)).rows[i] == s1.rows[i]
  {
    TableStep(b, ANY_RUN, s, BatchSucceed(ts));
    SuccessIsFinal(b, Do(b, s, BatchSucceed(ts)), run, i);
  }

  lemma RowWellFormed(b: Dialect, s: State, run: seq<Step>, i: Id)
    requires Inv(b, ANY_RUN, s) && Valid(b, ANY_RUN, s, run) && i in Exec(b, s, run).rows
    ensures WellFormed(b, Exec(b, s, run).rows[i])
  {
    RunInv(b, ANY_RUN, s, run);
  }

  lemma RequeueStep(b: Dialect, z: State, i: Id, p: EnqueueParams, start: Time, shard: int, at: Time)
    requires i in z.rows && WellFormed(b, z.rows[i]) && z.rows[i].status == DEAD
    requires z.rows[i].SameMessage(NewRow(p, start, shard))
    ensures var z' := Do(b, z, Requeue(i, at));
            i in z'.rows && z'.rows[i] == NewRow(p.(processAt := Some(at)), start, shard)
  {
    RequeueIsNew(b, p, start, shard, z.rows[i], at);
  }

  /** A requeue restores the message as first enqueued, whatever the run did to it in between. */
  lemma RequeueRestores(b: Dialect, s: State, run: seq<Step>, i: Id, p: EnqueueParams, start: Time, shard: int,
                        at: Time)
    requires Inv(b, ANY_RUN, s) && i in s.rows && s.rows[i] == NewRow(p, start, shard)
    requires Valid(b, ANY_RUN, s, run) && !Purges(run, i) && i in Exec(b, s, run).rows
    requires Exec(b, s, run).rows[i].status == DEAD
    ensures var z := Do(b, Exec(b, s, run), Requeue(i, at));
            i in z.rows && z.rows[i] == NewRow(p.(processAt := Some(at)), start, shard)
  {
    RowWellFormed(b, s, run, i);
    MessagesSurvive(b, s, run, i);
    RequeueStep(b, Exec(b, s, run), i, p, start, shard, at);
  }

  lemma SucceedOne(b: Dialect, s: State, i: Id) returns (run: seq<Step>)
    requires i in s.rows && s.rows[i].Pending()
    ensures Valid(b, CLEAN, s, run)
    ensures i in Exec(b, s, run).rows && Exec(b, s, run).rows[i].status == SUCCESS
  {
    var t;
    run, t := ClaimOne(b, CLEAN, s, i, "worker");
    var s1 := Exec(b, s, run);
    var s2 := Do(b, s1, Return({t}));
    Prepend(b, CLEAN, s2, BatchSucceed([t]), []);
    Prepend(b, CLEAN, s1, Return({t}), [BatchSucceed([t])] + []);
    Append(b, CLEAN, s, run, [Return({t})] + ([BatchSucceed([t])] + []));
    run := run + ([Return({t})] + ([BatchSucceed([t])] + []));
    assert Exec(b, s, run) == Do(b, s2, BatchSucceed([t]));
  }

  /** However a run got there, every unfinished message can still be carried to SUCCESS. */
  lemma CanStillSucceed(b: Dialect, s0: State, before: seq<Step>, i: Id) returns (run: seq<Step>)
    requires Initial(s0) && Valid(b, ANY_RUN, s0, before)
    requires i in Exec(b, s0, before).rows && !Exec(b, s0, before).rows[i].Terminal()
    ensures Valid(b, CLEAN, Exec(b, s0, before), run)
    ensures var z := Exec(b, Exec(b, s0, before), run); i in z.rows && z.rows[i].status == SUCCESS
  {
    InitialInv(b, ANY_RUN, s0);
    RunInv(b, ANY_RUN, s0, before);
    var s := Exec(b, s0, before);
    if s.rows[i].Pending() {
      run := SucceedOne(b, s, i);
    } else {
      var expire := ReclaimOne(b, CLEAN, s, i);
      var rest := SucceedOne(b, Exec(b, s, expire), i);
      Append(b, CLEAN, s, expire, rest);
      run := expire + rest;
    }
  }
}
