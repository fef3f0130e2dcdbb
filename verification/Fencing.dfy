/**
 Who may write a row. Postgres guards an ack by the attempt number, MySQL by the worker
 name; each guard keeps stale workers out under its own condition on the run, and each
 condition is exact.
 */
module Fencing {
  import opened Rows
  import opened Protocol
  import opened Invariants
  import opened Runs

  const CLEAN := Rules(true, false, false, false)
  const SOLO := Rules(false, true, false, false)
  const CLEAN_SOLO := Rules(true, true, false, false)

  /** The token comes from the most recent claim of its message. */
  predicate Latest(s: State, t: Token) {
    t.id in s.last && t.no == s.last[t.id]
  }

  /** Single acks of the adapter reach a row only from its most recent claim. */
  ghost predicate Fenced(b: Dialect, s: State) {
    forall t :: t in s.live && t.id in s.rows && Accepts(b, s.rows[t.id], t.attempt, t.worker) ==> Latest(s, t)
  }

  /** So do the entries of a batched success, which both adapters guard by attempt. */
  ghost predicate BatchFenced(s: State) {
    forall t :: t in s.live && t.id in s.rows && BatchAccepts(s.rows[t.id], t.attempt) ==> Latest(s, t)
  }

  /** Every stale token lags behind its row, strictly while somebody else is handling it. */
  ghost predicate StaleLag(s: State) {
    forall t :: t in s.live && t.id in s.rows && !Latest(s, t) ==>
      t.attempt <= s.rows[t.id].attempt && (s.rows[t.id].status == HANDLING ==> t.attempt < s.rows[t.id].attempt)
  }

  lemma FencedNow(b: Dialect, rules: Rules, s: State)
    requires Inv(b, rules, s) && Exact(b, rules) && rules.cleanRequeue
    ensures Fenced(b, s) && BatchFenced(s) && StaleLag(s)
  {
  }

  /** Postgres fencing, over every run that requeues only messages nobody may still write. */
  lemma PostgresFencing(s0: State, run: seq<Step>)
    requires Initial(s0) && Valid(Postgres, CLEAN, s0, run)
    ensures var s := Exec(Postgres, s0, run); Fenced(Postgres, s) && BatchFenced(s) && StaleLag(s)
  {
    InitialInv(Postgres, CLEAN, s0);
    RunInv(Postgres, CLEAN, s0, run);
  }

  /**
   MySQL fencing: single acks need that no worker overlaps its own claims, batched successes clean
   requeues as well.
   */
  lemma MySQLFencing(rules: Rules, s0: State, run: seq<Step>)
    requires Initial(s0) && Valid(MySQL, rules, s0, run) && rules.soloClaim
    ensures var s := Exec(MySQL, s0, run);
            Fenced(MySQL, s) && (rules.cleanRequeue ==> BatchFenced(s) && StaleLag(s))
  {
    InitialInv(MySQL, rules, s0);
    RunInv(MySQL, rules, s0, run);
  }

  // ----- Guard equivalence -------------------------------------------------------------

  /** An ack decided by the guard of `g` with the effects of `b`. */
  function AckUnder(g: Dialect, b: Dialect, s: State, t: Token, what: Write): State {
    if t.id in s.rows && Accepts(g, s.rows[t.id], t.attempt, t.worker)
    then s.(rows := s.rows[t.id := WrittenRow(b, s.rows[t.id], s.now, what)], live := s.live - {t},
            accounts := if what.Release? && t.id in s.accounts
            then s.accounts[t.id := s.accounts[t.id].(releases := s.accounts[t.id].releases + 1)] else s.accounts)
    else s.(live := s.live - {t})
  }

  /** A run of adapter `b` in which every single ack is decided by the guard of `g`. */
  function ExecUnder(g: Dialect, b: Dialect, s: State, run: seq<Step>): State
    decreases |run|
  {
    if run == [] then s
    else ExecUnder(g, b, if run[0].Ack? then AckUnder(g, b, s, run[0].t, run[0].what) else Do(b, s, run[0]), run[1..])
  }

  lemma GuardsAgree(b: Dialect, s: State, t: Token)
    requires Inv(b, CLEAN_SOLO, s) && t in s.live && t.id in s.rows
    ensures Accepts(Postgres, s.rows[t.id], t.attempt, t.worker) <==> Accepts(MySQL, s.rows[t.id], t.attempt, t.worker)
    ensures Accepts(b, s.rows[t.id], t.attempt, t.worker) <==> s.rows[t.id].status == HANDLING && Latest(s, t)
  {
  }

  lemma {:induction false} GuardsInterchangeable(g: Dialect, b: Dialect, s: State, run: seq<Step>)
    requires Inv(b, CLEAN_SOLO, s) && Valid(b, CLEAN_SOLO, s, run)
    ensures ExecUnder(g, b, s, run) == Exec(b, s, run)
    decreases |run|
  {
    if run != [] {
      if run[0].Ack? {
        var t := run[0].t;
        if t.id in s.rows { GuardsAgree(b, s, t); }
        assert AckUnder(g, b, s, t, run[0].what) == Do(b, s, run[0]);
      }
      InvStep(b, CLEAN_SOLO, s, run[0]);
      GuardsInterchangeable(g, b, Do(b, s, run[0]), run[1..]);
    }
  }

  /** Either guard decides every ack of every disciplined run in the same way. */
  lemma GuardEquivalence(b: Dialect, s0: State, run: seq<Step>)
    requires Initial(s0) && Valid(b, CLEAN_SOLO, s0, run)
    ensures ExecUnder(Postgres, b, s0, run) == ExecUnder(MySQL, b, s0, run) == Exec(b, s0, run)
  {
    InitialInv(b, CLEAN_SOLO, s0);
    GuardsInterchangeable(Postgres, b, s0, run);
    GuardsInterchangeable(MySQL, b, s0, run);
  }

  // ----- The conditions are exact ------------------------------------------------------

  ghost predicate StaysFenced(b: Dialect, rules: Rules, s: State) {
    forall run :: Valid(b, rules, s, run) ==> Fenced(b, Exec(b, s, run))
  }

  lemma FencedFrom(b: Dialect, rules: Rules, s: State)
    requires Inv(b, rules, s) && if b.Postgres? then rules.cleanRequeue else rules.soloClaim
    ensures StaysFenced(b, rules, s)
  {
    forall run | Valid(b, rules, s, run) ensures Fenced(b, Exec(b, s, run)) {
      RunInv(b, rules, s, run);
    }
  }

  /** A requeue is safe for the attempt guard if and only if no worker may still write the message. */
  lemma RequeueSafeIff(s: State, i: Id, at: Time)
    requires Inv(Postgres, CLEAN, s) && i in s.rows && s.rows[i].status == DEAD
    ensures StaysFenced(Postgres, CLEAN, Do(Postgres, s, Requeue(i, at))) <==> forall t :: t in s.live ==> t.id != i
  {
    var s' := Do(Postgres, s, Requeue(i, at));
    if forall t :: t in s.live ==> t.id != i {
      InvStep(Postgres, CLEAN, s, Requeue(i, at));
      FencedFrom(Postgres, CLEAN, s');
    } else {
      var t :| t in s.live && t.id == i;
      var run := Climb(Postgres, CLEAN, s', i, t.attempt, "another worker");
      var z := Exec(Postgres, s', run);
      assert t in z.live && Accepts(Postgres, z.rows[i], t.attempt, t.worker) && !Latest(z, t);
    }
  }

  /** After a claim by `w`, the worker guard accepts every older live token of `w` on that row. */
  lemma SelfClaimExposes(s: State, w: WorkerId, ids: set<Id>, until: Time, t: Token)
    requires TokenInv(s) && Enabled(s, Claim(w, ids, until))
    requires t in s.live && t.worker == w && t.id in ids
    ensures !Fenced(MySQL, DoClaim(s, w, ids, until)) && !StaysFenced(MySQL, SOLO, DoClaim(s, w, ids, until))
  {
    var s' := DoClaim(s, w, ids, until);
    assert t in s'.live && Accepts(MySQL, s'.rows[t.id], t.attempt, t.worker) && !Latest(s', t);
    assert Exec(MySQL, s', []) == s';
  }

  /** A claim is safe for the worker guard if and only if the worker holds no older claim of those messages. */
  lemma SelfClaimSafeIff(s: State, w: WorkerId, ids: set<Id>, until: Time)
    requires Inv(MySQL, SOLO, s) && Enabled(s, Claim(w, ids, until))
    ensures StaysFenced(MySQL, SOLO, Do(MySQL, s, Claim(w, ids, until)))
       <==> forall t :: t in s.live && t.worker == w ==> t.id !in ids
  {
    if t :| t in s.live && t.worker == w && t.id in ids {
      SelfClaimExposes(s, w, ids, until, t);
    } else {
      InvStep(MySQL, SOLO, s, Claim(w, ids, until));
      FencedFrom(MySQL, SOLO, Do(MySQL, s, Claim(w, ids, until)));
    }
  }

  // ----- Both failures happen ----------------------------------------------------------

  /** A worker stalls past its lease while a second one takes its message over and buries it. */
  lemma BuriedWhileLive(b: Dialect, s0: State, p: EnqueueParams) returns (run: seq<Step>, t: Token)
    requires Initial(s0)
    ensures Valid(b, CLEAN_SOLO, s0, run)
    ensures var s := Exec(b, s0, run);
            && 0 in s.rows && s.rows[0].status == DEAD && s.rows[0].maxAttempts == NewRow(p, s0.now, 0).maxAttempts
            && t in s.live && t.id == 0 && t.attempt == 1 && t.no < s.nextNo
  {
    var s1 := Do(b, s0, Enqueue(0, 0, p));
    var stall;
    stall, t := ClaimOne(b, CLEAN_SOLO, s1, 0, "first");
    var s2 := Exec(b, s1, stall);
    var expire := ReclaimOne(b, CLEAN_SOLO, s2, 0);
    var s3 := Exec(b, s2, expire);
    var takeOver, u := ClaimOne(b, CLEAN_SOLO, s3, 0, "second");
    var s4 := Exec(b, s3, takeOver);
    Prepend(b, CLEAN_SOLO, s4, Step.Ack(u, FailDead), []);
    Append(b, CLEAN_SOLO, s3, takeOver, [Step.Ack(u, FailDead)] + []);
    Append(b, CLEAN_SOLO, s2, expire, takeOver + ([Step.Ack(u, FailDead)] + []));
    run := expire + (takeOver + ([Step.Ack(u, FailDead)] + []));
    Append(b, CLEAN_SOLO, s1, stall, run);
    Prepend(b, CLEAN_SOLO, s0, Enqueue(0, 0, p), stall + run);
    run := [Enqueue(0, 0, p)] + (stall + run);
    assert t in Exec(b, s0, run).live;
  }

  /** Whatever a run with some disciplines does, it does without them. */
  lemma {:induction false} Relax(b: Dialect, rules: Rules, s: State, run: seq<Step>)
    requires Valid(b, rules, s, run)
    ensures Valid(b, ANY_RUN, s, run)
    decreases |run|
  {
    if run != [] {
      Relax(b, rules, Do(b, s, run[0]), run[1..]);
    }
  }

  /** On Postgres an admin's requeue then lets the next claim carry the stalled worker's attempt number. */
  lemma StaleWriteAfterRequeue(s0: State, p: EnqueueParams) returns (run: seq<Step>)
    requires Initial(s0)
    ensures Valid(Postgres, ANY_RUN, s0, run) && !Fenced(Postgres, Exec(Postgres, s0, run))
  {
    var t;
    run, t := BuriedWhileLive(Postgres, s0, p);
    Relax(Postgres, CLEAN_SOLO, s0, run);
    var s1 := Exec(Postgres, s0, run);
    var s2 := Do(Postgres, s1, Requeue(0, s1.now));
    var again, _ := ClaimOne(Postgres, ANY_RUN, s2, 0, "third");
    var z := Exec(Postgres, s2, again);
    Prepend(Postgres, ANY_RUN, s1, Requeue(0, s1.now), again);
    Append(Postgres, ANY_RUN, s0, run, [Requeue(0, s1.now)] + again);
    run := run + ([Requeue(0, s1.now)] + again);
    assert t in z.live && Accepts(Postgres, z.rows[0], t.attempt, t.worker) && !Latest(z, t);
  }

  /** On MySQL it is enough that a worker claims again what it lost to its own lease. */
  lemma StaleWriteBySelf(s0: State, p: EnqueueParams, w: WorkerId) returns (run: seq<Step>)
    requires Initial(s0)
    ensures Valid(MySQL, ANY_RUN, s0, run) && !Fenced(MySQL, Exec(MySQL, s0, run))
  {
    var s1 := Do(MySQL, s0, Enqueue(0, 0, p));
    var stall, t := ClaimOne(MySQL, ANY_RUN, s1, 0, w);
    var s2 := Exec(MySQL, s1, stall);
    var expire := ReclaimOne(MySQL, ANY_RUN, s2, 0);
    var s3 := Exec(MySQL, s2, expire);
    var again, _ := ClaimOne(MySQL, ANY_RUN, s3, 0, w);
    var z := Exec(MySQL, s3, again);
    assert t in z.live && Accepts(MySQL, z.rows[0], t.attempt, t.worker) && !Latest(z, t);
    Append(MySQL, ANY_RUN, s2, expire, again);
    Append(MySQL, ANY_RUN, s1, stall, expire + again);
    Prepend(MySQL, ANY_RUN, s0, Enqueue(0, 0, p), stall + (expire + again));
    run := [Enqueue(0, 0, p)] + (stall + (expire + again));
  }
}
