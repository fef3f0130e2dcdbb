/** Who may still write: every live claim is in the hands of exactly one running engine, its worker's. */
module Custody {
  import opened Rows
  import opened Dispatch
  import opened Fleet
  import opened FleetRuns
  import E = Engine
  import R = EngineRuns
  import B = Balance
  import O = Protocol

  ghost predicate HeldBy(workers: map<WorkerId, Worker>, x: Token) {
    x.worker in workers && B.Held(workers[x.worker].e, x) > 0
  }

  ghost predicate Housed(sys: O.State, workers: map<WorkerId, Worker>) {
    forall x :: x in sys.live ==> HeldBy(workers, x)
  }

  /** What an action does not settle, the engine goes on holding. */
  lemma StillHeld(sys: O.State, w: WorkerId, k: Worker, a: E.Action, x: Token)
    requires WorkerInv(sys, w, k) && E.Enabled(k.cfg, k.e, a)
    requires B.Held(k.e, x) > 0 && x !in B.Spent(k.cfg, k.e, a)
    ensures B.Held(E.Do(k.cfg, k.e, a), x) > 0
  {
    R.ActInv(k.cfg, k.e, a);
    B.Balanced(k.cfg, k.e, x);
    B.Balanced(k.cfg, E.Do(k.cfg, k.e, a), x);
    B.GoneAct(k.cfg, k.e, a, x);
    B.ClaimedAct(k.cfg, k.e, a);
  }

  lemma HousedUpdate(sys: O.State, sys': O.State, workers: map<WorkerId, Worker>, w: WorkerId, k: Worker)
    requires Housed(sys, workers) && sys'.live <= sys.live
    requires forall x :: x in sys'.live && x.worker == w ==> B.Held(k.e, x) > 0
    ensures Housed(sys', workers[w := k])
  {
    assert forall x :: x in sys.live ==> HeldBy(workers, x);
  }

  lemma HousedWithout(sys: O.State, sys': O.State, workers: map<WorkerId, Worker>, w: WorkerId)
    requires Housed(sys, workers) && sys'.live <= sys.live && forall x :: x in sys'.live ==> x.worker != w
    ensures Housed(sys', workers - {w})
  {
    assert forall x :: x in sys.live ==> HeldBy(workers, x);
  }

  lemma HousedWork(b: Dialect, f: State, w: WorkerId, a: E.Action, lost: bool)
    requires Members(f.sys, f.workers) && Housed(f.sys, f.workers)
    requires w in f.workers && E.Enabled(f.workers[w].cfg, f.workers[w].e, a)
    ensures var k := f.workers[w];
            Housed(O.Exec(b, f.sys, Shadow(f.sys.now, k, a, lost)), f.workers[w := k.(e := E.Do(k.cfg, k.e, a))])
  {
    var k := f.workers[w];
    var sys' := O.Exec(b, f.sys, Shadow(f.sys.now, k, a, lost));
    ShadowEffect(b, f.sys, k, a, lost);
    forall x | x in sys'.live && x.worker == w ensures B.Held(E.Do(k.cfg, k.e, a), x) > 0 {
      assert HeldBy(f.workers, x) && x !in B.Spent(k.cfg, k.e, a);
      StillHeld(f.sys, w, k, a, x);
    }
    HousedUpdate(f.sys, sys', f.workers, w, k.(e := E.Do(k.cfg, k.e, a)));
  }

  /** What a claim returns is held, and so is what was held before. */
  lemma PolledHeld(k: Worker, msgs: seq<Token>, jobs: seq<Job>, x: Token)
    requires R.Possible(k.cfg, k.e, R.Claimed(msgs, jobs)) && (x in multiset(msgs) || B.Held(k.e, x) > 0)
    ensures B.Held(E.Poll(k.e, msgs, jobs), x) > 0
  {
    PlanIsComplete(k.cfg.reg, msgs, jobs);
  }

  lemma HousedPoll(f: State, w: WorkerId, ids: set<Id>, until: Time, msgs: seq<Token>, jobs: seq<Job>)
    requires Housed(f.sys, f.workers) && w in f.workers
    requires multiset(msgs) == multiset(O.NewTokens(f.sys, ids, w))
    requires R.Possible(f.workers[w].cfg, f.workers[w].e, R.Claimed(msgs, jobs))
    ensures Housed(O.DoClaim(f.sys, w, ids, until),
                   f.workers[w := f.workers[w].(e := E.Poll(f.workers[w].e, msgs, jobs))])
  {
    forall x | x in O.DoClaim(f.sys, w, ids, until).live
      ensures HeldBy(f.workers[w := f.workers[w].(e := E.Poll(f.workers[w].e, msgs, jobs))], x)
    {
      if x in O.NewTokens(f.sys, ids, w) {
        PolledHeld(f.workers[w], msgs, jobs, x);
      } else {
        assert HeldBy(f.workers, x);
        if x.worker == w { PolledHeld(f.workers[w], msgs, jobs, x); }
      }
    }
  }

  lemma LostClaimLive(b: Dialect, sys: O.State, w: WorkerId, ids: set<Id>, until: Time)
    ensures O.Exec(b, sys, [O.Claim(w, ids, until)] + [O.Lose(O.NewTokens(sys, ids, w))]).live <= sys.live
  {
    var claim, lose := O.Claim(w, ids, until), O.Lose(O.NewTokens(sys, ids, w));
    assert ([claim] + [lose])[1..] == [lose];
    ExecOne(b, O.DoClaim(sys, w, ids, until), lose);
  }

  lemma HousedCrash(f: State, w: WorkerId)
    requires Members(f.sys, f.workers) && Housed(f.sys, f.workers) && w in f.workers
    ensures Housed(f.sys.(live := f.sys.live - HeldSet(f.workers[w].e)), f.workers - {w})
  {
    var sys' := f.sys.(live := f.sys.live - HeldSet(f.workers[w].e));
    forall x | x in sys'.live ensures x.worker != w {
      assert HeldBy(f.workers, x);
      if x.worker == w { HeldIsInSet(f.sys, w, f.workers[w], x); }
    }
    HousedWithout(f.sys, sys', f.workers, w);
  }

  lemma HeldIsInSet(sys: O.State, w: WorkerId, k: Worker, x: Token)
    requires WorkerInv(sys, w, k) && B.Held(k.e, x) > 0
    ensures x in HeldSet(k.e)
  {
    B.Balanced(k.cfg, k.e, x);
  }

  lemma HousedSame(sys: O.State, sys': O.State, workers: map<WorkerId, Worker>)
    requires Housed(sys, workers) && sys'.live <= sys.live
    ensures Housed(sys', workers)
  {
  }

  lemma HousedBoot(sys: O.State, workers: map<WorkerId, Worker>, w: WorkerId, k: Worker)
    requires Housed(sys, workers) && w !in workers
    ensures Housed(sys, workers[w := k])
  {
    assert forall x :: x in sys.live ==> HeldBy(workers, x);
  }

  lemma HousedPolls(b: Dialect, rules: O.Rules, f: State, st: Step)
    requires Housed(f.sys, f.workers) && st.Poll? && Possible(rules, f, st)
    ensures Housed(Next(b, rules, f, st).sys, Next(b, rules, f, st).workers)
  {
    if st.lost {
      LostClaimLive(b, f.sys, st.w, st.ids, st.until);
      HousedSame(f.sys, Next(b, rules, f, st).sys, f.workers);
    } else {
      assert Behind(rules, f, st) == [O.Claim(st.w, st.ids, st.until)];
      ExecOne(b, f.sys, O.Claim(st.w, st.ids, st.until));
      HousedPoll(f, st.w, st.ids, st.until, st.msgs, st.jobs);
    }
  }

  lemma HousedStep(b: Dialect, rules: O.Rules, f: State, st: Step)
    requires Members(f.sys, f.workers) && Housed(f.sys, f.workers) && Possible(rules, f, st)
    ensures Housed(Next(b, rules, f, st).sys, Next(b, rules, f, st).workers)
  {
    match st
    case Env(step) =>
      ExecOne(b, f.sys, step);
      OutsideEffect(b, f.sys, step);
      HousedSame(f.sys, O.Do(b, f.sys, step), f.workers);
    case Boot(w, cfg) => HousedBoot(f.sys, f.workers, w, Worker(cfg, E.Fresh()));
    case Crash(w) =>
      LoseEffect(b, f.sys, HeldSet(f.workers[w].e));
      HousedCrash(f, w);
    case Poll(_, _, _, _, _, _) => HousedPolls(b, rules, f, st);
    case Work(w, a, lost) => HousedWork(b, f, w, a, lost);
  }

  lemma {:induction false} HousedRun(b: Dialect, rules: O.Rules, f: State, run: seq<Step>)
    requires Inv(b, rules, f) && Housed(f.sys, f.workers) && Valid(b, rules, f, run)
    ensures Housed(Exec(b, rules, f, run).sys, Exec(b, rules, f, run).workers)
    decreases |run|
  {
    if run != [] {
      HousedStep(b, rules, f, run[0]);
      InvStep(b, rules, f, run[0]);
      HousedRun(b, rules, Next(b, rules, f, run[0]), run[1..]);
    }
  }

  /**
   In every reachable state a claim is live exactly if a running engine, its own worker's, holds it,
   and then it holds it once: crashes, lost replies and lost writes leave no stray writer.
   */
  lemma LiveIffHeld(b: Dialect, rules: O.Rules, f0: State, run: seq<Step>, x: Token)
    requires Initial(f0) && Valid(b, rules, f0, run)
    ensures var f := Exec(b, rules, f0, run);
            && (x in f.sys.live <==> exists w :: w in f.workers && B.Held(f.workers[w].e, x) > 0)
            && forall w :: w in f.workers && B.Held(f.workers[w].e, x) > 0 ==>
                 w == x.worker && B.Held(f.workers[w].e, x) == 1
  {
    InitialInv(b, rules, f0);
    HousedRun(b, rules, f0, run);
    var f := Exec(b, rules, f0, run);
    forall w | w in f.workers && B.Held(f.workers[w].e, x) > 0
      ensures x in f.sys.live && w == x.worker && B.Held(f.workers[w].e, x) == 1
    {
      HeldOnce(b, rules, f0, run, w, x);
    }
    if x in f.sys.live { assert HeldBy(f.workers, x); }
  }

  // ----- The rest of the world ---------------------------------------------------------

  /** Whatever producers, extenders, reclaimer, janitor, admins and the clock may do, they may do beside any fleet. */
  lemma OutsideIsFree(b: Dialect, rules: O.Rules, f: State, step: O.Step)
    requires O.Enabled(f.sys, step) && O.Allowed(rules, f.sys, step)
    requires !(step.Claim? || step.Return? || step.Ack? || step.BatchSucceed? || step.Lose?)
    ensures Possible(rules, f, Env(step))
    ensures Next(b, rules, f, Env(step)) == f.(sys := O.Do(b, f.sys, step))
  {
    ExecOne(b, f.sys, step);
  }

  /** Any storage call may be lost: the table stays as it is, and the engine goes on as if it had arrived. */
  lemma AnyCallMayBeLost(b: Dialect, rules: O.Rules, f: State, w: WorkerId, a: E.Action)
    requires Possible(rules, f, Work(w, a, false)) && B.Spent(f.workers[w].cfg, f.workers[w].e, a) != []
    ensures Possible(rules, f, Work(w, a, true))
    ensures var f', f'' := Next(b, rules, f, Work(w, a, false)), Next(b, rules, f, Work(w, a, true));
            && f''.sys.rows == f.sys.rows && f''.sys.live == f'.sys.live
            && f''.workers == f'.workers && f''.reports == f'.reports
  {
    var k := f.workers[w];
    ShadowEffect(b, f.sys, k, a, false);
    ShadowEffect(b, f.sys, k, a, true);
    ExecOne(b, f.sys, O.Lose(Set(B.Spent(k.cfg, k.e, a))));
  }

  /** An engine may crash at any time; its rows stay as they are, and nobody can write its claims any more. */
  lemma CrashSilences(b: Dialect, rules: O.Rules, f0: State, run: seq<Step>, w: WorkerId)
    requires Initial(f0) && Valid(b, rules, f0, run) && w in Exec(b, rules, f0, run).workers
    ensures var f := Exec(b, rules, f0, run);
            && Possible(rules, f, Crash(w))
            && var f' := Next(b, rules, f, Crash(w));
               && f'.sys.rows == f.sys.rows && f'.workers == f.workers - {w}
               && forall x :: x in f'.sys.live <==> x in f.sys.live && x.worker != w
  {
    InitialInv(b, rules, f0);
    HousedRun(b, rules, f0, run);
    var _ := FleetRefinesProtocol(b, rules, f0, run);
    var f := Exec(b, rules, f0, run);
    var gone := HeldSet(f.workers[w].e);
    LoseEffect(b, f.sys, gone);
    HeldSetOwn(f.sys, w, f.workers[w]);
    forall x | x in f.sys.live && x.worker == w ensures x in gone {
      assert HeldBy(f.workers, x);
      HeldIsInSet(f.sys, w, f.workers[w], x);
    }
  }
}
