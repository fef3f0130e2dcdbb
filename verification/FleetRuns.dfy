/** Every fleet run is backed by a protocol run, so the protocol's guarantees hold end to end. */
module FleetRuns {
  import opened Rows
  import opened Dispatch
  import opened Outcomes
  import opened Fleet
  import E = Engine
  import R = EngineRuns
  import B = Balance
  import O = Protocol
  import I = Invariants
  import Runs
  import F = Fencing
  import G = Guarantees

  // ----- Each kind of step -------------------------------------------------------------

  lemma OutsideEffect(b: Dialect, sys: O.State, step: O.Step)
    requires Outside(step)
    ensures var sys' := O.Do(b, sys, step);
            sys'.live == sys.live && sys'.succeeded == sys.succeeded && sys'.nextNo == sys.nextNo
  {
  }

  lemma SameTokens(sys: O.State, sys': O.State, w: WorkerId, k: Worker)
    requires WorkerInv(sys, w, k) && sys.live <= sys'.live && sys.succeeded <= sys'.succeeded
    requires sys.nextNo <= sys'.nextNo
    ensures WorkerInv(sys', w, k)
  {
  }

  lemma BootInv(sys: O.State, w: WorkerId, cfg: E.Config)
    ensures WorkerInv(sys, w, Worker(cfg, E.Fresh()))
  {
    R.FreshInv(cfg);
    assert forall x :: B.Held(E.Fresh(), x) == 0;
  }

  /** Freshly claimed tokens are new, the worker's own, and live after the claim. */
  lemma NewToken(b: Dialect, sys: O.State, w: WorkerId, ids: set<Id>, until: Time, x: Token)
    requires O.TableInv(b, sys) && O.Enabled(sys, O.Claim(w, ids, until)) && x in O.NewTokens(sys, ids, w)
    ensures x.no == sys.nextNo && x.worker == w && x.maxAttempts >= 1 && x in O.DoClaim(sys, w, ids, until).live
  {
  }

  lemma PollClaimed(b: Dialect, sys: O.State, w: WorkerId, k: Worker, ids: set<Id>, until: Time, msgs: seq<Token>,
                    jobs: seq<Job>, x: Token)
    requires O.TableInv(b, sys) && Own(sys, w, k.e) && O.Enabled(sys, O.Claim(w, ids, until))
    requires multiset(msgs) == multiset(O.NewTokens(sys, ids, w)) && x in E.Poll(k.e, msgs, jobs).claimed
    ensures E.Poll(k.e, msgs, jobs).claimed[x] == 1 && x.no < sys.nextNo + 1 && x.worker == w && x.maxAttempts >= 1
    ensures x in k.e.claimed || x in O.NewTokens(sys, ids, w)
  {
    if x in O.NewTokens(sys, ids, w) { NewToken(b, sys, w, ids, until, x); }
  }

  lemma PollHeld(b: Dialect, sys: O.State, w: WorkerId, k: Worker, ids: set<Id>, until: Time, msgs: seq<Token>,
                 jobs: seq<Job>, x: Token)
    requires O.TableInv(b, sys) && WorkerInv(sys, w, k) && O.Enabled(sys, O.Claim(w, ids, until))
    requires multiset(msgs) == multiset(O.NewTokens(sys, ids, w)) && R.Possible(k.cfg, k.e, R.Claimed(msgs, jobs))
    requires B.Held(E.Poll(k.e, msgs, jobs), x) > 0
    ensures x in O.DoClaim(sys, w, ids, until).live
  {
    R.PollInv(k.cfg, k.e, msgs, jobs);
    B.Balanced(k.cfg, k.e, x);
    B.Balanced(k.cfg, E.Poll(k.e, msgs, jobs), x);
    if x in O.NewTokens(sys, ids, w) {
      NewToken(b, sys, w, ids, until, x);
    } else {
      assert B.Held(k.e, x) > 0;
    }
  }

  lemma PollOwn(b: Dialect, sys: O.State, w: WorkerId, k: Worker, ids: set<Id>, until: Time, msgs: seq<Token>,
                jobs: seq<Job>)
    requires O.TableInv(b, sys) && WorkerInv(sys, w, k) && O.Enabled(sys, O.Claim(w, ids, until))
    requires multiset(msgs) == multiset(O.NewTokens(sys, ids, w)) && R.Possible(k.cfg, k.e, R.Claimed(msgs, jobs))
    ensures Own(O.DoClaim(sys, w, ids, until), w, E.Poll(k.e, msgs, jobs))
  {
    var e', sys' := E.Poll(k.e, msgs, jobs), O.DoClaim(sys, w, ids, until);
    forall x | x in e'.claimed ensures e'.claimed[x] == 1 && x.no < sys'.nextNo && x.worker == w && x.maxAttempts >= 1 {
      PollClaimed(b, sys, w, k, ids, until, msgs, jobs, x);
    }
    forall x | B.Held(e', x) > 0 ensures x in sys'.live {
      PollHeld(b, sys, w, k, ids, until, msgs, jobs, x);
    }
  }

  lemma PollKeeps(b: Dialect, sys: O.State, w: WorkerId, k: Worker, ids: set<Id>, until: Time, msgs: seq<Token>,
                  jobs: seq<Job>)
    requires O.TableInv(b, sys)
    requires WorkerInv(sys, w, k) && O.Enabled(sys, O.Claim(w, ids, until))
    requires multiset(msgs) == multiset(O.NewTokens(sys, ids, w)) && R.Possible(k.cfg, k.e, R.Claimed(msgs, jobs))
    ensures WorkerInv(O.DoClaim(sys, w, ids, until), w, k.(e := E.Poll(k.e, msgs, jobs)))
  {
    PollOwn(b, sys, w, k, ids, until, msgs, jobs);
    R.PollInv(k.cfg, k.e, msgs, jobs);
  }

  lemma HeldSetOwn(sys: O.State, w: WorkerId, k: Worker)
    requires WorkerInv(sys, w, k)
    ensures HeldSet(k.e) <= sys.live && forall x :: x in HeldSet(k.e) ==> x.worker == w
  {
  }

  // ----- One step ----------------------------------------------------------------------

  ghost predicate Members(sys: O.State, workers: map<WorkerId, Worker>) {
    forall w :: w in workers ==> WorkerInv(sys, w, workers[w])
  }

  lemma MembersSame(sys: O.State, sys': O.State, workers: map<WorkerId, Worker>)
    requires Members(sys, workers) && sys.live <= sys'.live && sys.succeeded <= sys'.succeeded
    requires sys.nextNo <= sys'.nextNo
    ensures Members(sys', workers)
  {
    forall v | v in workers ensures WorkerInv(sys', v, workers[v]) { SameTokens(sys, sys', v, workers[v]); }
  }

  /** One worker writes only its own tokens; the others keep theirs. */
  lemma OthersStay(sys: O.State, sys': O.State, workers: map<WorkerId, Worker>, w: WorkerId, gone: set<Token>)
    requires Members(sys, workers) && (forall x :: x in gone ==> x.worker == w)
    requires sys.live - gone <= sys'.live && sys.succeeded <= sys'.succeeded && sys.nextNo <= sys'.nextNo
    ensures Members(sys', workers - {w})
  {
    forall v | v in workers && v != w ensures WorkerInv(sys', v, workers[v]) {
      OthersKeep(sys, sys', w, v, workers[v], gone);
    }
  }

  lemma MembersUpdate(sys: O.State, sys': O.State, workers: map<WorkerId, Worker>, w: WorkerId, gone: set<Token>,
                      k: Worker)
    requires Members(sys, workers) && (forall x :: x in gone ==> x.worker == w)
    requires sys.live - gone <= sys'.live && sys.succeeded <= sys'.succeeded && sys.nextNo <= sys'.nextNo
    requires WorkerInv(sys', w, k)
    ensures Members(sys', workers[w := k])
  {
    forall v | v in workers && v != w ensures WorkerInv(sys', v, workers[v]) {
      OthersKeep(sys, sys', w, v, workers[v], gone);
    }
  }

  lemma WorkStep(b: Dialect, f: State, w: WorkerId, a: E.Action, lost: bool)
    requires Members(f.sys, f.workers) && w in f.workers && E.Enabled(f.workers[w].cfg, f.workers[w].e, a)
    ensures var k := f.workers[w];
            Members(O.Exec(b, f.sys, Shadow(f.sys.now, k, a, lost)), f.workers[w := k.(e := E.Do(k.cfg, k.e, a))])
  {
    var k := f.workers[w];
    var sys' := O.Exec(b, f.sys, Shadow(f.sys.now, k, a, lost));
    WorkKeeps(b, f.sys, w, k, a, lost);
    ShadowEffect(b, f.sys, k, a, lost);
    SpentOwn(f.sys, w, k, a);
    MembersUpdate(f.sys, sys', f.workers, w, Set(B.Spent(k.cfg, k.e, a)), k.(e := E.Do(k.cfg, k.e, a)));
  }

  lemma LoseEffect(b: Dialect, sys: O.State, gone: set<Token>)
    ensures O.Exec(b, sys, [O.Lose(gone)]) == sys.(live := sys.live - gone)
  {
    ExecOne(b, sys, O.Lose(gone));
  }

  lemma PollStep(b: Dialect, f: State, w: WorkerId, ids: set<Id>, until: Time, msgs: seq<Token>, jobs: seq<Job>)
    requires O.TableInv(b, f.sys) && Members(f.sys, f.workers) && w in f.workers
    requires O.Enabled(f.sys, O.Claim(w, ids, until))
    requires multiset(msgs) == multiset(O.NewTokens(f.sys, ids, w))
    requires R.Possible(f.workers[w].cfg, f.workers[w].e, R.Claimed(msgs, jobs))
    ensures Members(O.DoClaim(f.sys, w, ids, until),
                    f.workers[w := f.workers[w].(e := E.Poll(f.workers[w].e, msgs, jobs))])
  {
    PollKeeps(b, f.sys, w, f.workers[w], ids, until, msgs, jobs);
    MembersUpdate(f.sys, O.DoClaim(f.sys, w, ids, until), f.workers, w, {},
                  f.workers[w].(e := E.Poll(f.workers[w].e, msgs, jobs)));
  }

  /** A claim whose reply is lost leaves its rows HANDLING and its tokens in nobody's hands. */
  lemma LostClaim(b: Dialect, sys: O.State, w: WorkerId, ids: set<Id>, until: Time)
    ensures var sys' := O.Exec(b, sys, [O.Claim(w, ids, until)] + [O.Lose(O.NewTokens(sys, ids, w))]);
            && sys'.succeeded == sys.succeeded && sys'.nextNo == sys.nextNo + 1
            && (O.TokenInv(sys) ==> sys.live <= sys'.live)
  {
    var claim, lose := O.Claim(w, ids, until), O.Lose(O.NewTokens(sys, ids, w));
    assert ([claim] + [lose])[1..] == [lose];
    ExecOne(b, O.DoClaim(sys, w, ids, until), lose);
    assert forall x :: x in O.NewTokens(sys, ids, w) ==> x.no == sys.nextNo;
  }

  lemma ClaimValid(b: Dialect, rules: O.Rules, sys: O.State, w: WorkerId, ids: set<Id>, until: Time, lost: bool)
    requires O.Enabled(sys, O.Claim(w, ids, until)) && O.Allowed(rules, sys, O.Claim(w, ids, until))
    ensures O.Valid(b, rules, sys, [O.Claim(w, ids, until)] + if lost then [O.Lose(O.NewTokens(sys, ids, w))] else [])
  {
    var rest := if lost then [O.Lose(O.NewTokens(sys, ids, w))] else [];
    if lost { OneValid(b, rules, O.DoClaim(sys, w, ids, until), rest[0]); }
    Runs.Prepend(b, rules, sys, O.Claim(w, ids, until), rest);
  }

  lemma PollMembers(b: Dialect, rules: O.Rules, f: State, st: Step)
    requires O.TableInv(b, f.sys) && O.TokenInv(f.sys) && Members(f.sys, f.workers)
    requires st.Poll? && Possible(rules, f, st)
    ensures Members(Next(b, rules, f, st).sys, Next(b, rules, f, st).workers)
  {
    var claim := O.Claim(st.w, st.ids, st.until);
    if st.lost {
      LostClaim(b, f.sys, st.w, st.ids, st.until);
      MembersSame(f.sys, O.Exec(b, f.sys, Behind(rules, f, st)), f.workers);
    } else {
      assert Behind(rules, f, st) == [claim];
      ExecOne(b, f.sys, claim);
      PollStep(b, f, st.w, st.ids, st.until, st.msgs, st.jobs);
    }
  }

  lemma MembersStep(b: Dialect, rules: O.Rules, f: State, st: Step)
    requires O.TableInv(b, f.sys) && O.TokenInv(f.sys) && Members(f.sys, f.workers) && Possible(rules, f, st)
    ensures Members(Next(b, rules, f, st).sys, Next(b, rules, f, st).workers)
  {
    match st
    case Env(step) =>
      ExecOne(b, f.sys, step);
      OutsideEffect(b, f.sys, step);
      MembersSame(f.sys, O.Do(b, f.sys, step), f.workers);
    case Boot(w, cfg) => BootInv(f.sys, w, cfg);
    case Crash(w) =>
      var gone := HeldSet(f.workers[w].e);
      LoseEffect(b, f.sys, gone);
      HeldSetOwn(f.sys, w, f.workers[w]);
      OthersStay(f.sys, f.sys.(live := f.sys.live - gone), f.workers, w, gone);
    case Poll(_, _, _, _, _, _) => PollMembers(b, rules, f, st);
    case Work(w, a, lost) => WorkStep(b, f, w, a, lost);
  }

  lemma OneValid(b: Dialect, rules: O.Rules, sys: O.State, step: O.Step)
    requires O.Enabled(sys, step) && O.Allowed(rules, sys, step)
    ensures O.Valid(b, rules, sys, [step])
  {
    assert [step][1..] == [];
  }

  /** The protocol steps behind a fleet step are enabled and allowed. */
  lemma BehindValid(b: Dialect, rules: O.Rules, f: State, st: Step)
    requires Members(f.sys, f.workers) && Possible(rules, f, st) && AllBatching(rules, f)
    ensures O.Valid(b, rules, f.sys, Behind(rules, f, st))
  {
    match st
    case Env(step) => OneValid(b, rules, f.sys, step);
    case Boot(_, _) =>
    case Crash(w) =>
      HeldSetOwn(f.sys, w, f.workers[w]);
      OneValid(b, rules, f.sys, O.Lose(HeldSet(f.workers[w].e)));
    case Poll(w, ids, until, _, _, lost) => ClaimValid(b, rules, f.sys, w, ids, until, lost);
    case Work(w, a, lost) => ShadowValid(b, rules, f.sys, w, f.workers[w], a, lost);
  }

  lemma BackedWork(b: Dialect, f: State, k: Worker, a: E.Action, lost: bool)
    requires Backed(f) && E.Enabled(k.cfg, k.e, a)
    ensures forall x :: x in O.Exec(b, f.sys, Shadow(f.sys.now, k, a, lost)).succeeded ==>
      exists err :: Report(x, err) in f.reports + Reported(k, a) && Benign(err)
  {
    ShadowEffect(b, f.sys, k, a, lost);
    if Fulfilled(k, a) != {} {
      if a.move.err.Some? { ContainsIffFound(IsSkip, a.move.err.value); }
      assert forall x :: x in Fulfilled(k, a) ==> Report(x, a.move.err) in Reported(k, a);
    }
  }

  /** Each succeeded claim has a handler report without error or with a Skip in it. */
  lemma BackedStep(b: Dialect, rules: O.Rules, f: State, st: Step)
    requires Backed(f) && Possible(rules, f, st)
    ensures Backed(Next(b, rules, f, st))
  {
    match st
    case Env(step) => ExecOne(b, f.sys, step); OutsideEffect(b, f.sys, step);
    case Boot(_, _) =>
    case Crash(w) => ExecOne(b, f.sys, O.Lose(HeldSet(f.workers[w].e)));
    case Poll(w, ids, until, _, _, lost) =>
      if lost {
        LostClaim(b, f.sys, w, ids, until);
      } else {
        assert Behind(rules, f, st) == [O.Claim(w, ids, until)];
        ExecOne(b, f.sys, O.Claim(w, ids, until));
      }
    case Work(w, a, lost) => BackedWork(b, f, f.workers[w], a, lost);
  }

  lemma BatchingStep(b: Dialect, rules: O.Rules, f: State, st: Step)
    requires AllBatching(rules, f) && Possible(rules, f, st)
    ensures AllBatching(rules, Next(b, rules, f, st))
  {
  }

  lemma SysStep(b: Dialect, rules: O.Rules, f: State, st: Step)
    requires O.Inv(b, rules, f.sys) && Members(f.sys, f.workers) && AllBatching(rules, f) && Possible(rules, f, st)
    ensures O.Valid(b, rules, f.sys, Behind(rules, f, st))
    ensures O.Inv(b, rules, Next(b, rules, f, st).sys)
  {
    BehindValid(b, rules, f, st);
    I.RunInv(b, rules, f.sys, Behind(rules, f, st));
    assert Next(b, rules, f, st).sys == O.Exec(b, f.sys, Behind(rules, f, st));
  }

  lemma InvStep(b: Dialect, rules: O.Rules, f: State, st: Step)
    requires Inv(b, rules, f) && Possible(rules, f, st)
    ensures Inv(b, rules, Next(b, rules, f, st))
    ensures O.Valid(b, rules, f.sys, Behind(rules, f, st))
  {
    assert Members(f.sys, f.workers);
    SysStep(b, rules, f, st);
    BatchingStep(b, rules, f, st);
    MembersStep(b, rules, f, st);
    BackedStep(b, rules, f, st);
  }

  // ----- Runs --------------------------------------------------------------------------

  ghost predicate Valid(b: Dialect, rules: O.Rules, f: State, run: seq<Step>)
    decreases |run|
  {
    run == [] || (Possible(rules, f, run[0]) && Valid(b, rules, Next(b, rules, f, run[0]), run[1..]))
  }

  ghost function Exec(b: Dialect, rules: O.Rules, f: State, run: seq<Step>): State
    requires Valid(b, rules, f, run)
    decreases |run|
  {
    if run == [] then f else Exec(b, rules, Next(b, rules, f, run[0]), run[1..])
  }

  predicate Initial(f: State) {
    O.Initial(f.sys) && f.workers == map[] && f.reports == {}
  }

  lemma StepRefines(b: Dialect, rules: O.Rules, f: State, st: Step) returns (steps: seq<O.Step>)
    requires Inv(b, rules, f) && Possible(rules, f, st)
    ensures Inv(b, rules, Next(b, rules, f, st))
    ensures O.Valid(b, rules, f.sys, steps) && O.Exec(b, f.sys, steps) == Next(b, rules, f, st).sys
  {
    InvStep(b, rules, f, st);
    steps := Behind(rules, f, st);
  }

  /** Whatever the engines, crashes and lost writes do, the table only ever goes through valid protocol steps. */
  lemma {:induction false} FleetRefinesProtocol(b: Dialect, rules: O.Rules, f: State,
                                                run: seq<Step>) returns (steps: seq<O.Step>)
    requires Inv(b, rules, f) && Valid(b, rules, f, run)
    ensures Inv(b, rules, Exec(b, rules, f, run))
    ensures O.Valid(b, rules, f.sys, steps) && O.Exec(b, f.sys, steps) == Exec(b, rules, f, run).sys
    decreases |run|
  {
    if run == [] {
      steps := [];
    } else {
      var first := StepRefines(b, rules, f, run[0]);
      var rest := FleetRefinesProtocol(b, rules, Next(b, rules, f, run[0]), run[1..]);
      Runs.Append(b, rules, f.sys, first, rest);
      steps := first + rest;
    }
  }

  lemma InitialInv(b: Dialect, rules: O.Rules, f: State)
    requires Initial(f)
    ensures Inv(b, rules, f)
  {
    I.InitialInv(b, rules, f.sys);
  }

  // ----- End to end --------------------------------------------------------------------

  /**
   A SUCCESS row was earned: some handler invocation of that message and attempt ended without
   error or with a Skip. On MySQL it is enough that the engines batch their acks, as they do
   with every adapter of the repository.
   */
  lemma SuccessWasReported(b: Dialect, rules: O.Rules, f0: State, run: seq<Step>, i: Id)
    requires Initial(f0) && Valid(b, rules, f0, run) && O.Earnest(b, rules)
    requires i in Exec(b, rules, f0, run).sys.rows && Exec(b, rules, f0, run).sys.rows[i].status == SUCCESS
    ensures var f := Exec(b, rules, f0, run);
            exists r :: r in f.reports && r.t.id == i && r.t.attempt == f.sys.rows[i].attempt && Benign(r.err)
  {
    InitialInv(b, rules, f0);
    var _ := FleetRefinesProtocol(b, rules, f0, run);
    var f := Exec(b, rules, f0, run);
    var t :| t in f.sys.succeeded && t.id == i && t.attempt == f.sys.rows[i].attempt;
    var err :| Report(t, err) in f.reports && Benign(err);
    assert Report(t, err).t == t;
  }

  /**
   With clean requeues, and no self-overlap on MySQL, no engine, however late, writes over a
   newer claim, and a SUCCESS row was reported by the handler of its most recent claim.
   */
  lemma FleetFenced(b: Dialect, rules: O.Rules, f0: State, run: seq<Step>)
    requires Initial(f0) && Valid(b, rules, f0, run) && O.Exact(b, rules) && rules.cleanRequeue
    ensures var f := Exec(b, rules, f0, run);
            && F.Fenced(b, f.sys) && F.BatchFenced(f.sys)
            && forall i :: i in f.sys.rows && f.sys.rows[i].status == SUCCESS ==>
                 exists r :: r in f.reports && r.t.id == i && r.t.attempt == f.sys.rows[i].attempt
                             && F.Latest(f.sys, r.t) && Benign(r.err)
  {
    InitialInv(b, rules, f0);
    var _ := FleetRefinesProtocol(b, rules, f0, run);
    var f := Exec(b, rules, f0, run);
    F.FencedNow(b, rules, f.sys);
    forall i | i in f.sys.rows && f.sys.rows[i].status == SUCCESS
      ensures exists r :: r in f.reports && r.t.id == i && r.t.attempt == f.sys.rows[i].attempt
                          && F.Latest(f.sys, r.t) && Benign(r.err)
    {
      var t :| t in f.sys.succeeded && t.id == i && t.attempt == f.sys.rows[i].attempt && F.Latest(f.sys, t);
      var err :| Report(t, err) in f.reports && Benign(err);
      assert Report(t, err).t == t;
    }
  }

  /** However engines crash and writes get lost, attempts are claims less releases, and bounded as in the protocol. */
  lemma FleetAccounting(b: Dialect, rules: O.Rules, f0: State, run: seq<Step>, i: Id)
    requires Initial(f0) && Valid(b, rules, f0, run) && i in Exec(b, rules, f0, run).sys.rows
    ensures var s := Exec(b, rules, f0, run).sys;
            && i in s.accounts && s.rows[i].attempt == s.accounts[i].claims - s.accounts[i].releases
            && (O.Exact(b, rules) || rules.cleanRequeue ==>
              s.accounts[i].claims <= s.rows[i].maxAttempts + s.accounts[i].reclaims + s.accounts[i].releases)
  {
    InitialInv(b, rules, f0);
    var steps := FleetRefinesProtocol(b, rules, f0, run);
    G.AttemptAccounting(b, rules, f0.sys, steps, i);
  }

  /** No token is in two hands: what an engine holds is live, its own, and held once. */
  lemma HeldOnce(b: Dialect, rules: O.Rules, f0: State, run: seq<Step>, w: WorkerId, x: Token)
    requires Initial(f0) && Valid(b, rules, f0, run) && w in Exec(b, rules, f0, run).workers
    ensures var f := Exec(b, rules, f0, run);
            && B.Held(f.workers[w].e, x) + B.Gone(f.workers[w].e, x) <= 1
            && (B.Held(f.workers[w].e, x) == 1 ==> x in f.sys.live && x.worker == w)
  {
    InitialInv(b, rules, f0);
    var _ := FleetRefinesProtocol(b, rules, f0, run);
    var f := Exec(b, rules, f0, run);
    var k := f.workers[w];
    assert WorkerInv(f.sys, w, k);
    B.Balanced(k.cfg, k.e, x);
  }

  lemma PositiveMax(sys: O.State, w: WorkerId, k: Worker, i: nat, x: Token)
    requires WorkerInv(sys, w, k) && i < |k.e.runs| && x in k.e.runs[i].Rest()
    ensures x.maxAttempts >= 1
  {
    B.RestHeld(k.e, i, x);
    B.Balanced(k.cfg, k.e, x);
    assert x in k.e.claimed;
  }

  /** Enqueue always stores a positive max_attempts, so the handler's own setting never decides a fate. */
  lemma HandlerMaxAttemptsIgnored(b: Dialect, rules: O.Rules, f0: State, run: seq<Step>, w: WorkerId,
                                  i: nat, x: Token, other: E.Config, verdict: bool, delay: int)
    requires Initial(f0) && Valid(b, rules, f0, run) && w in Exec(b, rules, f0, run).workers
    requires i < |Exec(b, rules, f0, run).workers[w].e.runs| && x in Exec(b, rules, f0, run).workers[w].e.runs[i].Rest()
    ensures var k := Exec(b, rules, f0, run).workers[w];
            E.FateFor(other, x, k.e.runs[i], verdict, delay) == E.FateFor(k.cfg, x, k.e.runs[i], verdict, delay)
  {
    InitialInv(b, rules, f0);
    var _ := FleetRefinesProtocol(b, rules, f0, run);
    var f := Exec(b, rules, f0, run);
    PositiveMax(f.sys, w, f.workers[w], i, x);
    SameFate(f.workers[w].cfg, other, x, f.workers[w].e.runs[i], verdict, delay);
  }

  lemma SameFate(cfg: E.Config, other: E.Config, x: Token, r: E.Run, verdict: bool, delay: int)
    requires x.maxAttempts >= 1
    ensures E.FateFor(other, x, r, verdict, delay) == E.FateFor(cfg, x, r, verdict, delay)
  {
  }
}
