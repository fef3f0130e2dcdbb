/**
 The whole system: any number of engines, started and crashed at will, over one shared
 table. Every storage call an engine makes may fail or be lost. The fleet refines the
 protocol: whatever the engines do, the table goes through a valid protocol run.
 */
module Fleet {
  import opened Rows
  import opened Dispatch
  import opened Outcomes
  import E = Engine
  import R = EngineRuns
  import B = Balance
  import O = Protocol
  import AP = AckPipeline

  type Token = O.Token

  datatype Worker = Worker(cfg: E.Config, e: E.State)

  /** A handler invocation ended with this error for this message. */
  datatype Report = Report(t: Token, err: Option<Err>)

  datatype State = State(sys: O.State, workers: map<WorkerId, Worker>, reports: set<Report>)

  datatype Step =
    | Env(step: O.Step)
    | Boot(w: WorkerId, cfg: E.Config)
    | Crash(w: WorkerId)
    | Poll(w: WorkerId, ids: set<Id>, until: Time, msgs: seq<Token>, jobs: seq<Job>, lost: bool)
    | Work(w: WorkerId, a: E.Action, lost: bool)

  /** Producers, extenders, the reclaimer, the janitor, admins and the clock. */
  predicate Outside(step: O.Step) {
    step.Enqueue? || step.Extend? || step.Reclaim? || step.Purge? || step.Requeue? || step.Tick?
  }

  ghost predicate Possible(rules: O.Rules, f: State, st: Step) {
    match st
    case Env(step) => Outside(step) && O.Enabled(f.sys, step) && O.Allowed(rules, f.sys, step)
    case Boot(w, cfg) => w !in f.workers && (rules.batchedSuccess ==> cfg.batchAck)
    case Crash(w) => w in f.workers
    case Poll(w, ids, until, msgs, jobs, _) =>
      && w in f.workers && O.Enabled(f.sys, O.Claim(w, ids, until)) && O.Allowed(rules, f.sys, O.Claim(w, ids, until))
      && multiset(msgs) == multiset(O.NewTokens(f.sys, ids, w))
      && R.Possible(f.workers[w].cfg, f.workers[w].e, R.Claimed(msgs, jobs))
    case Work(w, a, _) => w in f.workers && E.Enabled(f.workers[w].cfg, f.workers[w].e, a)
  }

  function WriteOf(fate: Fate, now: Time): Write {
    match fate
    case Success => Succeed
    case Released => Release
    case Dead => FailDead
    case RetryIn(d) => FailRetry(now + d)
  }

  function Set(ts: seq<Token>): set<Token> { set t | t in ts }

  /** The storage call behind an engine action. */
  function Call(now: Time, k: Worker, a: E.Action): O.Step
    requires E.Enabled(k.cfg, k.e, a) && B.Spent(k.cfg, k.e, a) != []
  {
    var spent := B.Spent(k.cfg, k.e, a);
    match a
    case NoHandler => O.Step.Ack(spent[0], FailDead)
    case HandBack => O.Step.Ack(spent[0], Release)
    case Handler(i, Commit(verdict, delay)) =>
      O.Step.Ack(spent[0], WriteOf(E.FateFor(k.cfg, spent[0], k.e.runs[i], verdict, delay), now))
    case _ => O.BatchSucceed(spent)
  }

  /** The protocol steps behind an engine action: a write or its loss, or a handler's success. */
  function Shadow(now: Time, k: Worker, a: E.Action, lost: bool): seq<O.Step>
    requires E.Enabled(k.cfg, k.e, a)
  {
    var spent := B.Spent(k.cfg, k.e, a);
    if spent != [] then [if lost then O.Lose(Set(spent)) else Call(now, k, a)]
    else if a.Handler? && a.move.End? && ResolveOutcome(a.move.err, k.e.ctxDone, k.e.stopping).OutcomeSuccess?
    then [O.Return(Set(k.e.runs[a.k].job))]
    else []
  }

  /** Everything a crashing engine had not settled. */
  function HeldSet(e: E.State): set<Token> { set x | x in e.claimed && B.Held(e, x) > 0 }

  ghost function Behind(rules: O.Rules, f: State, st: Step): seq<O.Step>
    requires Possible(rules, f, st)
  {
    match st
    case Env(step) => [step]
    case Boot(_, _) => []
    case Crash(w) => [O.Lose(HeldSet(f.workers[w].e))]
    case Poll(w, ids, until, _, _, lost) =>
      [O.Claim(w, ids, until)] + if lost then [O.Lose(O.NewTokens(f.sys, ids, w))] else []
    case Work(w, a, lost) => Shadow(f.sys.now, f.workers[w], a, lost)
  }

  function Reported(k: Worker, a: E.Action): set<Report>
    requires E.Enabled(k.cfg, k.e, a)
  {
    if a.Handler? && a.move.End? then set t | t in k.e.runs[a.k].job :: Report(t, a.move.err) else {}
  }

  ghost function Next(b: Dialect, rules: O.Rules, f: State, st: Step): State
    requires Possible(rules, f, st)
  {
    var sys := O.Exec(b, f.sys, Behind(rules, f, st));
    match st
    case Env(_) => f.(sys := sys)
    case Boot(w, cfg) => f.(sys := sys, workers := f.workers[w := Worker(cfg, E.Fresh())])
    case Crash(w) => f.(sys := sys, workers := f.workers - {w})
    case Poll(w, _, _, msgs, jobs, lost) =>
      if lost then f.(sys := sys)
      else f.(sys := sys, workers := f.workers[w := f.workers[w].(e := E.Poll(f.workers[w].e, msgs, jobs))])
    case Work(w, a, _) =>
      var k := f.workers[w];
      f.(sys := sys, workers := f.workers[w := k.(e := E.Do(k.cfg, k.e, a))], reports := f.reports + Reported(k, a))
  }

  // ----- Invariant ---------------------------------------------------------------------

  /** The worker's tokens are its own, claimed once, and live while it holds them. */
  ghost predicate Own(sys: O.State, w: WorkerId, e: E.State) {
    && (forall x :: x in e.claimed ==> e.claimed[x] == 1 && x.no < sys.nextNo && x.worker == w && x.maxAttempts >= 1)
    && (forall x :: B.Held(e, x) > 0 ==> x in sys.live)
  }

  predicate Succeeding(r: E.Run) { r.phase.Committing? && r.phase.outcome.OutcomeSuccess? }

  /** Whatever is on its way to a success write belongs to a handler that succeeded. */
  ghost predicate Earned(sys: O.State, e: E.State) {
    && (forall x :: x in e.pipe.chan || x in e.pipe.buf ==> x in sys.succeeded)
    && (forall i, x :: 0 <= i < |e.runs| && Succeeding(e.runs[i]) && x in e.runs[i].Rest() ==> x in sys.succeeded)
  }

  ghost predicate WorkerInv(sys: O.State, w: WorkerId, k: Worker) {
    E.Inv(k.cfg, k.e) && Own(sys, w, k.e) && Earned(sys, k.e)
  }

  ghost predicate Backed(f: State) {
    forall x :: x in f.sys.succeeded ==> exists err :: Report(x, err) in f.reports && Benign(err)
  }

  predicate Batching(rules: O.Rules, cfg: E.Config) {
    rules.batchedSuccess ==> cfg.batchAck
  }

  ghost predicate AllBatching(rules: O.Rules, f: State) {
    forall w :: w in f.workers ==> Batching(rules, f.workers[w].cfg)
  }

  ghost predicate Inv(b: Dialect, rules: O.Rules, f: State) {
    && O.Inv(b, rules, f.sys)
    && AllBatching(rules, f)
    && (forall w :: w in f.workers ==> WorkerInv(f.sys, w, f.workers[w]))
    && Backed(f)
  }

  // ----- Refinement --------------------------------------------------------------------

  lemma SpentLive(sys: O.State, w: WorkerId, k: Worker, a: E.Action)
    requires Own(sys, w, k.e) && E.Enabled(k.cfg, k.e, a)
    ensures forall x :: x in B.Spent(k.cfg, k.e, a) ==> x in sys.live
  {
    forall x | x in B.Spent(k.cfg, k.e, a) ensures x in sys.live {
      B.SpentHeld(k.cfg, k.e, a, x);
    }
  }

  lemma FlushEarned(sys: O.State, k: Worker, a: E.Action)
    requires Earned(sys, k.e) && E.Enabled(k.cfg, k.e, a) && B.Flushing(a)
    ensures forall x :: x in B.Spent(k.cfg, k.e, a) ==> x in sys.succeeded
  {
    forall x | x in B.Spent(k.cfg, k.e, a) ensures x in sys.succeeded {
      B.FlushHeld(k.cfg, k.e, a, x);
    }
  }

  /** A success write has a successful handler behind it, a retry has attempts left. */
  lemma CommitJustified(cfg: E.Config, sys: O.State, r: E.Run, verdict: bool, delay: int, now: Time)
    requires E.RunOk(cfg, r) && r.phase.Committing? && r.phase.next < |r.job| && r.job[r.phase.next].maxAttempts >= 1
    requires Succeeding(r) ==> r.job[r.phase.next] in sys.succeeded
    ensures O.Justified(sys, r.job[r.phase.next], WriteOf(E.FateFor(cfg, r.job[r.phase.next], r, verdict, delay), now))
  {
  }

  lemma CommitEnabled(now: Time, sys: O.State, w: WorkerId, k: Worker, a: E.Action)
    requires WorkerInv(sys, w, k) && E.Enabled(k.cfg, k.e, a) && B.Spent(k.cfg, k.e, a) != [] && a.Handler?
    ensures O.Enabled(sys, Call(now, k, a))
  {
    var r, x := k.e.runs[a.k], B.Spent(k.cfg, k.e, a)[0];
    SpentLive(sys, w, k, a);
    assert x in B.Spent(k.cfg, k.e, a);
    B.SpentHeld(k.cfg, k.e, a, x);
    B.Balanced(k.cfg, k.e, x);
    E.RestMove(k.e, r, a.move);
    assert x == r.Rest()[0];
    CommitJustified(k.cfg, sys, r, a.move.verdict, a.move.policyDelay, now);
  }

  lemma CallEnabled(now: Time, sys: O.State, w: WorkerId, k: Worker, a: E.Action)
    requires WorkerInv(sys, w, k) && E.Enabled(k.cfg, k.e, a) && B.Spent(k.cfg, k.e, a) != []
    ensures O.Enabled(sys, Call(now, k, a))
  {
    if a.Handler? {
      CommitEnabled(now, sys, w, k, a);
    } else {
      SpentLive(sys, w, k, a);
      if B.Flushing(a) { FlushEarned(sys, k, a); }
    }
  }

  lemma JobLive(sys: O.State, w: WorkerId, k: Worker, i: nat)
    requires Own(sys, w, k.e) && i < |k.e.runs| && k.e.runs[i].phase.Invoked?
    ensures Set(k.e.runs[i].job) <= sys.live
  {
    forall x | x in k.e.runs[i].job ensures x in sys.live {
      B.RestHeld(k.e, i, x);
    }
  }

  /** Every engine action is backed by an enabled protocol step, or by none. */
  lemma ShadowValid(b: Dialect, rules: O.Rules, sys: O.State, w: WorkerId, k: Worker, a: E.Action, lost: bool)
    requires WorkerInv(sys, w, k) && Batching(rules, k.cfg) && E.Enabled(k.cfg, k.e, a)
    ensures O.Valid(b, rules, sys, Shadow(sys.now, k, a, lost))
  {
    var steps := Shadow(sys.now, k, a, lost);
    if steps != [] {
      ShadowEnabled(sys, w, k, a, lost);
      ShadowAllowed(rules, sys, k, a, lost);
      assert steps == [steps[0]];
      assert steps[1..] == [];
    }
  }

  /** An engine with batched acks writes no success by itself. */
  lemma ShadowAllowed(rules: O.Rules, sys: O.State, k: Worker, a: E.Action, lost: bool)
    requires E.Shape(k.cfg, k.e) && Batching(rules, k.cfg) && E.Enabled(k.cfg, k.e, a)
    requires Shadow(sys.now, k, a, lost) != []
    ensures O.Allowed(rules, sys, Shadow(sys.now, k, a, lost)[0])
  {
    if a.Handler? && a.move.Commit? {
      assert E.RunOk(k.cfg, k.e.runs[a.k]);
    }
  }

  lemma ShadowEnabled(sys: O.State, w: WorkerId, k: Worker, a: E.Action, lost: bool)
    requires WorkerInv(sys, w, k) && E.Enabled(k.cfg, k.e, a) && Shadow(sys.now, k, a, lost) != []
    ensures O.Enabled(sys, Shadow(sys.now, k, a, lost)[0])
  {
    if B.Spent(k.cfg, k.e, a) != [] {
      SpentLive(sys, w, k, a);
      CallEnabled(sys.now, sys, w, k, a);
    } else {
      JobLive(sys, w, k, a.k);
    }
  }

  // ----- The invariant is kept ---------------------------------------------------------

  /** The tokens a shadow step adds to the succeeded ones. */
  function Fulfilled(k: Worker, a: E.Action): set<Token>
    requires E.Enabled(k.cfg, k.e, a)
  {
    if a.Handler? && a.move.End? && ResolveOutcome(a.move.err, k.e.ctxDone, k.e.stopping).OutcomeSuccess?
    then Set(k.e.runs[a.k].job) else {}
  }

  lemma ExecOne(b: Dialect, sys: O.State, step: O.Step)
    ensures O.Exec(b, sys, [step]) == O.Do(b, sys, step)
  {
    assert [step][1..] == [];
  }

  lemma CallEffect(b: Dialect, sys: O.State, k: Worker, a: E.Action)
    requires E.Enabled(k.cfg, k.e, a) && B.Spent(k.cfg, k.e, a) != []
    ensures var sys' := O.Do(b, sys, Call(sys.now, k, a));
            && sys'.live == sys.live - Set(B.Spent(k.cfg, k.e, a)) && sys'.succeeded == sys.succeeded
            && sys'.nextNo == sys.nextNo
  {
  }

  lemma ShadowEffect(b: Dialect, sys: O.State, k: Worker, a: E.Action, lost: bool)
    requires E.Enabled(k.cfg, k.e, a)
    ensures var sys' := O.Exec(b, sys, Shadow(sys.now, k, a, lost));
            && sys'.live == sys.live - Set(B.Spent(k.cfg, k.e, a))
            && sys'.succeeded == sys.succeeded + Fulfilled(k, a) && sys'.nextNo == sys.nextNo
  {
    var spent := B.Spent(k.cfg, k.e, a);
    if spent != [] {
      CallEffect(b, sys, k, a);
      ExecOne(b, sys, if lost then O.Lose(Set(spent)) else Call(sys.now, k, a));
    } else if Fulfilled(k, a) != {} {
      ExecOne(b, sys, O.Return(Set(k.e.runs[a.k].job)));
    }
  }

  /** After an action the engine holds what it held before, less what it settled. */
  lemma HeldAct(sys: O.State, w: WorkerId, k: Worker, a: E.Action, x: Token)
    requires E.Inv(k.cfg, k.e) && Own(sys, w, k.e) && E.Enabled(k.cfg, k.e, a) && E.Inv(k.cfg, E.Do(k.cfg, k.e, a))
    requires B.Held(E.Do(k.cfg, k.e, a), x) > 0
    ensures x in sys.live && x !in B.Spent(k.cfg, k.e, a)
  {
    var e' := E.Do(k.cfg, k.e, a);
    B.Balanced(k.cfg, k.e, x);
    B.Balanced(k.cfg, e', x);
    B.GoneAct(k.cfg, k.e, a, x);
    B.ClaimedAct(k.cfg, k.e, a);
    assert B.Held(k.e, x) > 0;
    assert x in k.e.claimed;
  }

  lemma OwnAct(sys: O.State, sys': O.State, w: WorkerId, k: Worker, a: E.Action)
    requires E.Inv(k.cfg, k.e) && Own(sys, w, k.e) && E.Enabled(k.cfg, k.e, a) && E.Inv(k.cfg, E.Do(k.cfg, k.e, a))
    requires sys'.live == sys.live - Set(B.Spent(k.cfg, k.e, a)) && sys'.nextNo == sys.nextNo
    ensures Own(sys', w, E.Do(k.cfg, k.e, a))
  {
    B.ClaimedAct(k.cfg, k.e, a);
    forall x | B.Held(E.Do(k.cfg, k.e, a), x) > 0 ensures x in sys'.live {
      HeldAct(sys, w, k, a, x);
    }
  }

  /** A run that is succeeding after its move either just ended well or was succeeding before. */
  lemma EarnedRun(sys: O.State, sys': O.State, k: Worker, i: nat, move: E.Move, x: Token)
    requires Earned(sys, k.e) && E.Enabled(k.cfg, k.e, E.Handler(i, move)) && sys.succeeded <= sys'.succeeded
    requires Fulfilled(k, E.Handler(i, move)) <= sys'.succeeded
    requires var r' := E.Moved(k.e, k.e.runs[i], move); Succeeding(r') && x in r'.Rest()
    ensures x in sys'.succeeded
  {
    var r := k.e.runs[i];
    if move.End? {
      assert x in r.job;
    } else {
      E.RestMove(k.e, r, move);
      assert Succeeding(r) && x in r.Rest();
    }
  }

  /** So what it posts to the ack channel is earned. */
  lemma EarnedPost(sys: O.State, k: Worker, i: nat, move: E.Move)
    requires Earned(sys, k.e) && E.Enabled(k.cfg, k.e, E.Handler(i, move)) && move.Commit?
    requires E.Posts(k.cfg, k.e.runs[i])
    ensures k.e.runs[i].job[k.e.runs[i].phase.next] in sys.succeeded
  {
    var r := k.e.runs[i];
    assert r.Rest()[0] == r.job[r.phase.next];
  }

  lemma EarnedMove(sys: O.State, sys': O.State, k: Worker, i: nat, move: E.Move)
    requires Earned(sys, k.e) && E.Enabled(k.cfg, k.e, E.Handler(i, move)) && sys.succeeded <= sys'.succeeded
    requires Fulfilled(k, E.Handler(i, move)) <= sys'.succeeded
    ensures Earned(sys', E.DoMove(k.cfg, k.e, i, move))
  {
    var e' := E.DoMove(k.cfg, k.e, i, move);
    assert e'.runs == k.e.runs[i := E.Moved(k.e, k.e.runs[i], move)];
    forall j, x | 0 <= j < |e'.runs| && Succeeding(e'.runs[j]) && x in e'.runs[j].Rest() ensures x in sys'.succeeded {
      if j == i { EarnedRun(sys, sys', k, i, move, x); }
    }
    if move.Commit? && E.Posts(k.cfg, k.e.runs[i]) { EarnedPost(sys, k, i, move); }
  }

  /** An action that starts or settles no handler leaves every succeeding invocation as it was. */
  lemma EarnedFrame(sys: O.State, sys': O.State, e: E.State, e': E.State)
    requires Earned(sys, e) && sys.succeeded <= sys'.succeeded
    requires forall x :: x in e'.pipe.chan || x in e'.pipe.buf ==> x in e.pipe.chan || x in e.pipe.buf
    requires forall j :: 0 <= j < |e'.runs| ==> e'.runs[j] in e.runs || e'.runs[j].phase.Invoked?
    ensures Earned(sys', e')
  {
    forall j, x | 0 <= j < |e'.runs| && Succeeding(e'.runs[j]) && x in e'.runs[j].Rest() ensures x in sys'.succeeded {
      var i :| 0 <= i < |e.runs| && e.runs[i] == e'.runs[j];
    }
  }

  lemma RunsWithin(cfg: E.Config, e: E.State, a: E.Action, j: nat)
    requires E.Enabled(cfg, e, a) && !a.Handler? && j < |E.Do(cfg, e, a).runs|
    ensures E.Do(cfg, e, a).runs[j] in e.runs || E.Do(cfg, e, a).runs[j].phase.Invoked?
  {
    if a.Done? {
      assert E.Without(e.runs, a.k)[j] == e.runs[if j < a.k then j else j + 1];
    }
  }

  lemma EarnedAct(sys: O.State, sys': O.State, k: Worker, a: E.Action)
    requires Earned(sys, k.e) && E.Enabled(k.cfg, k.e, a) && sys.succeeded <= sys'.succeeded
    requires Fulfilled(k, a) <= sys'.succeeded
    ensures Earned(sys', E.Do(k.cfg, k.e, a))
  {
    if a.Handler? {
      EarnedMove(sys, sys', k, a.k, a.move);
    } else {
      var e' := E.Do(k.cfg, k.e, a);
      PipeWithin(k.e.pipe, k.cfg.Batch());
      forall j | 0 <= j < |e'.runs| ensures e'.runs[j] in k.e.runs || e'.runs[j].phase.Invoked? {
        RunsWithin(k.cfg, k.e, a, j);
      }
      EarnedFrame(sys, sys', k.e, e');
    }
  }

  /** The flusher only moves acks from the channel to the buffer to storage. */
  lemma PipeWithin(p: AP.Pipeline, n: nat)
    ensures forall x :: x in AP.Flush(p).buf || x in AP.Flush(p).chan ==> x in p.buf || x in p.chan
    ensures p.chan != [] ==>
              forall x :: x in AP.Receive(p, n).buf || x in AP.Receive(p, n).chan ==> x in p.buf || x in p.chan
  {
  }

  /** Another worker's tokens are untouched by what this one settles. */
  lemma OthersKeep(sys: O.State, sys': O.State, w: WorkerId, v: WorkerId, k: Worker, gone: set<Token>)
    requires WorkerInv(sys, v, k) && v != w && (forall x :: x in gone ==> x.worker == w)
    requires sys.live - gone <= sys'.live && sys.succeeded <= sys'.succeeded && sys.nextNo <= sys'.nextNo
    ensures WorkerInv(sys', v, k)
  {
    forall x | B.Held(k.e, x) > 0 ensures x in sys'.live {
      B.Balanced(k.cfg, k.e, x);
      assert x in k.e.claimed;
    }
  }

  lemma SpentOwn(sys: O.State, w: WorkerId, k: Worker, a: E.Action)
    requires WorkerInv(sys, w, k) && E.Enabled(k.cfg, k.e, a)
    ensures forall x :: x in B.Spent(k.cfg, k.e, a) ==> x.worker == w
  {
    forall x | x in B.Spent(k.cfg, k.e, a) ensures x.worker == w {
      B.SpentHeld(k.cfg, k.e, a, x);
      B.Balanced(k.cfg, k.e, x);
      assert x in k.e.claimed;
    }
  }

  lemma WorkKeeps(b: Dialect, sys: O.State, w: WorkerId, k: Worker, a: E.Action, lost: bool)
    requires WorkerInv(sys, w, k) && E.Enabled(k.cfg, k.e, a)
    ensures WorkerInv(O.Exec(b, sys, Shadow(sys.now, k, a, lost)), w, k.(e := E.Do(k.cfg, k.e, a)))
  {
    var sys' := O.Exec(b, sys, Shadow(sys.now, k, a, lost));
    ShadowEffect(b, sys, k, a, lost);
    R.ActInv(k.cfg, k.e, a);
    OwnAct(sys, sys', w, k, a);
    EarnedAct(sys, sys', k, a);
  }
}
