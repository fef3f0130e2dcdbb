/**
 What each engine action does to the table: the row a commit, a refusal, a release before
 dispatch or a flush leaves, and that nothing else changes.
 */
module EngineWrites {
  import opened Rows
  import opened Dispatch
  import opened Outcomes
  import opened Fleet
  import opened FleetRuns
  import opened Fates
  import E = Engine
  import R = EngineRuns
  import B = Balance
  import O = Protocol
  import T = Transitions

  /** The message's row is written by its fate if the guard admits it, and no other row changes. */
  ghost predicate Fulfils(b: Dialect, fate: Fate, t: Table, now: Time, x: Token, t': Table) {
    match fate
    case Success => T.Written(b, t, now, x.ToAck(), Succeed, t')
    case Dead => T.Written(b, t, now, x.ToAck(), FailDead, t')
    case Released => T.Written(b, t, now, x.ToAck(), Release, t')
    case RetryIn(d) => T.Written(b, t, now, x.ToAck(), FailRetry(now + d), t')
  }

  lemma AckFulfils(b: Dialect, sys: O.State, x: Token, fate: Fate)
    ensures Fulfils(b, fate, sys.rows, sys.now, x, O.Exec(b, sys, [O.Step.Ack(x, WriteOf(fate, sys.now))]).rows)
  {
    var what := WriteOf(fate, sys.now);
    ExecOne(b, sys, O.Step.Ack(x, what));
    T.WrittenIsAck(b, sys.rows, sys.now, x.ToAck(), what, O.DoAck(b, sys, x, what).rows);
  }

  /**
   An engine that has run since its start commits the outcome of an invocation whose handler ended
   at step n. The message gets the fate that this ending calls for: a success of an engine that
   batches acks goes to the channel, behind everything posted before, all else to its row.
   */
  lemma CommitWrites(b: Dialect, sys: O.State, k: Worker, run: seq<R.Event>, i: nat, verdict: bool, delay: int)
    returns (n: nat, j: nat, fate: Fate)
    requires R.Valid(k.cfg, E.Fresh(), run) && k.e == R.Exec(k.cfg, E.Fresh(), run)
    requires E.Enabled(k.cfg, k.e, E.Handler(i, E.Commit(verdict, delay)))
    ensures n < |run| && R.Valid(k.cfg, E.Fresh(), run[..n])
    ensures var r, at := k.e.runs[i], R.Exec(k.cfg, E.Fresh(), run[..n]);
            && j < |at.runs| && at.runs[j].job == r.job && run[n] == R.Act(E.Handler(j, E.End(r.phase.err)))
            && Warranted(r.phase.err, at.ctxDone && at.stopping, verdict || Exhausted(k.cfg, r.job[r.phase.next]),
                         delay, fate)
    ensures var x, commit := k.e.runs[i].job[k.e.runs[i].phase.next], E.Handler(i, E.Commit(verdict, delay));
            var sys' := O.Exec(b, sys, Shadow(sys.now, k, commit, false));
            if k.cfg.batchAck && fate == Success
            then sys' == sys && E.Do(k.cfg, k.e, commit).pipe.chan == k.e.pipe.chan + [x]
            else Fulfils(b, fate, sys.rows, sys.now, x, sys'.rows)
  {
    var r := k.e.runs[i];
    var x := r.job[r.phase.next];
    n, j := FateFromEnding(k.cfg, run, i, x, verdict, delay);
    fate := E.FateFor(k.cfg, x, r, verdict, delay);
    if !E.Posts(k.cfg, r) { AckFulfils(b, sys, x, fate); }
  }

  /** A claimed message without a handler is dead-lettered. */
  lemma RefusalBuries(b: Dialect, sys: O.State, k: Worker)
    requires E.Enabled(k.cfg, k.e, E.NoHandler)
    ensures Fulfils(b, Dead, sys.rows, sys.now, k.e.jobs[0][0],
                    O.Exec(b, sys, Shadow(sys.now, k, E.NoHandler, false)).rows)
  {
    AckFulfils(b, sys, k.e.jobs[0][0], Dead);
  }

  /** A message still waiting for a slot when the worker is cancelled gets its attempt back. */
  lemma HandBackReleases(b: Dialect, sys: O.State, k: Worker)
    requires E.Enabled(k.cfg, k.e, E.HandBack)
    ensures Fulfils(b, Released, sys.rows, sys.now, k.e.jobs[0][0],
                    O.Exec(b, sys, Shadow(sys.now, k, E.HandBack, false)).rows)
  {
    AckFulfils(b, sys, k.e.jobs[0][0], Released);
  }

  /** The acks a flusher step hands over: the buffer on a tick or at the end, a full one as the next ack arrives. */
  function HandedOver(k: Worker, a: E.Action): seq<Token>
    requires E.Enabled(k.cfg, k.e, a)
  {
    match a
    case FlushTick => k.e.pipe.buf
    case CloseSeen => k.e.pipe.buf
    case Receive =>
      var limit := if k.cfg.batchSize >= 1 then k.cfg.batchSize else 100;
      if |k.e.pipe.buf| + 1 >= limit then k.e.pipe.buf + [k.e.pipe.chan[0]] else []
    case _ => []
  }

  lemma SpentIsHandedOver(k: Worker, a: E.Action)
    requires E.Enabled(k.cfg, k.e, a) && (a.FlushTick? || a.CloseSeen? || a.Receive?)
    ensures B.Spent(k.cfg, k.e, a) == HandedOver(k, a)
  {
  }

  /** A flush makes exactly those rows SUCCESS that are HANDLING at an attempt it names. */
  lemma FlushSucceeds(b: Dialect, sys: O.State, k: Worker, a: E.Action, i: Id)
    requires E.Enabled(k.cfg, k.e, a) && (a.FlushTick? || a.CloseSeen? || a.Receive?) && i in sys.rows
    ensures var t, t' := sys.rows, O.Exec(b, sys, Shadow(sys.now, k, a, false)).rows;
            && t'.Keys == t.Keys
            && if t[i].status == HANDLING && exists x :: x in HandedOver(k, a) && x.id == i && x.attempt == t[i].attempt
               then T.Shows(b, Succeed, t[i], sys.now, t'[i])
               else t'[i] == t[i]
  {
    SpentIsHandedOver(k, a);
    var acks := HandedOver(k, a);
    if acks == [] {
      assert Shadow(sys.now, k, a, false) == [];
    } else {
      assert Shadow(sys.now, k, a, false) == [O.BatchSucceed(acks)];
      ExecOne(b, sys, O.BatchSucceed(acks));
      BatchShows(b, sys.rows, sys.now, acks, i);
    }
  }

  lemma BatchShows(b: Dialect, t: Table, now: Time, acks: seq<Token>, i: Id)
    requires i in t
    ensures var t' := O.BatchTokens(b, t, now, acks);
            if t[i].status == HANDLING && exists x :: x in acks && x.id == i && x.attempt == t[i].attempt
            then T.Shows(b, Succeed, t[i], now, t'[i])
            else t'[i] == t[i]
  {
  }

  /** Every other action, and every lost one, leaves the table as it is. */
  lemma OthersWriteNothing(b: Dialect, sys: O.State, k: Worker, a: E.Action, lost: bool)
    requires E.Enabled(k.cfg, k.e, a)
    requires lost || !(a.NoHandler? || a.HandBack? || a.FlushTick? || a.CloseSeen? || a.Receive?
                       || (a.Handler? && a.move.Commit?))
    ensures O.Exec(b, sys, Shadow(sys.now, k, a, lost)).rows == sys.rows
  {
    var steps := Shadow(sys.now, k, a, lost);
    if steps != [] { ExecOne(b, sys, steps[0]); }
  }

  // ----- In a fleet --------------------------------------------------------------------

  lemma {:induction false} OneMore(cfg: E.Config, s: E.State, events: seq<R.Event>, e: R.Event)
    requires R.Valid(cfg, s, events) && R.Possible(cfg, R.Exec(cfg, s, events), e)
    ensures R.Valid(cfg, s, events + [e])
    ensures R.Exec(cfg, s, events + [e]) == R.Next(cfg, R.Exec(cfg, s, events), e)
    decreases |events|
  {
    if events == [] {
      assert ([] + [e])[1..] == [];
    } else {
      OneMore(cfg, R.Next(cfg, s, events[0]), events[1..], e);
      assert (events + [e])[1..] == events[1..] + [e];
    }
  }

  ghost predicate Reached(k: Worker) {
    exists events :: R.Valid(k.cfg, E.Fresh(), events) && R.Exec(k.cfg, E.Fresh(), events) == k.e
  }

  lemma ReachedNext(k: Worker, e: R.Event)
    requires Reached(k) && R.Possible(k.cfg, k.e, e)
    ensures Reached(k.(e := R.Next(k.cfg, k.e, e)))
  {
    var events :| R.Valid(k.cfg, E.Fresh(), events) && R.Exec(k.cfg, E.Fresh(), events) == k.e;
    OneMore(k.cfg, E.Fresh(), events, e);
  }

  /** The handler of every invocation that is committing reported its ending for each of its messages. */
  ghost predicate Heard(reports: set<Report>, e: E.State) {
    forall r, x :: r in e.runs && r.phase.Committing? && x in r.job ==> Report(x, r.phase.err) in reports
  }

  lemma HeardWork(reports: set<Report>, k: Worker, a: E.Action)
    requires E.Enabled(k.cfg, k.e, a) && Heard(reports, k.e)
    ensures Heard(reports + Reported(k, a), E.Do(k.cfg, k.e, a))
  {
    forall r, x | r in E.Do(k.cfg, k.e, a).runs && r.phase.Committing? && x in r.job
      ensures Report(x, r.phase.err) in reports + Reported(k, a)
    {
      WhereFrom(k.cfg, k.e, a, r);
      if r !in k.e.runs { assert k.e.runs[a.k] in k.e.runs; }
    }
  }

  /** Each engine is where some run of its own has brought it, and its endings are on record. */
  ghost predicate Traced(f: State) {
    forall w :: w in f.workers ==> Reached(f.workers[w]) && Heard(f.reports, f.workers[w].e)
  }

  lemma TracedUpdate(f: State, w: WorkerId, k: Worker, reports: set<Report>, sys: O.State)
    requires Traced(f) && f.reports <= reports && Reached(k) && Heard(reports, k.e)
    ensures Traced(State(sys, f.workers[w := k], reports))
  {
  }

  lemma TracedWork(f: State, w: WorkerId, a: E.Action, sys: O.State)
    requires Traced(f) && w in f.workers && E.Enabled(f.workers[w].cfg, f.workers[w].e, a)
    ensures var k := f.workers[w];
            Traced(State(sys, f.workers[w := k.(e := E.Do(k.cfg, k.e, a))], f.reports + Reported(k, a)))
  {
    var k := f.workers[w];
    ReachedNext(k, R.Act(a));
    HeardWork(f.reports, k, a);
    TracedUpdate(f, w, k.(e := E.Do(k.cfg, k.e, a)), f.reports + Reported(k, a), sys);
  }

  lemma TracedPoll(f: State, w: WorkerId, msgs: seq<Token>, jobs: seq<Job>, sys: O.State)
    requires Traced(f) && w in f.workers && R.Possible(f.workers[w].cfg, f.workers[w].e, R.Claimed(msgs, jobs))
    ensures Traced(State(sys, f.workers[w := f.workers[w].(e := E.Poll(f.workers[w].e, msgs, jobs))], f.reports))
  {
    var k := f.workers[w];
    ReachedNext(k, R.Claimed(msgs, jobs));
    TracedUpdate(f, w, k.(e := E.Poll(k.e, msgs, jobs)), f.reports, sys);
  }

  lemma TracedStep(b: Dialect, rules: O.Rules, f: State, st: Step)
    requires Traced(f) && Possible(rules, f, st)
    ensures Traced(Next(b, rules, f, st))
  {
    var sys := O.Exec(b, f.sys, Behind(rules, f, st));
    match st
    case Env(_) =>
    case Boot(w, cfg) =>
      assert R.Valid(cfg, E.Fresh(), []) && R.Exec(cfg, E.Fresh(), []) == E.Fresh();
      TracedUpdate(f, w, Worker(cfg, E.Fresh()), f.reports, sys);
    case Crash(_) =>
    case Poll(w, _, _, msgs, jobs, lost) => if !lost { TracedPoll(f, w, msgs, jobs, sys); }
    case Work(w, a, _) => TracedWork(f, w, a, sys);
  }

  lemma {:induction false} AllTraced(b: Dialect, rules: O.Rules, f: State, run: seq<Step>)
    requires Traced(f) && Valid(b, rules, f, run)
    ensures Traced(Exec(b, rules, f, run))
    decreases |run|
  {
    if run != [] {
      TracedStep(b, rules, f, run[0]);
      AllTraced(b, rules, Next(b, rules, f, run[0]), run[1..]);
    }
  }

  /** What one engine guarantees over its runs, it guarantees in a fleet. */
  lemma EnginesReached(b: Dialect, rules: O.Rules, f0: State, run: seq<Step>, w: WorkerId)
    returns (events: seq<R.Event>)
    requires Initial(f0) && Valid(b, rules, f0, run) && w in Exec(b, rules, f0, run).workers
    ensures var k := Exec(b, rules, f0, run).workers[w];
            R.Valid(k.cfg, E.Fresh(), events) && R.Exec(k.cfg, E.Fresh(), events) == k.e
  {
    AllTraced(b, rules, f0, run);
    var k := Exec(b, rules, f0, run).workers[w];
    events :| R.Valid(k.cfg, E.Fresh(), events) && R.Exec(k.cfg, E.Fresh(), events) == k.e;
  }

  /** An engine's commit of message x, with the ending on record. */
  lemma WorkerCommits(b: Dialect, sys: O.State, k: Worker, i: nat, verdict: bool, delay: int)
    returns (draining: bool, fate: Fate)
    requires Reached(k) && E.Enabled(k.cfg, k.e, E.Handler(i, E.Commit(verdict, delay)))
    ensures draining ==> k.e.ctxDone && k.e.stopping
    ensures var x, commit := k.e.runs[i].job[k.e.runs[i].phase.next], E.Handler(i, E.Commit(verdict, delay));
            && Warranted(k.e.runs[i].phase.err, draining, verdict || Exhausted(k.cfg, x), delay, fate)
            && var sys' := O.Exec(b, sys, Shadow(sys.now, k, commit, false));
               if k.cfg.batchAck && fate == Success
               then sys' == sys && E.Do(k.cfg, k.e, commit).pipe.chan == k.e.pipe.chan + [x]
               else Fulfils(b, fate, sys.rows, sys.now, x, sys'.rows)
  {
    var events :| R.Valid(k.cfg, E.Fresh(), events) && R.Exec(k.cfg, E.Fresh(), events) == k.e;
    var n, j, f := CommitWrites(b, sys, k, events, i, verdict, delay);
    var at := R.Exec(k.cfg, E.Fresh(), events[..n]);
    ExecSplit(k.cfg, E.Fresh(), events, n);
    FlagsStay(k.cfg, at, events[n..]);
    draining, fate := at.ctxDone && at.stopping, f;
  }

  lemma NextCommit(b: Dialect, rules: O.Rules, f: State, w: WorkerId, a: E.Action)
    requires Possible(rules, f, Work(w, a, false))
    ensures var k, f' := f.workers[w], Next(b, rules, f, Work(w, a, false));
            && f'.sys == O.Exec(b, f.sys, Shadow(f.sys.now, k, a, false))
            && w in f'.workers && f'.workers[w].e == E.Do(k.cfg, k.e, a)
  {
  }

  lemma OwnLimit(b: Dialect, rules: O.Rules, f: State, w: WorkerId, i: nat)
    requires Inv(b, rules, f) && w in f.workers && i < |f.workers[w].e.runs|
    requires var r := f.workers[w].e.runs[i]; r.phase.Committing? && r.phase.next < |r.job|
    ensures var k := f.workers[w]; var x := k.e.runs[i].job[k.e.runs[i].phase.next];
            Exhausted(k.cfg, x) <==> x.attempt >= x.maxAttempts
  {
    var k := f.workers[w];
    var r := k.e.runs[i];
    assert r.Rest()[0] == r.job[r.phase.next];
    PositiveMax(f.sys, w, k, i, r.job[r.phase.next]);
  }

  /**
   The handler reported the ending `err` for message x, and the commit leaves x's row as this
   ending and x's own counter call for, or posts its success.
   */
  ghost predicate Commits(b: Dialect, rules: O.Rules, f: State, w: WorkerId, i: nat, verdict: bool, delay: int,
                          err: Option<Err>, draining: bool, fate: Fate)
    requires Possible(rules, f, Work(w, E.Handler(i, E.Commit(verdict, delay)), false))
  {
    var k := f.workers[w];
    var x := k.e.runs[i].job[k.e.runs[i].phase.next];
    var f' := Next(b, rules, f, Work(w, E.Handler(i, E.Commit(verdict, delay)), false));
    && Report(x, err) in f.reports && (draining ==> k.e.ctxDone && k.e.stopping)
    && Warranted(err, draining, verdict || x.attempt >= x.maxAttempts, delay, fate)
    && if k.cfg.batchAck && fate == Success
       then f'.sys == f.sys && f'.workers[w].e.pipe.chan == k.e.pipe.chan + [x]
       else Fulfils(b, fate, f.sys.rows, f.sys.now, x, f'.sys.rows)
  }

  lemma CommitStep(b: Dialect, rules: O.Rules, f: State, w: WorkerId, i: nat, verdict: bool, delay: int)
    returns (err: Option<Err>, draining: bool, fate: Fate)
    requires Inv(b, rules, f) && Traced(f)
    requires Possible(rules, f, Work(w, E.Handler(i, E.Commit(verdict, delay)), false))
    ensures Commits(b, rules, f, w, i, verdict, delay, err, draining, fate)
  {
    var k := f.workers[w];
    var r := k.e.runs[i];
    err := r.phase.err;
    assert r in k.e.runs && r.job[r.phase.next] in r.job;
    OwnLimit(b, rules, f, w, i);
    draining, fate := WorkerCommits(b, f.sys, k, i, verdict, delay);
    NextCommit(b, rules, f, w, E.Handler(i, E.Commit(verdict, delay)));
  }

  /** End to end, whatever engine of whatever fleet run commits a message. */
  lemma FleetCommits(b: Dialect, rules: O.Rules, f0: State, run: seq<Step>, w: WorkerId, i: nat, verdict: bool,
                     delay: int)
    returns (err: Option<Err>, draining: bool, fate: Fate)
    requires Initial(f0) && Valid(b, rules, f0, run)
    requires Possible(rules, Exec(b, rules, f0, run), Work(w, E.Handler(i, E.Commit(verdict, delay)), false))
    ensures Commits(b, rules, Exec(b, rules, f0, run), w, i, verdict, delay, err, draining, fate)
  {
    var f := Exec(b, rules, f0, run);
    InitialInv(b, rules, f0);
    var _ := FleetRefinesProtocol(b, rules, f0, run);
    AllTraced(b, rules, f0, run);
    err, draining, fate := CommitStep(b, rules, f, w, i, verdict, delay);
  }
}
