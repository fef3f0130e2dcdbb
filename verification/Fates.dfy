/**
 What the engine decides about a message, in terms of how its handler ended. The decision is
 taken once, when the handler ends, from the error tree and the state of the shutdown at that
 moment; each message of the invocation then gets its own fate by its own attempt counter.
 */
module Fates {
  import opened Rows
  import opened Outcomes
  import opened Engine
  import opened EngineRuns

  /** The delay the outermost RetryAfter in the tree asks for, or else the policy's. */
  ghost predicate RetryDelay(e: Err, policyDelay: int, delay: int) {
    if forall n :: n in Preorder(e) ==> !n.RetryAfterErr? then delay == policyDelay
    else exists i :: 0 <= i < |Preorder(e)| && Preorder(e)[i].RetryAfterErr? && Preorder(e)[i].delay == delay
                     && forall j :: 0 <= j < i ==> !Preorder(e)[j].RetryAfterErr?
  }

  /**
   The fate an ending calls for. `draining`: the worker was cancelled and drain had begun when
   the handler ended; `buried`: no attempt is left, or the caller's predicate gave the message up.
   */
  ghost predicate Warranted(err: Option<Err>, draining: bool, buried: bool, policyDelay: int, fate: Fate) {
    if err.None? || exists n :: n in Preorder(err.value) && n.SkipErr? then fate == Success
    else if draining && exists n :: n in Preorder(err.value) && n.Canceled? then fate == Released
    else if buried || exists n :: n in Preorder(err.value) && n.DeadLetterErr? then fate == Dead
    else fate.RetryIn? && RetryDelay(err.value, policyDelay, fate.delay)
  }

  lemma Kinds(e: Err)
    ensures Contains(IsSkip, e) <==> exists n :: n in Preorder(e) && n.SkipErr?
    ensures Contains(IsCanceled, e) <==> exists n :: n in Preorder(e) && n.Canceled?
    ensures Contains(IsDeadLetter, e) <==> exists n :: n in Preorder(e) && n.DeadLetterErr?
    ensures Contains(IsRetryAfter, e) <==> exists n :: n in Preorder(e) && n.RetryAfterErr?
  {
  }

  lemma WarrantedOnce(err: Option<Err>, draining: bool, buried: bool, policyDelay: int, f: Fate, g: Fate)
    requires Warranted(err, draining, buried, policyDelay, f) && Warranted(err, draining, buried, policyDelay, g)
    ensures f == g
  {
  }

  /** The message's own limit, or its handler's if it has none, is used up. */
  predicate Exhausted(cfg: Config, x: Token) {
    if x.maxAttempts >= 1 then x.attempt >= x.maxAttempts
    else if x.eventType in cfg.reg then x.attempt >= cfg.reg[x.eventType].maxAttempts
    else x.attempt >= 0
  }

  /** Every message of an invocation gets the fate its handler's ending calls for. */
  lemma FateDecided(cfg: Config, s: State, r: Run, err: Option<Err>, x: Token, verdict: bool, policyDelay: int)
    requires r.phase.Invoked?
    ensures var done := Moved(s, r, End(err));
            && Warranted(err, s.ctxDone && s.stopping, verdict || Exhausted(cfg, x), policyDelay,
                         FateFor(cfg, x, done, verdict, policyDelay))
            && (Posts(cfg, done) <==> cfg.batchAck && Benign(err))
  {
    var handlerMax := if x.eventType in cfg.reg then cfg.reg[x.eventType].maxAttempts else 0;
    Classification(err, s.ctxDone, s.stopping, Limits(x.attempt, x.maxAttempts, handlerMax), _ => verdict, policyDelay);
    if err.Some? { Kinds(err.value); }
  }

  // ----- Over whole runs ---------------------------------------------------------------

  lemma {:induction false} ExecLast(cfg: Config, s: State, run: seq<Event>)
    requires run != [] && Valid(cfg, s, run)
    ensures var n := |run| - 1;
            && Valid(cfg, s, run[..n]) && Possible(cfg, Exec(cfg, s, run[..n]), run[n])
            && Exec(cfg, s, run) == Next(cfg, Exec(cfg, s, run[..n]), run[n])
    decreases |run|
  {
    var n := |run| - 1;
    if n > 0 {
      ExecLast(cfg, Next(cfg, s, run[0]), run[1..]);
      assert run[1..][..n - 1] == run[..n][1..];
    }
  }

  /** A cancelled worker stays cancelled, a draining one draining. */
  predicate FlagsKept(s: State, s': State) {
    (s.ctxDone ==> s'.ctxDone) && (s.stopping ==> s'.stopping)
  }

  lemma FlagMove(cfg: Config, s: State, k: nat, move: Move)
    requires k < |s.runs| && CanMove(cfg, s, s.runs[k], move)
    ensures FlagsKept(s, DoMove(cfg, s, k, move))
  {
  }

  lemma FlagAct(cfg: Config, s: State, a: Action)
    requires Enabled(cfg, s, a)
    ensures FlagsKept(s, Do(cfg, s, a))
  {
    if a.Handler? { FlagMove(cfg, s, a.k, a.move); }
  }

  lemma FlagStep(cfg: Config, s: State, e: Event)
    requires Possible(cfg, s, e)
    ensures FlagsKept(s, Next(cfg, s, e))
  {
    if e.Act? { FlagAct(cfg, s, e.a); }
  }

  lemma {:induction false} FlagsStay(cfg: Config, s: State, run: seq<Event>)
    requires Valid(cfg, s, run)
    ensures FlagsKept(s, Exec(cfg, s, run))
    decreases |run|
  {
    if run != [] {
      FlagStep(cfg, s, run[0]);
      FlagsStay(cfg, Next(cfg, s, run[0]), run[1..]);
    }
  }

  /** A run is its first n steps and then the rest. */
  lemma {:induction false} ExecSplit(cfg: Config, s: State, run: seq<Event>, n: nat)
    requires Valid(cfg, s, run) && n <= |run|
    ensures Valid(cfg, s, run[..n]) && Valid(cfg, Exec(cfg, s, run[..n]), run[n..])
    ensures Exec(cfg, s, run) == Exec(cfg, Exec(cfg, s, run[..n]), run[n..])
    decreases n
  {
    if n == 0 {
      assert run[0..] == run;
    } else {
      ExecSplit(cfg, Next(cfg, s, run[0]), run[1..], n - 1);
      assert run[..n][1..] == run[1..][..n - 1] && run[1..][n - 1..] == run[n..];
    }
  }

  /** Step n of the run ended the handler of invocation r, and r still stands by its decision. */
  ghost predicate EndedAt(cfg: Config, run: seq<Event>, n: nat, j: nat, r: Run) {
    && n < |run| && Valid(cfg, Fresh(), run[..n])
    && var s := Exec(cfg, Fresh(), run[..n]);
       && j < |s.runs| && s.runs[j].phase.Invoked? && s.runs[j].job == r.job && r.phase.Committing?
       && run[n] == Act(Handler(j, End(r.phase.err)))
       && r.phase.outcome == Moved(s, s.runs[j], End(r.phase.err)).phase.outcome
  }

  ghost predicate Explained(cfg: Config, run: seq<Event>, r: Run) {
    r.phase.Committing? ==> exists n: nat, j: nat :: EndedAt(cfg, run, n, j, r)
  }

  /** Later steps of the invocation keep what explains it. */
  lemma ExplainedLater(cfg: Config, run: seq<Event>, r: Run, r': Run)
    requires run != [] && Explained(cfg, run[..|run| - 1], r) && r.phase.Committing? && r'.phase.Committing?
    requires r'.job == r.job && r'.phase.err == r.phase.err && r'.phase.outcome == r.phase.outcome
    ensures Explained(cfg, run, r')
  {
    var m := |run| - 1;
    var n: nat, j: nat :| EndedAt(cfg, run[..m], n, j, r);
    assert run[..m][..n] == run[..n];
    assert EndedAt(cfg, run, n, j, r');
  }

  lemma ExplainedNow(cfg: Config, run: seq<Event>, k: nat)
    requires run != [] && Valid(cfg, Fresh(), run[..|run| - 1])
    requires var s, e := Exec(cfg, Fresh(), run[..|run| - 1]), run[|run| - 1];
             && k < |s.runs| && e.Act? && e.a.Handler? && e.a.k == k && CanMove(cfg, s, s.runs[k], e.a.move)
             && Explained(cfg, run[..|run| - 1], s.runs[k])
    ensures var s := Exec(cfg, Fresh(), run[..|run| - 1]);
            Explained(cfg, run, Moved(s, s.runs[k], run[|run| - 1].a.move))
  {
    var n := |run| - 1;
    var s, move := Exec(cfg, Fresh(), run[..n]), run[n].a.move;
    if move.End? {
      assert EndedAt(cfg, run, n, k, Moved(s, s.runs[k], move));
    } else {
      ExplainedLater(cfg, run, s.runs[k], Moved(s, s.runs[k], move));
    }
  }

  lemma InWithout(runs: seq<Run>, k: nat, r: Run)
    requires k < |runs| && r in Without(runs, k)
    ensures r in runs
  {
  }

  lemma MoveRuns(cfg: Config, s: State, k: nat, move: Move)
    requires k < |s.runs| && CanMove(cfg, s, s.runs[k], move)
    ensures DoMove(cfg, s, k, move).runs == s.runs[k := Moved(s, s.runs[k], move)]
  {
  }

  lemma OtherRuns(cfg: Config, s: State, a: Action)
    requires Enabled(cfg, s, a) && !a.Handler? && !a.Start? && !a.Done?
    ensures Do(cfg, s, a).runs == s.runs
  {
  }

  lemma StartRuns(cfg: Config, s: State, r: Run)
    requires Enabled(cfg, s, Start) && r in Do(cfg, s, Start).runs
    ensures r in s.runs || (r.phase.Invoked? && r.job == s.jobs[0])
  {
  }

  /** An invocation after a step is a new one, or one from before it, moved if the step was its own. */
  lemma WhereFrom(cfg: Config, s: State, a: Action, r: Run)
    requires Enabled(cfg, s, a) && r in Do(cfg, s, a).runs
    ensures || r in s.runs
            || (a.Start? && r.phase.Invoked? && r.job == s.jobs[0])
            || (a.Handler? && r == Moved(s, s.runs[a.k], a.move))
  {
    if a.Handler? {
      MoveRuns(cfg, s, a.k, a.move);
    } else if a.Start? {
      StartRuns(cfg, s, r);
    } else if a.Done? {
      InWithout(s.runs, a.k, r);
    } else {
      OtherRuns(cfg, s, a);
    }
  }

  lemma {:induction false} AllExplained(cfg: Config, run: seq<Event>, i: nat)
    requires Valid(cfg, Fresh(), run) && i < |Exec(cfg, Fresh(), run).runs|
    ensures Explained(cfg, run, Exec(cfg, Fresh(), run).runs[i])
    decreases |run|
  {
    if run != [] {
      var n := |run| - 1;
      ExecLast(cfg, Fresh(), run);
      var s, r := Exec(cfg, Fresh(), run[..n]), Exec(cfg, Fresh(), run).runs[i];
      if run[n].Act? { WhereFrom(cfg, s, run[n].a, r); }
      if r.phase.Committing? {
        if r in s.runs {
          var k :| 0 <= k < |s.runs| && r == s.runs[k];
          AllExplained(cfg, run[..n], k);
          ExplainedLater(cfg, run, s.runs[k], r);
        } else {
          AllExplained(cfg, run[..n], run[n].a.k);
          ExplainedNow(cfg, run, run[n].a.k);
        }
      }
    }
  }

  /**
   In every reachable state, an invocation that is committing had its handler ended at some step
   n, and each of its messages has the fate that this ending calls for, with the state of the
   shutdown as it was then.
   */
  lemma FateFromEnding(cfg: Config, run: seq<Event>, i: nat, x: Token, verdict: bool, policyDelay: int)
    returns (n: nat, j: nat)
    requires Valid(cfg, Fresh(), run) && i < |Exec(cfg, Fresh(), run).runs|
    requires Exec(cfg, Fresh(), run).runs[i].phase.Committing?
    ensures n < |run| && Valid(cfg, Fresh(), run[..n])
    ensures var r, at := Exec(cfg, Fresh(), run).runs[i], Exec(cfg, Fresh(), run[..n]);
            && j < |at.runs| && at.runs[j].job == r.job && run[n] == Act(Handler(j, End(r.phase.err)))
            && Warranted(r.phase.err, at.ctxDone && at.stopping, verdict || Exhausted(cfg, x), policyDelay,
                         FateFor(cfg, x, r, verdict, policyDelay))
            && (Posts(cfg, r) <==> cfg.batchAck && Benign(r.phase.err))
  {
    AllExplained(cfg, run, i);
    var r := Exec(cfg, Fresh(), run).runs[i];
    n, j :| EndedAt(cfg, run, n, j, r);
    var s := Exec(cfg, Fresh(), run[..n]);
    FateDecided(cfg, s, s.runs[j], r.phase.err, x, verdict, policyDelay);
  }
}
