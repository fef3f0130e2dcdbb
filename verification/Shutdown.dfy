/**
 Shutdown and attempts. The documentation promises that a clean shutdown burns no attempt. A
 cancelled handler is released only if drain has begun when it returns; before that its
 cancellation counts as a failure.
 */
module Shutdown {
  import opened Rows
  import opened Outcomes
  import opened Engine
  import R = EngineRuns
  import D = Delivery

  /** Ended by a cancellation that carries no Skip, after the worker's context was cancelled. */
  ghost predicate CancelledBy(s: State, r: Run, err: Err) {
    r.phase.Invoked? && s.ctxDone && Contains(IsCanceled, err) && !Contains(IsSkip, err)
  }

  /** Such a message gets its attempt back if and only if drain had begun when its handler returned. */
  lemma CancelledReleasedIff(cfg: Config, s: State, r: Run, err: Err, x: Token, verdict: bool, delay: int)
    requires CancelledBy(s, r, err)
    ensures FateFor(cfg, x, Moved(s, r, End(Some(err))), verdict, delay) == Released <==> s.stopping
    ensures !s.stopping && x.attempt >= x.maxAttempts >= 1 ==>
              FateFor(cfg, x, Moved(s, r, End(Some(err))), verdict, delay) == Dead
  {
    ContainsIffFound(IsCanceled, err);
    ContainsIffFound(IsSkip, err);
  }

  function Beginning(t: Token): seq<R.Event> {
    [R.Claimed([t], [[t]]), R.Act(TakePool), R.Act(Start), R.Act(Cancel)]
  }

  lemma Cons(cfg: Config, s: State, e: R.Event, rest: seq<R.Event>)
    requires R.Possible(cfg, s, e) && R.Valid(cfg, R.Next(cfg, s, e), rest)
    ensures R.Valid(cfg, s, [e] + rest) && R.Exec(cfg, s, [e] + rest) == R.Exec(cfg, R.Next(cfg, s, e), rest)
  {
    assert ([e] + rest)[1..] == rest;
  }

  lemma CancelledWhileRunning(t: Token)
    ensures var cfg, s := D.Setup(t.eventType), D.Running(t).(ctxDone := true);
            R.Valid(cfg, Fresh(), Beginning(t)) && R.Exec(cfg, Fresh(), Beginning(t)) == s
  {
    var cfg := D.Setup(t.eventType);
    D.PlanOne(t);
    D.Dispatches(t);
    Cons(cfg, D.Running(t), R.Act(Cancel), []);
    Cons(cfg, D.Slotted(t), R.Act(Start), [R.Act(Cancel)] + []);
    Cons(cfg, D.Queued(t), R.Act(TakePool), [R.Act(Start)] + ([R.Act(Cancel)] + []));
    Cons(cfg, Fresh(), R.Claimed([t], [[t]]), [R.Act(TakePool)] + ([R.Act(Start)] + ([R.Act(Cancel)] + [])));
    assert Beginning(t) == [R.Claimed([t], [[t]])] + ([R.Act(TakePool)] + ([R.Act(Start)] + ([R.Act(Cancel)] + [])));
  }

  /**
   A handler that gives way to a shutdown at once, before drain has begun, has its last attempt
   burnt and is buried.
   */
  lemma BuriedByShutdown(t: Token, delay: int)
    requires t.attempt >= t.maxAttempts >= 1
    ensures var cfg := D.Setup(t.eventType);
            && R.Valid(cfg, Fresh(), Beginning(t))
            && var s := R.Exec(cfg, Fresh(), Beginning(t));
               && Enabled(cfg, s, Handler(0, End(Some(Canceled))))
               && FateFor(cfg, t, Do(cfg, s, Handler(0, End(Some(Canceled)))).runs[0], false, delay) == Dead
  {
    CancelledWhileRunning(t);
    var cfg, s := D.Setup(t.eventType), D.Running(t).(ctxDone := true);
    assert Preorder(Canceled) == [Canceled];
    assert Contains(IsCanceled, Canceled) by { assert OfKind(IsCanceled, Preorder(Canceled)[0]); }
    CancelledReleasedIff(cfg, s, s.runs[0], Canceled, t, false, delay);
  }
}
