/** What one worker's engine guarantees over every interleaving of its goroutines. */
module EngineRuns {
  import opened Rows
  import opened Dispatch
  import opened Engine
  import P = AckPipeline

  /** The poll loop claims again only when its last jobs are dispatched and drain has not begun. */
  datatype Event = Claimed(msgs: seq<Token>, jobs: seq<Job>) | Act(a: Action)

  ghost predicate Possible(cfg: Config, s: State, e: Event) {
    match e
    case Claimed(msgs, jobs) => s.jobs == [] && s.mode.Choosing? && !s.stopping && IsPlan(cfg.reg, msgs, jobs)
    case Act(a) => Enabled(cfg, s, a)
  }

  ghost function Next(cfg: Config, s: State, e: Event): State
    requires Possible(cfg, s, e)
  {
    match e
    case Claimed(msgs, jobs) => Poll(s, msgs, jobs)
    case Act(a) => Do(cfg, s, a)
  }

  ghost predicate Valid(cfg: Config, s: State, run: seq<Event>)
    decreases |run|
  {
    run == [] || (Possible(cfg, s, run[0]) && Valid(cfg, Next(cfg, s, run[0]), run[1..]))
  }

  ghost function Exec(cfg: Config, s: State, run: seq<Event>): State
    requires Valid(cfg, s, run)
    decreases |run|
  {
    if run == [] then s else Exec(cfg, Next(cfg, s, run[0]), run[1..])
  }

  lemma FreshInv(cfg: Config)
    ensures Inv(cfg, Fresh())
  {
    assert forall x :: Traced(Fresh(), x) == 0;
  }

  lemma PollLedger(cfg: Config, s: State, msgs: seq<Token>, jobs: seq<Job>)
    requires Ledger(s) && s.jobs == [] && IsPlan(cfg.reg, msgs, jobs)
    ensures Ledger(Poll(s, msgs, jobs))
  {
    PlanIsComplete(cfg.reg, msgs, jobs);
    assert forall x :: Traced(Poll(s, msgs, jobs), x) == Traced(s, x);
  }

  lemma PollInv(cfg: Config, s: State, msgs: seq<Token>, jobs: seq<Job>)
    requires Inv(cfg, s) && Possible(cfg, s, Claimed(msgs, jobs))
    ensures Inv(cfg, Poll(s, msgs, jobs))
  {
    PollLedger(cfg, s, msgs, jobs);
    assert Semaphores(cfg, Poll(s, msgs, jobs));
    assert Shape(cfg, Poll(s, msgs, jobs));
  }

  lemma ActInv(cfg: Config, s: State, a: Action)
    requires Inv(cfg, s) && Enabled(cfg, s, a)
    ensures Inv(cfg, Do(cfg, s, a))
  {
    ShapeStep(cfg, s, a);
    PipeStep(cfg, s, a);
    SemaphoreStep(cfg, s, a);
    LedgerStep(cfg, s, a);
  }

  lemma NextInv(cfg: Config, s: State, e: Event)
    requires Inv(cfg, s) && Possible(cfg, s, e)
    ensures Inv(cfg, Next(cfg, s, e))
  {
    match e
    case Claimed(msgs, jobs) => PollInv(cfg, s, msgs, jobs);
    case Act(a) => ActInv(cfg, s, a);
  }

  lemma {:induction false} RunInv(cfg: Config, s: State, run: seq<Event>)
    requires Inv(cfg, s) && Valid(cfg, s, run)
    ensures Inv(cfg, Exec(cfg, s, run))
    decreases |run|
  {
    if run != [] {
      NextInv(cfg, s, run[0]);
      RunInv(cfg, Next(cfg, s, run[0]), run[1..]);
    }
  }

  // ----- Safety ------------------------------------------------------------------------

  /**
   Invocations that run or still have outcomes to commit never exceed the pool nor their type's
   maximum, and idle engines hold no slot.
   */
  lemma ConcurrencyBounds(cfg: Config, run: seq<Event>, et: EventType)
    requires Valid(cfg, Fresh(), run)
    ensures var s := Exec(cfg, Fresh(), run);
            && Sum(Busy, s.runs) <= (if cfg.poolSize >= 1 then cfg.poolSize else 32)
            && (et in cfg.reg && cfg.reg[et].maxInflight >= 1 ==> Sum(BusyType(et), s.runs) <= cfg.reg[et].maxInflight)
            && (s.runs == [] && s.mode.Choosing? ==> s.pool == 0 && Taken(s, et) == 0)
  {
    FreshInv(cfg);
    RunInv(cfg, Fresh(), run);
    BoundsNow(cfg, Exec(cfg, Fresh(), run), et);
  }

  lemma BoundsNow(cfg: Config, s: State, et: EventType)
    requires Shape(cfg, s) && Semaphores(cfg, s)
    ensures Sum(Busy, s.runs) <= (if cfg.poolSize >= 1 then cfg.poolSize else 32)
    ensures et in cfg.reg && cfg.reg[et].maxInflight >= 1 ==> Sum(BusyType(et), s.runs) <= cfg.reg[et].maxInflight
  {
    SumLe(Busy, Slots, s.runs);
    if cfg.Cap(et).Some? {
      SumLe(BusyType(et), TypeSlots(et), s.runs);
    }
  }

  /** Nothing waits without need: for the pool only while it is all taken, for its type only at the type's maximum. */
  lemma WaitsOnlyIfFull(cfg: Config, run: seq<Event>)
    requires Valid(cfg, Fresh(), run)
    requires var s := Exec(cfg, Fresh(), run); s.jobs != [] && s.jobs[0] != [] && s.jobs[0][0].eventType in cfg.reg
    ensures var s := Exec(cfg, Fresh(), run); var et := s.jobs[0][0].eventType;
            && (s.mode.Choosing? ==>
                  Enabled(cfg, s, TakePool) || Sum(Slots, s.runs) == if cfg.poolSize >= 1 then cfg.poolSize else 32)
            && (s.mode.Pooled? ==>
                  || Enabled(cfg, s, Start)
                  || (cfg.reg[et].maxInflight >= 1 && Sum(TypeSlots(et), s.runs) == cfg.reg[et].maxInflight))
  {
    FreshInv(cfg);
    RunInv(cfg, Fresh(), run);
  }

  /** Every claimed message is waiting, refused, handed back or invoked, and is so exactly once. */
  lemma ExactlyOnceDisposal(cfg: Config, run: seq<Event>)
    requires Valid(cfg, Fresh(), run)
    ensures var s := Exec(cfg, Fresh(), run);
            && s.claimed == Tokens(s.jobs) + s.refused + s.handedBack + s.invoked
            && (s.jobs == [] ==> s.claimed == s.refused + s.handedBack + s.invoked)
  {
    FreshInv(cfg);
    RunInv(cfg, Fresh(), run);
  }

  /**
   Nothing is posted after close; flushed, buffered and queued acks are the posted ones in order,
   in batches of permitted size.
   */
  lemma PipelineIntact(cfg: Config, run: seq<Event>)
    requires Valid(cfg, Fresh(), run)
    ensures var s := Exec(cfg, Fresh(), run);
            && P.Concat(s.pipe.flushes) + s.pipe.buf + s.pipe.chan == s.pipe.sends
            && (forall k :: 0 <= k < |s.pipe.flushes| ==> 1 <= |s.pipe.flushes[k]| <= cfg.Batch())
            && (s.pipe.closed ==> forall k, move :: !Enabled(cfg, s, Handler(k, move)))
  {
    FreshInv(cfg);
    RunInv(cfg, Fresh(), run);
  }

  /**
   When drain reports done, every invoked message has its outcome written, each success in exactly
   one flushed batch.
   */
  lemma DrainLosesNothing(cfg: Config, run: seq<Event>)
    requires Valid(cfg, Fresh(), run) && Exec(cfg, Fresh(), run).drained
    ensures var s := Exec(cfg, Fresh(), run);
            && P.Concat(s.pipe.flushes) == s.pipe.sends
            && s.claimed == s.refused + s.handedBack + s.settled + multiset(P.Concat(s.pipe.flushes))
  {
    FreshInv(cfg);
    RunInv(cfg, Fresh(), run);
    var s := Exec(cfg, Fresh(), run);
    assert P.Concat([]) == [];
    assert forall x :: s.invoked[x] == s.settled[x] + multiset(s.pipe.sends)[x];
  }

  // ----- Progress ----------------------------------------------------------------------

  /** Steps by which started work comes to an end. */
  predicate Settling(a: Action) {
    a.Handler? || a.Done? || a.Receive? || a.CloseChannel? || a.CloseSeen? || a.DrainDone?
  }

  function Flag(done: bool): nat { if done then 0 else 1 }

  function Rank(s: State): nat {
    Sum(Work, s.runs) + |s.pipe.chan| + Flag(s.pipe.closed) + Flag(s.pipe.done) + Flag(s.drained)
  }

  lemma WorkMove(cfg: Config, s: State, k: nat, move: Move)
    requires k < |s.runs| && CanMove(cfg, s, s.runs[k], move)
    ensures Sum(Work, s.runs[k := Moved(s, s.runs[k], move)]) + (if move.Commit? then 2 else 1) == Sum(Work, s.runs)
  {
    RestMove(s, s.runs[k], move);
    SumUpdate(Work, s.runs, k, Moved(s, s.runs[k], move));
  }

  lemma MoveRanks(cfg: Config, s: State, k: nat, move: Move)
    requires k < |s.runs| && CanMove(cfg, s, s.runs[k], move)
    ensures Rank(DoMove(cfg, s, k, move)) < Rank(s)
  {
    WorkMove(cfg, s, k, move);
    var s' := DoMove(cfg, s, k, move);
    assert s'.runs == s.runs[k := Moved(s, s.runs[k], move)];
    assert |s'.pipe.chan| <= |s.pipe.chan| + if move.Commit? then 1 else 0;
  }

  lemma SettlingRanks(cfg: Config, s: State, a: Action)
    requires Enabled(cfg, s, a) && Settling(a)
    ensures Rank(Do(cfg, s, a)) < Rank(s)
  {
    if a.Handler? {
      MoveRanks(cfg, s, a.k, a.move);
    } else if a.Done? {
      SumWithout(Work, s.runs, a.k);
    }
  }

  /** Every invocation can take a step, or waits for a channel slot the flusher can free. */
  lemma RunMoves(cfg: Config, s: State, k: nat) returns (a: Action)
    requires Inv(cfg, s) && k < |s.runs|
    ensures Settling(a) && Enabled(cfg, s, a)
  {
    var r := s.runs[k];
    if r.phase.Invoked? {
      a := Handler(k, End(None));
    } else if r.phase.next < |r.job| {
      a := if |s.pipe.chan| < P.Capacity(cfg.Batch()) || !Posts(cfg, r) then Handler(k, Commit(false, 0)) else Receive;
    } else {
      a := if r.typed then Handler(k, FreeType) else if r.pooled then Handler(k, FreePool) else Done(k);
    }
  }

  /** The poll loop waits for a slot, or drain waits for the engine to come to rest. */
  predicate Waiting(cfg: Config, s: State) {
    || (s.jobs != [] && s.jobs[0] != [] && s.mode.Choosing?
        && s.jobs[0][0].eventType in cfg.reg && s.pool >= cfg.Pool())
    || (s.jobs != [] && s.jobs[0] != [] && s.mode.Pooled? && cfg.Cap(s.jobs[0][0].eventType).Some?
        && Taken(s, s.jobs[0][0].eventType) >= cfg.Cap(s.jobs[0][0].eventType).value)
    || (s.stopping && !s.drained)
  }

  lemma NeverStuck(cfg: Config, s: State) returns (a: Action)
    requires Inv(cfg, s) && Waiting(cfg, s)
    ensures Settling(a) && Enabled(cfg, s, a)
  {
    if s.stopping && !s.drained {
      if s.runs != [] {
        a := RunMoves(cfg, s, 0);
      } else if !cfg.batchAck || s.pipe.done {
        a := DrainDone;
      } else if !s.pipe.closed {
        a := CloseChannel;
      } else {
        a := if s.pipe.chan != [] then Receive else CloseSeen;
      }
    } else {
      var k := SumPositive(if s.mode.Choosing? then Slots else TypeSlots(s.jobs[0][0].eventType), s.runs);
      a := RunMoves(cfg, s, k);
    }
  }

  /** Every step of the run is taken while the poll loop or drain waits. */
  ghost predicate WaitingThroughout(cfg: Config, s: State, run: seq<Event>)
    requires Valid(cfg, s, run)
    decreases |run|
  {
    run == [] || (Waiting(cfg, s) && WaitingThroughout(cfg, Next(cfg, s, run[0]), run[1..]))
  }

  /** Steps of the run that settle started work. */
  function Settled(run: seq<Event>): nat {
    if run == [] then 0 else (if run[0].Act? && Settling(run[0].a) then 1 else 0) + Settled(run[1..])
  }

  /**
   No other step adds work while somebody waits: the loop cannot dispatch, and ticks, cancellation
   and giving up add none.
   */
  lemma WaitingRanks(cfg: Config, s: State, e: Event)
    requires Shape(cfg, s) && Waiting(cfg, s) && Possible(cfg, s, e)
    ensures Rank(Next(cfg, s, e)) + (if e.Act? && Settling(e.a) then 1 else 0) <= Rank(s)
  {
    if e.Act? && Settling(e.a) {
      SettlingRanks(cfg, s, e.a);
    } else {
      assert e.Act? && (e.a.FlushTick? || e.a.Cancel? || e.a.GiveUp?);
    }
  }

  lemma {:induction false} SettlingBounded(cfg: Config, s: State, run: seq<Event>)
    requires Inv(cfg, s) && Valid(cfg, s, run) && WaitingThroughout(cfg, s, run)
    ensures Settled(run) + Rank(Exec(cfg, s, run)) <= Rank(s)
    decreases |run|
  {
    if run != [] {
      WaitingRanks(cfg, s, run[0]);
      NextInv(cfg, s, run[0]);
      SettlingBounded(cfg, Next(cfg, s, run[0]), run[1..]);
    }
  }

  /**
   Every wait ends once handlers return: however ticks, cancellation and handlers interleave,
   a run during which somebody waits has at most Rank settling steps, and one more is
   possible as long as the wait lasts.
   */
  lemma WaitsEnd(cfg: Config, before: seq<Event>, wait: seq<Event>)
    requires Valid(cfg, Fresh(), before) && Valid(cfg, Exec(cfg, Fresh(), before), wait)
    requires WaitingThroughout(cfg, Exec(cfg, Fresh(), before), wait)
    ensures Settled(wait) <= Rank(Exec(cfg, Fresh(), before))
    ensures var z := Exec(cfg, Exec(cfg, Fresh(), before), wait);
            Waiting(cfg, z) ==> exists a :: Settling(a) && Enabled(cfg, z, a)
  {
    FreshInv(cfg);
    RunInv(cfg, Fresh(), before);
    var s := Exec(cfg, Fresh(), before);
    SettlingBounded(cfg, s, wait);
    RunInv(cfg, s, wait);
    var z := Exec(cfg, s, wait);
    if Waiting(cfg, z) {
      var a := NeverStuck(cfg, z);
    }
  }
}
