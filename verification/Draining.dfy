/**
 Stopping an engine. From every state it can come to rest: cancel it, hand back what waits for a
 slot, let the started handlers end, flush their acks. A chunk given up at a cancellation is
 handed back whole.
 */
module Draining {
  import opened Dispatch
  import opened Engine
  import opened EngineRuns
  import opened Fates

  ghost predicate Drains(cfg: Config, s: State) {
    exists run :: Valid(cfg, s, run) && Exec(cfg, s, run).drained
  }

  lemma Before(cfg: Config, s: State, a: Action)
    requires Enabled(cfg, s, a) && Drains(cfg, Do(cfg, s, a))
    ensures Drains(cfg, s)
  {
    var rest :| Valid(cfg, Do(cfg, s, a), rest) && Exec(cfg, Do(cfg, s, a), rest).drained;
    var run := [Act(a)] + rest;
    assert run[1..] == rest;
    assert Valid(cfg, s, run) && Exec(cfg, s, run).drained;
  }

  /** Work left for the poll loop: two steps per waiting message at most, less what is decided. */
  function Queue(s: State): nat {
    2 * Messages(s.jobs) + if s.mode.Abandoning? then 0 else 1
  }

  function Messages(jobs: seq<Job>): nat {
    if jobs == [] then 0 else |jobs[0]| + Messages(jobs[1..])
  }

  lemma DropHeadLess(jobs: seq<Job>)
    requires jobs != [] && jobs[0] != []
    ensures Messages(DropHead(jobs)) == Messages(jobs) - 1
  {
    if |jobs[0]| > 1 { assert DropHead(jobs)[1..] == jobs[1..]; }
  }

  /** What a cancelled poll loop does next: it starts a handler only if no slot is left to wait for. */
  function LoopStep(cfg: Config, s: State): Action
    requires s.jobs != [] && s.jobs[0] != []
  {
    match s.mode
    case Choosing => if s.jobs[0][0].eventType in cfg.reg then GiveUp else NoHandler
    case Pooled =>
      if s.jobs[0][0].eventType in cfg.reg && cfg.reg[s.jobs[0][0].eventType].maxInflight >= 1 then GiveUp else Start
    case Abandoning => HandBack
  }

  lemma LoopAdvances(cfg: Config, s: State)
    requires Inv(cfg, s) && s.ctxDone && s.jobs != []
    ensures s.jobs[0] != [] && Enabled(cfg, s, LoopStep(cfg, s))
    ensures Do(cfg, s, LoopStep(cfg, s)).ctxDone && Queue(Do(cfg, s, LoopStep(cfg, s))) < Queue(s)
  {
    DropHeadLess(s.jobs);
  }

  /** Whatever it is doing, an engine can be brought to rest. */
  lemma {:induction false} CanDrain(cfg: Config, s: State)
    requires Inv(cfg, s)
    ensures Drains(cfg, s)
    decreases Flag(s.ctxDone), Queue(s), Flag(s.stopping), Rank(s)
  {
    if s.drained {
      assert Valid(cfg, s, []) && Exec(cfg, s, []) == s;
    } else {
      var a := NextStep(cfg, s);
      ActInv(cfg, s, a);
      CanDrain(cfg, Do(cfg, s, a));
      Before(cfg, s, a);
    }
  }

  lemma NextStep(cfg: Config, s: State) returns (a: Action)
    requires Inv(cfg, s) && !s.drained
    ensures Enabled(cfg, s, a)
    ensures var s' := Do(cfg, s, a);
            || (s'.ctxDone && !s.ctxDone)
            || (s'.ctxDone == s.ctxDone && Queue(s') < Queue(s))
            || (s'.ctxDone == s.ctxDone && Queue(s') == Queue(s) && s'.stopping && !s.stopping)
            || (s'.ctxDone == s.ctxDone && Queue(s') == Queue(s) && s'.stopping == s.stopping && Rank(s') < Rank(s))
  {
    if !s.ctxDone {
      a := Cancel;
    } else if s.jobs != [] {
      LoopAdvances(cfg, s);
      a := LoopStep(cfg, s);
    } else if !s.stopping {
      a := Drain;
    } else {
      a := NeverStuck(cfg, s);
      SettlingRanks(cfg, s, a);
      SettlingFrame(cfg, s, a);
    }
  }

  lemma SettlingFrame(cfg: Config, s: State, a: Action)
    requires Enabled(cfg, s, a) && Settling(a)
    ensures var s' := Do(cfg, s, a);
            && s'.jobs == s.jobs && s'.mode == s.mode && s'.ctxDone == s.ctxDone && s'.stopping == s.stopping
  {
    if a.Handler? { MoveFrame(cfg, s, a.k, a.move); }
  }

  lemma MoveFrame(cfg: Config, s: State, k: nat, move: Move)
    requires k < |s.runs| && CanMove(cfg, s, s.runs[k], move)
    ensures var s' := DoMove(cfg, s, k, move);
            && s'.jobs == s.jobs && s'.mode == s.mode && s'.ctxDone == s.ctxDone && s'.stopping == s.stopping
  {
  }

  // ----- Chunks stay whole -------------------------------------------------------------

  /** The jobs the poll loop has planned during the run. */
  ghost function Plans(run: seq<Event>): set<Job> {
    if run == [] then {} else PlannedBy(run[0]) + Plans(run[1..])
  }

  function PlannedBy(e: Event): set<Job> {
    if e.Claimed? then set j | j in e.jobs else {}
  }

  /** What waits undecided and what was started are planned jobs, whole; only a job being handed back is cut. */
  ghost predicate Whole(cfg: Config, s: State, plans: set<Job>) {
    && (forall k :: (if s.mode.Abandoning? then 1 else 0) <= k < |s.jobs| ==>
          s.jobs[k] in plans && (|s.jobs[k]| > 1 ==> s.jobs[k][0].eventType in cfg.reg))
    && (forall k :: 0 <= k < |s.runs| ==> s.runs[k].job in plans)
  }

  lemma WholeRuns(cfg: Config, s: State, a: Action, plans: set<Job>, r: Run)
    requires Enabled(cfg, s, a) && Whole(cfg, s, plans) && r in Do(cfg, s, a).runs
    ensures r.job in plans
  {
    WhereFrom(cfg, s, a, r);
    if a.Start? && r !in s.runs {
      assert r.job == s.jobs[0];
    } else if a.Handler? && r !in s.runs {
      assert s.runs[a.k].job in plans;
    } else {
      var k :| 0 <= k < |s.runs| && s.runs[k] == r;
    }
  }

  lemma WholeJobs(cfg: Config, s: State, a: Action, plans: set<Job>)
    requires Shape(cfg, s) && Enabled(cfg, s, a) && Whole(cfg, s, plans)
    ensures var s' := Do(cfg, s, a);
            forall k :: (if s'.mode.Abandoning? then 1 else 0) <= k < |s'.jobs| ==>
              s'.jobs[k] in plans && (|s'.jobs[k]| > 1 ==> s'.jobs[k][0].eventType in cfg.reg)
  {
    if a.Handler? { MoveFrame(cfg, s, a.k, a.move); }
  }

  lemma WholeNext(cfg: Config, s: State, e: Event, plans: set<Job>)
    requires Shape(cfg, s) && Possible(cfg, s, e) && Whole(cfg, s, plans)
    ensures Whole(cfg, Next(cfg, s, e), plans + PlannedBy(e))
  {
    match e
    case Claimed(msgs, jobs) =>
      assert forall k :: 0 <= k < |jobs| ==> WellShaped(cfg.reg, jobs[k]);
    case Act(a) =>
      WholeJobs(cfg, s, a, plans);
      forall k | 0 <= k < |Do(cfg, s, a).runs| ensures Do(cfg, s, a).runs[k].job in plans {
        WholeRuns(cfg, s, a, plans, Do(cfg, s, a).runs[k]);
      }
  }

  lemma {:induction false} WholeRun(cfg: Config, s: State, run: seq<Event>, plans: set<Job>)
    requires Inv(cfg, s) && Valid(cfg, s, run) && Whole(cfg, s, plans)
    ensures Whole(cfg, Exec(cfg, s, run), plans + Plans(run))
    decreases |run|
  {
    if run == [] {
      assert plans + Plans(run) == plans;
    } else {
      WholeNext(cfg, s, run[0], plans);
      NextInv(cfg, s, run[0]);
      WholeRun(cfg, Next(cfg, s, run[0]), run[1..], plans + PlannedBy(run[0]));
      assert plans + PlannedBy(run[0]) + Plans(run[1..]) == plans + Plans(run);
    }
  }

  lemma {:induction false} PlansShaped(cfg: Config, s: State, run: seq<Event>, j: Job)
    requires Valid(cfg, s, run) && j in Plans(run)
    ensures WellShaped(cfg.reg, j)
    decreases |run|
  {
    if j !in PlannedBy(run[0]) { PlansShaped(cfg, Next(cfg, s, run[0]), run[1..], j); }
  }

  /**
   A handler is invoked with a whole planned job, of one type, one message unless it takes batches,
   and never more than its maximum; a chunk given up at a cancellation starts in no part.
   */
  lemma InvokedWhole(cfg: Config, run: seq<Event>, k: nat)
    requires Valid(cfg, Fresh(), run) && k < |Exec(cfg, Fresh(), run).runs|
    ensures var j := Exec(cfg, Fresh(), run).runs[k].job;
            && j in Plans(run) && j != []
            && (forall i :: 0 <= i < |j| ==> j[i].eventType == j[0].eventType)
            && (|j| > 1 ==> j[0].eventType in cfg.reg && cfg.reg[j[0].eventType].batch)
            && (j[0].eventType in cfg.reg && cfg.reg[j[0].eventType].maxBatchSize >= 1 ==>
                  |j| <= cfg.reg[j[0].eventType].maxBatchSize)
  {
    FreshInv(cfg);
    WholeRun(cfg, Fresh(), run, {});
    PlansShaped(cfg, Fresh(), run, Exec(cfg, Fresh(), run).runs[k].job);
  }

  // ----- The ack channel ---------------------------------------------------------------

  /** A handler's success waits exactly while four batches of acks are queued. */
  lemma PostWaitsIff(cfg: Config, s: State, k: nat, verdict: bool, delay: int)
    requires k < |s.runs| && s.runs[k].phase.Committing? && s.runs[k].phase.next < |s.runs[k].job|
    ensures Enabled(cfg, s, Handler(k, Commit(verdict, delay)))
       <==> (cfg.batchAck && s.runs[k].phase.outcome.OutcomeSuccess? ==>
               |s.pipe.chan| < 4 * if cfg.batchSize >= 1 then cfg.batchSize else 100)
  {
  }

  /** Acks in the buffer can be flushed at any time, all of them and in order. */
  lemma BufferedCanFlush(cfg: Config, run: seq<Event>)
    requires Valid(cfg, Fresh(), run) && Exec(cfg, Fresh(), run).pipe.buf != []
    ensures var s := Exec(cfg, Fresh(), run);
            && Enabled(cfg, s, FlushTick)
            && Do(cfg, s, FlushTick).pipe == s.pipe.(buf := [], flushes := s.pipe.flushes + [s.pipe.buf])
  {
    FreshInv(cfg);
    RunInv(cfg, Fresh(), run);
  }

  // ----- Only a cancellation hands back ------------------------------------------------

  predicate NoneHandedBack(s: State) {
    !s.ctxDone ==> s.handedBack == multiset{} && !s.mode.Abandoning?
  }

  lemma NoneHandedBackMove(cfg: Config, s: State, k: nat, move: Move)
    requires k < |s.runs| && CanMove(cfg, s, s.runs[k], move) && NoneHandedBack(s)
    ensures NoneHandedBack(DoMove(cfg, s, k, move))
  {
  }

  lemma NoneHandedBackAct(cfg: Config, s: State, a: Action)
    requires Enabled(cfg, s, a) && NoneHandedBack(s)
    ensures NoneHandedBack(Do(cfg, s, a))
  {
    if a.Handler? { NoneHandedBackMove(cfg, s, a.k, a.move); }
  }

  /** As long as the worker is not cancelled, no claimed message goes back unhandled. */
  lemma {:induction false} HandedBackIfCancelled(cfg: Config, s: State, run: seq<Event>)
    requires Valid(cfg, s, run) && NoneHandedBack(s)
    ensures NoneHandedBack(Exec(cfg, s, run))
    decreases |run|
  {
    if run != [] {
      if run[0].Act? { NoneHandedBackAct(cfg, s, run[0].a); }
      HandedBackIfCancelled(cfg, Next(cfg, s, run[0]), run[1..]);
    }
  }
}
