/**
 One worker's engine as a state machine over its goroutines: the poll loop dispatching
 jobs under a global pool and per-type semaphores, the handler invocations, the ack
 flusher, and drain. Any interleaving of their steps is a run.
 */
module Engine {
  import opened Rows
  import Protocol
  import opened Dispatch
  import opened Outcomes
  import P = AckPipeline

  type Token = Protocol.Token

  datatype Config = Config(reg: Registry, poolSize: int, batchSize: int, batchAck: bool)
  {
    function Pool(): nat { if poolSize <= 0 then 32 else poolSize }
    function Batch(): nat { if batchSize <= 0 then 100 else batchSize }

    /** The cap of a type's semaphore, if it has one. */
    function Cap(et: EventType): Option<nat> {
      if et in reg && reg[et].maxInflight > 0 then Some(reg[et].maxInflight) else None
    }
  }

  /** A handler is running, or its outcome is being committed message by message. */
  datatype Phase = Invoked | Committing(err: Option<Err>, outcome: Outcome, next: nat)

  /** A handler goroutine, with the semaphore slots it still holds. */
  datatype Run = Run(job: Job, typed: bool, pooled: bool, phase: Phase)
  {
    function Type(): EventType
      requires job != []
    {
      job[0].eventType
    }

    predicate Committed() { phase.Committing? && phase.next == |job| }

    /** Messages whose outcome is not yet committed. */
    function Rest(): seq<Token> {
      match phase
      case Invoked => job
      case Committing(_, _, next) => if next <= |job| then job[next..] else []
    }
  }

  /** The poll loop's position on its first job: before, between and after its two waits. */
  datatype Mode = Choosing | Pooled | Abandoning

  datatype State = State(
    jobs: seq<Job>,
    mode: Mode,
    runs: seq<Run>,
    pool: nat,                      // slots taken in the global pool
    typed: map<EventType, nat>,     // slots taken per type
    ctxDone: bool,
    stopping: bool,
    drained: bool,
    pipe: P.Pipeline,
    claimed: multiset<Token>,       // the rest is history
    refused: multiset<Token>,       // dead-lettered for want of a handler
    handedBack: multiset<Token>,    // released before dispatch
    invoked: multiset<Token>,       // handed to a handler
    settled: multiset<Token>)       // outcome written individually

  /** What handler goroutine k does next; `verdict` is the caller's dead-letter predicate on the error. */
  datatype Move = End(err: Option<Err>) | Commit(verdict: bool, policyDelay: int) | FreeType | FreePool

  datatype Action =
    | NoHandler
    | TakePool
    | Start
    | GiveUp
    | HandBack
    | Handler(k: nat, move: Move)
    | Done(k: nat)
    | Receive
    | FlushTick
    | CloseSeen
    | Cancel
    | Drain
    | CloseChannel
    | DrainDone

  function Fresh(): State {
    State([], Choosing, [], 0, map[], false, false, false, P.Empty(),
          multiset{}, multiset{}, multiset{}, multiset{}, multiset{})
  }

  function Taken(s: State, et: EventType): nat { if et in s.typed then s.typed[et] else 0 }

  /** What becomes of message x of invocation r. */
  function FateFor(cfg: Config, x: Token, r: Run, verdict: bool, policyDelay: int): Fate {
    match r.phase
    case Invoked => Success
    case Committing(err, outcome, _) =>
      if outcome.OutcomeRetry? && err.None? then Success
      else
        var handlerMax := if x.eventType in cfg.reg then cfg.reg[x.eventType].maxAttempts else 0;
        CommitOutcome(err, outcome, Limits(x.attempt, x.maxAttempts, handlerMax), _ => verdict, policyDelay)
  }

  /** The outcome goes to the ack channel rather than straight to storage. */
  predicate Posts(cfg: Config, r: Run) {
    cfg.batchAck && r.phase.Committing? && r.phase.outcome.OutcomeSuccess?
  }

  predicate CanMove(cfg: Config, s: State, r: Run, move: Move) {
    match move
    case End(_) => r.phase.Invoked?
    case Commit(_, _) => && r.phase.Committing? && r.phase.next < |r.job|
                         && (Posts(cfg, r) ==> |s.pipe.chan| < P.Capacity(cfg.Batch()))
    case FreeType => r.Committed() && r.typed
    case FreePool => r.Committed() && !r.typed && r.pooled
  }

  predicate Enabled(cfg: Config, s: State, a: Action) {
    var head := s.jobs != [] && s.jobs[0] != [];
    match a
    case NoHandler => head && s.mode.Choosing? && s.jobs[0][0].eventType !in cfg.reg
    case TakePool => head && s.mode.Choosing? && s.jobs[0][0].eventType in cfg.reg && s.pool < cfg.Pool()
    case Start =>
      head && s.mode.Pooled?
      && var c := cfg.Cap(s.jobs[0][0].eventType); c.None? || Taken(s, s.jobs[0][0].eventType) < c.value
    case GiveUp => head && s.ctxDone && ((s.mode.Choosing? && s.jobs[0][0].eventType in cfg.reg)
                                         || (s.mode.Pooled? && cfg.Cap(s.jobs[0][0].eventType).Some?))
    case HandBack => head && s.mode.Abandoning?
    case Handler(k, move) => k < |s.runs| && CanMove(cfg, s, s.runs[k], move)
    case Done(k) => k < |s.runs| && s.runs[k].Committed() && !s.runs[k].typed && !s.runs[k].pooled
    case Receive => cfg.batchAck && P.CanReceive(s.pipe)
    case FlushTick => cfg.batchAck && !s.pipe.done
    case CloseSeen => cfg.batchAck && P.CanFinish(s.pipe)
    case Cancel => true
    case Drain => s.jobs == [] && s.ctxDone && !s.stopping
    case CloseChannel => cfg.batchAck && s.stopping && s.runs == [] && !s.pipe.closed
    case DrainDone => s.stopping && s.runs == [] && !s.drained && (cfg.batchAck ==> s.pipe.done)
  }

  function DropHead(jobs: seq<Job>): seq<Job>
    requires jobs != [] && jobs[0] != []
  {
    if |jobs[0]| == 1 then jobs[1..] else jobs[0 := jobs[0][1..]]
  }

  function Without(runs: seq<Run>, k: nat): seq<Run>
    requires k < |runs|
  {
    runs[..k] + runs[k + 1..]
  }

  /** Claimed messages become the poll loop's jobs. */
  function Poll(s: State, msgs: seq<Token>, jobs: seq<Job>): State {
    s.(jobs := jobs, claimed := s.claimed + multiset(msgs))
  }

  function Moved(s: State, r: Run, move: Move): Run {
    match move
    case End(err) => r.(phase := Committing(err, ResolveOutcome(err, s.ctxDone, s.stopping), 0))
    case Commit(_, _) => if r.phase.Committing? then r.(phase := r.phase.(next := r.phase.next + 1)) else r
    case FreeType => r.(typed := false)
    case FreePool => r.(pooled := false)
  }

  function Less(n: nat): nat { if n > 0 then n - 1 else 0 }

  function DoMove(cfg: Config, s: State, k: nat, move: Move): State
    requires k < |s.runs| && CanMove(cfg, s, s.runs[k], move)
  {
    var r := s.runs[k];
    var s1 := s.(runs := s.runs[k := Moved(s, r, move)]);
    match move
    case End(_) => s1
    case Commit(_, _) =>
      var x := r.job[r.phase.next];
      if Posts(cfg, r) then s1.(pipe := P.Send(s.pipe, x)) else s1.(settled := s.settled + multiset{x})
    case FreeType => if r.job != [] then s1.(typed := s.typed[r.Type() := Less(Taken(s, r.Type()))]) else s1
    case FreePool => s1.(pool := Less(s.pool))
  }

  function Do(cfg: Config, s: State, a: Action): State
    requires Enabled(cfg, s, a)
  {
    match a
    case NoHandler => s.(jobs := DropHead(s.jobs), refused := s.refused + multiset{s.jobs[0][0]})
    case TakePool => s.(mode := Pooled, pool := s.pool + 1)
    case Start =>
      var j := s.jobs[0]; var et := j[0].eventType; var typed := cfg.Cap(et).Some?;
      s.(jobs := s.jobs[1..], mode := Choosing, runs := s.runs + [Run(j, typed, true, Invoked)],
         typed := if typed then s.typed[et := Taken(s, et) + 1] else s.typed,
         invoked := s.invoked + multiset(j))
    case GiveUp => s.(mode := Abandoning, pool := if s.mode.Pooled? then Less(s.pool) else s.pool)
    case HandBack =>
      s.(jobs := DropHead(s.jobs), mode := if |s.jobs[0]| == 1 then Choosing else Abandoning,
         handedBack := s.handedBack + multiset{s.jobs[0][0]})
    case Handler(k, move) => DoMove(cfg, s, k, move)
    case Done(k) => s.(runs := Without(s.runs, k))
    case Receive => s.(pipe := P.Receive(s.pipe, cfg.Batch()))
    case FlushTick => s.(pipe := P.Flush(s.pipe))
    case CloseSeen => s.(pipe := P.Finish(s.pipe))
    case Cancel => s.(ctxDone := true)
    case Drain => s.(stopping := true)
    case CloseChannel => s.(pipe := s.pipe.(closed := true))
    case DrainDone => s.(drained := true)
  }

  // ----- Sums over invocations ---------------------------------------------------------

  datatype Measure = Slots | TypeSlots(et: EventType) | Busy | BusyType(et: EventType) | Holding(x: Token)
                     | Work

  function Weight(m: Measure, r: Run): nat {
    match m
    case Slots => if r.pooled then 1 else 0
    case TypeSlots(et) => if r.typed && r.job != [] && r.Type() == et then 1 else 0
    case Busy => if r.Committed() then 0 else 1
    case BusyType(et) => if !r.Committed() && r.job != [] && r.Type() == et then 1 else 0
    case Holding(x) => multiset(r.Rest())[x]
    case Work =>
      2 * |r.Rest()| + (if r.typed then 1 else 0) + (if r.pooled then 1 else 0) + (if r.phase.Invoked? then 2 else 1)
  }

  function Sum(m: Measure, runs: seq<Run>): nat {
    if runs == [] then 0 else Sum(m, runs[..|runs| - 1]) + Weight(m, runs[|runs| - 1])
  }

  lemma {:induction false} SumUpdate(m: Measure, runs: seq<Run>, k: nat, r: Run)
    requires k < |runs|
    ensures Sum(m, runs[k := r]) + Weight(m, runs[k]) == Sum(m, runs) + Weight(m, r)
    decreases |runs|
  {
    var n := |runs| - 1;
    if k < n {
      SumUpdate(m, runs[..n], k, r);
      assert runs[k := r][..n] == runs[..n][k := r];
    } else {
      assert runs[k := r][..n] == runs[..n];
    }
  }

  lemma SumSnoc(m: Measure, runs: seq<Run>, r: Run)
    ensures Sum(m, runs + [r]) == Sum(m, runs) + Weight(m, r)
  {
    assert (runs + [r])[..|runs|] == runs;
  }

  lemma WithoutLast(runs: seq<Run>, k: nat)
    requires k < |runs| - 1
    ensures Without(runs, k) == Without(runs[..|runs| - 1], k) + [runs[|runs| - 1]]
  {
  }

  lemma {:induction false} SumWithout(m: Measure, runs: seq<Run>, k: nat)
    requires k < |runs|
    ensures Sum(m, Without(runs, k)) + Weight(m, runs[k]) == Sum(m, runs)
    decreases |runs|
  {
    var n := |runs| - 1;
    if k < n {
      var front := runs[..n];
      SumWithout(m, front, k);
      WithoutLast(runs, k);
      SumSnoc(m, Without(front, k), runs[n]);
      assert front[k] == runs[k];
    } else {
      assert Without(runs, k) == runs[..n];
    }
  }

  lemma {:induction false} SumPositive(m: Measure, runs: seq<Run>) returns (k: nat)
    requires Sum(m, runs) > 0
    ensures k < |runs| && Weight(m, runs[k]) > 0
    decreases |runs|
  {
    k := |runs| - 1;
    if Weight(m, runs[k]) == 0 {
      k := SumPositive(m, runs[..k]);
    }
  }

  lemma {:induction false} SumLe(a: Measure, b: Measure, runs: seq<Run>)
    requires forall k :: 0 <= k < |runs| ==> Weight(a, runs[k]) <= Weight(b, runs[k])
    ensures Sum(a, runs) <= Sum(b, runs)
    decreases |runs|
  {
    if runs != [] {
      SumLe(a, b, runs[..|runs| - 1]);
    }
  }

  lemma {:induction false} SumHas(m: Measure, runs: seq<Run>, k: nat)
    requires k < |runs|
    ensures Weight(m, runs[k]) <= Sum(m, runs)
    decreases |runs|
  {
    if k < |runs| - 1 {
      SumHas(m, runs[..|runs| - 1], k);
    }
  }

  // ----- Invariants --------------------------------------------------------------------

  ghost predicate RunOk(cfg: Config, r: Run) {
    && r.job != []
    && (r.typed ==> cfg.Cap(r.Type()).Some?)
    && match r.phase
       case Invoked => r.pooled && (cfg.Cap(r.Type()).Some? ==> r.typed)
       case Committing(err, outcome, next) =>
         && next <= |r.job| && (outcome.OutcomeRetry? ==> err.Some?)
         && (outcome.OutcomeSuccess? <==> err.None? || As(IsSkip, err.value).Some?)
         && (next < |r.job| ==> r.pooled && (cfg.Cap(r.Type()).Some? ==> r.typed))
  }

  ghost predicate Shape(cfg: Config, s: State) {
    && (forall k :: 0 <= k < |s.runs| ==> RunOk(cfg, s.runs[k]))
    && (forall k :: 0 <= k < |s.jobs| ==>
          s.jobs[k] != [] && forall i :: 0 <= i < |s.jobs[k]| ==> s.jobs[k][i].eventType == s.jobs[k][0].eventType)
    && (!s.mode.Choosing? ==> s.jobs != [] && s.jobs[0][0].eventType in cfg.reg)
    && (s.stopping ==> s.jobs == [] && s.ctxDone)
    && (s.pipe.closed ==> s.stopping && s.runs == [])
    && (!cfg.batchAck ==> s.pipe == P.Empty())
    && (s.drained ==> s.stopping && s.runs == [] && (cfg.batchAck ==> s.pipe.done))
  }

  ghost predicate Semaphores(cfg: Config, s: State) {
    && s.pool == Sum(Slots, s.runs) + (if s.mode.Pooled? then 1 else 0)
    && s.pool <= cfg.Pool()
    && (forall et :: Taken(s, et) == Sum(TypeSlots(et), s.runs))
    && (forall et :: cfg.Cap(et).Some? ==> Taken(s, et) <= cfg.Cap(et).value)
  }

  /** Where every claimed message is. */
  ghost predicate Ledger(s: State) {
    && s.claimed == Tokens(s.jobs) + s.refused + s.handedBack + s.invoked
    && (forall x :: s.invoked[x] == Traced(s, x))
  }

  ghost predicate Inv(cfg: Config, s: State) {
    Shape(cfg, s) && Semaphores(cfg, s) && Ledger(s) && P.Inv(s.pipe, cfg.Batch())
  }

  lemma RunOkMove(cfg: Config, s: State, r: Run, move: Move)
    requires RunOk(cfg, r) && CanMove(cfg, s, r, move)
    ensures RunOk(cfg, Moved(s, r, move))
  {
  }

  lemma ShapeMove(cfg: Config, s: State, k: nat, move: Move)
    requires Shape(cfg, s) && Enabled(cfg, s, Handler(k, move))
    ensures Shape(cfg, DoMove(cfg, s, k, move))
  {
    RunOkMove(cfg, s, s.runs[k], move);
    assert forall i :: 0 <= i < |s.runs| ==> RunOk(cfg, DoMove(cfg, s, k, move).runs[i]);
  }

  lemma ShapeRuns(cfg: Config, s: State, a: Action)
    requires Shape(cfg, s) && Enabled(cfg, s, a) && (a.Start? || a.Done?)
    ensures Shape(cfg, Do(cfg, s, a))
  {
  }

  lemma ShapeOther(cfg: Config, s: State, a: Action)
    requires Shape(cfg, s) && Enabled(cfg, s, a) && !a.Handler? && !a.Start? && !a.Done?
    ensures Shape(cfg, Do(cfg, s, a))
  {
  }

  lemma ShapeStep(cfg: Config, s: State, a: Action)
    requires Shape(cfg, s) && Enabled(cfg, s, a)
    ensures Shape(cfg, Do(cfg, s, a))
  {
    match a
    case Handler(k, move) => ShapeMove(cfg, s, k, move);
    case Start => ShapeRuns(cfg, s, a);
    case Done(_) => ShapeRuns(cfg, s, a);
    case _ => ShapeOther(cfg, s, a);
  }

  lemma PipeStep(cfg: Config, s: State, a: Action)
    requires Shape(cfg, s) && P.Inv(s.pipe, cfg.Batch()) && Enabled(cfg, s, a)
    ensures P.Inv(Do(cfg, s, a).pipe, cfg.Batch())
  {
    match a
    case Handler(k, move) =>
      if move.Commit? && Posts(cfg, s.runs[k]) {
        P.SendKeeps(s.pipe, cfg.Batch(), s.runs[k].job[s.runs[k].phase.next]);
      }
    case Receive => P.ReceiveKeeps(s.pipe, cfg.Batch());
    case FlushTick => P.TickKeeps(s.pipe, cfg.Batch());
    case CloseSeen => P.FinishKeeps(s.pipe, cfg.Batch());
    case _ =>
  }

  /** 1 if this move frees a slot of type et, else 0. */
  function Frees(r: Run, move: Move, et: EventType): nat {
    if move.FreeType? && r.typed && r.job != [] && r.Type() == et then 1 else 0
  }

  lemma TypeSumMove(s: State, k: nat, move: Move, et: EventType)
    requires k < |s.runs|
    ensures Sum(TypeSlots(et), s.runs[k := Moved(s, s.runs[k], move)]) + Frees(s.runs[k], move, et)
         == Sum(TypeSlots(et), s.runs)
  {
    SumUpdate(TypeSlots(et), s.runs, k, Moved(s, s.runs[k], move));
  }

  lemma TypeSlotMove(cfg: Config, s: State, k: nat, move: Move, et: EventType)
    requires k < |s.runs| && s.runs[k].job != [] && CanMove(cfg, s, s.runs[k], move)
    requires Taken(s, et) == Sum(TypeSlots(et), s.runs)
    ensures var s' := DoMove(cfg, s, k, move);
            Taken(s', et) == Sum(TypeSlots(et), s'.runs) && Taken(s', et) <= Taken(s, et)
  {
    TypeSumMove(s, k, move, et);
    var s' := DoMove(cfg, s, k, move);
    assert s'.runs == s.runs[k := Moved(s, s.runs[k], move)];
    assert Taken(s', et) == Taken(s, et) - Frees(s.runs[k], move, et);
  }

  lemma PoolSlotMove(cfg: Config, s: State, k: nat, move: Move)
    requires k < |s.runs| && RunOk(cfg, s.runs[k]) && CanMove(cfg, s, s.runs[k], move) && Sum(Slots, s.runs) <= s.pool
    ensures var s' := DoMove(cfg, s, k, move);
            s'.pool - Sum(Slots, s'.runs) == s.pool - Sum(Slots, s.runs) && s'.pool <= s.pool && s'.mode == s.mode
  {
    SumUpdate(Slots, s.runs, k, Moved(s, s.runs[k], move));
  }

  lemma SemaphoreMove(cfg: Config, s: State, k: nat, move: Move)
    requires Shape(cfg, s) && Semaphores(cfg, s) && Enabled(cfg, s, Handler(k, move))
    ensures Semaphores(cfg, DoMove(cfg, s, k, move))
  {
    var s' := DoMove(cfg, s, k, move);
    PoolSlotMove(cfg, s, k, move);
    forall et ensures Taken(s', et) == Sum(TypeSlots(et), s'.runs) && Taken(s', et) <= Taken(s, et) {
      TypeSlotMove(cfg, s, k, move, et);
    }
  }

  lemma SemaphoreStart(cfg: Config, s: State)
    requires Semaphores(cfg, s) && Enabled(cfg, s, Start)
    ensures Semaphores(cfg, Do(cfg, s, Start))
  {
    var r := Do(cfg, s, Start).runs[|s.runs|];
    SumSnoc(Slots, s.runs, r);
    forall et ensures Sum(TypeSlots(et), s.runs + [r]) == Sum(TypeSlots(et), s.runs) + Weight(TypeSlots(et), r) {
      SumSnoc(TypeSlots(et), s.runs, r);
    }
  }

  lemma SemaphoreDone(cfg: Config, s: State, k: nat)
    requires Semaphores(cfg, s) && Enabled(cfg, s, Done(k))
    ensures Semaphores(cfg, Do(cfg, s, Done(k)))
  {
    SumWithout(Slots, s.runs, k);
    forall et ensures Sum(TypeSlots(et), Without(s.runs, k)) == Sum(TypeSlots(et), s.runs) {
      SumWithout(TypeSlots(et), s.runs, k);
    }
  }

  /** The poll loop's own slot moves with its mode; nothing else touches the semaphores. */
  lemma SemaphoreOther(cfg: Config, s: State, a: Action)
    requires Semaphores(cfg, s) && Enabled(cfg, s, a) && !a.Handler? && !a.Start? && !a.Done?
    requires a.NoHandler? || a.HandBack? ==> !s.mode.Pooled?
    ensures Semaphores(cfg, Do(cfg, s, a))
  {
    var s' := Do(cfg, s, a);
    assert s'.runs == s.runs && s'.typed == s.typed;
  }

  lemma SemaphoreStep(cfg: Config, s: State, a: Action)
    requires Shape(cfg, s) && Semaphores(cfg, s) && Enabled(cfg, s, a)
    ensures Semaphores(cfg, Do(cfg, s, a))
  {
    match a
    case Handler(k, move) => SemaphoreMove(cfg, s, k, move);
    case Start => SemaphoreStart(cfg, s);
    case Done(k) => SemaphoreDone(cfg, s, k);
    case _ => SemaphoreOther(cfg, s, a);
  }

  lemma HeadLedger(jobs: seq<Job>)
    requires jobs != [] && jobs[0] != []
    ensures Tokens(jobs) == Tokens(DropHead(jobs)) + multiset{jobs[0][0]}
  {
    TokensHead(jobs);
    assert jobs[0] == [jobs[0][0]] + jobs[0][1..];
    if |jobs[0]| > 1 {
      TokensHead(DropHead(jobs));
      assert DropHead(jobs)[1..] == jobs[1..];
    }
  }

  /** Copies of x that were handed to a handler: uncommitted, settled or posted. */
  function Traced(s: State, x: Token): nat {
    Sum(Holding(x), s.runs) + s.settled[x] + multiset(s.pipe.sends)[x]
  }

  lemma RestMove(s: State, r: Run, move: Move)
    requires move.Commit? ==> r.phase.Committing? && r.phase.next < |r.job|
    requires move.End? ==> r.phase.Invoked?
    ensures r.Rest() == (if move.Commit? then [r.job[r.phase.next]] else []) + Moved(s, r, move).Rest()
  {
    var rest := Moved(s, r, move).Rest();
    if move.Commit? {
      assert r.job[r.phase.next..] == [r.job[r.phase.next]] + r.job[r.phase.next + 1..];
    } else {
      assert r.Rest() == rest;
      assert [] + rest == rest;
    }
  }

  lemma CountSnoc(s: seq<Token>, y: Token, x: Token)
    ensures multiset(s + [y])[x] == multiset(s)[x] + (if x == y then 1 else 0)
    ensures multiset([y] + s)[x] == multiset(s)[x] + (if x == y then 1 else 0)
  {
    assert multiset([y] + s) == multiset([y]) + multiset(s);
  }

  /** 1 if this move commits x, else 0. */
  function Commits(r: Run, move: Move, x: Token): nat {
    if move.Commit? && r.phase.Committing? && r.phase.next < |r.job| && r.job[r.phase.next] == x then 1 else 0
  }

  lemma HoldingMove(cfg: Config, s: State, k: nat, move: Move, x: Token)
    requires k < |s.runs| && CanMove(cfg, s, s.runs[k], move)
    ensures Sum(Holding(x), s.runs[k := Moved(s, s.runs[k], move)]) + Commits(s.runs[k], move, x)
         == Sum(Holding(x), s.runs)
  {
    var r, r' := s.runs[k], Moved(s, s.runs[k], move);
    RestMove(s, r, move);
    if move.Commit? { CountSnoc(r'.Rest(), r.job[r.phase.next], x); }
    SumUpdate(Holding(x), s.runs, k, r');
  }

  lemma PostedMove(cfg: Config, s: State, k: nat, move: Move, x: Token)
    requires k < |s.runs| && CanMove(cfg, s, s.runs[k], move)
    ensures var s' := DoMove(cfg, s, k, move);
            s'.settled[x] + multiset(s'.pipe.sends)[x]
            == s.settled[x] + multiset(s.pipe.sends)[x] + Commits(s.runs[k], move, x)
  {
    if move.Commit? { CountSnoc(s.pipe.sends, s.runs[k].job[s.runs[k].phase.next], x); }
  }

  lemma TracedMove(cfg: Config, s: State, k: nat, move: Move, x: Token)
    requires k < |s.runs| && CanMove(cfg, s, s.runs[k], move)
    ensures Traced(DoMove(cfg, s, k, move), x) == Traced(s, x)
  {
    HoldingMove(cfg, s, k, move, x);
    PostedMove(cfg, s, k, move, x);
    assert DoMove(cfg, s, k, move).runs == s.runs[k := Moved(s, s.runs[k], move)];
  }

  lemma LedgerStart(cfg: Config, s: State)
    requires Ledger(s) && Enabled(cfg, s, Start)
    ensures Ledger(Do(cfg, s, Start))
  {
    TokensHead(s.jobs);
    var s' := Do(cfg, s, Start);
    forall x ensures Traced(s', x) == Traced(s, x) + multiset(s.jobs[0])[x] {
      SumSnoc(Holding(x), s.runs, s'.runs[|s.runs|]);
    }
  }

  lemma LedgerDone(cfg: Config, s: State, k: nat)
    requires Ledger(s) && Enabled(cfg, s, Done(k))
    ensures Ledger(Do(cfg, s, Done(k)))
  {
    forall x ensures Traced(Do(cfg, s, Done(k)), x) == Traced(s, x) {
      SumWithout(Holding(x), s.runs, k);
    }
  }

  lemma LedgerMove(cfg: Config, s: State, k: nat, move: Move)
    requires Ledger(s) && Enabled(cfg, s, Handler(k, move))
    ensures Ledger(DoMove(cfg, s, k, move))
  {
    forall x ensures Traced(DoMove(cfg, s, k, move), x) == Traced(s, x) { TracedMove(cfg, s, k, move, x); }
  }

  /** The flusher and the control steps leave the ledger as it is. */
  lemma LedgerSame(s: State, s': State)
    requires Ledger(s) && s'.runs == s.runs && s'.settled == s.settled && s'.pipe.sends == s.pipe.sends
    requires s'.jobs == s.jobs && s'.claimed == s.claimed && s'.refused == s.refused
    requires s'.handedBack == s.handedBack && s'.invoked == s.invoked
    ensures Ledger(s')
  {
    assert forall x :: Traced(s', x) == Traced(s, x);
  }

  lemma LedgerHead(cfg: Config, s: State, a: Action)
    requires Ledger(s) && Enabled(cfg, s, a) && (a.NoHandler? || a.HandBack?)
    ensures Ledger(Do(cfg, s, a))
  {
    HeadLedger(s.jobs);
    assert forall x :: Traced(Do(cfg, s, a), x) == Traced(s, x);
  }

  lemma LedgerStep(cfg: Config, s: State, a: Action)
    requires Ledger(s) && Enabled(cfg, s, a)
    ensures Ledger(Do(cfg, s, a))
  {
    match a
    case NoHandler => LedgerHead(cfg, s, a);
    case HandBack => LedgerHead(cfg, s, a);
    case Start => LedgerStart(cfg, s);
    case Handler(k, move) => LedgerMove(cfg, s, k, move);
    case Done(k) => LedgerDone(cfg, s, k);
    case _ => LedgerSame(s, Do(cfg, s, a));
  }
}
