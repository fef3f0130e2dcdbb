/**
 Lease auto-extension. A claimed message waits for a slot without an extender. While its
 handler runs, the extender wakes on a ticker, computes now + lease and writes it to
 claimed_until. It stops when the attempt's context ends or the handler's goroutine returns,
 which on success only posts the ack; the outcome may then still be on its way to the table.
 Everyone else keeps stepping the protocol. The lease lasts until the outcome is written
 exactly when all of these delays fit into it. Then nothing but an ack can take the row, and
 with fenced acks nothing can.
 */
module Lease {
  import opened Rows
  import opened Protocol
  import opened Invariants
  import opened Fencing

  /**
   `wait`: longest time from claim to handler start; `slack`: longest delay before a ready
   extender acts; `latency`: longest Extend call; `tail`: longest time from the extender's stop
   until the outcome is written, through channel, buffer and flush if acks are batched.
   */
  datatype Timing = Timing(lease: int, interval: int, wait: nat, slack: nat, latency: nat, tail: nat)

  /** The extender's ticker period. */
  function Interval(lease: int): int {
    if lease / 3 < 100 * MILLISECOND then 100 * MILLISECOND else lease / 3
  }

  datatype Phase = Idle | Waiting | Sending(issued: Time)

  /**
   A ticker holds at most one undelivered tick; `ready` is when the loop could last take one,
   or when an idle message was claimed. Once stopped, the extender owes nothing: a last tick
   may still be taken and a call in flight may still land, or not.
   */
  datatype Extender = Extender(phase: Phase, nextTick: Time, pending: bool, ready: Time, stopped: Option<Time>)

  datatype World = World(s: State, x: Extender)

  datatype Move =
    | Env(step: Step)   // any protocol step of the rest of the system, including time passing
    | Start             // the handler starts, and its extender with it
    | Fire              // the ticker fires
    | Issue             // the extender takes the tick and calls Extend with now + lease
    | Land              // the call writes claimed_until and returns
    | Stop              // the handler's goroutine returns, or its context ends

  /**
   Steps that are not the attempt's own end and not its own extension. Another attempt of the
   same worker on the same message may extend the lease too, but not shorten it.
   */
  predicate Foreign(t: Token, s: State, step: Step) {
    && !(step.Ack? && step.t == t)
    && !(step.BatchSucceed? && t in step.ts)
    && !(step.Lose? && t in step.tokens)
    && (step.Extend? && step.id == t.id && step.worker == t.worker ==> step.until >= Until(t, s))
  }

  /** Time may not run past an outstanding start, tick, slack, call or outcome write. */
  predicate InTime(tm: Timing, x: Extender, now: Time) {
    match x.stopped
    case Some(at) => now <= at + tm.tail
    case None =>
      match x.phase
      case Idle => now <= x.ready + tm.wait
      case Waiting => now <= x.nextTick && (x.pending ==> now <= x.ready + tm.slack)
      case Sending(issued) => now <= x.nextTick && now <= issued + tm.latency
  }

  ghost predicate CanMove(rules: Rules, tm: Timing, t: Token, w: World, m: Move) {
    match m
    case Env(step) => Foreign(t, w.s, step) && Enabled(w.s, step) && Allowed(rules, w.s, step)
                      && (step.Tick? ==> InTime(tm, w.x, w.s.now + step.d))
    case Start => w.x.phase.Idle? && w.x.stopped.None?
    case Fire => !w.x.phase.Idle? && w.s.now == w.x.nextTick
    case Issue => w.x.phase.Waiting? && w.x.pending
    case Land => w.x.phase.Sending?
    case Stop => w.x.stopped.None?
  }

  function DoMove(b: Dialect, tm: Timing, t: Token, w: World, m: Move): World {
    match m
    case Env(step) => w.(s := Do(b, w.s, step))
    case Start => w.(x := w.x.(phase := Waiting, nextTick := w.s.now + tm.interval, pending := false))
    case Fire => w.(x := w.x.(pending := true, nextTick := w.x.nextTick + tm.interval,
                              ready := if w.x.pending then w.x.ready else w.s.now))
    case Issue => w.(x := w.x.(phase := Sending(w.s.now), pending := false))
    case Land => if w.x.phase.Sending?
                 then World(Do(b, w.s, Extend(t.id, t.worker, w.x.phase.issued + tm.lease)),
                            w.x.(phase := Waiting, ready := w.s.now))
                 else w
    case Stop => w.(x := w.x.(stopped := Some(w.s.now)))
  }

  function Play(b: Dialect, tm: Timing, t: Token, w: World, moves: seq<Move>): World
    decreases |moves|
  {
    if moves == [] then w else Play(b, tm, t, DoMove(b, tm, t, w, moves[0]), moves[1..])
  }

  ghost predicate Playable(b: Dialect, rules: Rules, tm: Timing, t: Token, w: World, moves: seq<Move>)
    decreases |moves|
  {
    moves == [] ||
    (CanMove(rules, tm, t, w, moves[0]) && Playable(b, rules, tm, t, DoMove(b, tm, t, w, moves[0]), moves[1..]))
  }

  /** The attempt still owns its row: no reclaim, no other claim, no stale write got in. */
  ghost predicate Owned(t: Token, s: State) {
    && t in s.live && t.id in s.rows && Latest(s, t)
    && s.rows[t.id].status == HANDLING && s.rows[t.id].attempt == t.attempt
    && s.rows[t.id].claimedBy == Some(t.worker) && s.rows[t.id].claimedUntil.Some?
  }

  /** At every moment of the run. */
  ghost predicate OwnedThrough(b: Dialect, tm: Timing, t: Token, w: World, moves: seq<Move>)
    decreases |moves|
  {
    Owned(t, w.s) && (moves == [] || OwnedThrough(b, tm, t, DoMove(b, tm, t, w, moves[0]), moves[1..]))
  }

  function Until(t: Token, s: State): Time {
    if t.id in s.rows && s.rows[t.id].claimedUntil.Some? then s.rows[t.id].claimedUntil.value else 0
  }

  ghost predicate Lapsed(t: Token, s: State) {
    t.id in s.rows && Expired(s.rows[t.id], s.now)
  }

  predicate Wellposed(tm: Timing) {
    tm.interval >= 1
  }

  /** The message has just been claimed. */
  ghost predicate Starting(b: Dialect, rules: Rules, tm: Timing, t: Token, w: World) {
    && Wellposed(tm) && Inv(b, rules, w.s) && Owned(t, w.s) && w.s.now <= Until(t, w.s)
    && w.x.phase.Idle? && w.x.stopped.None? && w.x.ready == w.s.now
  }

  function Max(a: int, b: int): int { if a < b then b else a }

  /** Room from one extension to the next, and for the outcome if there is no next. */
  predicate Steady(tm: Timing) {
    Max(tm.interval, tm.latency) + tm.slack + tm.latency + tm.tail <= tm.lease
  }

  /** Room for the handler to start and the first extension to land, and for each further one. */
  predicate Roomy(tm: Timing, start: Time, until: Time) {
    start + tm.wait + tm.interval + tm.slack + tm.latency + tm.tail <= until && Steady(tm)
  }

  // ----- What others can do to the row -------------------------------------------------

  /** A step that leaves the attempt its row does not shorten the lease. */
  lemma ForeignUntil(b: Dialect, t: Token, s: State, step: Step)
    requires Foreign(t, s, step) && Enabled(s, step) && Owned(t, s) && Owned(t, Do(b, s, step))
    ensures Until(t, Do(b, s, step)) >= Until(t, s)
  {
  }

  /** The step is another token's ack, and the row's guard lets it through. */
  ghost predicate TakesByAck(b: Dialect, t: Token, s: State, step: Step)
    requires t.id in s.rows
  {
    || (step.Ack? && step.t.id == t.id && Accepts(b, s.rows[t.id], step.t.attempt, step.t.worker))
    || (step.BatchSucceed? && Batched(s.rows[t.id], t.id, step.ts))
  }

  /** While the lease is unexpired, no reclaim, claim, requeue or purge takes the row; only an ack can. */
  lemma OnlyAcksTake(b: Dialect, t: Token, s: State, step: Step)
    requires TableInv(b, s) && TokenInv(s) && Owned(t, s) && s.now <= Until(t, s) && Foreign(t, s, step)
    requires Enabled(s, step)
    ensures Owned(t, Do(b, s, step)) || TakesByAck(b, t, s, step)
  {
    if step.Ack? || step.BatchSucceed? { AckLeaves(b, t, s, step); }
  }

  lemma AckLeaves(b: Dialect, t: Token, s: State, step: Step)
    requires Owned(t, s) && Foreign(t, s, step) && (step.Ack? || step.BatchSucceed?)
    ensures Owned(t, Do(b, s, step)) || TakesByAck(b, t, s, step)
  {
  }

  /** Where acks are fenced, only the owner's own token passes its row's guards. */
  lemma OwnerOnly(b: Dialect, t: Token, s: State, u: Token)
    requires TokenInv(s) && Ordered(s) && (b.MySQL? ==> Solo(s)) && Owned(t, s) && u in s.live && u != t && u.id == t.id
    ensures !Accepts(b, s.rows[t.id], u.attempt, u.worker) && !BatchAccepts(s.rows[t.id], u.attempt)
  {
  }

  lemma NoAckTakes(b: Dialect, t: Token, s: State, step: Step)
    requires TokenInv(s) && Ordered(s) && (b.MySQL? ==> Solo(s)) && Owned(t, s) && Foreign(t, s, step)
    requires Enabled(s, step)
    ensures !TakesByAck(b, t, s, step)
  {
    forall u | u in s.live && u != t && u.id == t.id
      ensures !Accepts(b, s.rows[t.id], u.attempt, u.worker) && !BatchAccepts(s.rows[t.id], u.attempt)
    {
      OwnerOnly(b, t, s, u);
    }
  }

  // ----- Sufficiency -------------------------------------------------------------------

  /** At every moment what is still to come before the next extension fits into the current lease. */
  predicate Timely(tm: Timing, x: Extender, now: Time, until: Time) {
    && InTime(tm, x, now)
    && match x.stopped
       case Some(at) =>
         && at <= now && at + tm.tail <= until
         && (x.phase.Sending? ==> at + tm.tail <= x.phase.issued + tm.lease)
       case None =>
         match x.phase
         case Idle => x.ready + tm.wait + tm.interval + tm.slack + tm.latency + tm.tail <= until
         case Waiting =>
           && x.nextTick <= now + tm.interval
           && (if x.pending then x.ready else x.nextTick) + tm.slack + tm.latency + tm.tail <= until
         case Sending(issued) =>
           && x.nextTick <= now + tm.interval
           && issued + tm.latency + tm.tail <= until
           && (!x.pending ==> x.nextTick <= issued + tm.interval)
  }

  ghost predicate Kept(b: Dialect, rules: Rules, tm: Timing, t: Token, w: World) {
    Inv(b, rules, w.s) && Owned(t, w.s) && Timely(tm, w.x, w.s.now, Until(t, w.s))
  }

  lemma KeptEnv(b: Dialect, rules: Rules, tm: Timing, t: Token, w: World, step: Step)
    requires Wellposed(tm) && Kept(b, rules, tm, t, w) && CanMove(rules, tm, t, w, Env(step))
    requires Owned(t, Do(b, w.s, step))
    ensures Kept(b, rules, tm, t, DoMove(b, tm, t, w, Env(step)))
  {
    ForeignUntil(b, t, w.s, step);
    InvStep(b, rules, w.s, step);
  }

  /** The owner's own extension always matches its row and sets the new lease end. */
  lemma OwnExtend(b: Dialect, t: Token, s: State, until: Time)
    requires Owned(t, s)
    ensures var s' := Do(b, s, Extend(t.id, t.worker, until)); Owned(t, s') && Until(t, s') == until && s'.now == s.now
  {
  }

  lemma TimelyLand(tm: Timing, x: Extender, now: Time, until: Time)
    requires Wellposed(tm) && Steady(tm) && x.phase.Sending? && Timely(tm, x, now, until)
    ensures Timely(tm, x.(phase := Waiting, ready := now), now, x.phase.issued + tm.lease)
  {
  }

  lemma KeptLand(b: Dialect, rules: Rules, tm: Timing, t: Token, w: World)
    requires Wellposed(tm) && Steady(tm) && Kept(b, rules, tm, t, w) && w.x.phase.Sending?
    ensures Kept(b, rules, tm, t, DoMove(b, tm, t, w, Land))
  {
    var extend := Extend(t.id, t.worker, w.x.phase.issued + tm.lease);
    assert DoMove(b, tm, t, w, Land) == World(Do(b, w.s, extend), w.x.(phase := Waiting, ready := w.s.now));
    TimelyLand(tm, w.x, w.s.now, Until(t, w.s));
    OwnExtend(b, t, w.s, extend.until);
    assert Inv(b, rules, Do(b, w.s, extend)) by { InvStep(b, rules, w.s, extend); }
  }

  /** The extender's own moves that write nothing. */
  lemma TimelyOwn(tm: Timing, x: Extender, now: Time, until: Time, m: Move)
    requires Wellposed(tm) && Steady(tm) && Timely(tm, x, now, until) && !m.Env? && !m.Land?
    requires match m
             case Start => x.phase.Idle? && x.stopped.None?
             case Fire => !x.phase.Idle? && now == x.nextTick
             case Issue => x.phase.Waiting? && x.pending
             case _ => x.stopped.None?
    ensures var x' := match m
                      case Start => x.(phase := Waiting, nextTick := now + tm.interval, pending := false)
                      case Fire => x.(pending := true, nextTick := x.nextTick + tm.interval,
                                      ready := if x.pending then x.ready else now)
                      case Issue => x.(phase := Sending(now), pending := false)
                      case _ => x.(stopped := Some(now));
            Timely(tm, x', now, until)
  {
  }

  /** One move of any environment, if it leaves the attempt its row. */
  lemma KeptMove(b: Dialect, rules: Rules, tm: Timing, t: Token, w: World, m: Move)
    requires Wellposed(tm) && Steady(tm) && Kept(b, rules, tm, t, w) && CanMove(rules, tm, t, w, m)
    requires Owned(t, DoMove(b, tm, t, w, m).s)
    ensures Kept(b, rules, tm, t, DoMove(b, tm, t, w, m))
  {
    match m
    case Env(step) => KeptEnv(b, rules, tm, t, w, step);
    case Land => KeptLand(b, rules, tm, t, w);
    case _ => TimelyOwn(tm, w.x, w.s.now, Until(t, w.s), m);
  }

  lemma {:induction false} KeptRun(b: Dialect, rules: Rules, tm: Timing, t: Token, w: World, moves: seq<Move>)
    requires Wellposed(tm) && Steady(tm) && Kept(b, rules, tm, t, w)
    requires Playable(b, rules, tm, t, w, moves) && OwnedThrough(b, tm, t, w, moves)
    ensures Kept(b, rules, tm, t, Play(b, tm, t, w, moves))
    decreases |moves|
  {
    if moves != [] {
      KeptMove(b, rules, tm, t, w, moves[0]);
      KeptRun(b, rules, tm, t, DoMove(b, tm, t, w, moves[0]), moves[1..]);
    }
  }

  // ----- Necessity ---------------------------------------------------------------------

  /** A run the attempt owns its row throughout. */
  ghost predicate Owning(b: Dialect, rules: Rules, tm: Timing, t: Token, w: World, moves: seq<Move>) {
    Playable(b, rules, tm, t, w, moves) && OwnedThrough(b, tm, t, w, moves)
  }

  lemma {:induction false} Then(b: Dialect, rules: Rules, tm: Timing, t: Token, w: World, moves: seq<Move>,
                                more: seq<Move>)
    requires Owning(b, rules, tm, t, w, moves) && Owning(b, rules, tm, t, Play(b, tm, t, w, moves), more)
    ensures Owning(b, rules, tm, t, w, moves + more)
    ensures Play(b, tm, t, w, moves + more) == Play(b, tm, t, Play(b, tm, t, w, moves), more)
    decreases |moves|
  {
    if moves == [] {
      assert moves + more == more;
    } else {
      Then(b, rules, tm, t, DoMove(b, tm, t, w, moves[0]), moves[1..], more);
      assert (moves + more)[1..] == moves[1..] + more;
    }
  }

  lemma One(b: Dialect, rules: Rules, tm: Timing, t: Token, w: World, m: Move)
    requires CanMove(rules, tm, t, w, m) && Owned(t, w.s) && Owned(t, DoMove(b, tm, t, w, m).s)
    ensures Owning(b, rules, tm, t, w, [m]) && Play(b, tm, t, w, [m]) == DoMove(b, tm, t, w, m)
  {
  }

  /** Time can pass to any moment the extender's own deadline permits, ticks firing on the way. */
  lemma {:induction false} PassTime(b: Dialect, rules: Rules, tm: Timing, t: Token, w: World, target: Time)
    returns (moves: seq<Move>)
    requires Wellposed(tm) && Owned(t, w.s) && w.x.stopped.None? && !w.x.phase.Idle?
    requires w.s.now <= target && w.s.now <= w.x.nextTick && (w.x.phase.Waiting? ==> w.x.pending)
    requires InTime(tm, w.x.(nextTick := target), target)
    ensures Owning(b, rules, tm, t, w, moves)
    ensures var z := Play(b, tm, t, w, moves);
            && z.s == w.s.(now := target) && z.x.phase == w.x.phase && target <= z.x.nextTick && z.x.stopped.None?
            && (w.x.pending ==> z.x.pending && z.x.ready == w.x.ready)
            && (!z.x.pending ==> z.x.nextTick == w.x.nextTick)
            && (z.x.pending && !w.x.pending ==> w.x.nextTick <= target)
    decreases target - w.s.now, w.s.now == w.x.nextTick
  {
    if w.s.now == target {
      moves := [];
    } else {
      var m := if w.s.now == w.x.nextTick then Fire
               else Env(Tick((if target < w.x.nextTick then target else w.x.nextTick) - w.s.now));
      var w1 := DoMove(b, tm, t, w, m);
      One(b, rules, tm, t, w, m);
      var rest := PassTime(b, rules, tm, t, w1, target);
      Then(b, rules, tm, t, w, [m], rest);
      moves := [m] + rest;
    }
  }

  /** A handler that returns now may have its outcome written only after the lease is over. */
  lemma StopAndWait(b: Dialect, rules: Rules, tm: Timing, t: Token, w: World) returns (moves: seq<Move>)
    requires Owned(t, w.s) && w.x.stopped.None? && w.s.now <= Until(t, w.s) < w.s.now + tm.tail
    ensures Owning(b, rules, tm, t, w, moves) && Lapsed(t, Play(b, tm, t, w, moves).s)
  {
    var w1, tick := DoMove(b, tm, t, w, Stop), Env(Tick(Until(t, w.s) + 1 - w.s.now));
    One(b, rules, tm, t, w, Stop);
    One(b, rules, tm, t, w1, tick);
    Then(b, rules, tm, t, w, [Stop], [tick]);
    moves := [Stop] + [tick];
  }

  /** A call in flight that takes its full latency, or is abandoned then, lets it run out too. */
  lemma LapseSending(b: Dialect, rules: Rules, tm: Timing, t: Token, w: World) returns (moves: seq<Move>)
    requires Wellposed(tm) && Owned(t, w.s) && w.x.stopped.None? && w.x.phase == Sending(w.s.now)
    requires w.s.now <= w.x.nextTick
    requires w.s.now <= Until(t, w.s) < w.s.now + tm.latency + tm.tail
    ensures Owning(b, rules, tm, t, w, moves) && Lapsed(t, Play(b, tm, t, w, moves).s)
  {
    var until, late := Until(t, w.s), w.s.now + tm.latency;
    if until < late {
      moves := PassTime(b, rules, tm, t, w, until + 1);
    } else {
      moves := PassTime(b, rules, tm, t, w, late);
      var rest := StopAndWait(b, rules, tm, t, Play(b, tm, t, w, moves));
      Then(b, rules, tm, t, w, moves, rest);
      moves := moves + rest;
    }
  }

  /** So does a ready extender that uses its slack first. */
  lemma LapseReady(b: Dialect, rules: Rules, tm: Timing, t: Token, w: World) returns (moves: seq<Move>)
    requires Wellposed(tm) && Owned(t, w.s) && w.x.stopped.None? && w.x.phase.Waiting? && w.x.pending
    requires w.x.ready == w.s.now <= w.x.nextTick
    requires w.s.now <= Until(t, w.s) < w.x.ready + tm.slack + tm.latency + tm.tail
    ensures Owning(b, rules, tm, t, w, moves) && Lapsed(t, Play(b, tm, t, w, moves).s)
  {
    var until := Until(t, w.s);
    if until < w.x.ready + tm.slack {
      moves := PassTime(b, rules, tm, t, w, until + 1);
    } else {
      moves := PassTime(b, rules, tm, t, w, w.x.ready + tm.slack);
      var w1 := Play(b, tm, t, w, moves);
      One(b, rules, tm, t, w1, Issue);
      var rest := LapseSending(b, rules, tm, t, DoMove(b, tm, t, w1, Issue));
      Then(b, rules, tm, t, w1, [Issue], rest);
      Then(b, rules, tm, t, w, moves, [Issue] + rest);
      moves := moves + ([Issue] + rest);
    }
  }

  /** And waiting for the next tick before that. */
  lemma Lapse(b: Dialect, rules: Rules, tm: Timing, t: Token, w: World) returns (moves: seq<Move>)
    requires Wellposed(tm) && Owned(t, w.s) && w.x.stopped.None? && w.x.phase.Waiting?
    requires w.s.now <= w.x.nextTick && w.s.now <= Until(t, w.s) && (w.x.pending ==> w.x.ready == w.s.now)
    requires Until(t, w.s) < (if w.x.pending then w.x.ready else w.x.nextTick) + tm.slack + tm.latency + tm.tail
    ensures Owning(b, rules, tm, t, w, moves) && Lapsed(t, Play(b, tm, t, w, moves).s)
  {
    if w.x.pending {
      moves := LapseReady(b, rules, tm, t, w);
    } else if Until(t, w.s) < w.x.nextTick {
      var tick := Env(Tick(Until(t, w.s) + 1 - w.s.now));
      One(b, rules, tm, t, w, tick);
      moves := [tick];
    } else {
      var tick := Env(Tick(w.x.nextTick - w.s.now));
      var w1 := DoMove(b, tm, t, w, tick);
      One(b, rules, tm, t, w, tick);
      One(b, rules, tm, t, w1, Fire);
      var rest := LapseReady(b, rules, tm, t, DoMove(b, tm, t, w1, Fire));
      Then(b, rules, tm, t, w1, [Fire], rest);
      Then(b, rules, tm, t, w, [tick], [Fire] + rest);
      moves := [tick] + ([Fire] + rest);
    }
  }

  /** And waiting for a slot before that. */
  lemma LapseIdle(b: Dialect, rules: Rules, tm: Timing, t: Token, w: World) returns (moves: seq<Move>)
    requires Wellposed(tm) && Owned(t, w.s) && w.x.stopped.None? && w.x.phase.Idle? && w.x.ready == w.s.now
    requires w.s.now <= Until(t, w.s) < w.s.now + tm.wait + tm.interval + tm.slack + tm.latency + tm.tail
    ensures Owning(b, rules, tm, t, w, moves) && Lapsed(t, Play(b, tm, t, w, moves).s)
  {
    if Until(t, w.s) < w.s.now + tm.wait {
      var tick := Env(Tick(Until(t, w.s) + 1 - w.s.now));
      One(b, rules, tm, t, w, tick);
      moves := [tick];
    } else {
      var tick := Env(Tick(tm.wait));
      var w1 := DoMove(b, tm, t, w, tick);
      One(b, rules, tm, t, w, tick);
      One(b, rules, tm, t, w1, Start);
      var rest := Lapse(b, rules, tm, t, DoMove(b, tm, t, w1, Start));
      Then(b, rules, tm, t, w1, [Start], rest);
      Then(b, rules, tm, t, w, [tick], [Start] + rest);
      moves := [tick] + ([Start] + rest);
    }
  }

  /** The handler starts at once, the first tick fires and the extender takes it at once. */
  lemma FirstIssue(b: Dialect, rules: Rules, tm: Timing, t: Token, w: World) returns (moves: seq<Move>)
    requires Wellposed(tm) && Owned(t, w.s) && w.x.phase.Idle? && w.x.stopped.None?
    ensures Owning(b, rules, tm, t, w, moves)
    ensures var issued := w.s.now + tm.interval;
            Play(b, tm, t, w, moves)
            == World(w.s.(now := issued), Extender(Sending(issued), issued + tm.interval, false, issued, None))
  {
    var tick := Env(Tick(tm.interval));
    var w1 := DoMove(b, tm, t, w, Start);
    var w2 := DoMove(b, tm, t, w1, tick);
    var w3 := DoMove(b, tm, t, w2, Fire);
    One(b, rules, tm, t, w, Start);
    One(b, rules, tm, t, w1, tick);
    One(b, rules, tm, t, w2, Fire);
    One(b, rules, tm, t, w3, Issue);
    Then(b, rules, tm, t, w2, [Fire], [Issue]);
    Then(b, rules, tm, t, w1, [tick], [Fire] + [Issue]);
    Then(b, rules, tm, t, w, [Start], [tick] + ([Fire] + [Issue]));
    moves := [Start] + ([tick] + ([Fire] + [Issue]));
  }

  /** One prompt extension, whose call then takes its full latency. */
  lemma FirstCycle(b: Dialect, rules: Rules, tm: Timing, t: Token, w: World) returns (moves: seq<Move>)
    requires Wellposed(tm) && Owned(t, w.s) && w.x.phase.Idle? && w.x.stopped.None?
    ensures Owning(b, rules, tm, t, w, moves)
    ensures var z, issued := Play(b, tm, t, w, moves), w.s.now + tm.interval;
            && Owned(t, z.s) && z.x.phase.Waiting? && z.x.stopped.None?
            && z.s.now == issued + tm.latency <= z.x.nextTick
            && Until(t, z.s) == issued + tm.lease
            && (if z.x.pending then z.x.ready == z.s.now && tm.interval <= tm.latency
                else z.x.nextTick == issued + tm.interval)
  {
    moves := FirstIssue(b, rules, tm, t, w);
    var w1 := Play(b, tm, t, w, moves);
    var pass := PassTime(b, rules, tm, t, w1, w1.s.now + tm.latency);
    var w2 := Play(b, tm, t, w1, pass);
    OwnExtend(b, t, w2.s, w1.s.now + tm.lease);
    One(b, rules, tm, t, w2, Land);
    Then(b, rules, tm, t, w1, pass, [Land]);
    Then(b, rules, tm, t, w, moves, pass + [Land]);
    moves := moves + (pass + [Land]);
  }

  // ----- The exact condition -----------------------------------------------------------

  /** Whatever everyone else does, the lease never runs out while the attempt owns its row. */
  ghost predicate NeverLapses(b: Dialect, rules: Rules, tm: Timing, t: Token, w: World) {
    forall moves :: Owning(b, rules, tm, t, w, moves) ==> !Lapsed(t, Play(b, tm, t, w, moves).s)
  }

  /**
   Without the room, some run of the attempt alone, everyone else only letting time pass, ends in
   an expired lease.
   */
  lemma Lapses(b: Dialect, rules: Rules, tm: Timing, t: Token, w: World) returns (moves: seq<Move>)
    requires Starting(b, rules, tm, t, w) && !Roomy(tm, w.s.now, Until(t, w.s))
    ensures Owning(b, rules, tm, t, w, moves) && Lapsed(t, Play(b, tm, t, w, moves).s)
  {
    if Until(t, w.s) < w.s.now + tm.wait + tm.interval + tm.slack + tm.latency + tm.tail {
      moves := LapseIdle(b, rules, tm, t, w);
    } else {
      moves := FirstCycle(b, rules, tm, t, w);
      var w1 := Play(b, tm, t, w, moves);
      if w1.s.now <= Until(t, w1.s) {
        var rest := Lapse(b, rules, tm, t, w1);
        Then(b, rules, tm, t, w, moves, rest);
        moves := moves + rest;
      }
    }
  }

  /** Then a reclaim takes the row from an attempt that is still alive. */
  lemma ReclaimTakesRow(b: Dialect, rules: Rules, tm: Timing, t: Token, w: World)
    returns (moves: seq<Move>, reclaim: Move)
    requires Starting(b, rules, tm, t, w) && !Roomy(tm, w.s.now, Until(t, w.s)) && !rules.cappedReclaim
    ensures Owning(b, rules, tm, t, w, moves) && reclaim == Env(Reclaim({t.id}))
    ensures var z := Play(b, tm, t, w, moves);
            CanMove(rules, tm, t, z, reclaim) && !Owned(t, DoMove(b, tm, t, z, reclaim).s)
  {
    moves := Lapses(b, rules, tm, t, w);
    reclaim := Env(Reclaim({t.id}));
  }

  /** In every environment, disciplined or not. */
  lemma LeaseHeldIff(b: Dialect, rules: Rules, tm: Timing, t: Token, w: World)
    requires Starting(b, rules, tm, t, w)
    ensures NeverLapses(b, rules, tm, t, w) <==> Roomy(tm, w.s.now, Until(t, w.s))
  {
    if Roomy(tm, w.s.now, Until(t, w.s)) {
      forall moves | Owning(b, rules, tm, t, w, moves) ensures !Lapsed(t, Play(b, tm, t, w, moves).s) {
        KeptRun(b, rules, tm, t, w, moves);
      }
    } else {
      var moves := Lapses(b, rules, tm, t, w);
    }
  }

  /** Then the row is lost, if at all, to another token's accepted ack, and to nothing else. */
  lemma LostOnlyToAcks(b: Dialect, rules: Rules, tm: Timing, t: Token, w: World, moves: seq<Move>, m: Move)
    requires Starting(b, rules, tm, t, w) && Roomy(tm, w.s.now, Until(t, w.s)) && Owning(b, rules, tm, t, w, moves)
    requires var z := Play(b, tm, t, w, moves); CanMove(rules, tm, t, z, m) && !Owned(t, DoMove(b, tm, t, z, m).s)
    ensures var z := Play(b, tm, t, w, moves); m.Env? && t.id in z.s.rows && TakesByAck(b, t, z.s, m.step)
  {
    KeptRun(b, rules, tm, t, w, moves);
    LossIsAck(b, rules, tm, t, Play(b, tm, t, w, moves), m);
  }

  lemma LossIsAck(b: Dialect, rules: Rules, tm: Timing, t: Token, z: World, m: Move)
    requires TableInv(b, z.s) && TokenInv(z.s) && Owned(t, z.s) && z.s.now <= Until(t, z.s)
    requires CanMove(rules, tm, t, z, m)
    ensures Owned(t, DoMove(b, tm, t, z, m).s) || (m.Env? && TakesByAck(b, t, z.s, m.step))
  {
    match m
    case Env(step) => OnlyAcksTake(b, t, z.s, step);
    case Land => OwnExtend(b, t, z.s, z.x.phase.issued + tm.lease);
    case _ =>
  }

  /** With fenced acks, the attempt owns its row and its lease throughout every run. */
  lemma {:induction false} FencedKeepsRow(b: Dialect, rules: Rules, tm: Timing, t: Token, w: World, moves: seq<Move>)
    requires Wellposed(tm) && Steady(tm) && Kept(b, rules, tm, t, w) && Exact(b, rules) && rules.cleanRequeue
    requires Playable(b, rules, tm, t, w, moves)
    ensures OwnedThrough(b, tm, t, w, moves) && !Lapsed(t, Play(b, tm, t, w, moves).s)
    decreases |moves|
  {
    if moves != [] {
      FencedMove(b, rules, tm, t, w, moves[0]);
      KeptMove(b, rules, tm, t, w, moves[0]);
      FencedKeepsRow(b, rules, tm, t, DoMove(b, tm, t, w, moves[0]), moves[1..]);
    }
  }

  lemma FencedMove(b: Dialect, rules: Rules, tm: Timing, t: Token, w: World, m: Move)
    requires Wellposed(tm) && Kept(b, rules, tm, t, w) && Exact(b, rules) && rules.cleanRequeue
    requires CanMove(rules, tm, t, w, m)
    ensures Owned(t, DoMove(b, tm, t, w, m).s)
  {
    LossIsAck(b, rules, tm, t, w, m);
    if m.Env? { NoAckTakes(b, t, w.s, m.step); }
  }

  /** Whatever everyone else does, the attempt keeps its row and its lease. */
  ghost predicate AlwaysHeld(b: Dialect, rules: Rules, tm: Timing, t: Token, w: World) {
    forall moves :: Playable(b, rules, tm, t, w, moves) ==>
      OwnedThrough(b, tm, t, w, moves) && !Lapsed(t, Play(b, tm, t, w, moves).s)
  }

  lemma RoomyHolds(b: Dialect, rules: Rules, tm: Timing, t: Token, w: World)
    requires Wellposed(tm) && Steady(tm) && Kept(b, rules, tm, t, w) && Exact(b, rules) && rules.cleanRequeue
    ensures AlwaysHeld(b, rules, tm, t, w)
  {
    forall moves | Playable(b, rules, tm, t, w, moves)
      ensures OwnedThrough(b, tm, t, w, moves) && !Lapsed(t, Play(b, tm, t, w, moves).s)
    {
      FencedKeepsRow(b, rules, tm, t, w, moves);
    }
  }

  lemma RowHeldIff(b: Dialect, rules: Rules, tm: Timing, t: Token, w: World)
    requires Starting(b, rules, tm, t, w) && Exact(b, rules) && rules.cleanRequeue
    ensures AlwaysHeld(b, rules, tm, t, w) <==> Roomy(tm, w.s.now, Until(t, w.s))
  {
    if Roomy(tm, w.s.now, Until(t, w.s)) {
      RoomyHolds(b, rules, tm, t, w);
    } else {
      var moves := Lapses(b, rules, tm, t, w);
    }
  }

  // ----- What that means in numbers ----------------------------------------------------

  /** With a prompt extender and nothing before or after it, the bound on one call is half the lease, not two thirds. */
  lemma HalfLease(lease: int, latency: nat)
    requires lease >= 300 * MILLISECOND
    ensures Steady(Timing(lease, Interval(lease), 0, 0, latency, 0)) <==> 2 * latency <= lease
    ensures exists slow: nat :: 3 * slow < 2 * lease && !Steady(Timing(lease, Interval(lease), 0, 0, slow, 0))
  {
    var slow := lease / 2 + 1;
    assert 3 * slow < 2 * lease && !Steady(Timing(lease, Interval(lease), 0, 0, slow, 0));
  }

  /**
   However prompt the extender, waiting for a slot and for the outcome write may take two thirds of
   the lease together, no more; of a lease below 300 ms, what 100 ms leave.
   */
  lemma TwoThirds(lease: int, wait: nat, tail: nat, start: Time)
    ensures Roomy(Timing(lease, Interval(lease), wait, 0, 0, tail), start, start + lease)
       <==> wait + tail <= lease - if lease < 300 * MILLISECOND then 100 * MILLISECOND else lease / 3
  {
  }

  /** So the default lease of 30 s is outlasted by one flush of 30 s, or by a wait behind one handler of 35 s. */
  lemma DefaultLeaseOutlasted(start: Time)
    ensures !Roomy(Timing(30 * SECOND, Interval(30 * SECOND), 0, 0, 0, 30 * SECOND), start, start + 30 * SECOND)
    ensures !Roomy(Timing(30 * SECOND, Interval(30 * SECOND), 35 * SECOND, 0, 0, 0), start, start + 30 * SECOND)
  {
    TwoThirds(30 * SECOND, 0, 30 * SECOND, start);
    TwoThirds(30 * SECOND, 35 * SECOND, 0, start);
  }
}
