/** The whole system can always deliver: from every reachable state some run of it ends a message in SUCCESS. */
module Delivery {
  import opened Rows
  import opened Dispatch
  import opened Outcomes
  import opened Fleet
  import opened FleetRuns
  import E = Engine
  import B = Balance
  import AP = AckPipeline
  import O = Protocol
  import Runs
  import Guards

  /** Some run from here ends the message in SUCCESS. */
  ghost predicate Delivers(b: Dialect, rules: O.Rules, f: State, i: Id) {
    exists run :: Valid(b, rules, f, run) && Succeeded(Exec(b, rules, f, run), i)
  }

  predicate Succeeded(f: State, i: Id) {
    i in f.sys.rows && f.sys.rows[i].status == SUCCESS
  }

  lemma Arrived(b: Dialect, rules: O.Rules, f: State, i: Id)
    requires Succeeded(f, i)
    ensures Delivers(b, rules, f, i)
  {
    assert Valid(b, rules, f, []) && Exec(b, rules, f, []) == f;
  }

  /** A state one step before a state that delivers. */
  lemma Before(b: Dialect, rules: O.Rules, f: State, st: Step, i: Id)
    requires Possible(rules, f, st) && Delivers(b, rules, Next(b, rules, f, st), i)
    ensures Delivers(b, rules, f, i)
  {
    var rest :| Valid(b, rules, Next(b, rules, f, st), rest)
                && Succeeded(Exec(b, rules, Next(b, rules, f, st), rest), i);
    assert ([st] + rest)[1..] == rest;
    assert Valid(b, rules, f, [st] + rest);
    assert Exec(b, rules, f, [st] + rest) == Exec(b, rules, Next(b, rules, f, st), rest);
  }

  lemma EnvStep(b: Dialect, rules: O.Rules, f: State, step: O.Step)
    requires Outside(step) && O.Enabled(f.sys, step) && O.Allowed(rules, f.sys, step)
    ensures Possible(rules, f, Env(step)) && Next(b, rules, f, Env(step)) == f.(sys := O.Do(b, f.sys, step))
  {
    ExecOne(b, f.sys, step);
  }

  predicate Due(f: State, i: Id) {
    i in f.sys.rows && f.sys.rows[i].Pending() && f.sys.rows[i].processAt <= f.sys.now
  }

  // ----- One new engine serves it ------------------------------------------------------

  /** A worker with one plain handler and batched acks. */
  function Setup(et: EventType): E.Config {
    E.Config(map[et := Registration(false, 0, 0, 0)], 0, 0, true)
  }

  // Its engine after the claim, with a pool slot, with the handler running, returned, posted and buffered.

  function Queued(t: Token): E.State { E.Fresh().(jobs := [[t]], claimed := multiset{t}) }

  function Slotted(t: Token): E.State { Queued(t).(mode := E.Pooled, pool := 1) }

  function Running(t: Token): E.State {
    E.Fresh().(claimed := multiset{t}, invoked := multiset{t}, pool := 1, runs := [E.Run([t], false, true, E.Invoked)])
  }

  function Ended(t: Token, next: nat): E.State {
    Running(t).(runs := [E.Run([t], false, true, E.Committing(None, OutcomeSuccess, next))])
  }

  function Posted(t: Token): E.State { Ended(t, 1).(pipe := AP.Empty().(chan := [t], sends := [t])) }

  function Buffered(t: Token): E.State { Ended(t, 1).(pipe := AP.Empty().(buf := [t], sends := [t])) }

  lemma PlanOne(t: Token)
    ensures IsPlan(Setup(t.eventType).reg, [t], [[t]])
  {
    assert [[t]][..0] == [] && [t][..0] == [];
    forall et ensures Laid([[t]], et) == OfType([t], et) {
      assert Laid([], et) == [] && OfType([], et) == [];
    }
  }

  /** The engine takes these steps one after the other. */
  lemma Dispatches(t: Token)
    ensures var cfg := Setup(t.eventType);
            && E.Poll(E.Fresh(), [t], [[t]]) == Queued(t)
            && E.Enabled(cfg, Queued(t), E.TakePool) && E.Do(cfg, Queued(t), E.TakePool) == Slotted(t)
            && E.Enabled(cfg, Slotted(t), E.Start) && E.Do(cfg, Slotted(t), E.Start) == Running(t)
  {
    assert E.Poll(E.Fresh(), [t], [[t]]).claimed == multiset{t};
    assert E.Do(Setup(t.eventType), Slotted(t), E.Start) == Running(t);
  }

  lemma Settles(t: Token)
    ensures var cfg := Setup(t.eventType);
            && E.Enabled(cfg, Running(t), E.Handler(0, E.End(None)))
            && E.Do(cfg, Running(t), E.Handler(0, E.End(None))) == Ended(t, 0)
            && E.Enabled(cfg, Ended(t, 0), E.Handler(0, E.Commit(false, 0)))
            && E.Do(cfg, Ended(t, 0), E.Handler(0, E.Commit(false, 0))) == Posted(t)
            && E.Enabled(cfg, Posted(t), E.Receive) && E.Do(cfg, Posted(t), E.Receive) == Buffered(t)
            && E.Enabled(cfg, Buffered(t), E.FlushTick)
  {
    assert [] + [t] == [t];
  }

  /** A step without a storage call moves one engine and nothing else. */
  lemma QuietStep(b: Dialect, rules: O.Rules, f: State, w: WorkerId, a: E.Action)
    requires w in f.workers && E.Enabled(f.workers[w].cfg, f.workers[w].e, a)
    requires B.Spent(f.workers[w].cfg, f.workers[w].e, a) == [] && !(a.Handler? && a.move.End?)
    ensures Possible(rules, f, Work(w, a, false))
    ensures Next(b, rules, f, Work(w, a, false)) ==
            f.(workers := f.workers[w := f.workers[w].(e := E.Do(f.workers[w].cfg, f.workers[w].e, a))])
  {
    assert Reported(f.workers[w], a) == {};
    assert f.reports + {} == f.reports;
  }

  lemma ClaimStep(b: Dialect, rules: O.Rules, f: State, w: WorkerId, i: Id, until: Time)
    requires Due(f, i) && w in f.workers && f.workers[w] == Worker(Setup(f.sys.rows[i].eventType), E.Fresh())
    requires forall u :: u in f.sys.live ==> u.worker != w
    ensures var t := O.TokenFor(f.sys, i, w); var st := Poll(w, {i}, until, [t], [[t]], false);
            && Possible(rules, f, st)
            && Next(b, rules, f, st) ==
               f.(sys := O.DoClaim(f.sys, w, {i}, until), workers := f.workers[w := f.workers[w].(e := Queued(t))])
  {
    var t := O.TokenFor(f.sys, i, w);
    PlanOne(t);
    assert O.NewTokens(f.sys, {i}, w) == {t};
    assert multiset([t]) == multiset({t});
    Dispatches(t);
    ExecOne(b, f.sys, O.Claim(w, {i}, until));
  }

  lemma ReturnStep(b: Dialect, rules: O.Rules, f: State, w: WorkerId, t: Token)
    requires w in f.workers && f.workers[w] == Worker(Setup(t.eventType), Running(t))
    ensures var st := Work(w, E.Handler(0, E.End(None)), false);
            && Possible(rules, f, st)
            && Next(b, rules, f, st).sys == f.sys.(succeeded := f.sys.succeeded + {t})
            && Next(b, rules, f, st).workers == f.workers[w := Worker(Setup(t.eventType), Ended(t, 0))]
  {
    Settles(t);
    assert Set([t]) == {t};
    ExecOne(b, f.sys, O.Return({t}));
  }

  lemma FlushStep(b: Dialect, rules: O.Rules, f: State, w: WorkerId, t: Token)
    requires w in f.workers && f.workers[w] == Worker(Setup(t.eventType), Buffered(t))
    requires t.id in f.sys.rows && BatchAccepts(f.sys.rows[t.id], t.attempt)
    ensures var st := Work(w, E.FlushTick, false);
            Possible(rules, f, st) && Succeeded(Next(b, rules, f, st), t.id)
  {
    Settles(t);
    assert B.Spent(Setup(t.eventType), Buffered(t), E.FlushTick) == [t];
    ExecOne(b, f.sys, O.BatchSucceed([t]));
    assert O.Batched(f.sys.rows[t.id], t.id, [t]) by { assert t in [t]; }
  }

  lemma PostStep(b: Dialect, rules: O.Rules, f: State, w: WorkerId, t: Token)
    requires w in f.workers && f.workers[w] == Worker(Setup(t.eventType), Ended(t, 0))
    ensures var st := Work(w, E.Handler(0, E.Commit(false, 0)), false);
            && Possible(rules, f, st)
            && Next(b, rules, f, st) == f.(workers := f.workers[w := Worker(Setup(t.eventType), Posted(t))])
  {
    Settles(t);
    QuietStep(b, rules, f, w, E.Handler(0, E.Commit(false, 0)));
  }

  lemma ReceiveStep(b: Dialect, rules: O.Rules, f: State, w: WorkerId, t: Token)
    requires w in f.workers && f.workers[w] == Worker(Setup(t.eventType), Posted(t))
    ensures var st := Work(w, E.Receive, false);
            && Possible(rules, f, st)
            && Next(b, rules, f, st) == f.(workers := f.workers[w := Worker(Setup(t.eventType), Buffered(t))])
  {
    Settles(t);
    QuietStep(b, rules, f, w, E.Receive);
  }

  /** From the handler's return through channel, buffer and flush to the success write. */
  lemma Acknowledge(b: Dialect, rules: O.Rules, f: State, w: WorkerId, t: Token)
    requires w in f.workers && f.workers[w] == Worker(Setup(t.eventType), Ended(t, 0))
    requires t.id in f.sys.rows && BatchAccepts(f.sys.rows[t.id], t.attempt)
    ensures Delivers(b, rules, f, t.id)
  {
    var f1 := f.(workers := f.workers[w := Worker(Setup(t.eventType), Posted(t))]);
    var f2 := f1.(workers := f1.workers[w := Worker(Setup(t.eventType), Buffered(t))]);
    FlushStep(b, rules, f2, w, t);
    Arrived(b, rules, Next(b, rules, f2, Work(w, E.FlushTick, false)), t.id);
    Before(b, rules, f2, Work(w, E.FlushTick, false), t.id);
    ReceiveStep(b, rules, f1, w, t);
    Before(b, rules, f1, Work(w, E.Receive, false), t.id);
    PostStep(b, rules, f, w, t);
    Before(b, rules, f, Work(w, E.Handler(0, E.Commit(false, 0)), false), t.id);
  }

  lemma Return(b: Dialect, rules: O.Rules, f: State, w: WorkerId, t: Token)
    requires w in f.workers && f.workers[w] == Worker(Setup(t.eventType), Running(t))
    requires t.id in f.sys.rows && BatchAccepts(f.sys.rows[t.id], t.attempt)
    ensures Delivers(b, rules, f, t.id)
  {
    var end := Work(w, E.Handler(0, E.End(None)), false);
    ReturnStep(b, rules, f, w, t);
    Acknowledge(b, rules, Next(b, rules, f, end), w, t);
    Before(b, rules, f, end, t.id);
  }

  /** From the claim to the handler. */
  lemma Handle(b: Dialect, rules: O.Rules, f: State, w: WorkerId, t: Token)
    requires w in f.workers && f.workers[w] == Worker(Setup(t.eventType), Queued(t))
    requires t.id in f.sys.rows && BatchAccepts(f.sys.rows[t.id], t.attempt)
    ensures Delivers(b, rules, f, t.id)
  {
    Dispatches(t);
    QuietStep(b, rules, f, w, E.TakePool);
    var f1 := Next(b, rules, f, Work(w, E.TakePool, false));
    QuietStep(b, rules, f1, w, E.Start);
    Return(b, rules, Next(b, rules, f1, Work(w, E.Start, false)), w, t);
    Before(b, rules, f1, Work(w, E.Start, false), t.id);
    Before(b, rules, f, Work(w, E.TakePool, false), t.id);
  }

  /** A new engine claims the message. */
  lemma TakeUp(b: Dialect, rules: O.Rules, f: State, i: Id, w: WorkerId)
    requires Due(f, i) && w in f.workers && f.workers[w] == Worker(Setup(f.sys.rows[i].eventType), E.Fresh())
    requires forall u :: u in f.sys.live ==> u.worker != w
    ensures Delivers(b, rules, f, i)
  {
    var t, until := O.TokenFor(f.sys, i, w), f.sys.now + Runs.LEASE;
    var poll := Poll(w, {i}, until, [t], [[t]], false);
    ClaimStep(b, rules, f, w, i, until);
    Handle(b, rules, Next(b, rules, f, poll), w, t);
    Before(b, rules, f, poll, i);
  }

  /** A name no worker has and no live claim carries. */
  lemma FreshName(f: State) returns (w: WorkerId)
    ensures w !in f.workers && forall u :: u in f.sys.live ==> u.worker != w
  {
    var claimants := set u | u in f.sys.live :: u.worker;
    assert forall u :: u in f.sys.live ==> u.worker in claimants;
    w := Guards.LongerName(f.workers.Keys + claimants);
  }

  lemma Serve(b: Dialect, rules: O.Rules, f: State, i: Id)
    requires Due(f, i)
    ensures Delivers(b, rules, f, i)
  {
    var w := FreshName(f);
    var boot := Boot(w, Setup(f.sys.rows[i].eventType));
    TakeUp(b, rules, Next(b, rules, f, boot), i, w);
    Before(b, rules, f, boot, i);
  }

  /** Waiting is enough for a pending message; a stalled one is reclaimed when its lease is over. */
  lemma FallDue(b: Dialect, rules: O.Rules, f: State, i: Id)
    requires i in f.sys.rows && !f.sys.rows[i].Terminal() && f.sys.rows[i].status != FAILED && !rules.cappedReclaim
    requires f.sys.rows[i].status == HANDLING ==> f.sys.rows[i].claimedUntil.Some?
    ensures Delivers(b, rules, f, i)
  {
    var r := f.sys.rows[i];
    var wait := Runs.Wait(f.sys, if r.Pending() then r.processAt else r.claimedUntil.value + 1);
    EnvStep(b, rules, f, wait);
    var f1 := Next(b, rules, f, Env(wait));
    if r.Pending() {
      Serve(b, rules, f1, i);
    } else {
      EnvStep(b, rules, f1, O.Reclaim({i}));
      Serve(b, rules, Next(b, rules, f1, Env(O.Reclaim({i}))), i);
      Before(b, rules, f1, Env(O.Reclaim({i})), i);
    }
    Before(b, rules, f, Env(wait), i);
  }

  /** However engines crashed, stalled or lost their writes before, every unfinished message can still be delivered. */
  lemma CanStillDeliver(b: Dialect, rules: O.Rules, f0: State, before: seq<Step>, i: Id)
    requires Initial(f0) && Valid(b, rules, f0, before) && !rules.cappedReclaim
    requires i in Exec(b, rules, f0, before).sys.rows && !Exec(b, rules, f0, before).sys.rows[i].Terminal()
    ensures Delivers(b, rules, Exec(b, rules, f0, before), i)
  {
    var f := Exec(b, rules, f0, before);
    assert O.WellFormed(b, f.sys.rows[i]) by {
      InitialInv(b, rules, f0);
      var _ := FleetRefinesProtocol(b, rules, f0, before);
    }
    FallDue(b, rules, f, i);
  }
}
