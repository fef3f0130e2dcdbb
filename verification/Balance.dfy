/** Each engine step writes the outcome of some messages it held, and of those only. */
module Balance {
  import opened Dispatch
  import opened Engine
  import P = AckPipeline

  /** Copies of x the engine still has to settle. */
  function Held(s: State, x: Token): nat {
    Tokens(s.jobs)[x] + Sum(Holding(x), s.runs) + multiset(s.pipe.chan)[x] + multiset(s.pipe.buf)[x]
  }

  /** Copies of x whose outcome was handed to storage. */
  function Gone(s: State, x: Token): nat {
    s.refused[x] + s.handedBack[x] + s.settled[x] + multiset(P.Concat(s.pipe.flushes))[x]
  }

  /** The batch a flusher step hands over, or nothing. */
  function FlushedBy(p: P.Pipeline, p': P.Pipeline): seq<Token> {
    if |p'.flushes| > |p.flushes| then p'.flushes[|p'.flushes| - 1] else []
  }

  /** The messages whose outcome this action writes. */
  function Spent(cfg: Config, s: State, a: Action): seq<Token>
    requires Enabled(cfg, s, a)
  {
    match a
    case NoHandler => [s.jobs[0][0]]
    case HandBack => [s.jobs[0][0]]
    case Handler(k, move) =>
      if move.Commit? && !Posts(cfg, s.runs[k]) then [s.runs[k].job[s.runs[k].phase.next]] else []
    case Receive => FlushedBy(s.pipe, Do(cfg, s, a).pipe)
    case FlushTick => FlushedBy(s.pipe, Do(cfg, s, a).pipe)
    case CloseSeen => FlushedBy(s.pipe, Do(cfg, s, a).pipe)
    case _ => []
  }

  /** Every claimed copy is held or gone. */
  lemma Balanced(cfg: Config, s: State, x: Token)
    requires Ledger(s) && P.Inv(s.pipe, cfg.Batch())
    ensures s.claimed[x] == Held(s, x) + Gone(s, x)
  {
    var p := s.pipe;
    assert multiset(p.sends)[x] == multiset(P.Concat(p.flushes))[x] + multiset(p.buf)[x] + multiset(p.chan)[x] by {
      assert multiset(p.sends) == multiset(P.Concat(p.flushes) + p.buf) + multiset(p.chan);
    }
    assert s.invoked[x] == Traced(s, x);
  }

  /** What a flush step sends comes from the buffer and the channel's front. */
  lemma FlushedFrom(p: P.Pipeline, n: nat, x: Token)
    ensures x in FlushedBy(p, P.Flush(p)) ==> x in p.buf
    ensures x in FlushedBy(p, P.Finish(p)) ==> x in p.buf
    ensures p.chan != [] && x in FlushedBy(p, P.Receive(p, n)) ==> x in p.buf || x in p.chan
  {
  }

  lemma RestHeld(s: State, k: nat, x: Token)
    requires k < |s.runs| && x in s.runs[k].Rest()
    ensures Held(s, x) >= 1
  {
    SumHas(Holding(x), s.runs, k);
  }

  lemma HeadHeld(s: State)
    requires s.jobs != [] && s.jobs[0] != []
    ensures Held(s, s.jobs[0][0]) >= 1
  {
    TokensHead(s.jobs);
    assert s.jobs[0][0] in multiset(s.jobs[0]);
  }

  predicate Flushing(a: Action) { a.Receive? || a.FlushTick? || a.CloseSeen? }

  lemma FlushHeld(cfg: Config, s: State, a: Action, x: Token)
    requires Enabled(cfg, s, a) && Flushing(a) && x in Spent(cfg, s, a)
    ensures x in s.pipe.buf || x in s.pipe.chan
    ensures Held(s, x) >= 1
  {
    FlushedFrom(s.pipe, cfg.Batch(), x);
  }

  lemma SpentHeld(cfg: Config, s: State, a: Action, x: Token)
    requires Enabled(cfg, s, a) && x in Spent(cfg, s, a)
    ensures Held(s, x) >= 1
  {
    if Flushing(a) {
      FlushHeld(cfg, s, a, x);
    } else if a.Handler? {
      RestMove(s, s.runs[a.k], a.move);
      assert x == s.runs[a.k].Rest()[0];
      RestHeld(s, a.k, x);
    } else {
      HeadHeld(s);
    }
  }

  lemma FlushGone(p: P.Pipeline, p': P.Pipeline, x: Token)
    requires p'.flushes == p.flushes || exists b :: p'.flushes == p.flushes + [b]
    ensures multiset(P.Concat(p'.flushes))[x] == multiset(P.Concat(p.flushes))[x] + multiset(FlushedBy(p, p'))[x]
  {
    if p'.flushes != p.flushes {
      var b :| p'.flushes == p.flushes + [b];
      assert p'.flushes[..|p'.flushes| - 1] == p.flushes;
    }
  }

  lemma GoneFlush(cfg: Config, s: State, a: Action, x: Token)
    requires Enabled(cfg, s, a) && Flushing(a)
    ensures Gone(Do(cfg, s, a), x) == Gone(s, x) + multiset(Spent(cfg, s, a))[x]
  {
    FlushGone(s.pipe, Do(cfg, s, a).pipe, x);
  }

  lemma GoneMove(cfg: Config, s: State, k: nat, move: Move, x: Token)
    requires Enabled(cfg, s, Handler(k, move))
    ensures Gone(DoMove(cfg, s, k, move), x) == Gone(s, x) + multiset(Spent(cfg, s, Handler(k, move)))[x]
  {
    var s', spent := DoMove(cfg, s, k, move), Spent(cfg, s, Handler(k, move));
    assert s'.pipe.flushes == s.pipe.flushes && s'.refused == s.refused && s'.handedBack == s.handedBack;
    assert s'.settled == s.settled + multiset(spent);
  }

  lemma GoneAct(cfg: Config, s: State, a: Action, x: Token)
    requires Enabled(cfg, s, a)
    ensures Gone(Do(cfg, s, a), x) == Gone(s, x) + multiset(Spent(cfg, s, a))[x]
  {
    if Flushing(a) {
      GoneFlush(cfg, s, a, x);
    } else if a.Handler? {
      GoneMove(cfg, s, a.k, a.move, x);
    } else {
      assert Do(cfg, s, a).pipe.flushes == s.pipe.flushes;
    }
  }

  lemma ClaimedAct(cfg: Config, s: State, a: Action)
    requires Enabled(cfg, s, a)
    ensures Do(cfg, s, a).claimed == s.claimed
  {
  }
}
