/**
 Every step of the protocol keeps its invariants, and so does every run.

 The three statements with the widest effect (claim, ack, batched success) get a lemma of
 their own for each invariant, so that each proof obligation stays small.
 */
module Invariants {
  import opened Rows
  import opened Protocol
  import opened Funding

  /** What the conditional invariants build on. */
  ghost predicate Tame(b: Dialect, rules: Rules, s: State) {
    TableInv(b, s) && TokenInv(s) && (rules.soloClaim ==> Solo(s))
  }

  lemma TableBatch(b: Dialect, rules: Rules, s: State, ts: seq<Token>)
    requires TableInv(b, s) && Enabled(s, BatchSucceed(ts))
    ensures TableInv(b, Do(b, s, BatchSucceed(ts)))
  {
  }

  lemma TableClaim(b: Dialect, rules: Rules, s: State, w: WorkerId, ids: set<Id>, until: Time)
    requires TableInv(b, s) && Enabled(s, Claim(w, ids, until)) && Allowed(rules, s, Claim(w, ids, until))
    ensures TableInv(b, DoClaim(s, w, ids, until))
  {
  }

  lemma TableAck(b: Dialect, rules: Rules, s: State, t: Token, what: Write)
    requires TableInv(b, s) && Enabled(s, Step.Ack(t, what))
    ensures TableInv(b, DoAck(b, s, t, what))
  {
  }

  lemma TableStep(b: Dialect, rules: Rules, s: State, step: Step)
    requires TableInv(b, s) && Enabled(s, step) && Allowed(rules, s, step)
    ensures TableInv(b, Do(b, s, step))
  {
    match step
    case Claim(w, ids, until) => TableClaim(b, rules, s, w, ids, until);
    case Ack(t, what) => TableAck(b, rules, s, t, what);
    case BatchSucceed(ts) => TableBatch(b, rules, s, ts);
    case _ => TableOther(b, s, step);
  }

  lemma TableOther(b: Dialect, s: State, step: Step)
    requires TableInv(b, s) && Enabled(s, step) && !step.Claim? && !step.Ack? && !step.BatchSucceed?
    ensures TableInv(b, Do(b, s, step))
  {
    var s' := Do(b, s, step);
    assert s'.rows.Keys <= s'.used;
    forall i | i in s'.rows ensures WellFormed(b, s'.rows[i]) {
      assert i in s.rows ==> WellFormed(b, s.rows[i]);
    }
  }

  /** A statement other than a claim makes no row HANDLING and rewrites no claim. */
  predicate Calm(s: State, i: Id, r: Row) {
    if i in s.rows then
      && r.maxAttempts == s.rows[i].maxAttempts
      && (r.status == HANDLING ==>
            s.rows[i].status == HANDLING && r.attempt == s.rows[i].attempt && r.claimedBy == s.rows[i].claimedBy)
    else r.status != HANDLING && i !in s.used
  }

  lemma CalmWrite(b: Dialect, s: State, step: Step, i: Id)
    requires (step.Ack? || step.BatchSucceed?) && i in Do(b, s, step).rows
    ensures Calm(s, i, Do(b, s, step).rows[i])
  {
  }

  lemma CalmStep(b: Dialect, s: State, step: Step, i: Id)
    requires s.rows.Keys <= s.used && Enabled(s, step) && !step.Claim? && i in Do(b, s, step).rows
    ensures Calm(s, i, Do(b, s, step).rows[i])
  {
    if step.Ack? || step.BatchSucceed? { CalmWrite(b, s, step, i); }
  }

  lemma TokenFrame(s: State, s': State)
    requires TokenInv(s) && s'.live <= s.live && s.used <= s'.used && s'.last == s.last && s'.nextNo == s.nextNo
    requires forall t :: t in s'.succeeded ==> t in s.succeeded || t in s.live
    requires forall i :: i in s'.rows ==> Calm(s, i, s'.rows[i])
    ensures TokenInv(s')
  {
  }

  lemma TokenClaim(b: Dialect, rules: Rules, s: State, w: WorkerId, ids: set<Id>, until: Time)
    requires TableInv(b, s) && TokenInv(s) && Enabled(s, Claim(w, ids, until))
    requires Allowed(rules, s, Claim(w, ids, until))
    ensures TokenInv(DoClaim(s, w, ids, until))
  {
  }

  lemma TokenStep(b: Dialect, rules: Rules, s: State, step: Step)
    requires TableInv(b, s) && TokenInv(s) && Enabled(s, step) && Allowed(rules, s, step)
    ensures TokenInv(Do(b, s, step))
  {
    if step.Claim? {
      TokenClaim(b, rules, s, step.worker, step.ids, step.until);
    } else {
      var s' := Do(b, s, step);
      forall i | i in s'.rows ensures Calm(s, i, s'.rows[i]) { CalmStep(b, s, step, i); }
      TokenFrame(s, s');
    }
  }

  lemma CountedClaim(b: Dialect, rules: Rules, s: State, w: WorkerId, ids: set<Id>, until: Time)
    requires TableInv(b, s) && Counted(s) && Enabled(s, Claim(w, ids, until)) && Allowed(rules, s, Claim(w, ids, until))
    ensures Counted(DoClaim(s, w, ids, until))
  {
  }

  lemma CountedAck(b: Dialect, rules: Rules, s: State, t: Token, what: Write)
    requires TableInv(b, s) && Counted(s) && Enabled(s, Step.Ack(t, what))
    ensures Counted(DoAck(b, s, t, what))
  {
  }

  lemma CountedStep(b: Dialect, rules: Rules, s: State, step: Step)
    requires TableInv(b, s) && Counted(s) && Enabled(s, step) && Allowed(rules, s, step)
    ensures Counted(Do(b, s, step))
  {
    match step
    case Claim(w, ids, until) => CountedClaim(b, rules, s, w, ids, until);
    case Ack(t, what) => CountedAck(b, rules, s, t, what);
    case _ =>
  }

  lemma SoloClaim(b: Dialect, rules: Rules, s: State, w: WorkerId, ids: set<Id>, until: Time)
    requires Tame(b, rules, s) && Enabled(s, Claim(w, ids, until)) && Allowed(rules, s, Claim(w, ids, until))
    requires rules.soloClaim
    ensures Solo(DoClaim(s, w, ids, until))
  {
  }

  lemma SoloAck(b: Dialect, rules: Rules, s: State, t: Token, what: Write)
    requires Tame(b, rules, s) && Enabled(s, Step.Ack(t, what))
    requires rules.soloClaim
    ensures Solo(DoAck(b, s, t, what))
  {
  }

  lemma SoloStep(b: Dialect, rules: Rules, s: State, step: Step)
    requires Tame(b, rules, s) && Enabled(s, step) && Allowed(rules, s, step)
    requires rules.soloClaim
    ensures Solo(Do(b, s, step))
  {
    match step
    case Claim(w, ids, until) => SoloClaim(b, rules, s, w, ids, until);
    case Ack(t, what) => SoloAck(b, rules, s, t, what);
    case _ =>
  }

  lemma OrderedClaim(b: Dialect, rules: Rules, s: State, w: WorkerId, ids: set<Id>, until: Time)
    requires Tame(b, rules, s) && Ordered(s) && Enabled(s, Claim(w, ids, until))
    requires Allowed(rules, s, Claim(w, ids, until))
    requires Exact(b, rules) && rules.cleanRequeue
    ensures Ordered(DoClaim(s, w, ids, until))
  {
  }

  lemma OrderedAck(b: Dialect, rules: Rules, s: State, t: Token, what: Write)
    requires Tame(b, rules, s) && Ordered(s) && Enabled(s, Step.Ack(t, what))
    requires Exact(b, rules) && rules.cleanRequeue
    ensures Ordered(DoAck(b, s, t, what))
  {
  }

  lemma OrderedStep(b: Dialect, rules: Rules, s: State, step: Step)
    requires Tame(b, rules, s) && Ordered(s) && Enabled(s, step) && Allowed(rules, s, step)
    requires Exact(b, rules) && rules.cleanRequeue
    ensures Ordered(Do(b, s, step))
  {
    match step
    case Claim(w, ids, until) => OrderedClaim(b, rules, s, w, ids, until);
    case Ack(t, what) => OrderedAck(b, rules, s, t, what);
    case _ =>
  }

  lemma EvidenceBatch(b: Dialect, rules: Rules, s: State, ts: seq<Token>, latest: bool)
    requires Tame(b, rules, s) && Evidence(s, latest) && (latest ==> Ordered(s)) && Enabled(s, BatchSucceed(ts))
    ensures Evidence(Do(b, s, BatchSucceed(ts)), latest)
  {
  }

  lemma EvidenceClaim(b: Dialect, rules: Rules, s: State, w: WorkerId, ids: set<Id>, until: Time, latest: bool)
    requires Tame(b, rules, s) && Evidence(s, latest) && Enabled(s, Claim(w, ids, until))
    ensures Evidence(DoClaim(s, w, ids, until), latest)
  {
  }

  lemma EvidenceAck(b: Dialect, rules: Rules, s: State, t: Token, what: Write, latest: bool)
    requires Tame(b, rules, s) && Evidence(s, latest) && (latest ==> Ordered(s)) && Enabled(s, Step.Ack(t, what))
    requires Exact(b, rules) || !what.Succeed?
    ensures Evidence(DoAck(b, s, t, what), latest)
  {
  }

  /** A step that writes no success leaves the SUCCESS rows as they are, or takes them away. */
  lemma EvidenceFrame(s: State, s': State, latest: bool)
    requires Evidence(s, latest) && s.succeeded <= s'.succeeded && s'.last == s.last
    requires forall i :: i in s'.rows && s'.rows[i].status == SUCCESS ==>
               i in s.rows && s.rows[i].status == SUCCESS && s'.rows[i].attempt == s.rows[i].attempt
    ensures Evidence(s', latest)
  {
  }

  lemma SuccessKept(b: Dialect, s: State, step: Step, i: Id)
    requires s.rows.Keys <= s.used && Enabled(s, step) && !step.Claim? && !step.Ack? && !step.BatchSucceed?
    requires i in Do(b, s, step).rows && Do(b, s, step).rows[i].status == SUCCESS
    ensures i in s.rows && s.rows[i].status == SUCCESS && Do(b, s, step).rows[i].attempt == s.rows[i].attempt
  {
  }

  lemma EvidenceOther(b: Dialect, s: State, step: Step, latest: bool)
    requires s.rows.Keys <= s.used && Evidence(s, latest) && Enabled(s, step) && !step.Claim? && !step.Ack?
    requires !step.BatchSucceed?
    ensures Evidence(Do(b, s, step), latest)
  {
    var s' := Do(b, s, step);
    forall i | i in s'.rows && s'.rows[i].status == SUCCESS
      ensures i in s.rows && s.rows[i].status == SUCCESS && s'.rows[i].attempt == s.rows[i].attempt
    {
      SuccessKept(b, s, step, i);
    }
    EvidenceFrame(s, s', latest);
  }

  lemma EvidenceStep(b: Dialect, rules: Rules, s: State, step: Step, latest: bool)
    requires Tame(b, rules, s) && Evidence(s, latest) && (latest ==> Ordered(s)) && Enabled(s, step)
    requires Allowed(rules, s, step)
    requires Earnest(b, rules)
    ensures Evidence(Do(b, s, step), latest)
  {
    match step
    case Claim(w, ids, until) => EvidenceClaim(b, rules, s, w, ids, until, latest);
    case Ack(t, what) => EvidenceAck(b, rules, s, t, what, latest);
    case BatchSucceed(ts) => EvidenceBatch(b, rules, s, ts, latest);
    case _ => EvidenceOther(b, s, step, latest);
  }

  lemma BoundedBatch(b: Dialect, s: State, ts: seq<Token>, capped: bool)
    requires TableInv(b, s) && Bounded(s, capped) && Enabled(s, BatchSucceed(ts))
    ensures Bounded(Do(b, s, BatchSucceed(ts)), capped)
  {
  }

  lemma BoundedClaim(b: Dialect, s: State, w: WorkerId, ids: set<Id>, until: Time, capped: bool)
    requires TableInv(b, s) && Bounded(s, capped) && Enabled(s, Claim(w, ids, until))
    ensures Bounded(DoClaim(s, w, ids, until), capped)
  {
  }

  /** An accepted retry finds the row within its allowance. */
  ghost predicate Affordable(b: Dialect, s: State, t: Token, what: Write, capped: bool) {
    (what.FailRetry? && t.id in s.rows && t.id in s.accounts && Accepts(b, s.rows[t.id], t.attempt, t.worker)) ==>
      s.rows[t.id].attempt < Allowance(s, t.id, capped)
  }

  lemma BoundedAck(b: Dialect, s: State, t: Token, what: Write, capped: bool)
    requires TableInv(b, s) && Bounded(s, capped) && Enabled(s, Step.Ack(t, what)) && Affordable(b, s, t, what, capped)
    ensures Bounded(DoAck(b, s, t, what), capped)
  {
    var s' := DoAck(b, s, t, what);
    forall i | i in s'.rows ensures BoundedAt(s', i, capped) { BoundedAckAt(b, s, t, what, capped, i); }
  }

  ghost predicate BoundedAt(s: State, i: Id, capped: bool)
    requires i in s.rows
  {
    && i in s.accounts
    && s.rows[i].attempt <= Allowance(s, i, capped)
    && (s.rows[i].Pending() ==> s.rows[i].attempt < Allowance(s, i, capped))
  }

  lemma BoundedAckAt(b: Dialect, s: State, t: Token, what: Write, capped: bool, i: Id)
    requires i in s.rows && s.rows[i].attempt >= 0 && s.rows[i].maxAttempts >= 1 && BoundedAt(s, i, capped)
    requires Affordable(b, s, t, what, capped)
    ensures i in DoAck(b, s, t, what).rows && BoundedAt(DoAck(b, s, t, what), i, capped)
  {
  }

  lemma ExactAffordable(b: Dialect, rules: Rules, s: State, t: Token, what: Write, capped: bool)
    requires Tame(b, rules, s) && Enabled(s, Step.Ack(t, what)) && Exact(b, rules)
    ensures Affordable(b, s, t, what, capped)
  {
  }

  lemma BoundedReclaim(b: Dialect, rules: Rules, s: State, ids: set<Id>, capped: bool)
    requires Bounded(s, capped) && Enabled(s, Reclaim(ids)) && Allowed(rules, s, Reclaim(ids))
    requires (capped ==> rules.cappedReclaim)
    ensures Bounded(DoReclaim(s, ids), capped)
  {
  }

  lemma BoundedOtherAt(b: Dialect, s: State, step: Step, capped: bool, i: Id)
    requires TableInv(b, s) && Enabled(s, step) && i in Do(b, s, step).rows && (i in s.rows ==> BoundedAt(s, i, capped))
    requires !step.Claim? && !step.Ack? && !step.BatchSucceed? && !step.Reclaim?
    ensures BoundedAt(Do(b, s, step), i, capped)
  {
  }

  lemma BoundedOther(b: Dialect, s: State, step: Step, capped: bool)
    requires TableInv(b, s) && Bounded(s, capped) && Enabled(s, step)
    requires !step.Claim? && !step.Ack? && !step.BatchSucceed? && !step.Reclaim?
    ensures Bounded(Do(b, s, step), capped)
  {
    var s' := Do(b, s, step);
    forall i | i in s'.rows ensures BoundedAt(s', i, capped) { BoundedOtherAt(b, s, step, capped, i); }
  }

  lemma BoundedStep(b: Dialect, rules: Rules, s: State, step: Step, capped: bool)
    requires Tame(b, rules, s) && Bounded(s, capped) && Enabled(s, step) && Allowed(rules, s, step)
    requires Exact(b, rules) && (capped ==> rules.cappedReclaim)
    ensures Bounded(Do(b, s, step), capped)
  {
    match step
    case Ack(t, what) =>
      ExactAffordable(b, rules, s, t, what, capped);
      BoundedAck(b, s, t, what, capped);
    case _ => BoundedRest(b, rules, s, step, capped);
  }

  lemma BoundedRest(b: Dialect, rules: Rules, s: State, step: Step, capped: bool)
    requires TableInv(b, s) && Bounded(s, capped) && Enabled(s, step) && Allowed(rules, s, step) && !step.Ack?
    requires capped ==> rules.cappedReclaim
    ensures Bounded(Do(b, s, step), capped)
  {
    match step
    case Claim(w, ids, until) => BoundedClaim(b, s, w, ids, until, capped);
    case BatchSucceed(ts) => BoundedBatch(b, s, ts, capped);
    case Reclaim(ids) => BoundedReclaim(b, rules, s, ids, capped);
    case _ => BoundedOther(b, s, step, capped);
  }

  /** No statement rewrites the message columns, and only a purge of a terminal row deletes. */
  lemma MessageStep(b: Dialect, s: State, step: Step, i: Id)
    requires TableInv(b, s) && Enabled(s, step) && i in s.rows
    ensures i in Do(b, s, step).rows ==> Do(b, s, step).rows[i].SameMessage(s.rows[i])
    ensures i !in Do(b, s, step).rows <==> step.Purge? && i in step.ids
    ensures i !in Do(b, s, step).rows ==> s.rows[i].Terminal()
  {
    if step.Ack? || step.BatchSucceed? { MessageWrite(b, s, step, i); }
  }

  lemma MessageWrite(b: Dialect, s: State, step: Step, i: Id)
    requires (step.Ack? || step.BatchSucceed?) && i in s.rows
    ensures i in Do(b, s, step).rows && Do(b, s, step).rows[i].SameMessage(s.rows[i])
  {
  }

  lemma UniqueStep(b: Dialect, s: State, step: Step)
    requires TableInv(b, s) && UniqueKeys(s.rows) && Enabled(s, step)
    ensures UniqueKeys(Do(b, s, step).rows)
  {
    var rows' := Do(b, s, step).rows;
    forall i, j | i in rows' && j in rows' && rows'[i].key.Some?
      && rows'[i].key == rows'[j].key && rows'[i].eventType == rows'[j].eventType
      ensures i == j
    {
      if i in s.rows { MessageStep(b, s, step, i); }
      if j in s.rows { MessageStep(b, s, step, j); }
    }
  }

  lemma InvStep(b: Dialect, rules: Rules, s: State, step: Step)
    requires Inv(b, rules, s) && Enabled(s, step) && Allowed(rules, s, step)
    ensures Inv(b, rules, Do(b, s, step))
  {
    UniqueStep(b, s, step);
    TableStep(b, rules, s, step);
    TokenStep(b, rules, s, step);
    CountedStep(b, rules, s, step);
    if rules.soloClaim { SoloStep(b, rules, s, step); }
    if Earnest(b, rules) { EvidenceStep(b, rules, s, step, false); }
    if rules.cleanRequeue {
      LevelStep(b, s, step);
      FundedStep(b, s, step);
    }
    if Exact(b, rules) {
      BoundedStep(b, rules, s, step, false);
      if rules.cleanRequeue {
        OrderedStep(b, rules, s, step);
        EvidenceStep(b, rules, s, step, true);
      }
      if rules.cappedReclaim { BoundedStep(b, rules, s, step, true); }
    }
  }

  lemma InitialInv(b: Dialect, rules: Rules, s: State)
    requires Initial(s)
    ensures Inv(b, rules, s)
  {
  }

  /** The invariants hold after every valid run, whatever the interleaving. */
  lemma {:induction false} RunInv(b: Dialect, rules: Rules, s: State, run: seq<Step>)
    requires Inv(b, rules, s) && Valid(b, rules, s, run)
    ensures Inv(b, rules, Exec(b, s, run))
    decreases |run|
  {
    if run != [] {
      InvStep(b, rules, s, run[0]);
      RunInv(b, rules, Do(b, s, run[0]), run[1..]);
    }
  }
}
