/**
 When the two ack guards are interchangeable. They are in every disciplined run; a requeue
 or a claim keeps them so exactly under its own half of the discipline.
 */
module Guards {
  import opened Rows
  import opened Protocol
  import opened Invariants
  import opened Runs
  import opened Fencing

  /** Both guards decide every ack that may still come in the same way. */
  ghost predicate Agree(s: State) {
    forall t :: t in s.live && t.id in s.rows ==>
      (Accepts(Postgres, s.rows[t.id], t.attempt, t.worker) <==> Accepts(MySQL, s.rows[t.id], t.attempt, t.worker))
  }

  ghost predicate StayAgreed(b: Dialect, s: State) {
    forall run :: Valid(b, CLEAN_SOLO, s, run) ==> Agree(Exec(b, s, run))
  }

  lemma DisciplinedAgree(b: Dialect, s: State)
    requires Inv(b, CLEAN_SOLO, s)
    ensures StayAgreed(b, s)
  {
    forall run | Valid(b, CLEAN_SOLO, s, run) ensures Agree(Exec(b, s, run)) {
      RunInv(b, CLEAN_SOLO, s, run);
      var z := Exec(b, s, run);
      forall t | t in z.live && t.id in z.rows
        ensures Accepts(Postgres, z.rows[t.id], t.attempt, t.worker)
           <==> Accepts(MySQL, z.rows[t.id], t.attempt, t.worker)
      {
        GuardsAgree(b, z, t);
      }
    }
  }

  /** No finite set of names holds them all. */
  lemma {:induction false} LongerName(names: set<WorkerId>) returns (w: WorkerId)
    ensures forall v :: v in names ==> |v| < |w|
    decreases |names|
  {
    if v :| v in names {
      var u := LongerName(names - {v});
      w := u + v + "w";
    } else {
      w := "";
    }
  }

  lemma FreshWorker(s: State) returns (w: WorkerId)
    ensures forall u :: u in s.live ==> u.worker != w
  {
    w := LongerName(set u | u in s.live :: u.worker);
    assert forall u :: u in s.live ==> u.worker in set v | v in s.live :: v.worker;
  }

  /** After a requeue, a live token of the message meets its attempt number again under another worker's claim. */
  lemma RequeueSplitsGuards(b: Dialect, s: State, i: Id, at: Time, t: Token)
    requires i in s.rows && s.rows[i].status == DEAD && t in s.live && t.id == i && t.attempt >= 1
    ensures !StayAgreed(b, Do(b, s, Requeue(i, at)))
  {
    var s' := Do(b, s, Requeue(i, at));
    var w := FreshWorker(s);
    var run := ClimbAlone(b, CLEAN_SOLO, s', i, t.attempt, w);
    var z := Exec(b, s', run);
    assert t in z.live && Accepts(Postgres, z.rows[i], t.attempt, t.worker);
    assert !Accepts(MySQL, z.rows[i], t.attempt, t.worker);
  }

  lemma RequeueKeepsGuardsIff(b: Dialect, s: State, i: Id, at: Time)
    requires Inv(b, CLEAN_SOLO, s) && i in s.rows && s.rows[i].status == DEAD
    ensures StayAgreed(b, Do(b, s, Requeue(i, at))) <==> forall t :: t in s.live ==> t.id != i
  {
    if t :| t in s.live && t.id == i {
      RequeueSplitsGuards(b, s, i, at, t);
    } else {
      InvStep(b, CLEAN_SOLO, s, Requeue(i, at));
      DisciplinedAgree(b, Do(b, s, Requeue(i, at)));
    }
  }

  /** A worker's older token of a row it claims again passes the worker guard and fails the attempt guard. */
  lemma OwnStaleToken(s: State, w: WorkerId, ids: set<Id>, until: Time, t: Token)
    requires TokenInv(s) && Ordered(s) && Enabled(s, Claim(w, ids, until)) && t in s.live && t.worker == w
    requires t.id in ids
    ensures !Agree(DoClaim(s, w, ids, until))
  {
    var s' := DoClaim(s, w, ids, until);
    assert t in s'.live && Accepts(MySQL, s'.rows[t.id], t.attempt, t.worker);
    assert !Accepts(Postgres, s'.rows[t.id], t.attempt, t.worker);
  }

  lemma ClaimSplitsGuards(b: Dialect, s: State, w: WorkerId, ids: set<Id>, until: Time, t: Token)
    requires TokenInv(s) && Ordered(s) && Enabled(s, Claim(w, ids, until)) && t in s.live && t.worker == w
    requires t.id in ids
    ensures !StayAgreed(b, Do(b, s, Claim(w, ids, until)))
  {
    OwnStaleToken(s, w, ids, until, t);
    assert Exec(b, DoClaim(s, w, ids, until), []) == DoClaim(s, w, ids, until);
  }

  lemma ClaimKeepsGuardsIff(b: Dialect, s: State, w: WorkerId, ids: set<Id>, until: Time)
    requires Inv(b, CLEAN_SOLO, s) && Enabled(s, Claim(w, ids, until))
    ensures StayAgreed(b, Do(b, s, Claim(w, ids, until))) <==> forall t :: t in s.live && t.worker == w ==> t.id !in ids
  {
    if t :| t in s.live && t.worker == w && t.id in ids {
      ClaimSplitsGuards(b, s, w, ids, until, t);
    } else {
      InvStep(b, CLEAN_SOLO, s, Claim(w, ids, until));
      DisciplinedAgree(b, Do(b, s, Claim(w, ids, until)));
    }
  }
}
