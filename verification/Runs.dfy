/** Building and splitting runs of the protocol. */
module Runs {
  import opened Rows
  import opened Protocol

  lemma Prepend(b: Dialect, rules: Rules, s: State, step: Step, rest: seq<Step>)
    requires Enabled(s, step) && Allowed(rules, s, step) && Valid(b, rules, Do(b, s, step), rest)
    ensures Valid(b, rules, s, [step] + rest)
    ensures Exec(b, s, [step] + rest) == Exec(b, Do(b, s, step), rest)
  {
    assert ([step] + rest)[1..] == rest;
  }

  lemma {:induction false} Append(b: Dialect, rules: Rules, s: State, run: seq<Step>, more: seq<Step>)
    requires Valid(b, rules, s, run) && Valid(b, rules, Exec(b, s, run), more)
    ensures Valid(b, rules, s, run + more)
    ensures Exec(b, s, run + more) == Exec(b, Exec(b, s, run), more)
    decreases |run|
  {
    if run == [] {
      assert run + more == more;
    } else {
      Append(b, rules, Do(b, s, run[0]), run[1..], more);
      assert run + more == [run[0]] + (run[1..] + more);
      Prepend(b, rules, s, run[0], run[1..] + more);
    }
  }

  const LEASE: int := 30 * SECOND

  function Wait(s: State, until: Time): Step {
    Tick(if until <= s.now then 0 else until - s.now)
  }

  /** A pending row can always be claimed once its process_at has come. */
  lemma ClaimOne(b: Dialect, rules: Rules, s: State, i: Id, w: WorkerId) returns (run: seq<Step>, t: Token)
    requires i in s.rows && s.rows[i].Pending()
    requires rules.soloClaim ==> forall u :: u in s.live && u.worker == w ==> u.id != i
    ensures Valid(b, rules, s, run)
    ensures var z := Exec(b, s, run);
            && i in z.rows && z.rows[i].status == HANDLING && z.rows[i].attempt == s.rows[i].attempt + 1
            && z.rows[i].maxAttempts == s.rows[i].maxAttempts && z.rows[i].claimedBy == Some(w)
            && z.rows[i].claimedUntil.Some?
            && z.live == s.live + {t} && i in z.last && z.last[i] == s.nextNo && z.nextNo == s.nextNo + 1
            && t.id == i && t.no == s.nextNo && t.attempt == z.rows[i].attempt && t.worker == w
            && t.maxAttempts == s.rows[i].maxAttempts
            && z.succeeded == s.succeeded
            && (i in s.accounts ==> i in z.accounts && z.accounts[i].reclaims == s.accounts[i].reclaims)
  {
    var wait := Wait(s, s.rows[i].processAt);
    var s1 := Do(b, s, wait);
    var claim := Claim(w, {i}, s1.now + LEASE);
    Prepend(b, rules, s1, claim, []);
    Prepend(b, rules, s, wait, [claim] + []);
    run, t := [wait] + ([claim] + []), TokenFor(s1, i, w);
    assert NewTokens(s1, {i}, w) == {t};
  }

  /** A HANDLING row can always be reclaimed once its lease has run out. */
  lemma ReclaimOne(b: Dialect, rules: Rules, s: State, i: Id) returns (run: seq<Step>)
    requires i in s.rows && s.rows[i].status == HANDLING && s.rows[i].claimedUntil.Some?
    requires rules.cappedReclaim ==> s.rows[i].attempt < s.rows[i].maxAttempts
    ensures Valid(b, rules, s, run)
    ensures var z := Exec(b, s, run);
            && i in z.rows && z.rows[i].status == RETRYING && z.rows[i].attempt == s.rows[i].attempt
            && z.rows[i].maxAttempts == s.rows[i].maxAttempts
            && z.live == s.live && z.nextNo == s.nextNo && z.succeeded == s.succeeded
  {
    var wait := Wait(s, s.rows[i].claimedUntil.value + 1);
    var s1 := Do(b, s, wait);
    Prepend(b, rules, s1, Reclaim({i}), []);
    Prepend(b, rules, s, wait, [Reclaim({i})] + []);
    run := [wait] + ([Reclaim({i})] + []);
  }

  /** Claims and lease expiries alone drive a pending row to any higher attempt. */
  lemma {:induction false} Climb(b: Dialect, rules: Rules, s: State, i: Id, target: int,
                                 w: WorkerId) returns (run: seq<Step>)
    requires i in s.rows && s.rows[i].Pending() && s.rows[i].attempt < target
    requires !rules.soloClaim && !rules.cappedReclaim
    ensures Valid(b, rules, s, run)
    ensures var z := Exec(b, s, run);
            && i in z.rows && z.rows[i].status == HANDLING && z.rows[i].attempt == target
            && z.rows[i].maxAttempts == s.rows[i].maxAttempts
            && s.live <= z.live && i in z.last && s.nextNo <= z.last[i]
    decreases target - s.rows[i].attempt
  {
    var t;
    run, t := ClaimOne(b, rules, s, i, w);
    var s1 := Exec(b, s, run);
    if s1.rows[i].attempt < target {
      var expire := ReclaimOne(b, rules, s1, i);
      var s2 := Exec(b, s1, expire);
      var rest := Climb(b, rules, s2, i, target, w);
      Append(b, rules, s1, expire, rest);
      Append(b, rules, s, run, expire + rest);
      run := run + (expire + rest);
    }
  }

  /** The same with a worker that drops each message before it claims it again. */
  lemma {:induction false} ClimbAlone(b: Dialect, rules: Rules, s: State, i: Id, target: int,
                                      w: WorkerId) returns (run: seq<Step>)
    requires i in s.rows && s.rows[i].Pending() && s.rows[i].attempt < target && !rules.cappedReclaim
    requires forall u :: u in s.live && u.worker == w ==> u.id != i
    ensures Valid(b, rules, s, run)
    ensures var z := Exec(b, s, run);
            && i in z.rows && z.rows[i].status == HANDLING && z.rows[i].attempt == target
            && z.rows[i].claimedBy == Some(w)
            && z.rows[i].maxAttempts == s.rows[i].maxAttempts && s.live <= z.live && z.succeeded == s.succeeded
            && i in z.last && s.nextNo <= z.last[i]
    decreases target - s.rows[i].attempt
  {
    var t;
    run, t := ClaimOne(b, rules, s, i, w);
    var s1 := Exec(b, s, run);
    if s1.rows[i].attempt < target {
      var s2 := Do(b, s1, Lose({t}));
      assert s2.live == s.live;
      var expire := ReclaimOne(b, rules, s2, i);
      var rest := ClimbAlone(b, rules, Exec(b, s2, expire), i, target, w);
      Append(b, rules, s2, expire, rest);
      Prepend(b, rules, s1, Lose({t}), expire + rest);
      Append(b, rules, s, run, [Lose({t})] + (expire + rest));
      run := run + ([Lose({t})] + (expire + rest));
    }
  }
}
