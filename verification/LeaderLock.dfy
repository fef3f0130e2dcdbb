/**
 The CockroachDB leader lock: one row per key in tickr_locks, upserted when missing or
 expired, deleted by the holder's own unlock. Holder ids are fresh for every attempt.
 */
module LeaderLock {
  import opened Rows

  const TTL: int := 60 * SECOND

  type Key = string
  type Holder = nat

  datatype Lock = Lock(holder: Holder, expires: Time)

  type Locks = map<Key, Lock>

  /** The upsert takes the row if it is missing or already expired. */
  predicate Free(locks: Locks, key: Key, now: Time) {
    key in locks ==> locks[key].expires < now
  }

  function AcquireStmt(locks: Locks, key: Key, holder: Holder, now: Time): Locks {
    if Free(locks, key, now) then locks[key := Lock(holder, now + TTL)] else locks
  }

  function UnlockStmt(locks: Locks, key: Key, holder: Holder): Locks {
    if key in locks && locks[key].holder == holder then locks - {key} else locks
  }

  class LockTable {
    var locks: Locks

    constructor ()
      ensures locks == map[]
    {
      locks := map[];
    }

    method TryLeaderLock(key: Key, holder: Holder, now: Time) returns (acquired: bool)
      modifies this
      ensures locks == AcquireStmt(old(locks), key, holder, now)
      ensures acquired <==> key !in old(locks) || old(locks)[key].expires < now
      ensures !acquired ==> locks == old(locks)
      ensures forall k :: k != key ==> (k in locks <==> k in old(locks)) && (k in locks ==> locks[k] == old(locks)[k])
      ensures acquired ==> key in locks && locks[key] == Lock(holder, now + 60 * SECOND)
    {
      acquired := false;
      if key !in locks {
        locks := locks[key := Lock(holder, now + TTL)];
        acquired := true;
      } else if locks[key].expires < now {
        locks := locks[key := Lock(holder, now + TTL)];
        acquired := locks[key].holder == holder;
      }
    }

    method Unlock(key: Key, holder: Holder)
      modifies this
      ensures key in locks <==> key in old(locks) && old(locks)[key].holder != holder
      ensures forall k :: k in locks ==> k in old(locks) && locks[k] == old(locks)[k]
      ensures forall k :: k in old(locks) && k != key ==> k in locks
    {
      if key in locks && locks[key].holder == holder {
        locks := locks - {key};
      }
    }
  }

  // ----- Runs --------------------------------------------------------------------------

  /** A leader between a successful acquire and its unlock. */
  datatype Grant = Grant(key: Key, holder: Holder, since: Time)
  {
    predicate Unexpired(now: Time) { now <= since + TTL }
  }

  datatype State = State(locks: Locks, now: Time, used: set<Holder>, grants: set<Grant>)

  datatype Step =
    | Try(key: Key, holder: Holder)
    | Unlock(g: Grant)
    | Crash(g: Grant)
    | Tick(d: nat)

  predicate Enabled(s: State, step: Step) {
    match step
    case Try(_, holder) => holder !in s.used
    case Unlock(g) => g in s.grants
    case Crash(g) => g in s.grants
    case Tick(_) => true
  }

  function Do(s: State, step: Step): State {
    match step
    case Try(key, holder) =>
      s.(locks := AcquireStmt(s.locks, key, holder, s.now), used := s.used + {holder},
         grants := if Free(s.locks, key, s.now) then s.grants + {Grant(key, holder, s.now)} else s.grants)
    case Unlock(g) => s.(locks := UnlockStmt(s.locks, g.key, g.holder), grants := s.grants - {g})
    case Crash(g) => s.(grants := s.grants - {g})
    case Tick(d) => s.(now := s.now + d)
  }

  predicate Valid(s: State, run: seq<Step>)
    decreases |run|
  {
    run == [] || (Enabled(s, run[0]) && Valid(Do(s, run[0]), run[1..]))
  }

  function Exec(s: State, run: seq<Step>): State
    decreases |run|
  {
    if run == [] then s else Exec(Do(s, run[0]), run[1..])
  }

  predicate Initial(s: State) {
    s.locks == map[] && s.used == {} && s.grants == {}
  }

  ghost predicate Inv(s: State) {
    && (forall k :: k in s.locks ==> s.locks[k].holder in s.used && s.locks[k].expires <= s.now + TTL)
    && (forall g :: g in s.grants ==> g.holder in s.used && g.since <= s.now)
    && (forall g :: g in s.grants && g.Unexpired(s.now) ==>
          g.key in s.locks && s.locks[g.key] == Lock(g.holder, g.since + TTL))
    && (forall g, h :: g in s.grants && h in s.grants && g.holder == h.holder ==> g == h)
    && (forall g, h :: g in s.grants && h in s.grants && g != h && g.key == h.key ==>
      g.since + TTL < h.since || h.since + TTL < g.since)
  }

  lemma InvStep(s: State, step: Step)
    requires Inv(s) && Enabled(s, step)
    ensures Inv(Do(s, step))
  {
  }

  lemma {:induction false} RunInv(s: State, run: seq<Step>)
    requires Inv(s) && Valid(s, run)
    ensures Inv(Exec(s, run))
    decreases |run|
  {
    if run != [] {
      InvStep(s, run[0]);
      RunInv(Do(s, run[0]), run[1..]);
    }
  }

  /** At most one unexpired leader per key; leaders of one key overlap only if one outstayed its 60 seconds. */
  lemma OneLeader(s0: State, run: seq<Step>, g: Grant, h: Grant)
    requires Initial(s0) && Valid(s0, run)
    requires g in Exec(s0, run).grants && h in Exec(s0, run).grants && g.key == h.key && g != h
    ensures var now := Exec(s0, run).now; !(now <= g.since + 60 * SECOND && now <= h.since + 60 * SECOND)
    ensures g.since + 60 * SECOND < h.since || h.since + 60 * SECOND < g.since
  {
    RunInv(s0, run);
  }

  /** Nobody acquires a key before its leader unlocks or its 60 seconds are over. */
  lemma NoEarlyTakeover(s0: State, run: seq<Step>, g: Grant, holder: Holder)
    requires Initial(s0) && Valid(s0, run) && g in Exec(s0, run).grants && holder !in Exec(s0, run).used
    ensures var s := Exec(s0, run);
            Grant(g.key, holder, s.now) in Do(s, Try(g.key, holder)).grants ==> s.now > g.since + 60 * SECOND
  {
    RunInv(s0, run);
  }

  /** An unlock, however late, leaves every other unexpired leader's lock in place. */
  lemma StaleUnlockHarmless(s0: State, run: seq<Step>, stale: Grant, g: Grant)
    requires Initial(s0) && Valid(s0, run) && stale in Exec(s0, run).grants && g in Exec(s0, run).grants
    requires g != stale && Exec(s0, run).now <= g.since + 60 * SECOND
    ensures var locks := Do(Exec(s0, run), Unlock(stale)).locks;
            g.key in locks && locks[g.key] == Lock(g.holder, g.since + 60 * SECOND)
  {
    RunInv(s0, run);
  }

  /** A leader may crash at any time; its lock stays until its 60 seconds are over. */
  lemma CrashKeepsLock(s0: State, run: seq<Step>, g: Grant)
    requires Initial(s0) && Valid(s0, run) && g in Exec(s0, run).grants && Exec(s0, run).now <= g.since + 60 * SECOND
    ensures var s := Exec(s0, run);
            && Enabled(s, Crash(g)) && Enabled(s, Unlock(g))
            && var s' := Do(s, Crash(g));
               && g.key in s'.locks && s'.locks[g.key] == Lock(g.holder, g.since + 60 * SECOND)
               && forall holder :: Do(s', Try(g.key, holder)).grants == s'.grants
  {
    RunInv(s0, run);
  }

  /** However leaders crash, 60 seconds later the key can be taken again. */
  lemma AlwaysRecoverable(s0: State, run: seq<Step>, key: Key, holder: Holder)
    requires Initial(s0) && Valid(s0, run) && holder !in Exec(s0, run).used
    ensures var s := Do(Exec(s0, run), Tick(60 * SECOND + 1));
            Grant(key, holder, s.now) in Do(s, Try(key, holder)).grants
  {
    RunInv(s0, run);
  }
}
