/**
 The outbox protocol: one shared table, any number of workers, producers, reclaimers,
 janitors and admins, each issuing atomic statements in any order on one monotone clock.

 A claim hands its worker a token per row. The worker may stall for as long as it likes and
 write its outcome late, on a row that has meanwhile been reclaimed, claimed by others,
 completed, requeued or purged; it writes at most once per token. The ghost part of the
 state records who claimed last, which handlers reported success, and the per-message
 accounting since the last enqueue or requeue.
 */
module Protocol {
  import opened Rows

  /** One claimed message in a worker's hands; `no` numbers the claim statements. */
  datatype Token = Token(
    no: nat, id: Id, attempt: int, worker: WorkerId, maxAttempts: int, eventType: EventType)
  {
    function ToAck(): Rows.Ack { Rows.Ack(id, attempt, worker) }
  }

  /** Claims, effective shutdown releases and reclaims since the last enqueue or requeue. */
  datatype Account = Account(claims: nat, releases: nat, reclaims: nat)

  datatype State = State(
    rows: Table,
    now: Time,
    used: set<Id>,               // ids ever inserted
    live: set<Token>,            // claims whose worker may still write
    succeeded: set<Token>,       // claims whose handler returned nil or Skip
    nextNo: nat,
    last: map<Id, nat>,          // number of the most recent claim of each message
    accounts: map<Id, Account>)

  datatype Step =
    | Enqueue(id: Id, shard: int, p: EnqueueParams)
    | Claim(worker: WorkerId, ids: set<Id>, until: Time)
    | Return(tokens: set<Token>)
    | Ack(t: Token, what: Write)
    | BatchSucceed(ts: seq<Token>)
    | Lose(tokens: set<Token>)
    | Extend(id: Id, worker: WorkerId, until: Time)
    | Reclaim(ids: set<Id>)
    | Purge(ids: set<Id>, before: Time)
    | Requeue(id: Id, at: Time)
    | Tick(d: nat)

  /** Optional restrictions on runs, under which stronger properties hold. */
  datatype Rules = Rules(
    cleanRequeue: bool,   // no requeue of a message that a worker may still write
    soloClaim: bool,      // no worker claims a message while its own older claim is live
    cappedReclaim: bool,  // no reclaim of a row that has used all its attempts
    batchedSuccess: bool) // every success is written by BatchSucceed, as the engine does whenever the adapter has it

  const ANY_RUN := Rules(false, false, false, false)

  ghost predicate Allowed(rules: Rules, s: State, step: Step) {
    match step
    case Requeue(id, _) => rules.cleanRequeue ==> forall t :: t in s.live ==> t.id != id
    case Claim(w, ids, _) => rules.soloClaim ==> forall t :: t in s.live && t.worker == w ==> t.id !in ids
    case Ack(_, what) => rules.batchedSuccess ==> !what.Succeed?
    case Reclaim(ids) =>
      rules.cappedReclaim ==> forall i :: i in ids && i in s.rows ==> s.rows[i].attempt < s.rows[i].maxAttempts
    case _ => true
  }

  /** The engine reports success only after a handler did, and retries only below the cap. */
  predicate Justified(s: State, t: Token, what: Write) {
    && (what.Succeed? ==> t in s.succeeded)
    && (what.FailRetry? ==> t.attempt < t.maxAttempts)
  }

  ghost predicate Enabled(s: State, step: Step) {
    match step
    case Enqueue(id, _, _) => id !in s.used
    case Claim(_, ids, _) => forall i :: i in ids ==> i in s.rows && s.rows[i].Pending() && s.rows[i].processAt <= s.now
    case Return(tokens) => tokens <= s.live
    case Ack(t, what) => t in s.live && Justified(s, t, what)
    case BatchSucceed(ts) => forall t :: t in ts ==> t in s.live && t in s.succeeded
    case Lose(tokens) => tokens <= s.live
    case Extend(_, _, _) => true
    case Reclaim(ids) => forall i :: i in ids ==> i in s.rows && Expired(s.rows[i], s.now)
    case Purge(ids, before) => forall i :: i in ids ==> i in s.rows && Purgeable(s.rows[i], before)
    case Requeue(_, _) => true
    case Tick(_) => true
  }

  // ----- Effects -----------------------------------------------------------------------

  function TokenFor(s: State, i: Id, w: WorkerId): Token
    requires i in s.rows
  {
    Token(s.nextNo, i, s.rows[i].attempt + 1, w, s.rows[i].maxAttempts, s.rows[i].eventType)
  }

  function NewTokens(s: State, ids: set<Id>, w: WorkerId): set<Token> {
    set i | i in ids && i in s.rows :: TokenFor(s, i, w)
  }

  /** Rows.BatchStmt for the acks of these tokens. */
  predicate Batched(r: Row, i: Id, ts: seq<Token>) {
    exists t :: t in ts && t.id == i && BatchAccepts(r, t.attempt)
  }

  function BatchTokens(b: Dialect, t: Table, now: Time, ts: seq<Token>): Table {
    map i | i in t :: if Batched(t[i], i, ts) then SucceededRow(b, t[i], now) else t[i]
  }

  function DoEnqueue(s: State, id: Id, shard: int, p: EnqueueParams): State {
    s.(rows := InsertStmt(s.rows, id, shard, s.now, p), used := s.used + {id},
       accounts := if KeyTaken(s.rows, p) then s.accounts else s.accounts[id := Account(0, 0, 0)])
  }

  function DoClaim(s: State, w: WorkerId, ids: set<Id>, until: Time): State {
    s.(rows := ClaimStmt(s.rows, ids, w, until),
       live := s.live + NewTokens(s, ids, w),
       nextNo := s.nextNo + 1,
       last := map i | i in s.last.Keys + ids :: if i in ids then s.nextNo else s.last[i],
       accounts := map i | i in s.accounts ::
         if i in ids then s.accounts[i].(claims := s.accounts[i].claims + 1) else s.accounts[i])
  }

  function DoAck(b: Dialect, s: State, t: Token, what: Write): State {
    s.(rows := AckStmt(b, s.rows, s.now, t.ToAck(), what), live := s.live - {t},
       accounts :=
         if what.Release? && t.id in s.rows && t.id in s.accounts && Accepts(b, s.rows[t.id], t.attempt, t.worker)
         then s.accounts[t.id := s.accounts[t.id].(releases := s.accounts[t.id].releases + 1)] else s.accounts)
  }

  function DoReclaim(s: State, ids: set<Id>): State {
    s.(rows := ReclaimStmt(s.rows, ids, s.now),
       accounts := map i | i in s.accounts ::
         if i in ids then s.accounts[i].(reclaims := s.accounts[i].reclaims + 1) else s.accounts[i])
  }

  function DoRequeue(b: Dialect, s: State, id: Id, at: Time): State {
    s.(rows := RequeueStmt(b, s.rows, id, at),
       accounts := if id in s.rows && s.rows[id].status == DEAD then s.accounts[id := Account(0, 0, 0)] else s.accounts)
  }

  function Do(b: Dialect, s: State, step: Step): State {
    match step
    case Enqueue(id, shard, p) => DoEnqueue(s, id, shard, p)
    case Claim(w, ids, until) => DoClaim(s, w, ids, until)
    case Return(tokens) => s.(succeeded := s.succeeded + tokens)
    case Ack(t, what) => DoAck(b, s, t, what)
    case BatchSucceed(ts) => s.(rows := BatchTokens(b, s.rows, s.now, ts), live := s.live - set t | t in ts)
    case Lose(tokens) => s.(live := s.live - tokens)
    case Extend(id, w, until) => s.(rows := ExtendStmt(s.rows, id, w, until))
    case Reclaim(ids) => DoReclaim(s, ids)
    case Purge(ids, _) => s.(rows := PurgeStmt(s.rows, ids))
    case Requeue(id, at) => DoRequeue(b, s, id, at)
    case Tick(d) => s.(now := s.now + d)
  }

  // ----- Runs --------------------------------------------------------------------------

  predicate Initial(s: State) {
    && s.rows == map[] && s.used == {} && s.live == {} && s.succeeded == {}
    && s.last == map[] && s.accounts == map[]
  }

  function Exec(b: Dialect, s: State, run: seq<Step>): State
    decreases |run|
  {
    if run == [] then s else Exec(b, Do(b, s, run[0]), run[1..])
  }

  ghost predicate Valid(b: Dialect, rules: Rules, s: State, run: seq<Step>)
    decreases |run|
  {
    run == [] ||
    (Enabled(s, run[0]) && Allowed(rules, s, run[0]) && Valid(b, rules, Do(b, s, run[0]), run[1..]))
  }

  // ----- Invariants --------------------------------------------------------------------

  ghost predicate WellFormed(b: Dialect, r: Row) {
    && r.status != FAILED
    && r.maxAttempts >= 1 && r.attempt >= 0
    && (r.status == CREATED ==> r.attempt == 0)
    && (r.status == HANDLING ==> r.attempt >= 1 && r.claimedBy.Some? && r.claimedUntil.Some?)
    && (r.Pending() ==> r.claimedBy.None? && r.claimedUntil.None?)
    && (b.MySQL? && r.status == RETRYING ==> r.attempt >= 1)
    && (b.Postgres? && r.Terminal() ==> r.claimedBy.None? && r.claimedUntil.None?)
    && (r.Terminal() <==> r.completedAt.Some?)
  }

  ghost predicate TableInv(b: Dialect, s: State) {
    && s.rows.Keys <= s.used
    && (forall i :: i in s.rows ==> WellFormed(b, s.rows[i]))
  }

  /** How live tokens relate to the rows they were claimed from, in every run. */
  ghost predicate TokenInv(s: State) {
    && (forall i :: i in s.last ==> s.last[i] < s.nextNo)
    && (forall t :: t in s.succeeded ==> t.no < s.nextNo)
    && (forall i :: i in s.rows && s.rows[i].status == HANDLING ==> i in s.last)
    && (forall t :: t in s.live ==>
      && t.id in s.used && t.id in s.last && t.no <= s.last[t.id] && t.attempt >= 1 && t.maxAttempts >= 1
      && (t.id in s.rows ==> t.maxAttempts == s.rows[t.id].maxAttempts)
      && (t.id in s.rows && s.rows[t.id].status == HANDLING && t.no == s.last[t.id] ==>
        s.rows[t.id].attempt == t.attempt && s.rows[t.id].claimedBy == Some(t.worker)))
    && (forall t, u :: t in s.live && u in s.live && t.no == u.no && t.id == u.id ==> t == u)
  }

  /** Stale tokens lag behind the row: at most its attempt, strictly less while HANDLING. */
  ghost predicate Ordered(s: State) {
    forall t :: t in s.live && t.id in s.rows && t.id in s.last ==>
      && t.attempt <= s.rows[t.id].attempt
      && (s.rows[t.id].status == HANDLING && t.no != s.last[t.id] ==> t.attempt < s.rows[t.id].attempt)
  }

  /** The worker named in a HANDLING row has no older live claim of it. */
  ghost predicate Solo(s: State) {
    forall t ::
      (t in s.live && t.id in s.rows && t.id in s.last && s.rows[t.id].status == HANDLING
       && s.rows[t.id].claimedBy == Some(t.worker)) ==> t.no == s.last[t.id]
  }

  /**
   A SUCCESS row's attempt has a claim whose handler returned nil or Skip; with `latest`,
   that claim is the message's most recent one.
   */
  ghost predicate Evidence(s: State, latest: bool) {
    forall i :: i in s.rows && s.rows[i].status == SUCCESS ==>
      exists t :: t in s.succeeded && t.id == i && t.attempt == s.rows[i].attempt
                  && (latest ==> i in s.last && t.no == s.last[i])
  }

  /** The attempt column counts claims less effective shutdown releases. */
  ghost predicate Counted(s: State) {
    forall i :: i in s.rows ==> i in s.accounts && s.rows[i].attempt == s.accounts[i].claims - s.accounts[i].releases
  }

  /** The attempts a message may use: each reclaim adds one, unless reclaims are capped. */
  function Allowance(s: State, i: Id, capped: bool): int
    requires i in s.rows && i in s.accounts
  {
    s.rows[i].maxAttempts + if capped then 0 else s.accounts[i].reclaims
  }

  ghost predicate Bounded(s: State, capped: bool) {
    forall i :: i in s.rows ==>
      && i in s.accounts
      && s.rows[i].attempt <= Allowance(s, i, capped)
      && (s.rows[i].Pending() ==> s.rows[i].attempt < Allowance(s, i, capped))
  }

  /** The live tokens of message i whose workers may still ask for a retry. */
  function Retriers(s: State, i: Id): set<Token>
    requires i in s.rows
  {
    set t | t in s.live && t.id == i && t.attempt < s.rows[i].maxAttempts
  }

  /** No token of a message that allows a retry is ahead of the row's attempt, or of its next one. */
  ghost predicate Level(s: State) {
    forall t :: t in s.live && t.id in s.rows && s.rows[t.id].maxAttempts >= 2 ==>
      t.attempt <= s.rows[t.id].attempt + if s.rows[t.id].Pending() then 1 else 0
  }

  /** With n workers that may still ask for a retry, the row cannot get past max_attempts plus its reclaims. */
  predicate Covered(r: Row, n: nat, reclaims: nat) {
    if r.Pending() then
      && (r.attempt < r.maxAttempts ==> n <= reclaims)
      && (r.attempt >= r.maxAttempts - 1 ==> r.attempt + n <= r.maxAttempts - 1 + reclaims)
    else if r.status == HANDLING then
      && (r.attempt < r.maxAttempts ==> n <= reclaims + 1)
      && (r.attempt >= r.maxAttempts ==> r.attempt + n <= r.maxAttempts + reclaims)
    else r.attempt <= r.maxAttempts + reclaims
  }

  ghost predicate Funded(s: State) {
    forall i :: i in s.rows ==> i in s.accounts && Covered(s.rows[i], |Retriers(s, i)|, s.accounts[i].reclaims)
  }

  /** Single acks only ever hit the attempt they were issued for. */
  predicate Exact(b: Dialect, rules: Rules) {
    b.Postgres? || rules.soloClaim
  }

  /** Success writes only ever hit the attempt they were issued for. */
  predicate Earnest(b: Dialect, rules: Rules) {
    Exact(b, rules) || rules.batchedSuccess
  }

  ghost predicate Inv(b: Dialect, rules: Rules, s: State) {
    && UniqueKeys(s.rows) && TableInv(b, s) && TokenInv(s) && Counted(s)
    && (rules.soloClaim ==> Solo(s))
    && (Earnest(b, rules) ==> Evidence(s, false))
    && (Exact(b, rules) ==> Bounded(s, false))
    && (rules.cleanRequeue ==> Level(s) && Funded(s))
    && (Exact(b, rules) && rules.cleanRequeue ==> Ordered(s) && Evidence(s, true))
    && (Exact(b, rules) && rules.cappedReclaim ==> Bounded(s, true))
  }
}
