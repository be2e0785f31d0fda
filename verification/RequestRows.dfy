// What each broker statement does to one model-request row, and the constraints
// every row keeps.

module RequestRows {
  import opened Records
  import opened Totals

  const GLOBAL_RUNNING_LIMIT := 3
  const SESSION_RUNNING_LIMIT := 2
  const SESSION_OUTSTANDING_LIMIT := 10
  const GLOBAL_OUTSTANDING_LIMIT := 30
  const LOGICAL_DEADLINE := 180
  const MIN_RETRY := 5
  const MAX_RETRY := 300
  const QUEUE_WAIT := GLOBAL_OUTSTANDING_LIMIT * LOGICAL_DEADLINE + 4 * MAX_RETRY

  // ---- aggregates ----

  function Durable(row: Row): int { if row.attempt < 1 then 1 else row.attempt }

  // Which rows are counted, told from what identifies a row.
  type Scope = (OpKey, Call) -> bool

  function By(key: OpKey, call: Call): Scope { (k: OpKey, c: Call) => k == key && c == call }

  function Under(key: OpKey): Scope { (k: OpKey, c: Call) => k == key }

  function From(call: Call): Scope { (k: OpKey, c: Call) => c == call }

  function AttemptsIn(scope: Scope): Weight { (r: Row) => if scope(r.key, r.caller) then r.attempt else 0 }

  function DurableOf(key: OpKey): Weight { (r: Row) => if r.key == key then Durable(r) else 0 }

  // The share of one call in the history of a key.
  function AttemptsBy(key: OpKey, call: Call): Weight { AttemptsIn(By(key, call)) }

  function DurableBy(key: OpKey, call: Call): Weight {
    (r: Row) => if r.key == key && r.caller == call then Durable(r) else 0
  }

  function CountRunning(): Weight { (r: Row) => if r.status.Running? then 1 else 0 }

  function CountRunningOf(session: Session): Weight {
    (r: Row) => if r.status.Running? && r.key.session == session then 1 else 0
  }

  function CountLive(): Weight { (r: Row) => if r.Live() then 1 else 0 }

  function CountLiveOf(session: Session): Weight {
    (r: Row) => if r.Live() && r.key.session == session then 1 else 0
  }

  // ---- submission ----

  datatype SubmitRequest = SubmitRequest(key: OpKey, caller: Call, generation: int, maxAttempts: int)

  datatype SubmitError = InvalidRequest | Overloaded

  predicate Blank(s: string) { forall c :: c in s ==> c in " \t\n\r" }

  predicate ValidRequest(request: SubmitRequest) {
    && request.generation >= 0 && request.maxAttempts >= 1
    && !Blank(request.key.site) && !Blank(request.key.stage) && !Blank(request.key.role)
  }

  function NewRow(request: SubmitRequest, cached: Option<CacheEntry>, remaining: int, now: int): Row {
    var status := if cached.Some? then Completed else if remaining == 0 then Failed else Queued;
    Row(
      key := request.key,
      caller := request.caller,
      status := status,
      generation := request.generation,
      attempt := 0,
      maxAttempts := if remaining < 1 then 1 else remaining,
      output := if cached.Some? then Some(cached.value.output) else None,
      cacheSource := if cached.Some? then Some(cached.value.source) else None,
      createdAt := now,
      availableAt := now,
      deadlineAt := now + QUEUE_WAIT,
      startedAt := None,
      heartbeatAt := None,
      completedAt := if status.Queued? then None else Some(now),
      leaseOwner := None,
      error := if status.Failed? then Some("attempt_budget_exhausted") else None)
  }

  function Lookup(cache: Cache, slot: CacheSlot): Option<CacheEntry> {
    if slot in cache then Some(cache[slot]) else None
  }

  function Remaining(budget: int, spent: int): int { if spent >= budget then 0 else budget - spent }

  ghost function Submission(rows: Rows, cache: Cache, request: SubmitRequest, now: int)
    : Result<Row, SubmitError>
  {
    if !ValidRequest(request) then Err(InvalidRequest)
    else
      var remaining := Remaining(request.maxAttempts, Total(rows, DurableOf(request.key)));
      var cached := Lookup(cache, SlotOf(request.key));
      if cached.None? && remaining != 0
         && (Total(rows, CountLiveOf(request.key.session)) >= SESSION_OUTSTANDING_LIMIT
             || Total(rows, CountLive()) >= GLOBAL_OUTSTANDING_LIMIT)
      then Err(Overloaded)
      else Ok(NewRow(request, cached, remaining, now))
  }

  // ---- single-row statements ----

  function Pow2(n: nat): nat { if n == 0 then 1 else 2 * Pow2(n - 1) }

  function Backoff(base: int, attempt: int): int {
    var raw := base * Pow2(if attempt < 1 then 0 else attempt - 1);
    if raw < MAX_RETRY then raw else MAX_RETRY
  }

  function ExpireRow(row: Row, now: int): Row {
    if row.Waiting() && row.deadlineAt <= now then
      row.(status := Failed, completedAt := Some(now),
           error := Some(if row.status.Queued? then "queue_wait_exceeded" else "deadline_exceeded"))
    else row
  }

  function ClaimRow(row: Row, owner: Owner, now: int, window: int): Row {
    row.(status := Running, attempt := row.attempt + 1, startedAt := Some(now), heartbeatAt := Some(now),
         leaseOwner := Some(owner), error := None,
         deadlineAt := if row.attempt == 0 then now + window else row.deadlineAt)
  }

  predicate Leased(row: Row, owner: Owner) { row.status.Running? && row.leaseOwner == Some(owner) }

  function HeartbeatRow(row: Row, owner: Owner, now: int): Row {
    if Leased(row, owner) then row.(heartbeatAt := Some(now)) else row
  }

  function CompleteRow(row: Row, owner: Owner, output: string, now: int): Row {
    if Leased(row, owner) then
      row.(status := Completed, output := Some(output), completedAt := Some(now),
           heartbeatAt := None, leaseOwner := None)
    else row
  }

  function FailOrRetryRow(row: Row, owner: Owner, now: int, base: int, code: string, terminal: bool): Row {
    if !Leased(row, owner) then row
    else
      var retryAt := now + Backoff(base, row.attempt);
      var retry := !terminal && row.attempt < row.maxAttempts && retryAt < row.deadlineAt;
      row.(status := if retry then Retry else Failed,
           availableAt := if retry then retryAt else row.availableAt,
           completedAt := if retry then None else Some(now),
           startedAt := None, heartbeatAt := None, leaseOwner := None, error := Some(code))
  }

  function LastSeen(row: Row): Option<int> { if row.heartbeatAt.Some? then row.heartbeatAt else row.startedAt }

  predicate Stale(row: Row, cutoff: int) {
    row.status.Running? && (LastSeen(row).Some? ==> LastSeen(row).value <= cutoff)
  }

  function RecoverRow(row: Row, now: int, base: int, cutoff: int): Row {
    if !Stale(row, cutoff) then row
    else
      var retryAt := now + Backoff(base, row.attempt);
      var released := row.(startedAt := None, heartbeatAt := None, leaseOwner := None);
      if row.deadlineAt <= now then
        released.(status := Failed, completedAt := Some(now), error := Some("stale_deadline"))
      else if row.attempt >= row.maxAttempts then
        released.(status := Failed, completedAt := Some(now), error := Some("stale_attempt_limit"))
      else if retryAt >= row.deadlineAt then
        released.(status := Failed, completedAt := Some(now), error := Some("stale_deadline"))
      else
        released.(status := Retry, availableAt := retryAt, error := Some("stale_recovered"))
  }

  function WaitExpiredRow(row: Row, seen: RequestStatus, now: int): Row {
    if row.Live() then
      row.(status := Failed, completedAt := Some(now), leaseOwner := None, heartbeatAt := None,
           error := Some(if seen.Queued? then "queue_wait_exceeded" else "deadline_exceeded"))
    else row
  }

  function CancelRow(row: Row, now: int): Row {
    if row.Live() then
      row.(status := Cancelled, completedAt := Some(now), leaseOwner := None, heartbeatAt := None,
           error := Some("cancelled"))
    else row
  }

  // ---- whole-table statements ----

  function ExpireRows(rows: Rows, now: int): Rows { map id | id in rows :: ExpireRow(rows[id], now) }

  function RecoverRows(rows: Rows, now: int, base: int, cutoff: int): Rows {
    map id | id in rows :: RecoverRow(rows[id], now, base, cutoff)
  }

  // Takeover: every live request of the site from an older generation is cancelled.
  function CancelOlder(rows: Rows, session: Session, site: string, generation: int, now: int): Rows {
    map id | id in rows ::
      if rows[id].key.session == session && rows[id].key.site == site && rows[id].generation < generation
      then CancelRow(rows[id], now) else rows[id]
  }

  function CompleteCache(rows: Rows, cache: Cache, id: Id, owner: Owner, output: string): Cache
    requires id in rows
  {
    if Leased(rows[id], owner) && SlotOf(rows[id].key) !in cache
    then cache[SlotOf(rows[id].key) := CacheEntry(id, output)]
    else cache
  }

  predicate Eligible(row: Row, now: int) {
    row.Waiting() && row.availableAt <= now && row.deadlineAt > now
  }

  ghost predicate Runnable(rows: Rows, id: Id, now: int) {
    && id in rows && Eligible(rows[id], now)
    && Total(rows, CountRunningOf(rows[id].key.session)) < SESSION_RUNNING_LIMIT
  }

  // ---- the constraints of one row ----

  // The table's CHECK constraints, and the facts that make them inductive.
  predicate RowOk(row: Row) {
    && row.generation >= 0 && Serves(row.key, row.caller)
    && row.maxAttempts >= 1
    && 0 <= row.attempt <= row.maxAttempts
    && row.deadlineAt > row.createdAt
    && (row.status.Running? <==> row.leaseOwner.Some?)
    && (row.status.Running? ==> row.startedAt.Some? && row.attempt >= 1)
    && (row.Terminal() ==> row.completedAt.Some?)
    && (row.status.Completed? <==> row.output.Some?)
    && (row.status.Queued? ==> row.attempt == 0)
    && (row.status.Retry? ==> 1 <= row.attempt < row.maxAttempts && row.availableAt < row.deadlineAt)
    && (row.attempt == 0 ==> row.deadlineAt == row.createdAt + QUEUE_WAIT)
    && row.deadlineAt < row.createdAt + QUEUE_WAIT + LOGICAL_DEADLINE
    && (row.cacheSource.Some? ==> row.status.Completed? && row.attempt == 0)
  }

  predicate SameIdentity(row: Row, row': Row) {
    && row'.key == row.key && row'.caller == row.caller && row'.generation == row.generation
    && row'.attempt == row.attempt && row'.maxAttempts == row.maxAttempts
    && row'.createdAt == row.createdAt && row'.deadlineAt == row.deadlineAt
    && row'.cacheSource == row.cacheSource
  }

  // Everything but a claim: a row stays, or gives up its lease, or ends; nothing is consumed.
  predicate QuietRow(row: Row, row': Row) {
    || row' == row
    || (row.status.Running? && row' == row.(heartbeatAt := row'.heartbeatAt))
    || (&& row.Live() && SameIdentity(row, row') && row'.leaseOwner.None?
        && (row'.Terminal() || (row'.status.Retry? && row.status.Running?))
        && (row'.status.Completed? ==> row.status.Running?))
  }

  predicate Keeps(row: Row, row': Row) { RowOk(row) ==> QuietRow(row, row') && RowOk(row') }

  predicate Quiet(rows: Rows, rows': Rows) {
    && rows'.Keys == rows.Keys
    && forall id :: id in rows ==> Keeps(rows[id], rows'[id])
  }

  // The number of status changes a row can still make.
  function Potential(row: Row): int {
    match row.status
    case Queued => 2 * row.maxAttempts
    case Retry => 2 * (row.maxAttempts - row.attempt)
    case Running => 2 * (row.maxAttempts - row.attempt) + 1
    case _ => 0
  }

  // ---- facts about single statements ----

  lemma {:induction false} Pow2Positive(n: nat)
    ensures Pow2(n) >= 1
  {
    if n > 0 { Pow2Positive(n - 1); }
  }

  // A backoff is never shorter than the smallest base nor longer than the cap.
  lemma BackoffBounds(base: int, attempt: int)
    requires MIN_RETRY <= base <= MAX_RETRY
    ensures base <= Backoff(base, attempt) <= MAX_RETRY
  {
    var p := Pow2(if attempt < 1 then 0 else attempt - 1);
    Pow2Positive(if attempt < 1 then 0 else attempt - 1);
    assert base * p >= base;
  }

  lemma ExpireKeeps(row: Row, now: int)
    ensures Keeps(row, ExpireRow(row, now))
  {
  }

  lemma CompleteKeeps(row: Row, owner: Owner, output: string, now: int)
    ensures Keeps(row, CompleteRow(row, owner, output, now))
  {
  }

  lemma FailOrRetryKeeps(row: Row, owner: Owner, now: int, base: int, code: string, terminal: bool)
    ensures Keeps(row, FailOrRetryRow(row, owner, now, base, code, terminal))
  {
  }

  lemma RecoverKeeps(row: Row, now: int, base: int, cutoff: int)
    ensures Keeps(row, RecoverRow(row, now, base, cutoff))
  {
  }

  lemma EndKeeps(row: Row, seen: RequestStatus, now: int)
    ensures Keeps(row, WaitExpiredRow(row, seen, now))
    ensures Keeps(row, CancelRow(row, now))
  {
  }

  // A claim keeps the constraints and moves the deadline only the first time.
  lemma ClaimKeepsRow(row: Row, owner: Owner, now: int, window: int)
    requires RowOk(row) && Eligible(row, now) && row.createdAt <= now && 0 < window <= LOGICAL_DEADLINE
    ensures RowOk(ClaimRow(row, owner, now, window))
    ensures now < row.createdAt + QUEUE_WAIT + LOGICAL_DEADLINE
    ensures row.attempt == 0 ==> now < row.createdAt + QUEUE_WAIT
  {
  }

  // Every change of status spends potential, and a row starts with at most 2 * maxAttempts of it.
  lemma StatusChangesSpendPotential(row: Row, row': Row)
    requires RowOk(row) && RowOk(row')
    requires QuietRow(row, row')
      || exists owner, now, window :: Eligible(row, now) && row' == ClaimRow(row, owner, now, window)
    ensures Potential(row') >= 0
    ensures row'.status != row.status ==> Potential(row') < Potential(row)
    ensures row'.status == row.status ==> Potential(row') == Potential(row)
  {
  }

  lemma NewRowOk(request: SubmitRequest, cached: Option<CacheEntry>, spent: int, now: int)
    requires ValidRequest(request) && Serves(request.key, request.caller) && spent >= 0
    ensures RowOk(NewRow(request, cached, Remaining(request.maxAttempts, spent), now))
    ensures Potential(NewRow(request, cached, Remaining(request.maxAttempts, spent), now)) <= 2 * request.maxAttempts
  {
  }
}
