// What every transaction of the model-request protocol keeps.

module ModelInvariants {
  import opened Records
  import opened Totals
  import opened RequestRows
  import opened BrokerGateway
  import opened ModelProtocol

  // ---- the invariant ----

  ghost predicate RowsOk(rows: Rows, now: int) {
    forall id :: id in rows ==> RowOk(rows[id]) && rows[id].createdAt <= now
  }

  // Concurrency and admission limits.
  ghost predicate Limits(rows: Rows) {
    && Total(rows, CountRunning()) <= GLOBAL_RUNNING_LIMIT
    && Total(rows, CountLive()) <= GLOBAL_OUTSTANDING_LIMIT
    && (forall s :: Total(rows, CountRunningOf(s)) <= SESSION_RUNNING_LIMIT)
    && (forall s :: Total(rows, CountLiveOf(s)) <= SESSION_OUTSTANDING_LIMIT)
  }

  // Cache entries are outputs of completed requests; cached answers repeat them.
  ghost predicate CacheOk(rows: Rows, cache: Cache) {
    && (forall slot :: slot in cache ==>
          var e := cache[slot];
          e.source in rows && rows[e.source].output == Some(e.output) && SlotOf(rows[e.source].key) == slot)
    && (forall id :: id in rows && rows[id].cacheSource.Some? ==>
          var slot := SlotOf(rows[id].key);
          slot in cache && cache[slot].source == rows[id].cacheSource.value
          && rows[id].output == Some(cache[slot].output))
  }

  // A live request is the one its operation links to; a completed one is linked or was retired.
  ghost predicate Linked(rows: Rows, ops: Ops) {
    && (forall id :: id in rows && rows[id].Live() ==>
          OpOf(rows[id]) in ops && ops[OpOf(rows[id])].requestId == Some(id))
    && (forall id :: id in rows && rows[id].status.Completed? ==>
          OpOf(rows[id]) in ops && ops[OpOf(rows[id])].requestId in {Some(id), None})
  }

  // An operation links to a request, or to a claim token, or was retired.
  ghost predicate OpOk(ids: set<Id>, tokens: set<Id>, op: Op) {
    && (op.requestId.None? ==> op.status == Mirrors(Cancelled))
    && (op.requestId.Some? ==> op.requestId.value in tokens || op.requestId.value in ids)
    && (op.status.Submitting? ==> op.requestId.Some? && op.requestId.value in tokens)
  }

  predicate HoldsToken(op: Op, tokens: set<Id>) { op.requestId.Some? && op.requestId.value in tokens }

  // Two operations may come to share a request, but never a claim token.
  ghost predicate OpsOk(ids: set<Id>, ops: Ops, tokens: set<Id>) {
    && (forall o :: o in ops ==> OpOk(ids, tokens, ops[o]))
    && (forall o, p :: o in ops && p in ops && HoldsToken(ops[o], tokens) && ops[p].requestId == ops[o].requestId ==>
         o == p)
  }

  // Request ids and claim tokens never mix, and a token that made a row is never used again.
  ghost predicate IdsOk(ids: set<Id>, ops: Ops, issued: set<Id>, tokens: set<Id>, origin: map<Id, Id>) {
    && ids <= issued && tokens <= issued && tokens !! ids
    && origin.Keys == ids
    && (forall id :: id in origin ==> origin[id] in tokens)
    && (forall a, b :: a in origin && b in origin && origin[a] == origin[b] ==> a == b)
    && (forall id, o :: id in origin && o in ops ==> ops[o].requestId != Some(origin[id]))
  }

  ghost predicate PlanOk(rows: Rows, tokens: set<Id>, plan: Plan) {
    match plan
    case MarkCancelled(request) => request in rows
    case Retarget(request) => request in rows && rows[request].status.Failed?
    case Relink(reservation, request, _) => reservation.Some? && reservation.value in tokens && request in rows
    case TakeClaim(previous, _) => previous.Some? ==> previous.value in tokens
  }

  ghost predicate WorkerOk(rows: Rows, ops: set<OpId>, tokens: set<Id>, worker: Worker) {
    match worker
    case Idle => true
    case Recovering(op, key) => op in ops && Serves(key, op.call)
    case Planned(op, key, plan) => op in ops && Serves(key, op.call) && PlanOk(rows, tokens, plan)
    case Holding(op, key, token) => op in ops && Serves(key, op.call) && token in tokens
    case Dropping(op, token, status) => op in ops && token in tokens && status in {Failed, Cancelled}
    case Polling(op, request) => op in ops && request in rows
    case Halting(op, request) => op in ops && request in rows
    case Ending(op, request, status) =>
      op in ops && request in rows && rows[request].Terminal()
      && status in {Completed, Failed, Cancelled}
  }

  ghost predicate WorkersOk(rows: Rows, ops: set<OpId>, tokens: set<Id>, workers: map<WorkerId, Worker>) {
    forall w :: w in workers ==> WorkerOk(rows, ops, tokens, workers[w])
  }

  // Live requests belong to the session's current generation and site.
  ghost predicate Current(rows: Rows, executions: Executions) {
    forall id :: id in rows && rows[id].Live() ==>
      && rows[id].key.session in executions
      && rows[id].generation == executions[rows[id].key.session].generation
      && rows[id].key.site == executions[rows[id].key.session].adapter
  }

  ghost predicate OpsHome(ops: set<OpId>, executions: Executions) {
    && (forall o :: o in ops ==> o.call.session in executions && o.call.site == executions[o.call.session].adapter)
    && (forall s :: s in executions ==> executions[s].generation >= 0)
  }

  // Under one key a call never spends more than the budget, and what its live row may still
  // spend is reserved.
  ghost predicate BudgetOk(rows: Rows, key: OpKey, call: Call, budget: int) {
    && Total(rows, AttemptsBy(key, call)) <= budget
    && (forall id :: id in rows && rows[id].Live() && rows[id].key == key && rows[id].caller == call ==>
          Total(rows - {id}, DurableBy(key, call)) + rows[id].maxAttempts <= budget)
  }

  // The first row of a key holds the whole budget, and no row more.
  ghost predicate SharesOk(rows: Rows, key: OpKey, budget: int) {
    && (forall id :: id in rows && rows[id].key == key ==> rows[id].maxAttempts <= budget)
    && ((exists id :: id in rows && rows[id].key == key) ==>
          exists id :: id in rows && rows[id].key == key && rows[id].maxAttempts == budget)
  }

  ghost predicate Budgets(rows: Rows, budget: int) {
    && (forall key, call :: BudgetOk(rows, key, call, budget))
    && (forall key :: SharesOk(rows, key, budget))
  }

  ghost predicate LinksInv(m: Model) {
    && Linked(m.rows, m.ops)
    && OpsOk(m.rows.Keys, m.ops, m.tokens)
    && IdsOk(m.rows.Keys, m.ops, m.issued, m.tokens, m.origin)
    && WorkersOk(m.rows, m.ops.Keys, m.tokens, m.workers)
    && Current(m.rows, m.executions)
    && OpsHome(m.ops.Keys, m.executions)
  }

  ghost predicate Inv(m: Model, budget: int) {
    && RowsOk(m.rows, m.now)
    && Limits(m.rows)
    && CacheOk(m.rows, m.cache)
    && LinksInv(m)
    && Budgets(m.rows, budget)
  }

  // ---- statements that consume nothing ----

  ghost predicate NoBusier(rows: Rows, rows': Rows) {
    && rows'.Keys == rows.Keys
    && forall id :: id in rows ==>
         && rows'[id].key == rows[id].key
         && (rows'[id].status.Running? ==> rows[id].status.Running?)
         && (rows'[id].Live() ==> rows[id].Live())
  }

  lemma QuietIsNoBusier(rows: Rows, rows': Rows, now: int)
    requires RowsOk(rows, now) && Quiet(rows, rows')
    ensures NoBusier(rows, rows')
  {
  }

  lemma NoBusierKeepsLimits(rows: Rows, rows': Rows)
    requires NoBusier(rows, rows') && Limits(rows)
    ensures Limits(rows')
  {
    TotalMonotone(rows, rows', CountRunning());
    TotalMonotone(rows, rows', CountLive());
    forall s
      ensures Total(rows', CountRunningOf(s)) <= SESSION_RUNNING_LIMIT
      ensures Total(rows', CountLiveOf(s)) <= SESSION_OUTSTANDING_LIMIT
    {
      TotalMonotone(rows, rows', CountRunningOf(s));
      TotalMonotone(rows, rows', CountLiveOf(s));
    }
  }

  lemma QuietKeepsLimits(rows: Rows, rows': Rows, now: int)
    requires RowsOk(rows, now) && Quiet(rows, rows') && Limits(rows)
    ensures Limits(rows')
  {
    hide Limits, RowsOk, Quiet;
    QuietIsNoBusier(rows, rows', now);
    NoBusierKeepsLimits(rows, rows');
  }

  // What the links and the budgets see of a quiet statement.
  ghost predicate Subsides(rows: Rows, rows': Rows) {
    && rows'.Keys == rows.Keys
    && forall id :: id in rows ==>
         && SameIdentity(rows[id], rows'[id])
         && (rows'[id].Live() ==> rows[id].Live())
         && (rows[id].Terminal() ==> rows'[id] == rows[id])
  }

  lemma QuietSubsides(rows: Rows, rows': Rows, now: int)
    requires RowsOk(rows, now) && Quiet(rows, rows')
    ensures Subsides(rows, rows') && RowsOk(rows', now)
  {
  }

  lemma SubsidingKeepsBudget(rows: Rows, rows': Rows, key: OpKey, call: Call, budget: int)
    requires Subsides(rows, rows') && BudgetOk(rows, key, call, budget)
    ensures BudgetOk(rows', key, call, budget)
  {
    TotalEqual(rows, rows', AttemptsBy(key, call));
    forall id | id in rows' && rows'[id].Live() && rows'[id].key == key && rows'[id].caller == call
      ensures Total(rows' - {id}, DurableBy(key, call)) + rows'[id].maxAttempts <= budget
    {
      TotalEqual(rows - {id}, rows' - {id}, DurableBy(key, call));
    }
  }

  lemma SubsidingKeepsShares(rows: Rows, rows': Rows, key: OpKey, budget: int)
    requires Subsides(rows, rows') && SharesOk(rows, key, budget)
    ensures SharesOk(rows', key, budget)
  {
    forall id | id in rows' && rows'[id].key == key
      ensures exists first :: first in rows' && rows'[first].key == key && rows'[first].maxAttempts == budget
    {
      assert rows[id].key == key;
      var first :| first in rows && rows[first].key == key && rows[first].maxAttempts == budget;
      assert rows'[first].key == key && rows'[first].maxAttempts == budget;
    }
  }

  lemma SubsidingKeepsBudgets(rows: Rows, rows': Rows, budget: int)
    requires Subsides(rows, rows') && Budgets(rows, budget)
    ensures Budgets(rows', budget)
  {
    forall key, call
      ensures BudgetOk(rows', key, call, budget)
    {
      SubsidingKeepsBudget(rows, rows', key, call, budget);
    }
    forall key
      ensures SharesOk(rows', key, budget)
    {
      SubsidingKeepsShares(rows, rows', key, budget);
    }
  }

  lemma SubsidingKeepsCache(rows: Rows, rows': Rows, cache: Cache, now: int)
    requires RowsOk(rows, now) && Subsides(rows, rows') && CacheOk(rows, cache)
    ensures CacheOk(rows', cache)
  {
  }

  lemma QuietKeepsLinked(rows: Rows, rows': Rows, ops: Ops, now: int)
    requires RowsOk(rows, now) && Quiet(rows, rows') && Linked(rows, ops)
    ensures Linked(rows', ops)
  {
    hide RowOk, Keeps;
    forall id | id in rows
      ensures OpOf(rows'[id]) == OpOf(rows[id])
      ensures rows'[id].Live() ==> rows[id].Live()
      ensures rows'[id].status.Completed? ==> rows[id].Live() || rows[id].status.Completed?
    {
      assert RowOk(rows[id]) && Keeps(rows[id], rows'[id]);
      QuietRowStays(rows[id], rows'[id]);
    }
  }

  lemma QuietRowStays(row: Row, row': Row)
    requires RowOk(row) && Keeps(row, row')
    ensures OpOf(row') == OpOf(row) && (row'.Live() ==> row.Live())
    ensures row'.status.Completed? ==> row.Live() || row.status.Completed?
  {
  }

  lemma SubsidingKeepsWorkers(rows: Rows, rows': Rows, ops: set<OpId>, tokens: set<Id>, workers: map<WorkerId, Worker>)
    requires Subsides(rows, rows') && WorkersOk(rows, ops, tokens, workers)
    ensures WorkersOk(rows', ops, tokens, workers)
  {
    forall w | w in workers
      ensures WorkerOk(rows', ops, tokens, workers[w])
    {
      assert WorkerOk(rows, ops, tokens, workers[w]);
    }
  }

  lemma QuietKeepsAll(m: Model, rows': Rows, budget: int)
    requires Inv(m, budget) && Quiet(m.rows, rows')
    ensures Inv(m.(rows := rows'), budget)
  {
    QuietKeepsLimits(m.rows, rows', m.now);
    QuietSubsides(m.rows, rows', m.now);
    SubsidingKeepsBudgets(m.rows, rows', budget);
    SubsidingKeepsCache(m.rows, rows', m.cache, m.now);
    QuietKeepsLinked(m.rows, rows', m.ops, m.now);
    SubsidingKeepsWorkers(m.rows, rows', m.ops.Keys, m.tokens, m.workers);
    assert Current(rows', m.executions);
  }

  lemma NewEntryKeepsCache(rows: Rows, cache: Cache, id: Id, output: string)
    requires CacheOk(rows, cache) && id in rows && rows[id].output == Some(output) && SlotOf(rows[id].key) !in cache
    ensures CacheOk(rows, cache[SlotOf(rows[id].key) := CacheEntry(id, output)])
  {
  }

  lemma CacheEntryKeepsAll(m: Model, id: Id, output: string, budget: int)
    requires Inv(m, budget) && id in m.rows && m.rows[id].output == Some(output) && SlotOf(m.rows[id].key) !in m.cache
    ensures Inv(m.(cache := m.cache[SlotOf(m.rows[id].key) := CacheEntry(id, output)]), budget)
  {
    hide Limits, Budgets, Linked, OpsOk, IdsOk, WorkersOk, Current, OpsHome, RowsOk;
    NewEntryKeepsCache(m.rows, m.cache, id, output);
  }

  lemma SucceedKeepsAll(m: Model, owner: Owner, id: Id, output: string, m': Model, budget: int)
    requires Inv(m, budget) && Next(m, Succeed(owner, id, output), m', budget)
    ensures Inv(m', budget)
  {
    hide Inv;
    CompleteKeeps(m.rows[id], owner, output, m.now);
    assert Quiet(m.rows, m'.rows);
    QuietKeepsAll(m, m'.rows, budget);
    if m'.cache != m.cache {
      CacheEntryKeepsAll(m.(rows := m'.rows), id, output, budget);
    }
  }

  // ---- claims ----

  // Two live requests of one call are the same request.
  lemma LiveIsUnique(rows: Rows, ops: Ops, executions: Executions, a: Id, b: Id)
    requires Linked(rows, ops) && Current(rows, executions)
    requires a in rows && b in rows && rows[a].Live() && rows[b].Live() && rows[a].caller == rows[b].caller
    requires Serves(rows[a].key, rows[a].caller) && Serves(rows[b].key, rows[b].caller)
    ensures a == b
  {
    assert OpOf(rows[a]) == OpOf(rows[b]);
  }

  lemma ClaimKeepsLimits(rows: Rows, id: Id, owner: Owner, now: int, window: int)
    requires Limits(rows) && Runnable(rows, id, now) && Total(rows, CountRunning()) < GLOBAL_RUNNING_LIMIT
    ensures Limits(rows[id := ClaimRow(rows[id], owner, now, window)])
  {
    var row' := ClaimRow(rows[id], owner, now, window);
    TotalUpdate(rows, id, row', CountRunning());
    TotalUpdate(rows, id, row', CountLive());
    forall s
      ensures Total(rows[id := row'], CountRunningOf(s)) <= SESSION_RUNNING_LIMIT
      ensures Total(rows[id := row'], CountLiveOf(s)) <= SESSION_OUTSTANDING_LIMIT
    {
      TotalUpdate(rows, id, row', CountRunningOf(s));
      TotalUpdate(rows, id, row', CountLiveOf(s));
    }
  }

  // What a claim changes of the row: its attempts go up by one, within its own limit.
  predicate Spends(row: Row, row': Row) {
    && row.Live() && row'.Live() && row'.key == row.key && row'.caller == row.caller
    && row'.generation == row.generation
    && row'.maxAttempts == row.maxAttempts && row'.attempt == row.attempt + 1 <= row.maxAttempts
  }

  predicate Of(row: Row, key: OpKey, call: Call) { row.key == key && row.caller == call }

  lemma ClaimKeepsAttempts(rows: Rows, id: Id, row': Row, key: OpKey, call: Call, budget: int)
    requires BudgetOk(rows, key, call, budget) && id in rows && Spends(rows[id], row')
    ensures Total(rows[id := row'], AttemptsBy(key, call)) <= budget
  {
    TotalUpdate(rows, id, row', AttemptsBy(key, call));
    if Of(rows[id], key, call) {
      TotalSplit(rows, id, AttemptsBy(key, call));
      TotalBetween(rows - {id}, AttemptsBy(key, call), DurableBy(key, call));
    }
  }

  lemma UpdateKeepsOtherReserve(rows: Rows, id: Id, row': Row, other: Id, key: OpKey, call: Call)
    requires id in rows && other in rows && (other == id || (!Of(rows[id], key, call) && !Of(row', key, call)))
    ensures Total(rows[id := row'] - {other}, DurableBy(key, call)) == Total(rows - {other}, DurableBy(key, call))
  {
    if other == id {
      assert rows[id := row'] - {id} == rows - {id};
    } else {
      assert rows[id := row'] - {other} == (rows - {other})[id := row'];
      TotalUpdate(rows - {other}, id, row', DurableBy(key, call));
    }
  }

  lemma ClaimKeepsBudget(
    rows: Rows, ops: Ops, executions: Executions, id: Id, row': Row, key: OpKey, call: Call, budget: int, now: int)
    requires Linked(rows, ops) && Current(rows, executions) && BudgetOk(rows, key, call, budget) && RowsOk(rows, now)
    requires id in rows && Spends(rows[id], row')
    ensures BudgetOk(rows[id := row'], key, call, budget)
  {
    var rows' := rows[id := row'];
    ClaimKeepsAttempts(rows, id, row', key, call, budget);
    forall other | other in rows' && rows'[other].Live() && Of(rows'[other], key, call)
      ensures Total(rows' - {other}, DurableBy(key, call)) + rows'[other].maxAttempts <= budget
    {
      if Of(rows[id], key, call) {
        LiveIsUnique(rows, ops, executions, id, other);
      }
      UpdateKeepsOtherReserve(rows, id, row', other, key, call);
    }
  }

  lemma ClaimKeepsShares(rows: Rows, id: Id, row': Row, key: OpKey, budget: int)
    requires SharesOk(rows, key, budget) && id in rows && Spends(rows[id], row')
    ensures SharesOk(rows[id := row'], key, budget)
  {
    var rows' := rows[id := row'];
    forall some | some in rows' && rows'[some].key == key
      ensures exists first :: first in rows' && rows'[first].key == key && rows'[first].maxAttempts == budget
    {
      assert rows[some].key == key;
      var first :| first in rows && rows[first].key == key && rows[first].maxAttempts == budget;
      assert rows'[first].key == key && rows'[first].maxAttempts == budget;
    }
  }

  lemma ClaimKeepsBudgets(rows: Rows, ops: Ops, executions: Executions, id: Id, row': Row, budget: int, now: int)
    requires Linked(rows, ops) && Current(rows, executions) && Budgets(rows, budget) && RowsOk(rows, now)
    requires id in rows && Spends(rows[id], row')
    ensures Budgets(rows[id := row'], budget)
  {
    var rows' := rows[id := row'];
    forall key, call
      ensures BudgetOk(rows', key, call, budget)
    {
      ClaimKeepsBudget(rows, ops, executions, id, row', key, call, budget, now);
    }
    forall key
      ensures SharesOk(rows', key, budget)
    {
      ClaimKeepsShares(rows, id, row', key, budget);
    }
  }

  // A claim changes neither which rows are live nor which operation they belong to.
  lemma ClaimKeepsLinks(m: Model, id: Id, row': Row)
    requires LinksInv(m) && id in m.rows && Spends(m.rows[id], row')
    ensures LinksInv(m.(rows := m.rows[id := row']))
  {
    hide OpsHome, IdsOk;
    var rows' := m.rows[id := row'];
    forall w | w in m.workers
      ensures WorkerOk(rows', m.ops.Keys, m.tokens, m.workers[w])
    {
      assert WorkerOk(m.rows, m.ops.Keys, m.tokens, m.workers[w]);
    }
    assert rows'.Keys == m.rows.Keys;
  }

  lemma ClaimKeepsCache(rows: Rows, cache: Cache, id: Id, row': Row)
    requires CacheOk(rows, cache) && id in rows && row'.key == rows[id].key
    requires row'.cacheSource == rows[id].cacheSource && row'.output == rows[id].output
    ensures CacheOk(rows[id := row'], cache)
  {
  }

  lemma ClaimKeepsAll(m: Model, id: Id, owner: Owner, window: int, budget: int)
    requires Inv(m, budget) && 0 < window <= LOGICAL_DEADLINE
    requires Runnable(m.rows, id, m.now) && Total(m.rows, CountRunning()) < GLOBAL_RUNNING_LIMIT
    ensures Inv(m.(rows := m.rows[id := ClaimRow(m.rows[id], owner, m.now, window)]), budget)
  {
    hide Limits, CacheOk, Budgets, Linked, OpsOk, IdsOk, WorkersOk, Current, OpsHome, RowOk;
    var row' := ClaimRow(m.rows[id], owner, m.now, window);
    ClaimKeepsRow(m.rows[id], owner, m.now, window);
    ClaimKeepsLimits(m.rows, id, owner, m.now, window);
    ClaimKeepsLinks(m, id, row');
    ClaimKeepsCache(m.rows, m.cache, id, row');
    ClaimKeepsBudgets(m.rows, m.ops, m.executions, id, row', budget, m.now);
  }

  lemma ExpireIsQuiet(rows: Rows, now: int)
    ensures Quiet(rows, ExpireRows(rows, now))
  {
    forall id | id in rows
      ensures Keeps(rows[id], ExpireRows(rows, now)[id])
    {
      ExpireKeeps(rows[id], now);
    }
  }

  lemma TickKeepsAll(m: Model, owner: Owner, window: int, pick: Option<Id>, m': Model, budget: int)
    requires Inv(m, budget) && NextTick(m, owner, window, pick, m')
    ensures Inv(m', budget)
  {
    ExpireIsQuiet(m.rows, m.now);
    var e := m.(rows := ExpireRows(m.rows, m.now));
    QuietKeepsAll(m, e.rows, budget);
    if pick.Some? {
      ClaimKeepsAll(e, pick.value, owner, window, budget);
    }
  }

  // ---- submission ----

  lemma InsertKeepsLimits(rows: Rows, id: Id, row: Row)
    requires Limits(rows) && id !in rows && !row.status.Running?
    requires row.Live() ==>
      Total(rows, CountLive()) < GLOBAL_OUTSTANDING_LIMIT
      && Total(rows, CountLiveOf(row.key.session)) < SESSION_OUTSTANDING_LIMIT
    ensures Limits(rows[id := row])
  {
    TotalInsert(rows, id, row, CountRunning());
    TotalInsert(rows, id, row, CountLive());
    forall s
      ensures Total(rows[id := row], CountRunningOf(s)) <= SESSION_RUNNING_LIMIT
      ensures Total(rows[id := row], CountLiveOf(s)) <= SESSION_OUTSTANDING_LIMIT
    {
      TotalInsert(rows, id, row, CountRunningOf(s));
      TotalInsert(rows, id, row, CountLiveOf(s));
    }
  }

  ghost predicate Known(rows: Rows, key: OpKey) { exists id :: id in rows && rows[id].key == key }

  lemma DurableCountsRows(rows: Rows, key: OpKey)
    ensures Total(rows, DurableOf(key)) >= 0
    ensures Known(rows, key) ==> Total(rows, DurableOf(key)) >= 1
    ensures !Known(rows, key) ==> Total(rows, DurableOf(key)) == 0
  {
    TotalNonNegative(rows, DurableOf(key));
    if !Known(rows, key) {
      TotalZero(rows, DurableOf(key));
    }
  }

  lemma InsertKeepsOtherReserve(rows: Rows, id: Id, row: Row, other: Id, key: OpKey, call: Call)
    requires id !in rows && (other == id || (other in rows && !Of(row, key, call)))
    ensures Total(rows[id := row] - {other}, DurableBy(key, call))
         == if other == id then Total(rows, DurableBy(key, call)) else Total(rows - {other}, DurableBy(key, call))
  {
    if other == id {
      assert rows[id := row] - {id} == rows;
    } else {
      assert rows[id := row] - {other} == (rows - {other})[id := row];
      TotalInsert(rows - {other}, id, row, DurableBy(key, call));
    }
  }

  // The first row of a key holds the whole budget; later rows hold what is left.
  ghost predicate HoldsRemaining(rows: Rows, row: Row, budget: int) {
    var remaining := Remaining(budget, Total(rows, DurableOf(row.key)));
    && row.attempt == 0
    && row.maxAttempts == (if remaining < 1 then 1 else remaining)
    && (row.Live() ==> remaining != 0)
  }

  ghost predicate HasFull(rows: Rows, key: OpKey, budget: int) {
    exists first :: first in rows && rows[first].key == key && rows[first].maxAttempts == budget
  }

  lemma InsertKeepsReserves(rows: Rows, id: Id, row: Row, key: OpKey, call: Call, budget: int, other: Id)
    requires BudgetOk(rows, key, call, budget) && id !in rows && budget >= 1 && HoldsRemaining(rows, row, budget)
    requires forall x :: x in rows && rows[x].caller == row.caller ==> !rows[x].Live()
    requires other in rows[id := row] && rows[id := row][other].Live() && Of(rows[id := row][other], key, call)
    ensures Total(rows[id := row] - {other}, DurableBy(key, call)) + rows[id := row][other].maxAttempts <= budget
  {
    InsertKeepsOtherReserve(rows, id, row, other, key, call);
    TotalBetween(rows, DurableBy(key, call), DurableOf(key));
  }

  lemma InsertKeepsFirst(rows: Rows, id: Id, row: Row, key: OpKey, budget: int)
    requires SharesOk(rows, key, budget) && id !in rows && budget >= 1 && HoldsRemaining(rows, row, budget)
    requires Known(rows[id := row], key)
    ensures HasFull(rows[id := row], key, budget)
  {
    var rows' := rows[id := row];
    DurableCountsRows(rows, row.key);
    if Known(rows, key) {
      var first :| first in rows && rows[first].key == key && rows[first].maxAttempts == budget;
      assert rows'[first].key == key && rows'[first].maxAttempts == budget;
    } else {
      assert rows'[id].key == key && rows'[id].maxAttempts == budget;
    }
  }

  lemma InsertKeepsBudget(rows: Rows, id: Id, row: Row, key: OpKey, call: Call, budget: int)
    requires BudgetOk(rows, key, call, budget) && id !in rows && budget >= 1 && HoldsRemaining(rows, row, budget)
    requires forall other :: other in rows && rows[other].caller == row.caller ==> !rows[other].Live()
    ensures BudgetOk(rows[id := row], key, call, budget)
  {
    TotalInsert(rows, id, row, AttemptsBy(key, call));
    forall other | other in rows[id := row] && rows[id := row][other].Live() && Of(rows[id := row][other], key, call)
      ensures Total(rows[id := row] - {other}, DurableBy(key, call)) + rows[id := row][other].maxAttempts <= budget
    {
      InsertKeepsReserves(rows, id, row, key, call, budget, other);
    }
  }

  lemma InsertKeepsShares(rows: Rows, id: Id, row: Row, key: OpKey, budget: int)
    requires SharesOk(rows, key, budget) && id !in rows && budget >= 1 && HoldsRemaining(rows, row, budget)
    ensures SharesOk(rows[id := row], key, budget)
  {
    DurableCountsRows(rows, row.key);
    if Known(rows[id := row], key) {
      InsertKeepsFirst(rows, id, row, key, budget);
    }
  }

  lemma InsertKeepsBudgets(rows: Rows, id: Id, row: Row, budget: int)
    requires Budgets(rows, budget) && id !in rows && budget >= 1 && HoldsRemaining(rows, row, budget)
    requires forall other :: other in rows && rows[other].caller == row.caller ==> !rows[other].Live()
    ensures Budgets(rows[id := row], budget)
  {
    var rows' := rows[id := row];
    forall key, call
      ensures BudgetOk(rows', key, call, budget)
    {
      InsertKeepsBudget(rows, id, row, key, call, budget);
    }
    forall key
      ensures SharesOk(rows', key, budget)
    {
      InsertKeepsShares(rows, id, row, key, budget);
    }
  }

  // While an operation holds a claim token it has no live request, and no completed one.
  lemma HolderHasNoLiveRequest(m: Model, op: OpId, token: Id)
    requires LinksInv(m) && RowsOk(m.rows, m.now) && HoldsClaim(m.ops, op, token)
    ensures token in m.tokens && token !in m.rows
    ensures forall id :: id in m.rows && OpOf(m.rows[id]) == op ==> !m.rows[id].Live() && !m.rows[id].status.Completed?
    ensures m.executions[op.call.session].generation == op.generation ==>
      forall id :: id in m.rows && m.rows[id].caller == op.call ==> !m.rows[id].Live()
  {
    assert OpOk(m.rows.Keys, m.tokens, m.ops[op]);
    forall id | id in m.rows && m.rows[id].caller == op.call && m.rows[id].Live()
      ensures OpOf(m.rows[id]) == OpId(op.call, m.executions[op.call.session].generation)
    {
    }
  }

  lemma InsertKeepsCache(rows: Rows, cache: Cache, id: Id, row: Row)
    requires CacheOk(rows, cache) && id !in rows
    requires row.cacheSource.Some? ==>
      var slot := SlotOf(row.key);
      slot in cache && cache[slot].source == row.cacheSource.value && row.output == Some(cache[slot].output)
    ensures CacheOk(rows[id := row], cache)
  {
  }

  // An operation comes to link to a request row: a new one, or one found by the search.
  lemma LinkKeepsOps(ids: set<Id>, ops: Ops, tokens: set<Id>, id: Id, o: OpId, op: Op)
    requires OpsOk(ids, ops, tokens) && id !in tokens && op.requestId == Some(id) && op.status.Mirrors?
    ensures OpsOk(ids + {id}, ops[o := op], tokens)
  {
    var ops' := ops[o := op];
    forall p | p in ops'
      ensures OpOk(ids + {id}, tokens, ops'[p])
    {
      if p != o { assert OpOk(ids, tokens, ops[p]); }
    }
  }

  lemma InsertKeepsWorkers(
    rows: Rows, ops: set<OpId>, tokens: set<Id>, workers: map<WorkerId, Worker>, id: Id, row: Row, w: WorkerId, o: OpId)
    requires WorkersOk(rows, ops, tokens, workers) && id !in rows && o in ops
    ensures WorkersOk(rows[id := row], ops, tokens, workers[w := Polling(o, id)])
  {
    forall v | v in workers && v != w
      ensures WorkerOk(rows[id := row], ops, tokens, workers[v])
    {
      assert WorkerOk(rows, ops, tokens, workers[v]);
    }
  }

  lemma InsertKeepsLinked(rows: Rows, ops: Ops, id: Id, row: Row, o: OpId, op: Op)
    requires Linked(rows, ops) && id !in rows && OpOf(row) == o && op.requestId == Some(id)
    requires forall x :: x in rows && OpOf(rows[x]) == o ==> !rows[x].Live() && !rows[x].status.Completed?
    ensures Linked(rows[id := row], ops[o := op])
  {
  }

  lemma InsertKeepsIds(
    ids: set<Id>, ops: Ops, issued: set<Id>, tokens: set<Id>, origin: map<Id, Id>, id: Id, o: OpId, op: Op, token: Id)
    requires IdsOk(ids, ops, issued, tokens, origin) && id !in issued && token in tokens
    requires o in ops && ops[o].requestId == Some(token) && op.requestId == Some(id)
    requires forall p :: p in ops && ops[p].requestId == Some(token) ==> p == o
    ensures IdsOk(ids + {id}, ops[o := op], issued + {id}, tokens, origin[id := token])
  {
  }

  lemma InsertKeepsCurrent(rows: Rows, executions: Executions, id: Id, row: Row)
    requires Current(rows, executions)
    requires row.key.session in executions && row.generation == executions[row.key.session].generation
    requires row.key.site == executions[row.key.session].adapter
    ensures Current(rows[id := row], executions)
  {
  }

  // What holding the claim says about the operation, its token, and a new id.
  lemma ClaimFacts(m: Model, id: Id, op: OpId, token: Id)
    requires OpsOk(m.rows.Keys, m.ops, m.tokens) && IdsOk(m.rows.Keys, m.ops, m.issued, m.tokens, m.origin)
    requires OpsHome(m.ops.Keys, m.executions)
    requires id !in m.issued && HoldsClaim(m.ops, op, token) && !Fenced(m.executions, op.call.session, op.generation)
    ensures op in m.ops && m.ops[op].requestId == Some(token) && token in m.tokens
    ensures id !in m.rows && id !in m.tokens
    ensures forall p :: p in m.ops && m.ops[p].requestId == Some(token) ==> p == op
    ensures op.call.session in m.executions && op.generation == m.executions[op.call.session].generation
    ensures op.call.site == m.executions[op.call.session].adapter
  {
    assert OpOk(m.rows.Keys, m.tokens, m.ops[op]);
  }

  lemma SubmitKeepsLinks(m: Model, w: WorkerId, id: Id, op: OpId, token: Id, row: Row)
    requires LinksInv(m) && id !in m.issued && HoldsClaim(m.ops, op, token)
    requires !Fenced(m.executions, op.call.session, op.generation) && OpOf(row) == op && Serves(row.key, row.caller)
    requires RowsOk(m.rows, m.now)
    ensures LinksInv(Submitted(m, w, id, op, token, row))
  {
    hide Linked, WorkersOk, OpsOk, IdsOk, Current, OpsHome, Fenced, HoldsClaim;
    var m' := Submitted(m, w, id, op, token, row);
    var link := Op(Some(id), Mirrors(row.status), m.now);
    HolderHasNoLiveRequest(m, op, token);
    ClaimFacts(m, id, op, token);
    InsertKeepsLinked(m.rows, m.ops, id, row, op, link);
    LinkKeepsOps(m.rows.Keys, m.ops, m.tokens, id, op, link);
    InsertKeepsIds(m.rows.Keys, m.ops, m.issued, m.tokens, m.origin, id, op, link, token);
    InsertKeepsWorkers(m.rows, m.ops.Keys, m.tokens, m.workers, id, row, w, op);
    InsertKeepsCurrent(m.rows, m.executions, id, row);
    assert m'.rows.Keys == m.rows.Keys + {id};
    assert m'.ops.Keys == m.ops.Keys;
  }

  // What the submission statement guarantees of the row it inserts.
  lemma SubmittedRow(rows: Rows, cache: Cache, op: OpId, key: OpKey, budget: int, now: int, row: Row)
    requires Submission(rows, cache, SubmitRequest(key, op.call, op.generation, budget), now) == Ok(row)
    requires Serves(key, op.call)
    ensures OpOf(row) == op && row.key == key && RowOk(row) && row.createdAt == now && !row.status.Running?
    ensures HoldsRemaining(rows, row, budget)
    ensures row.Live() ==>
      Total(rows, CountLive()) < GLOBAL_OUTSTANDING_LIMIT
      && Total(rows, CountLiveOf(row.key.session)) < SESSION_OUTSTANDING_LIMIT
    ensures row.cacheSource.Some? ==>
      var slot := SlotOf(row.key);
      slot in cache && cache[slot].source == row.cacheSource.value && row.output == Some(cache[slot].output)
  {
    DurableCountsRows(rows, key);
    NewRowOk(SubmitRequest(key, op.call, op.generation, budget), Lookup(cache, SlotOf(key)),
      Total(rows, DurableOf(key)), now);
  }

  lemma InsertKeepsRows(rows: Rows, now: int, id: Id, row: Row)
    requires RowsOk(rows, now) && RowOk(row) && row.createdAt <= now
    ensures RowsOk(rows[id := row], now)
  {
  }

  lemma SubmitRowKeepsAll(m: Model, w: WorkerId, id: Id, op: OpId, key: OpKey, token: Id, row: Row, budget: int)
    requires Inv(m, budget) && budget >= 1 && id !in m.issued && HoldsClaim(m.ops, op, token)
    requires !Fenced(m.executions, op.call.session, op.generation)
    requires Submission(m.rows, m.cache, SubmitRequest(key, op.call, op.generation, budget), m.now) == Ok(row)
    requires Serves(key, op.call)
    ensures Inv(Submitted(m, w, id, op, token, row), budget)
  {
    hide Limits, CacheOk, Budgets, Linked, OpsOk, WorkersOk, Current, OpsHome, Submission, RowsOk;
    SubmittedRow(m.rows, m.cache, op, key, budget, m.now, row);
    HolderHasNoLiveRequest(m, op, token);
    SubmitKeepsLinks(m, w, id, op, token, row);
    InsertKeepsRows(m.rows, m.now, id, row);
    InsertKeepsLimits(m.rows, id, row);
    InsertKeepsCache(m.rows, m.cache, id, row);
    InsertKeepsBudgets(m.rows, id, row, budget);
  }

  // ---- worker moves and operation updates that touch no request ----

  // The operation's status changes, or nothing; the link stays.
  ghost predicate Restamps(ops: Ops, ops': Ops) {
    && ops'.Keys == ops.Keys
    && forall o :: o in ops ==>
         && ops'[o].requestId == ops[o].requestId
         && (ops'[o].status.Submitting? ==> ops[o].status.Submitting?)
         && (ops[o].requestId.None? ==> ops'[o].status == ops[o].status)
  }

  lemma RestampKeepsOps(ids: set<Id>, ops: Ops, ops': Ops, tokens: set<Id>)
    requires OpsOk(ids, ops, tokens) && Restamps(ops, ops')
    ensures OpsOk(ids, ops', tokens)
  {
    forall o | o in ops'
      ensures OpOk(ids, tokens, ops'[o])
    {
      assert OpOk(ids, tokens, ops[o]);
    }
  }

  lemma MoveKeepsWorkers(
    rows: Rows, ops: set<OpId>, tokens: set<Id>, workers: map<WorkerId, Worker>, w: WorkerId, worker: Worker)
    requires WorkersOk(rows, ops, tokens, workers) && WorkerOk(rows, ops, tokens, worker)
    ensures WorkersOk(rows, ops, tokens, workers[w := worker])
  {
  }

  lemma MoveKeepsAll(m: Model, w: WorkerId, worker: Worker, ops': Ops, budget: int)
    requires Inv(m, budget) && Restamps(m.ops, ops') && WorkerOk(m.rows, m.ops.Keys, m.tokens, worker)
    ensures Inv(Move(m, w, worker).(ops := ops'), budget)
  {
    RestampKeepsOps(m.rows.Keys, m.ops, ops', m.tokens);
    MoveKeepsWorkers(m.rows, m.ops.Keys, m.tokens, m.workers, w, worker);
    assert Linked(m.rows, ops');
    assert IdsOk(m.rows.Keys, ops', m.issued, m.tokens, m.origin);
  }

  lemma MintKeepsLinked(rows: Rows, ops: Ops, o: OpId, op: Op)
    requires Linked(rows, ops)
    requires o in ops ==> ops[o].requestId.Some? && forall id :: id in rows && ops[o].requestId == Some(id) ==>
      rows[id].status.Failed?
    ensures Linked(rows, ops[o := op])
  {
    forall id | id in rows && (rows[id].Live() || rows[id].status.Completed?)
      ensures OpOf(rows[id]) != o
    {
    }
  }

  lemma MintKeepsOps(ids: set<Id>, ops: Ops, issued: set<Id>, tokens: set<Id>, o: OpId, token: Id, now: int)
    requires OpsOk(ids, ops, tokens) && ids <= issued && tokens <= issued && token !in issued
    ensures OpsOk(ids, ops[o := Op(Some(token), Submitting, now)], tokens + {token})
  {
    var ops' := ops[o := Op(Some(token), Submitting, now)];
    forall p | p in ops'
      ensures OpOk(ids, tokens + {token}, ops'[p])
      ensures p != o ==> ops'[p].requestId != Some(token)
    {
      if p != o { assert OpOk(ids, tokens, ops[p]); }
    }
  }

  lemma MintKeepsIds(
    ids: set<Id>, ops: Ops, issued: set<Id>, tokens: set<Id>, origin: map<Id, Id>, o: OpId, token: Id, now: int)
    requires IdsOk(ids, ops, issued, tokens, origin) && token !in issued
    ensures IdsOk(ids, ops[o := Op(Some(token), Submitting, now)], issued + {token}, tokens + {token}, origin)
  {
  }

  lemma MintKeepsWorkers(
    rows: Rows, ops: set<OpId>, tokens: set<Id>, workers: map<WorkerId, Worker>, w: WorkerId, o: OpId, key: OpKey,
    token: Id)
    requires WorkersOk(rows, ops, tokens, workers) && Serves(key, o.call)
    ensures WorkersOk(rows, ops + {o}, tokens + {token}, workers[w := Holding(o, key, token)])
  {
    forall v | v in workers && v != w
      ensures WorkerOk(rows, ops + {o}, tokens + {token}, workers[v])
    {
      assert WorkerOk(rows, ops, tokens, workers[v]);
    }
  }

  // A fresh token takes over an operation that is new, or linked to a failed request or an old token.
  lemma MintKeepsAll(m: Model, w: WorkerId, o: OpId, key: OpKey, token: Id, budget: int)
    requires Inv(m, budget) && token !in m.issued && Serves(key, o.call)
    requires o.call.session in m.executions && o.call.site == m.executions[o.call.session].adapter
    requires o in m.ops ==> m.ops[o].requestId.Some?
    requires o in m.ops ==> forall id :: id in m.rows && m.ops[o].requestId == Some(id) ==> m.rows[id].status.Failed?
    ensures Inv(Move(m, w, Holding(o, key, token)).(
      ops := m.ops[o := Op(Some(token), Submitting, m.now)],
      issued := m.issued + {token}, tokens := m.tokens + {token}), budget)
  {
    MintKeepsLinked(m.rows, m.ops, o, Op(Some(token), Submitting, m.now));
    MintKeepsOps(m.rows.Keys, m.ops, m.issued, m.tokens, o, token, m.now);
    MintKeepsIds(m.rows.Keys, m.ops, m.issued, m.tokens, m.origin, o, token, m.now);
    MintKeepsWorkers(m.rows, m.ops.Keys, m.tokens, m.workers, w, o, key, token);
    assert m.ops[o := Op(Some(token), Submitting, m.now)].Keys == m.ops.Keys + {o};
  }

  // An operation that held a claim token comes to link to a request found by the search.
  lemma RelinkKeepsLinks(m: Model, w: WorkerId, o: OpId, request: Id, status: RequestStatus)
    requires LinksInv(m) && o in m.ops && request in m.rows
    requires m.ops[o].requestId.Some? && m.ops[o].requestId.value in m.tokens
    ensures LinksInv(Move(m, w, Polling(o, request)).(ops := m.ops[o := Op(Some(request), Mirrors(status), m.now)]))
  {
    hide OpsOk, Current, WorkersOk;
    var link := Op(Some(request), Mirrors(status), m.now);
    LinkKeepsOps(m.rows.Keys, m.ops, m.tokens, request, o, link);
    assert m.rows.Keys + {request} == m.rows.Keys;
    assert m.ops[o := link].Keys == m.ops.Keys;
    MoveKeepsWorkers(m.rows, m.ops.Keys, m.tokens, m.workers, w, Polling(o, request));
  }

  lemma RelinkKeepsAll(m: Model, w: WorkerId, o: OpId, request: Id, status: RequestStatus, budget: int)
    requires Inv(m, budget) && o in m.ops && request in m.rows
    requires m.ops[o].requestId.Some? && m.ops[o].requestId.value in m.tokens
    ensures Inv(Move(m, w, Polling(o, request)).(ops := m.ops[o := Op(Some(request), Mirrors(status), m.now)]), budget)
  {
    hide LinksInv;
    RelinkKeepsLinks(m, w, o, request, status);
  }

  // The search for an unlinked request never finds one the call made itself: whatever it links
  // to was made by another call with the searching call's hash as its stored hash.
  lemma RelinkOnlyBorrows(rows: Rows, ops: Ops, tokens: set<Id>, op: OpId, key: OpKey, now: int, out: Reading)
    requires Linked(rows, ops) && OpsOk(rows.Keys, ops, tokens) && tokens !! rows.Keys
    requires MayRead(rows, ops, op, key, now, out) && out.Act? && out.plan.Relink?
    ensures out.plan.request in rows
    ensures var row := rows[out.plan.request];
      row.caller != op.call && row.generation == op.generation && row.key.inputHash == op.call.inputHash
    ensures op in ops && out.plan.reservation == ops[op].requestId
    ensures ops[op].requestId.Some? && ops[op].requestId.value in tokens
  {
    assert OpOk(rows.Keys, tokens, ops[op]);
  }

  lemma ReadingIsSound(m: Model, op: OpId, key: OpKey, out: Reading)
    requires LinksInv(m) && op in m.ops && MayRead(m.rows, m.ops, op, key, m.now, out)
    ensures out.Follow? ==> out.request in m.rows
    ensures out.Act? ==> PlanOk(m.rows, m.tokens, out.plan)
  {
    hide WorkersOk, Current, OpsHome, GatewayExhausted;
    if out.Act? && out.plan.Relink? {
      RelinkOnlyBorrows(m.rows, m.ops, m.tokens, op, key, m.now, out);
    }
    assert OpOk(m.rows.Keys, m.tokens, m.ops[op]);
  }

  lemma InvGivesLinks(m: Model, budget: int)
    requires Inv(m, budget)
    ensures LinksInv(m)
  {
  }

  lemma ReadKeepsAll(m: Model, w: WorkerId, out: Reading, m': Model, budget: int)
    requires Inv(m, budget) && NextRead(m, w, out, m')
    ensures Inv(m', budget)
  {
    hide Inv, LinksInv, MayRead;
    WorkerFacts(m, w, budget);
    InvGivesLinks(m, budget);
    ReadingIsSound(m, m.workers[w].op, m.workers[w].key, out);
    MoveKeepsAll(m, w, m'.workers[w], m.ops, budget);
  }

  // A conditional update that still matches finds the link as it was planned for.
  lemma PlannedLink(m: Model, op: OpId, plan: Plan)
    requires LinksInv(m) && op in m.ops && PlanOk(m.rows, m.tokens, plan) && PlanMatches(m.ops, op, plan)
    requires !plan.MarkCancelled?
    ensures m.ops[op].requestId.Some?
    ensures forall id :: id in m.rows && m.ops[op].requestId == Some(id) ==> m.rows[id].status.Failed?
    ensures plan.Relink? ==> m.ops[op].requestId.value in m.tokens && plan.request in m.rows
  {
    assert OpOk(m.rows.Keys, m.tokens, m.ops[op]);
  }

  lemma OpHome(m: Model, op: OpId)
    requires LinksInv(m) && op in m.ops
    ensures op.call.session in m.executions && op.call.site == m.executions[op.call.session].adapter
  {
  }

  lemma UpdateKeepsAll(m: Model, w: WorkerId, token: Id, m': Model, budget: int)
    requires Inv(m, budget) && NextUpdate(m, w, token, m')
    ensures Inv(m', budget)
  {
    hide Inv, LinksInv;
    var op, key, plan := m.workers[w].op, m.workers[w].key, m.workers[w].plan;
    WorkerFacts(m, w, budget);
    InvGivesLinks(m, budget);
    if PlanMatches(m.ops, op, plan) && plan.Relink? {
      PlannedLink(m, op, plan);
      RelinkKeepsAll(m, w, op, plan.request, plan.status, budget);
    } else if PlanMatches(m.ops, op, plan) && !plan.MarkCancelled? {
      PlannedLink(m, op, plan);
      OpHome(m, op);
      MintKeepsAll(m, w, op, key, token, budget);
    } else {
      MoveKeepsAll(m, w, Recovering(op, key), ApplyPlan(m.ops, op, plan, token, m.now), budget);
    }
  }

  // A submission that inserts nothing leaves the operation's link as it was.
  lemma RefusedSubmitKeepsAll(m: Model, w: WorkerId, worker: Worker, op: OpId, op': Op, budget: int)
    requires Inv(m, budget) && op in m.ops && WorkerOk(m.rows, m.ops.Keys, m.tokens, worker)
    requires op'.requestId == m.ops[op].requestId && op'.requestId.Some?
    requires op'.status.Submitting? ==> m.ops[op].status.Submitting?
    ensures Inv(Move(m, w, worker).(ops := m.ops[op := op']), budget)
  {
    hide Inv;
    MoveKeepsAll(m, w, worker, m.ops[op := op'], budget);
  }

  lemma SubmitKeepsAll(m: Model, w: WorkerId, id: Id, m': Model, budget: int)
    requires Inv(m, budget) && budget >= 1 && NextSubmit(m, w, id, budget, m')
    ensures Inv(m', budget)
  {
    hide Inv, Fenced, Submission, WorkerOk;
    var op, key, token := m.workers[w].op, m.workers[w].key, m.workers[w].token;
    WorkerFacts(m, w, budget);
    WorkerHolds(m.rows, m.ops.Keys, m.tokens, op, key, token);
    if !HoldsClaim(m.ops, op, token) {
      MoveKeepsAll(m, w, Recovering(op, key), m.ops, budget);
    } else if Fenced(m.executions, op.call.session, op.generation) {
      RefusedSubmitKeepsAll(m, w, Idle, op, m.ops[op].(status := Mirrors(Cancelled), updatedAt := m.now), budget);
    } else {
      match Submission(m.rows, m.cache, SubmitRequest(key, op.call, op.generation, budget), m.now) {
        case Ok(row) => SubmitRowKeepsAll(m, w, id, op, key, token, row, budget);
        case Err(_) => MoveKeepsAll(m, w, m'.workers[w], m.ops, budget);
      }
    }
  }

  lemma WorkerHolds(rows: Rows, ops: set<OpId>, tokens: set<Id>, op: OpId, key: OpKey, token: Id)
    requires WorkerOk(rows, ops, tokens, Holding(op, key, token))
    ensures op in ops && WorkerOk(rows, ops, tokens, Idle) && WorkerOk(rows, ops, tokens, Recovering(op, key))
    ensures Serves(key, op.call)
    ensures WorkerOk(rows, ops, tokens, Dropping(op, token, Failed))
  {
  }

  lemma WorkerFacts(m: Model, w: WorkerId, budget: int)
    requires Inv(m, budget) && w in m.workers
    ensures WorkerOk(m.rows, m.ops.Keys, m.tokens, m.workers[w])
  {
  }

  lemma SeeFenceKeepsAll(m: Model, w: WorkerId, m': Model, budget: int)
    requires Inv(m, budget) && NextSeeFence(m, w, m')
    ensures Inv(m', budget)
  {
    hide Inv, Fenced;
    WorkerFacts(m, w, budget);
    MoveKeepsAll(m, w, m'.workers[w], m.ops, budget);
  }

  lemma FinishKeepsAll(m: Model, w: WorkerId, expected: Id, status: RequestStatus, op: OpId, budget: int)
    requires Inv(m, budget)
    ensures Inv(Move(m, w, Idle).(ops := FinishOp(m.ops, op, expected, status, m.now)), budget)
  {
    hide Inv;
    MoveKeepsAll(m, w, Idle, FinishOp(m.ops, op, expected, status, m.now), budget);
  }

  lemma PollKeepsAll(m: Model, w: WorkerId, m': Model, budget: int)
    requires Inv(m, budget) && NextPoll(m, w, m')
    ensures Inv(m', budget)
  {
    hide Inv;
    WorkerFacts(m, w, budget);
    MoveKeepsAll(m, w, m'.workers[w], m.ops, budget);
  }

  // ---- table-wide steps ----

  lemma StatementIsQuiet(rows: Rows, step: Step, now: int)
    requires IsStatement(step) && StatementEnabled(rows, step)
    ensures Quiet(rows, Statement(rows, step, now))
  {
    var rows' := Statement(rows, step, now);
    forall id | id in rows
      ensures Keeps(rows[id], rows'[id])
    {
      match step {
        case Fail(owner, _, base, code, terminal) => FailOrRetryKeeps(rows[id], owner, now, base, code, terminal);
        case Recover(base, staleAfter) => RecoverKeeps(rows[id], now, base, now - staleAfter);
        case TimeOut(_, seen) => EndKeeps(rows[id], seen, now);
        case Cancel(_) => EndKeeps(rows[id], Queued, now);
        case Beat(_, _) =>
      }
    }
  }

  lemma StatementKeepsAll(m: Model, step: Step, budget: int)
    requires Inv(m, budget) && IsStatement(step) && StatementEnabled(m.rows, step)
    ensures Inv(m.(rows := Statement(m.rows, step, m.now)), budget)
  {
    hide Inv, Quiet, Statement;
    StatementIsQuiet(m.rows, step, m.now);
    QuietKeepsAll(m, Statement(m.rows, step, m.now), budget);
  }

  lemma CancelIsQuiet(rows: Rows, id: Id, now: int)
    requires id in rows
    ensures Quiet(rows, rows[id := CancelRow(rows[id], now)])
  {
    EndKeeps(rows[id], Queued, now);
  }

  lemma CancelEnds(row: Row, now: int)
    ensures CancelRow(row, now).Terminal()
  {
  }

  lemma StopRequestKeepsAll(m: Model, w: WorkerId, m': Model, budget: int)
    requires Inv(m, budget) && Next(m, StopRequest(w), m', budget)
    ensures Inv(m', budget)
  {
    hide Inv;
    WorkerFacts(m, w, budget);
    CancelIsQuiet(m.rows, m.workers[w].request, m.now);
    QuietKeepsAll(m, m'.rows, budget);
    CancelEnds(m.rows[m.workers[w].request], m.now);
    MoveKeepsAll(m.(rows := m'.rows), w, m'.workers[w], m.ops, budget);
  }

  lemma CancelOlderIsQuiet(rows: Rows, session: Session, site: string, generation: int, now: int)
    ensures Quiet(rows, CancelOlder(rows, session, site, generation, now))
  {
    forall id | id in rows
      ensures Keeps(rows[id], CancelOlder(rows, session, site, generation, now)[id])
    {
      EndKeeps(rows[id], Queued, now);
    }
  }

  lemma RestampKeepsAll(m: Model, ops': Ops, budget: int)
    requires Inv(m, budget) && Restamps(m.ops, ops')
    ensures Inv(m.(ops := ops'), budget)
  {
    RestampKeepsOps(m.rows.Keys, m.ops, ops', m.tokens);
    assert Linked(m.rows, ops');
    assert IdsOk(m.rows.Keys, ops', m.issued, m.tokens, m.origin);
  }

  lemma CancelOpsKeepsAll(m: Model, session: Session, generation: int, budget: int)
    requires Inv(m, budget)
    ensures Inv(m.(ops := CancelOps(m.ops, session, generation, m.now)), budget)
  {
    forall o | o in m.ops && m.ops[o].requestId.None?
      ensures !Open(m.ops[o])
    {
      assert OpOk(m.rows.Keys, m.tokens, m.ops[o]);
    }
    hide Inv;
    RestampKeepsAll(m, CancelOps(m.ops, session, generation, m.now), budget);
  }

  lemma SetStatusKeepsAll(m: Model, session: Session, status: SessionStatus, cancel: bool, m': Model, budget: int)
    requires Inv(m, budget) && Next(m, SetStatus(session, status, cancel), m', budget)
    ensures Inv(m', budget)
  {
    hide Limits, CacheOk, Budgets, Linked, OpsOk, IdsOk, WorkersOk, RowsOk;
  }

  lemma RetireKeepsOps(
    ids: set<Id>, ops: Ops, tokens: set<Id>, session: Session, site: string, generation: int, now: int)
    requires OpsOk(ids, ops, tokens)
    ensures OpsOk(ids, RetireOps(ops, session, site, generation, now), tokens)
  {
    var ops' := RetireOps(ops, session, site, generation, now);
    forall o | o in ops'
      ensures OpOk(ids, tokens, ops'[o])
    {
      assert OpOk(ids, tokens, ops[o]);
    }
  }

  lemma RetireKeepsLinked(rows: Rows, ops: Ops, session: Session, site: string, generation: int, now: int)
    requires Linked(rows, ops)
    requires forall id :: id in rows && rows[id].caller.session == session ==> !rows[id].Live()
    ensures Linked(rows, RetireOps(ops, session, site, generation, now))
  {
  }

  lemma RetireKeepsIds(
    ids: set<Id>, ops: Ops, issued: set<Id>, tokens: set<Id>, origin: map<Id, Id>,
    session: Session, site: string, generation: int, now: int)
    requires IdsOk(ids, ops, issued, tokens, origin)
    ensures IdsOk(ids, RetireOps(ops, session, site, generation, now), issued, tokens, origin)
  {
  }

  lemma TakeoverKeepsCurrent(rows: Rows, executions: Executions, executions': Executions, session: Session)
    requires Current(rows, executions) && executions'.Keys == executions.Keys
    requires forall s :: s in executions && s != session ==> executions'[s] == executions[s]
    requires forall id :: id in rows && rows[id].key.session == session ==> !rows[id].Live()
    ensures Current(rows, executions')
  {
  }

  lemma RetireKeepsLinks(m: Model, session: Session, site: string, generation: int, executions: Executions)
    requires LinksInv(m) && executions.Keys == m.executions.Keys
    requires forall s :: s in executions && s != session ==> executions[s] == m.executions[s]
    requires session in executions && executions[session].adapter == m.executions[session].adapter
    requires executions[session].generation >= 0
    requires forall id :: id in m.rows && m.rows[id].key.session == session ==> !m.rows[id].Live()
    requires RowsOk(m.rows, m.now)
    ensures LinksInv(m.(executions := executions, ops := RetireOps(m.ops, session, site, generation, m.now)))
  {
    hide OpsOk, WorkersOk, Linked, IdsOk, Current;
    var ops' := RetireOps(m.ops, session, site, generation, m.now);
    RetireKeepsOps(m.rows.Keys, m.ops, m.tokens, session, site, generation, m.now);
    assert ops'.Keys == m.ops.Keys;
    forall id | id in m.rows && m.rows[id].caller.session == session
      ensures !m.rows[id].Live()
    {
      assert Serves(m.rows[id].key, m.rows[id].caller);
    }
    RetireKeepsLinked(m.rows, m.ops, session, site, generation, m.now);
    RetireKeepsIds(m.rows.Keys, m.ops, m.issued, m.tokens, m.origin, session, site, generation, m.now);
    TakeoverKeepsCurrent(m.rows, m.executions, executions, session);
  }

  // A takeover ends every live request of the session, whatever any late worker still holds.
  lemma TakeoverEndsRequests(m: Model, session: Session, cached: int, m': Model, budget: int)
    requires Current(m.rows, m.executions) && Next(m, Takeover(session, cached), m', budget)
    ensures forall id :: id in m'.rows && m'.rows[id].key.session == session ==> !m'.rows[id].Live()
  {
  }

  lemma TakeoverKeepsAll(m: Model, session: Session, cached: int, m': Model, budget: int)
    requires Inv(m, budget) && Next(m, Takeover(session, cached), m', budget)
    ensures Inv(m', budget)
  {
    hide Limits, CacheOk, Budgets, RowsOk, LinksInv, Quiet, CancelOlder, RetireOps;
    var e := m.executions[session];
    CancelOlderIsQuiet(m.rows, session, e.adapter, NextGeneration(e, cached), m.now);
    QuietKeepsAll(m, m'.rows, budget);
    LinksGiveCurrent(m);
    TakeoverEndsRequests(m, session, cached, m', budget);
    RetireKeepsLinks(m.(rows := m'.rows), session, e.adapter, NextGeneration(e, cached), m'.executions);
  }

  lemma LinksGiveCurrent(m: Model)
    requires LinksInv(m)
    ensures Current(m.rows, m.executions)
    ensures forall s :: s in m.executions ==> m.executions[s].generation >= 0
  {
  }

  // ---- every step, every run ----

  lemma BeginKeepsAll(m: Model, w: WorkerId, op: OpId, key: OpKey, token: Id, m': Model, budget: int)
    requires Inv(m, budget) && Next(m, Begin(w, op, key, token), m', budget)
    ensures Inv(m', budget)
  {
    hide Inv;
    if op in m.ops {
      MoveKeepsAll(m, w, Recovering(op, key), m.ops, budget);
    } else {
      MintKeepsAll(m, w, op, key, token, budget);
    }
  }

  lemma ElapseKeepsAll(m: Model, seconds: nat, budget: int)
    requires Inv(m, budget)
    ensures Inv(m.(now := m.now + seconds), budget)
  {
    hide Limits, CacheOk, Budgets, Linked, OpsOk, IdsOk, WorkersOk, Current, OpsHome;
  }

  lemma StepKeepsInv(m: Model, step: Step, m': Model, budget: int)
    requires Inv(m, budget) && budget >= 1 && Next(m, step, m', budget)
    ensures Inv(m', budget)
  {
    hide Inv, NextTick, NextRead, NextUpdate, NextSubmit, NextPoll, NextSeeFence, Statement;
    match step {
      case Elapse(seconds) => ElapseKeepsAll(m, seconds, budget);
      case Tick(owner, window, pick) => TickKeepsAll(m, owner, window, pick, m', budget);
      case Succeed(owner, id, output) => SucceedKeepsAll(m, owner, id, output, m', budget);
      case Begin(w, op, key, token) => BeginKeepsAll(m, w, op, key, token, m', budget);
      case Read(w, out) => ReadKeepsAll(m, w, out, m', budget);
      case Update(w, token) => UpdateKeepsAll(m, w, token, m', budget);
      case SeeFence(w) => SeeFenceKeepsAll(m, w, m', budget);
      case Submit(w, id) => SubmitKeepsAll(m, w, id, m', budget);
      case Drop(w) =>
        var d := m.workers[w];
        FinishKeepsAll(m, w, d.token, d.status, d.op, budget);
      case Poll(w) => PollKeepsAll(m, w, m', budget);
      case StopRequest(w) => StopRequestKeepsAll(m, w, m', budget);
      case End(w) =>
        var e := m.workers[w];
        FinishKeepsAll(m, w, e.request, e.status, e.op, budget);
      case Crash(w) => MoveKeepsAll(m, w, Idle, m.ops, budget);
      case CancelOperations(session, generation) => CancelOpsKeepsAll(m, session, generation, budget);
      case SetStatus(session, status, cancel) => SetStatusKeepsAll(m, session, status, cancel, m', budget);
      case Takeover(session, cached) => TakeoverKeepsAll(m, session, cached, m', budget);
      case _ => StatementKeepsAll(m, step, budget);
    }
  }

  lemma InitEstablishesInv(m: Model, budget: int)
    requires Init(m) && budget >= 1
    ensures Inv(m, budget)
  {
  }

  lemma {:induction false} RunKeepsInv(run: Run, budget: int, i: nat)
    requires IsRun(run, budget) && budget >= 1 && i < |run.states|
    ensures Inv(run.states[i], budget)
  {
    hide Next;
    if i == 0 {
      InitEstablishesInv(run.states[0], budget);
    } else {
      RunKeepsInv(run, budget, i - 1);
      StepKeepsInv(run.states[i - 1], run.steps[i - 1], run.states[i], budget);
    }
  }
}
