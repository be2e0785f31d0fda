// What holds over whole runs of the model-request protocol.

module ModelTheorems {
  import opened Records
  import opened Totals
  import opened RequestRows
  import opened BrokerGateway
  import opened ModelProtocol
  import opened ModelInvariants

  // ---- provider calls ----

  predicate ClaimsIn(before: Model, step: Step, scope: Scope) {
    && step.Tick? && step.pick.Some? && step.pick.value in before.rows
    && scope(before.rows[step.pick.value].key, before.rows[step.pick.value].caller)
  }

  // Provider calls started for the rows in scope during the first n steps of a run.
  function ProviderClaims(run: Run, scope: Scope, n: nat): nat
    requires |run.states| == |run.steps| + 1 && n <= |run.steps|
  {
    if n == 0 then 0
    else ProviderClaims(run, scope, n - 1) + if ClaimsIn(run.states[n - 1], run.steps[n - 1], scope) then 1 else 0
  }

  lemma SubsidingKeepsAttempts(rows: Rows, rows': Rows, scope: Scope)
    requires Subsides(rows, rows')
    ensures Total(rows', AttemptsIn(scope)) == Total(rows, AttemptsIn(scope))
  {
    TotalEqual(rows, rows', AttemptsIn(scope));
  }

  lemma QuietKeepsAttempts(rows: Rows, rows': Rows, now: int, scope: Scope)
    requires RowsOk(rows, now) && Quiet(rows, rows')
    ensures Total(rows', AttemptsIn(scope)) == Total(rows, AttemptsIn(scope))
  {
    QuietSubsides(rows, rows', now);
    SubsidingKeepsAttempts(rows, rows', scope);
  }

  // Every step but a claim or a submission is quiet on the request table.
  lemma OtherStepsAreQuiet(m: Model, step: Step, m': Model, budget: int)
    requires Inv(m, budget) && Next(m, step, m', budget)
    requires !step.Submit? && (step.Tick? ==> step.pick.None?)
    ensures Quiet(m.rows, m'.rows)
  {
    hide Inv, Quiet, NextRead, NextUpdate, NextSubmit, NextPoll, NextSeeFence, Statement;
    match step {
      case Tick(_, _, _) => ExpireIsQuiet(m.rows, m.now);
      case Succeed(owner, id, output) => SucceedIsQuiet(m.rows, id, owner, output, m.now);
      case StopRequest(w) => CancelIsQuiet(m.rows, m.workers[w].request, m.now);
      case Takeover(session, cached) =>
        var e := m.executions[session];
        CancelOlderIsQuiet(m.rows, session, e.adapter, NextGeneration(e, cached), m.now);
      case Read(w, out) => WorkerStepsKeepRows(m, step, m', budget);
      case Update(w, token) => WorkerStepsKeepRows(m, step, m', budget);
      case SeeFence(w) => WorkerStepsKeepRows(m, step, m', budget);
      case Poll(w) => WorkerStepsKeepRows(m, step, m', budget);
      case _ =>
        if IsStatement(step) {
          StatementIsQuiet(m.rows, step, m.now);
        } else {
          SameRowsAreQuiet(m.rows);
        }
    }
  }

  lemma SameRowsAreQuiet(rows: Rows)
    ensures Quiet(rows, rows)
  {
  }

  lemma SucceedIsQuiet(rows: Rows, id: Id, owner: Owner, output: string, now: int)
    requires id in rows
    ensures Quiet(rows, rows[id := CompleteRow(rows[id], owner, output, now)])
  {
    CompleteKeeps(rows[id], owner, output, now);
  }

  lemma WorkerStepsKeepRows(m: Model, step: Step, m': Model, budget: int)
    requires Next(m, step, m', budget) && (step.Read? || step.Update? || step.SeeFence? || step.Poll?)
    ensures m'.rows == m.rows && Quiet(m.rows, m'.rows)
  {
    hide MayRead, Fenced, PlanMatches, ApplyPlan;
  }

  lemma TickCountsClaims(m: Model, step: Step, m': Model, scope: Scope)
    requires RowsOk(m.rows, m.now) && step.Tick? && step.pick.Some?
    requires NextTick(m, step.owner, step.window, step.pick, m')
    ensures Total(m'.rows, AttemptsIn(scope))
         == Total(m.rows, AttemptsIn(scope)) + if ClaimsIn(m, step, scope) then 1 else 0
  {
    var expired := ExpireRows(m.rows, m.now);
    ExpireIsQuiet(m.rows, m.now);
    QuietKeepsAttempts(m.rows, expired, m.now, scope);
    var id := step.pick.value;
    TotalUpdate(expired, id, ClaimRow(expired[id], step.owner, m.now, step.window), AttemptsIn(scope));
  }

  lemma StepCountsClaims(m: Model, step: Step, m': Model, budget: int, scope: Scope)
    requires Inv(m, budget) && Next(m, step, m', budget)
    ensures Total(m'.rows, AttemptsIn(scope))
         == Total(m.rows, AttemptsIn(scope)) + if ClaimsIn(m, step, scope) then 1 else 0
  {
    hide Inv, NextTick, NextSubmit, NextRead, NextUpdate, NextPoll, NextSeeFence, RowsOk, Quiet;
    InvGivesRows(m, budget);
    if step.Submit? {
      SubmitAddsNoAttempts(m, step.w, step.id, budget, m', scope);
    } else if step.Tick? && step.pick.Some? {
      TickCountsClaims(m, step, m', scope);
    } else {
      OtherStepsAreQuiet(m, step, m', budget);
      QuietKeepsAttempts(m.rows, m'.rows, m.now, scope);
    }
  }

  lemma InvGivesRows(m: Model, budget: int)
    requires Inv(m, budget)
    ensures RowsOk(m.rows, m.now) && Limits(m.rows) && CacheOk(m.rows, m.cache)
    ensures m.rows.Keys <= m.issued
  {
  }

  lemma SubmissionHasNoAttempts(rows: Rows, cache: Cache, request: SubmitRequest, now: int)
    ensures
      var s := Submission(rows, cache, request, now);
      s.Ok? ==> s.value.attempt == 0
  {
  }

  // A submission inserts at most one row, without attempts, and leaves the cache alone.
  lemma SubmitEffect(m: Model, w: WorkerId, id: Id, budget: int, m': Model)
    requires NextSubmit(m, w, id, budget, m') && m.rows.Keys <= m.issued
    ensures m'.rows == m.rows
      || (id !in m.rows && id in m'.rows && m'.rows == m.rows[id := m'.rows[id]] && m'.rows[id].attempt == 0)
    ensures m'.cache == m.cache
  {
    hide Fenced, HoldsClaim, Submission;
    var op := m.workers[w].op;
    SubmissionHasNoAttempts(m.rows, m.cache, SubmitRequest(m.workers[w].key, op.call, op.generation, budget), m.now);
  }

  lemma SubmitAddsNoAttempts(m: Model, w: WorkerId, id: Id, budget: int, m': Model, scope: Scope)
    requires NextSubmit(m, w, id, budget, m') && m.rows.Keys <= m.issued
    ensures Total(m'.rows, AttemptsIn(scope)) == Total(m.rows, AttemptsIn(scope))
  {
    hide NextSubmit;
    SubmitEffect(m, w, id, budget, m');
    if m'.rows != m.rows {
      TotalInsert(m.rows, id, m'.rows[id], AttemptsIn(scope));
    }
  }

  lemma {:induction false} ClaimsAreAttempts(run: Run, budget: int, scope: Scope, n: nat)
    requires IsRun(run, budget) && budget >= 1 && n <= |run.steps|
    ensures ProviderClaims(run, scope, n) == Total(run.states[n].rows, AttemptsIn(scope))
  {
    hide Next, Inv;
    if n == 0 {
      TotalZero(run.states[0].rows, AttemptsIn(scope));
    } else {
      ClaimsAreAttempts(run, budget, scope, n - 1);
      RunKeepsInv(run, budget, n - 1);
      StepCountsClaims(run.states[n - 1], run.steps[n - 1], run.states[n], budget, scope);
    }
  }

  // ---- at most one live request, and one request per claim ----

  // Under whatever keys and generations a call was submitted.
  lemma OneLiveRequestPerOperation(run: Run, budget: int, i: nat, a: Id, b: Id)
    requires IsRun(run, budget) && budget >= 1 && i < |run.states|
    requires a in run.states[i].rows && b in run.states[i].rows
    requires run.states[i].rows[a].caller == run.states[i].rows[b].caller
    requires run.states[i].rows[a].Live() && run.states[i].rows[b].Live()
    ensures a == b
    ensures var m := run.states[i];
      OpOf(m.rows[a]) in m.ops && m.ops[OpOf(m.rows[a])].requestId == Some(a)
  {
    hide Next;
    RunKeepsInv(run, budget, i);
    var m := run.states[i];
    LiveIsUnique(m.rows, m.ops, m.executions, a, b);
  }

  // While a worker's claim stands, the operation has no live request in any generation that may run.
  lemma ClaimHolderIsAlone(run: Run, budget: int, i: nat, w: WorkerId, id: Id)
    requires IsRun(run, budget) && budget >= 1 && i < |run.states|
    requires w in run.states[i].workers && run.states[i].workers[w].Holding?
    requires HoldsClaim(run.states[i].ops, run.states[i].workers[w].op, run.states[i].workers[w].token)
    requires id in run.states[i].rows && OpOf(run.states[i].rows[id]) == run.states[i].workers[w].op
    ensures !run.states[i].rows[id].Live()
  {
    hide Next;
    RunKeepsInv(run, budget, i);
    InvGivesLinks(run.states[i], budget);
    HolderHasNoLiveRequest(run.states[i], run.states[i].workers[w].op, run.states[i].workers[w].token);
  }

  // Claim tokens and request ids are disjoint, and two requests never come from one token.
  lemma TokenCreatesOneRequest(run: Run, budget: int, i: nat, a: Id, b: Id)
    requires IsRun(run, budget) && budget >= 1 && i < |run.states|
    requires a in run.states[i].rows && b in run.states[i].rows
    ensures a in run.states[i].origin && b in run.states[i].origin
    ensures run.states[i].origin[a] == run.states[i].origin[b] ==> a == b
    ensures run.states[i].origin[a] !in run.states[i].rows
  {
    hide Next;
    RunKeepsInv(run, budget, i);
  }

  // ---- generation fencing ----

  lemma LiveRequestsAreCurrent(run: Run, budget: int, i: nat, id: Id)
    requires IsRun(run, budget) && budget >= 1 && i < |run.states|
    requires id in run.states[i].rows && run.states[i].rows[id].Live()
    ensures
      var m := run.states[i];
      var session := m.rows[id].key.session;
      session in m.executions && m.rows[id].generation == m.executions[session].generation
  {
    hide Next;
    RunKeepsInv(run, budget, i);
  }

  // A worker of another generation, or of a stopping session, can never create a request.
  lemma LateWorkerCannotSubmit(m: Model, w: WorkerId, id: Id, m': Model, budget: int)
    requires Next(m, Submit(w, id), m', budget)
    requires Fenced(m.executions, m.workers[w].op.call.session, m.workers[w].op.generation)
    ensures m'.rows == m.rows && m'.origin == m.origin
  {
  }

  // ---- rows over a run ----

  // Between two states of a run a row keeps its identity and its deadline, except that the
  // first claim sets the deadline; a terminal row does not change at all.
  ghost predicate Progresses(row: Row, row': Row) {
    && row'.key == row.key && row'.caller == row.caller && row'.generation == row.generation
    && row'.createdAt == row.createdAt
    && row'.maxAttempts == row.maxAttempts && row'.attempt >= row.attempt
    && (row.attempt >= 1 ==> row'.deadlineAt == row.deadlineAt)
    && (row'.attempt == row.attempt ==> row'.deadlineAt == row.deadlineAt)
    && (row.Terminal() ==> row' == row)
    && Potential(row') <= Potential(row)
    && (row'.status != row.status ==> Potential(row') < Potential(row))
  }

  ghost predicate RowsProgress(rows: Rows, rows': Rows) {
    forall id :: id in rows ==> id in rows' && Progresses(rows[id], rows'[id])
  }

  lemma QuietProgresses(rows: Rows, rows': Rows, now: int)
    requires RowsOk(rows, now) && Quiet(rows, rows')
    ensures RowsProgress(rows, rows')
  {
    forall id | id in rows
      ensures Progresses(rows[id], rows'[id])
    {
      StatusChangesSpendPotential(rows[id], rows'[id]);
    }
  }

  lemma ClaimProgresses(rows: Rows, id: Id, owner: Owner, now: int, window: int)
    requires RowsOk(rows, now) && id in rows && Eligible(rows[id], now)
    ensures RowsProgress(rows, rows[id := ClaimRow(rows[id], owner, now, window)])
  {
  }

  lemma ProgressIsTransitive(a: Rows, b: Rows, c: Rows)
    requires RowsProgress(a, b) && RowsProgress(b, c)
    ensures RowsProgress(a, c)
  {
    forall id | id in a
      ensures id in c && Progresses(a[id], c[id])
    {
      assert Progresses(a[id], b[id]) && Progresses(b[id], c[id]);
    }
  }

  lemma StepProgresses(m: Model, step: Step, m': Model, budget: int)
    requires Inv(m, budget) && Next(m, step, m', budget)
    ensures RowsProgress(m.rows, m'.rows)
  {
    hide Inv, RowsProgress, NextSubmit, NextRead, NextUpdate, NextPoll, NextSeeFence, Quiet, RowsOk;
    InvGivesRows(m, budget);
    if step.Submit? {
      SubmitEffect(m, step.w, step.id, budget, m');
      InsertProgresses(m.rows, m'.rows);
    } else if step.Tick? && step.pick.Some? {
      var expired := ExpireRows(m.rows, m.now);
      ExpireIsQuiet(m.rows, m.now);
      QuietProgresses(m.rows, expired, m.now);
      QuietSubsides(m.rows, expired, m.now);
      ClaimProgresses(expired, step.pick.value, step.owner, m.now, step.window);
      ProgressIsTransitive(m.rows, expired, m'.rows);
    } else {
      OtherStepsAreQuiet(m, step, m', budget);
      QuietProgresses(m.rows, m'.rows, m.now);
    }
  }

  lemma InsertProgresses(rows: Rows, rows': Rows)
    requires forall id :: id in rows ==> id in rows' && rows'[id] == rows[id]
    ensures RowsProgress(rows, rows')
  {
  }

  lemma {:induction false} RunProgresses(run: Run, budget: int, i: nat, j: nat)
    requires IsRun(run, budget) && budget >= 1 && i <= j < |run.states|
    ensures RowsProgress(run.states[i].rows, run.states[j].rows)
    decreases j
  {
    hide Next;
    if i == j {
      InsertProgresses(run.states[i].rows, run.states[j].rows);
    } else {
      RunProgresses(run, budget, i, j - 1);
      RunKeepsInv(run, budget, j - 1);
      StepProgresses(run.states[j - 1], run.steps[j - 1], run.states[j], budget);
      ProgressIsTransitive(run.states[i].rows, run.states[j - 1].rows, run.states[j].rows);
    }
  }

  // A terminal request is never changed again, so its output is written at most once.
  lemma TerminalRowsNeverChange(run: Run, budget: int, i: nat, j: nat, id: Id)
    requires IsRun(run, budget) && budget >= 1 && i <= j < |run.states|
    requires id in run.states[i].rows && run.states[i].rows[id].Terminal()
    ensures id in run.states[j].rows && run.states[j].rows[id] == run.states[i].rows[id]
  {
    hide Next;
    RunProgresses(run, budget, i, j);
    assert Progresses(run.states[i].rows[id], run.states[j].rows[id]);
  }

  // No step trips a CHECK constraint of the table.
  lemma TableConstraintsHold(run: Run, budget: int, i: nat, id: Id)
    requires IsRun(run, budget) && budget >= 1 && i < |run.states| && id in run.states[i].rows
    ensures
      var row := run.states[i].rows[id];
      && row.attempt >= 0 && row.attempt <= row.maxAttempts && row.maxAttempts >= 1 && row.generation >= 0
      && row.deadlineAt > row.createdAt
      && (row.status.Running? ==> row.startedAt.Some? && row.leaseOwner.Some?)
      && (row.status in {Completed, Failed, Cancelled} ==> row.completedAt.Some?)
      && (row.status.Completed? ==> row.output.Some?)
    // beyond the table's own checks
    ensures
      var row := run.states[i].rows[id];
      && (row.leaseOwner.Some? <==> row.status.Running?)
      && (row.status.Retry? ==> row.attempt < row.maxAttempts && row.availableAt < row.deadlineAt)
  {
    hide Next;
    RunKeepsInv(run, budget, i);
  }

  ghost predicate Stays(run: Run, id: Id, i: nat) {
    forall n :: i <= n < |run.states| ==> id in run.states[n].rows
  }

  ghost function StatusChanges(run: Run, id: Id, i: nat, j: nat): nat
    requires i <= j < |run.states| && Stays(run, id, i)
    decreases j
  {
    if i == j then 0
    else
      var changed := run.states[j].rows[id].status != run.states[j - 1].rows[id].status;
      StatusChanges(run, id, i, j - 1) + if changed then 1 else 0
  }

  lemma RowsStay(run: Run, budget: int, i: nat, id: Id)
    requires IsRun(run, budget) && budget >= 1 && i < |run.states| && id in run.states[i].rows
    ensures Stays(run, id, i)
  {
    hide Next;
    forall n | i <= n < |run.states|
      ensures id in run.states[n].rows
    {
      RunProgresses(run, budget, i, n);
    }
  }

  lemma StepSpendsPotential(m: Model, step: Step, m': Model, budget: int, id: Id)
    requires Inv(m, budget) && Next(m, step, m', budget) && id in m.rows
    ensures id in m'.rows
    ensures Potential(m'.rows[id]) + (if m'.rows[id].status != m.rows[id].status then 1 else 0) <= Potential(m.rows[id])
  {
    hide Inv, Next;
    StepProgresses(m, step, m', budget);
    assert Progresses(m.rows[id], m'.rows[id]);
  }

  lemma {:induction false} ChangesSpendPotential(run: Run, budget: int, id: Id, i: nat, j: nat)
    requires IsRun(run, budget) && budget >= 1 && i <= j < |run.states|
    requires Stays(run, id, i)
    ensures StatusChanges(run, id, i, j) + Potential(run.states[j].rows[id]) <= Potential(run.states[i].rows[id])
    decreases j
  {
    hide Inv, Next, Potential;
    if i < j {
      ChangesSpendPotential(run, budget, id, i, j - 1);
      RunKeepsInv(run, budget, j - 1);
      StepSpendsPotential(run.states[j - 1], run.steps[j - 1], run.states[j], budget, id);
    }
  }

  // A request is never deleted and makes at most 2 * max_attempts status transitions in its life.
  lemma StatusTransitionsAreBounded(run: Run, budget: int, id: Id, i: nat, j: nat)
    requires IsRun(run, budget) && budget >= 1 && i <= j < |run.states|
    requires id in run.states[i].rows
    ensures Stays(run, id, i) && StatusChanges(run, id, i, j) <= 2 * run.states[i].rows[id].maxAttempts
  {
    hide Next;
    RowsStay(run, budget, i, id);
    ChangesSpendPotential(run, budget, id, i, j);
    RunKeepsInv(run, budget, i);
    RunKeepsInv(run, budget, j);
    assert RowOk(run.states[i].rows[id]) && RowOk(run.states[j].rows[id]);
  }

  // ---- deadlines ----

  // A claim happens before the queue deadline if it is the first, and always before
  // created_at + 6600 + 180 seconds; only the first claim sets the deadline.
  lemma ClaimsMeetDeadlines(run: Run, budget: int, i: nat)
    requires IsRun(run, budget) && budget >= 1 && i < |run.steps|
    requires run.steps[i].Tick? && run.steps[i].pick.Some?
    ensures
      var id := run.steps[i].pick.value;
      var m, m' := run.states[i], run.states[i + 1];
      && id in m.rows && id in m'.rows
      && m.now < m.rows[id].createdAt + QUEUE_WAIT + LOGICAL_DEADLINE
      && (m.rows[id].attempt == 0 ==> m.now < m.rows[id].createdAt + QUEUE_WAIT)
      && (m.rows[id].attempt == 0 ==> m'.rows[id].deadlineAt == m.now + run.steps[i].window <= m.now + LOGICAL_DEADLINE)
      && (m.rows[id].attempt >= 1 ==> m'.rows[id].deadlineAt == m.rows[id].deadlineAt > m.now)
  {
    RunKeepsInv(run, budget, i);
    var m := run.states[i];
    var id := run.steps[i].pick.value;
    assert NextTick(m, run.steps[i].owner, run.steps[i].window, run.steps[i].pick, run.states[i + 1]);
    assert id in m.rows && ExpireRow(m.rows[id], m.now) == m.rows[id];
    ClaimKeepsRow(m.rows[id], run.steps[i].owner, m.now, run.steps[i].window);
  }

  // Once claimed, no retry, recovery or replacement broker moves the deadline again.
  lemma DeadlineIsSetOnce(run: Run, budget: int, i: nat, j: nat, id: Id)
    requires IsRun(run, budget) && budget >= 1 && i <= j < |run.states|
    requires id in run.states[i].rows && run.states[i].rows[id].attempt >= 1
    ensures id in run.states[j].rows && run.states[j].rows[id].deadlineAt == run.states[i].rows[id].deadlineAt
  {
    hide Next;
    RunProgresses(run, budget, i, j);
    assert Progresses(run.states[i].rows[id], run.states[j].rows[id]);
  }

  // Rows submitted today never meet the condition under which old-format rows are extended.
  lemma QueuedRowsKeepTheirWindow(run: Run, budget: int, i: nat, id: Id)
    requires IsRun(run, budget) && budget >= 1 && i < |run.states|
    requires id in run.states[i].rows && run.states[i].rows[id].status.Queued?
    ensures run.states[i].rows[id].deadlineAt == run.states[i].rows[id].createdAt + QUEUE_WAIT
    ensures run.states[i].rows[id].deadlineAt > run.states[i].rows[id].createdAt + LOGICAL_DEADLINE
  {
    hide Next;
    RunKeepsInv(run, budget, i);
  }

  // ---- limits and cache ----

  lemma LimitsHold(run: Run, budget: int, i: nat, session: Session)
    requires IsRun(run, budget) && budget >= 1 && i < |run.states|
    ensures
      var rows := run.states[i].rows;
      && Total(rows, CountRunning()) <= 3 && Total(rows, CountRunningOf(session)) <= 2
      && Total(rows, CountLive()) <= 30 && Total(rows, CountLiveOf(session)) <= 10
  {
    hide Next;
    RunKeepsInv(run, budget, i);
    InvGivesRows(run.states[i], budget);
  }

  lemma StepKeepsEntries(m: Model, step: Step, m': Model, budget: int, slot: CacheSlot)
    requires Next(m, step, m', budget) && slot in m.cache
    ensures slot in m'.cache && m'.cache[slot] == m.cache[slot]
  {
    if !step.Succeed? {
      hide Next;
      StepKeepsTables(m, step, m', budget);
    }
  }

  lemma WorkerStepsKeepTables(m: Model, step: Step, m': Model, budget: int)
    requires Next(m, step, m', budget)
    requires step.Read? || step.Update? || step.SeeFence? || step.Poll?
    ensures m'.cache == m.cache && m'.executions == m.executions
  {
    hide MayRead, Fenced, PlanMatches, ApplyPlan;
  }

  lemma SubmitKeepsTables(m: Model, w: WorkerId, id: Id, m': Model, budget: int)
    requires NextSubmit(m, w, id, budget, m')
    ensures m'.cache == m.cache && m'.executions == m.executions
  {
    hide Submission, Fenced, HoldsClaim;
  }

  // Only a completion writes the cache; only a status change or a takeover writes executions.
  lemma StepKeepsTables(m: Model, step: Step, m': Model, budget: int)
    requires Next(m, step, m', budget)
    ensures !step.Succeed? ==> m'.cache == m.cache
    ensures !step.SetStatus? && !step.Takeover? ==> m'.executions == m.executions
  {
    hide NextRead, NextUpdate, NextSeeFence, NextPoll, NextSubmit, Statement, ExpireRows, ClaimRow;
    hide CompleteRow, CompleteCache;
    if step.Read? || step.Update? || step.SeeFence? || step.Poll? {
      WorkerStepsKeepTables(m, step, m', budget);
    } else if step.Submit? {
      SubmitKeepsTables(m, step.w, step.id, m', budget);
    } else {
      hide RetireOps, CancelOlder, CancelOps, FinishOp, CancelRow;
    }
  }

  // Cache entries are write-once.
  lemma {:induction false} CacheEntriesAreWriteOnce(run: Run, budget: int, i: nat, j: nat, slot: CacheSlot)
    requires IsRun(run, budget) && i <= j < |run.states| && slot in run.states[i].cache
    ensures slot in run.states[j].cache && run.states[j].cache[slot] == run.states[i].cache[slot]
    decreases j
  {
    hide Next;
    if i < j {
      CacheEntriesAreWriteOnce(run, budget, i, j - 1, slot);
      StepKeepsEntries(run.states[j - 1], run.steps[j - 1], run.states[j], budget, slot);
    }
  }

  // Each entry is the output of a completed request of the same session and key.
  lemma CacheEntriesAreCompletedOutputs(run: Run, budget: int, i: nat, slot: CacheSlot)
    requires IsRun(run, budget) && budget >= 1 && i < |run.states| && slot in run.states[i].cache
    ensures
      var m := run.states[i];
      var e := m.cache[slot];
      && e.source in m.rows && m.rows[e.source].status.Completed?
      && m.rows[e.source].output == Some(e.output) && SlotOf(m.rows[e.source].key) == slot
  {
    hide Next;
    RunKeepsInv(run, budget, i);
    InvGivesRows(run.states[i], budget);
  }

  // A request answered from the cache repeats the entry's output and is never claimed.
  lemma CachedAnswersAgree(run: Run, budget: int, i: nat, j: nat, id: Id)
    requires IsRun(run, budget) && budget >= 1 && i <= j < |run.states|
    requires id in run.states[i].rows && run.states[i].rows[id].cacheSource.Some?
    ensures
      var m := run.states[j];
      && id in m.rows && m.rows[id].attempt == 0 && m.rows[id].status.Completed?
      && SlotOf(m.rows[id].key) in m.cache && m.rows[id].output == Some(m.cache[SlotOf(m.rows[id].key)].output)
  {
    hide Next, Limits, LinksInv, Budgets;
    RunKeepsInv(run, budget, i);
    RunKeepsInv(run, budget, j);
    InvGivesRows(run.states[i], budget);
    InvGivesRows(run.states[j], budget);
    assert RowOk(run.states[i].rows[id]);
    TerminalRowsNeverChange(run, budget, i, j, id);
  }
}
