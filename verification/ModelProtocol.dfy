// The distributed protocol over the shared tables: any number of brokers, workers and
// clients, interleaved transaction by transaction, with crashes at any point.

module ModelProtocol {
  import opened Records
  import opened Totals
  import opened RequestRows
  import opened BrokerGateway

  // Where a worker stands in one `structured` call, for which it submits under `key`. A worker
  // that has no operation is Idle.
  datatype Worker =
    | Idle
    | Recovering(op: OpId, key: OpKey)
    | Planned(op: OpId, key: OpKey, plan: Plan)
    | Holding(op: OpId, key: OpKey, token: Id)
    | Dropping(op: OpId, token: Id, status: RequestStatus)
    | Polling(op: OpId, request: Id)
    | Halting(op: OpId, request: Id)
    | Ending(op: OpId, request: Id, status: RequestStatus)

  // The database, the workers, and three histories: ids handed out, claim tokens among
  // them, and the token each request row was created under.
  datatype Model = Model(
    rows: Rows, cache: Cache, ops: Ops, executions: Executions,
    workers: map<WorkerId, Worker>,
    issued: set<Id>, tokens: set<Id>, origin: map<Id, Id>,
    now: int)

  datatype Step =
    | Elapse(seconds: nat)
    // brokers
    | Tick(owner: Owner, window: int, pick: Option<Id>)
    | Beat(owner: Owner, id: Id)
    | Succeed(owner: Owner, id: Id, output: string)
    | Fail(owner: Owner, id: Id, base: int, code: string, terminal: bool)
    | Recover(base: int, staleAfter: nat)
    // clients
    | TimeOut(id: Id, seen: RequestStatus)
    | Cancel(id: Id)
    // workers
    | Begin(w: WorkerId, op: OpId, key: OpKey, token: Id)
    | Read(w: WorkerId, out: Reading)
    | Update(w: WorkerId, token: Id)
    | SeeFence(w: WorkerId)
    | Submit(w: WorkerId, id: Id)
    | Drop(w: WorkerId)
    | Poll(w: WorkerId)
    | StopRequest(w: WorkerId)
    | End(w: WorkerId)
    | Crash(w: WorkerId)
    // orchestration
    | CancelOperations(session: Session, generation: int)
    | SetStatus(session: Session, status: SessionStatus, cancel: bool)
    | Takeover(session: Session, cached: int)

  const TERMINAL_SESSION: set<SessionStatus> := {
    Stopping, Stopped, SessionCompleted, SessionCancelled, SessionFailed}

  function NextGeneration(e: Execution, cached: int): int {
    (if cached > e.generation then cached else e.generation) + 1
  }

  predicate MayTakeOver(executions: Executions, session: Session) {
    && session in executions
    && executions[session].status !in TERMINAL_SESSION
    && !executions[session].cancelRequested
  }

  ghost predicate Init(m: Model) {
    && m.rows == map[] && m.cache == map[] && m.ops == map[] && m.workers == map[]
    && m.issued == {} && m.tokens == {} && m.origin == map[]
    && forall s :: s in m.executions ==> m.executions[s].generation >= 0
  }

  ghost predicate NextTick(m: Model, owner: Owner, window: int, pick: Option<Id>, m': Model) {
    var expired := ExpireRows(m.rows, m.now);
    && 0 < window <= LOGICAL_DEADLINE
    && match pick
       case None => m' == m.(rows := expired)
       case Some(id) =>
         && Total(expired, CountRunning()) < GLOBAL_RUNNING_LIMIT
         && Runnable(expired, id, m.now)
         && m' == m.(rows := expired[id := ClaimRow(expired[id], owner, m.now, window)])
  }

  // Transactions that only update request rows: heartbeats, failures, recovery, timeouts, cancels.
  predicate IsStatement(step: Step) {
    step.Beat? || step.Fail? || step.Recover? || step.TimeOut? || step.Cancel?
  }

  predicate StatementEnabled(rows: Rows, step: Step)
    requires IsStatement(step)
  {
    match step
    case Recover(base, _) => MIN_RETRY <= base <= MAX_RETRY
    case Fail(_, id, base, _, _) => id in rows && MIN_RETRY <= base <= MAX_RETRY
    case Beat(_, id) => id in rows
    case TimeOut(id, _) => id in rows
    case Cancel(id) => id in rows
  }

  function Statement(rows: Rows, step: Step, now: int): Rows
    requires IsStatement(step) && StatementEnabled(rows, step)
  {
    match step
    case Recover(base, staleAfter) => RecoverRows(rows, now, base, now - staleAfter)
    case Fail(owner, id, base, code, terminal) => rows[id := FailOrRetryRow(rows[id], owner, now, base, code, terminal)]
    case Beat(owner, id) => rows[id := HeartbeatRow(rows[id], owner, now)]
    case TimeOut(id, seen) => rows[id := WaitExpiredRow(rows[id], seen, now)]
    case Cancel(id) => rows[id := CancelRow(rows[id], now)]
  }

  predicate NextStatement(m: Model, step: Step, m': Model)
    requires IsStatement(step)
  {
    StatementEnabled(m.rows, step) && m' == m.(rows := Statement(m.rows, step, m.now))
  }

  function Move(m: Model, w: WorkerId, worker: Worker): Model { m.(workers := m.workers[w := worker]) }

  predicate At(m: Model, w: WorkerId) { w in m.workers }

  function AfterReading(ops: Ops, op: OpId, key: OpKey, out: Reading): Worker {
    match out
    case Nothing => if op in ops && ops[op].status != Mirrors(Cancelled) then Recovering(op, key) else Idle
    case Exhausted => Idle
    case Follow(request) => Polling(op, request)
    case Act(plan) => Planned(op, key, plan)
  }

  ghost predicate NextRead(m: Model, w: WorkerId, out: Reading, m': Model) {
    && At(m, w) && m.workers[w].Recovering?
    && MayRead(m.rows, m.ops, m.workers[w].op, m.workers[w].key, m.now, out)
    && m' == Move(m, w, AfterReading(m.ops, m.workers[w].op, m.workers[w].key, out))
  }

  predicate NextUpdate(m: Model, w: WorkerId, token: Id, m': Model) {
    && At(m, w) && m.workers[w].Planned? && token !in m.issued
    && var op := m.workers[w].op;
       var key := m.workers[w].key;
       var plan := m.workers[w].plan;
       var changed := PlanMatches(m.ops, op, plan);
       var minted := changed && (plan.Retarget? || plan.TakeClaim?);
       m' == m.(
         ops := ApplyPlan(m.ops, op, plan, token, m.now),
         issued := if minted then m.issued + {token} else m.issued,
         tokens := if minted then m.tokens + {token} else m.tokens,
         workers := m.workers[w :=
           if !changed || plan.MarkCancelled? then Recovering(op, key)
           else if plan.Relink? then Polling(op, plan.request)
           else Holding(op, key, token)])
  }

  // A worker about to recover, submit or poll sees that its session no longer belongs to it.
  predicate NextSeeFence(m: Model, w: WorkerId, m': Model) {
    && At(m, w)
    && (m.workers[w].Recovering? || m.workers[w].Holding? || m.workers[w].Polling?)
    && Fenced(m.executions, m.workers[w].op.call.session, m.workers[w].op.generation)
    && m' == Move(m, w, AfterFence(m.workers[w]))
  }

  function AfterFence(worker: Worker): Worker {
    match worker
    case Holding(op, _, token) => Dropping(op, token, Cancelled)
    case Polling(op, request) => Halting(op, request)
    case _ => Idle
  }

  // The request row and the operation's link to it appear together.
  function Submitted(m: Model, w: WorkerId, id: Id, op: OpId, token: Id, row: Row): Model {
    m.(rows := m.rows[id := row],
       ops := m.ops[op := Op(Some(id), Mirrors(row.status), m.now)],
       workers := m.workers[w := Polling(op, id)],
       issued := m.issued + {id},
       origin := m.origin[id := token])
  }

  ghost predicate NextSubmit(m: Model, w: WorkerId, id: Id, budget: int, m': Model) {
    && At(m, w) && m.workers[w].Holding? && id !in m.issued
    && var op := m.workers[w].op;
       var key := m.workers[w].key;
       var token := m.workers[w].token;
       if !HoldsClaim(m.ops, op, token) then m' == Move(m, w, Recovering(op, key))
       else if Fenced(m.executions, op.call.session, op.generation) then
         m' == Move(m, w, Idle).(ops := m.ops[op := m.ops[op].(status := Mirrors(Cancelled), updatedAt := m.now)])
       else
         match Submission(m.rows, m.cache, SubmitRequest(key, op.call, op.generation, budget), m.now)
         case Err(Overloaded) => m' == Move(m, w, Dropping(op, token, Failed))
         case Err(InvalidRequest) => m' == Move(m, w, Idle)
         case Ok(row) => m' == Submitted(m, w, id, op, token, row)
  }

  ghost predicate NextPoll(m: Model, w: WorkerId, m': Model) {
    && At(m, w) && m.workers[w].Polling?
    && var op := m.workers[w].op;
       var id := m.workers[w].request;
       m' == Move(m, w,
         if id in m.rows && m.rows[id].Terminal() then Ending(op, id, m.rows[id].status) else Polling(op, id))
  }

  ghost predicate Next(m: Model, step: Step, m': Model, budget: int) {
    match step
    case Elapse(seconds) => m' == m.(now := m.now + seconds)
    case Tick(owner, window, pick) => NextTick(m, owner, window, pick, m')
    case Succeed(owner, id, output) =>
      id in m.rows && m' == m.(
        rows := m.rows[id := CompleteRow(m.rows[id], owner, output, m.now)],
        cache := CompleteCache(m.rows, m.cache, id, owner, output))
    case Beat(_, _) => NextStatement(m, step, m')
    case Fail(_, _, _, _, _) => NextStatement(m, step, m')
    case Recover(_, _) => NextStatement(m, step, m')
    case TimeOut(_, _) => NextStatement(m, step, m')
    case Cancel(_) => NextStatement(m, step, m')
    case Begin(w, op, key, token) =>
      && (At(m, w) ==> m.workers[w].Idle?) && token !in m.issued
      && op.generation >= 0 && Serves(key, op.call)
      && op.call.session in m.executions && op.call.site == m.executions[op.call.session].adapter
      && m' == if op in m.ops then Move(m, w, Recovering(op, key))
               else Move(m, w, Holding(op, key, token)).(
                 ops := m.ops[op := Op(Some(token), Submitting, m.now)],
                 issued := m.issued + {token}, tokens := m.tokens + {token})
    case Read(w, out) => NextRead(m, w, out, m')
    case Update(w, token) => NextUpdate(m, w, token, m')
    case SeeFence(w) => NextSeeFence(m, w, m')
    case Submit(w, id) => NextSubmit(m, w, id, budget, m')
    case Drop(w) =>
      && At(m, w) && m.workers[w].Dropping?
      && var d := m.workers[w];
         m' == Move(m, w, Idle).(ops := FinishOp(m.ops, d.op, d.token, d.status, m.now))
    case Poll(w) => NextPoll(m, w, m')
    case StopRequest(w) =>
      && At(m, w) && m.workers[w].Halting? && m.workers[w].request in m.rows
      && var s := m.workers[w];
         m' == Move(m, w, Ending(s.op, s.request, Cancelled)).(
           rows := m.rows[s.request := CancelRow(m.rows[s.request], m.now)])
    case End(w) =>
      && At(m, w) && m.workers[w].Ending?
      && var e := m.workers[w];
         m' == Move(m, w, Idle).(ops := FinishOp(m.ops, e.op, e.request, e.status, m.now))
    case Crash(w) => At(m, w) && m' == Move(m, w, Idle)
    case CancelOperations(session, generation) =>
      m' == m.(ops := CancelOps(m.ops, session, generation, m.now))
    case SetStatus(session, status, cancel) =>
      session in m.executions && m' == m.(executions :=
        m.executions[session := m.executions[session].(status := status, cancelRequested := cancel)])
    case Takeover(session, cached) =>
      && MayTakeOver(m.executions, session)
      && var e := m.executions[session];
         var generation := NextGeneration(e, cached);
         m' == m.(
           executions := m.executions[session := e.(generation := generation)],
           rows := CancelOlder(m.rows, session, e.adapter, generation, m.now),
           ops := RetireOps(m.ops, session, e.adapter, generation, m.now))
  }

  // ---- runs ----

  datatype Run = Run(states: seq<Model>, steps: seq<Step>)

  ghost predicate IsRun(run: Run, budget: int) {
    && |run.states| == |run.steps| + 1
    && Init(run.states[0])
    && forall i :: 0 <= i < |run.steps| ==> Next(run.states[i], run.steps[i], run.states[i + 1], budget)
  }
}
