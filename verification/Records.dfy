// The rows of the shared database, and the identities that tie them together.

module Records {
  datatype Option<+T> = None | Some(value: T)

  datatype Result<+T, +E> = Ok(value: T) | Err(error: E)

  // UUIDs: request ids and submission tokens share one column, so they share one type.
  type Id = nat
  type Session = nat
  type Owner = nat
  type WorkerId = nat

  // The immutable fields by which the broker counts attempts. Its input hash is taken after
  // credential-shaped content was replaced.
  datatype OpKey = OpKey(
    session: Session, site: string, vacancy: Option<string>, stage: string, role: string,
    versions: string, inputHash: string, schemaRef: string)

  // The fields by which a gateway recognises one model call of a session. It names vacancies by
  // the pipeline's key and takes its input hash before anything is replaced.
  datatype Call = Call(
    session: Session, site: string, vacancyKey: string, stage: string, role: string,
    versions: string, inputHash: string)

  // A call is submitted under a key of its own session, site, stage, role and versions. What
  // vacancy id, stored hash and schema the key holds is not fixed by the call.
  predicate Serves(key: OpKey, call: Call) {
    && key.session == call.session && key.site == call.site && key.stage == call.stage
    && key.role == call.role && key.versions == call.versions
  }

  // The response-cache key is the tuple that is hashed: no two tuples are taken to collide.
  datatype CacheSlot = CacheSlot(
    session: Session, inputHash: string, role: string, schemaRef: string, versions: string)

  function SlotOf(key: OpKey): CacheSlot {
    CacheSlot(key.session, key.inputHash, key.role, key.schemaRef, key.versions)
  }

  datatype CacheEntry = CacheEntry(source: Id, output: string)

  datatype RequestStatus = Queued | Running | Retry | Completed | Failed | Cancelled

  // `caller` is history: the call a row was submitted for, which no statement reads.
  datatype Row = Row(
    key: OpKey,
    caller: Call,
    status: RequestStatus,
    generation: int,
    attempt: int,
    maxAttempts: int,
    output: Option<string>,
    cacheSource: Option<Id>,
    createdAt: int,
    availableAt: int,
    deadlineAt: int,
    startedAt: Option<int>,
    heartbeatAt: Option<int>,
    completedAt: Option<int>,
    leaseOwner: Option<Owner>,
    error: Option<string>)
  {
    predicate Live() { status.Queued? || status.Running? || status.Retry? }

    predicate Waiting() { status.Queued? || status.Retry? }

    predicate Terminal() { !Live() }
  }

  type Rows = map<Id, Row>
  type Cache = map<CacheSlot, CacheEntry>

  // PipelineModelOperation: unique per call and worker generation.
  datatype OpId = OpId(call: Call, generation: int)

  function OpOf(row: Row): OpId { OpId(row.caller, row.generation) }

  datatype OpStatus = Submitting | Mirrors(status: RequestStatus)

  datatype Op = Op(requestId: Option<Id>, status: OpStatus, updatedAt: int)

  type Ops = map<OpId, Op>

  // JobSession and SessionExecution: one row of each per session.
  datatype SessionStatus =
    | Preparing | Created | SessionRunning | Paused
    | Stopping | Stopped | SessionCancelled | SessionCompleted | SessionFailed

  datatype Execution = Execution(
    adapter: string, status: SessionStatus, generation: int, cancelRequested: bool)

  type Executions = map<Session, Execution>
}
