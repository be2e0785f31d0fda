// The worker-side gateway: one durable operation row per logical model operation,
// retargeted by conditional updates so that at most one worker may submit for it.

module BrokerGateway {
  import opened Records
  import opened Totals
  import opened RequestRows
  import opened ModelBroker

  const SUBMISSION_CLAIM_SECONDS := 30

  // What a worker decided from its read, before it runs the conditional update.
  datatype Plan =
    | MarkCancelled(request: Id)
    | Retarget(request: Id)
    | Relink(reservation: Option<Id>, request: Id, status: RequestStatus)
    | TakeClaim(previous: Option<Id>, seen: int)

  datatype Reading =
    | Nothing                 // no operation to act on, or an active owner: look again later
    | Exhausted               // permanent error: the retry budget is spent
    | Follow(request: Id)     // poll this request
    | Act(plan: Plan)

  const PERMANENT_ERRORS: set<string> := {
    "permanent_model_error", "model_disabled", "model_retired", "provider_capability_unsupported",
    "provider_unauthorized", "model_not_configured", "schema_validation_failed", "attempt_budget_exhausted"}

  predicate PermanentError(error: Option<string>) {
    error.Some? && (error.value in PERMANENT_ERRORS || "prompt_injection_" <= error.value)
  }

  // The session is stopping, or belongs to another generation.
  predicate Fenced(executions: Executions, session: Session, generation: int) {
    || session !in executions
    || executions[session].status in {Stopping, Stopped, SessionCancelled, SessionFailed}
    || executions[session].cancelRequested
    || executions[session].generation != generation
  }

  // The gateway's own budget test: attempts spent against the largest budget of any row.
  ghost predicate GatewayExhausted(rows: Rows, key: OpKey) {
    && (exists id :: id in rows && rows[id].key == key)
    && forall id :: id in rows && rows[id].key == key ==> Total(rows, DurableOf(key)) >= rows[id].maxAttempts
  }

  // `vacancy or None`
  function OrNone(vacancy: Option<string>): Option<string> { if vacancy == Some("") then None else vacancy }

  // The search compares the hash the broker stored with the gateway's own, and not the schema.
  predicate Reusable(row: Row, op: OpId, key: OpKey) {
    && row.key == key.(vacancy := OrNone(key.vacancy), inputHash := op.call.inputHash, schemaRef := row.key.schemaRef)
    && row.generation == op.generation && (row.Live() || row.status.Completed?)
  }

  ghost predicate OldestReusable(rows: Rows, op: OpId, key: OpKey, id: Id) {
    && id in rows && Reusable(rows[id], op, key)
    && forall other :: other in rows && Reusable(rows[other], op, key) ==> rows[id].createdAt <= rows[other].createdAt
  }

  ghost predicate MayRead(rows: Rows, ops: Ops, opId: OpId, key: OpKey, now: int, out: Reading) {
    if opId !in ops || ops[opId].status == Mirrors(Cancelled) then out == Nothing
    else
      var op := ops[opId];
      if op.requestId.Some? && op.requestId.value in rows then
        var id := op.requestId.value;
        var row := rows[id];
        if row.Live() || row.status.Completed? then out == Follow(id)
        else if row.status.Cancelled? then out == Act(MarkCancelled(id))
        else if PermanentError(row.error) then out == Follow(id)
        else if GatewayExhausted(rows, row.key) then out == Exhausted
        else out == Act(Retarget(id))
      else if exists id :: id in rows && Reusable(rows[id], opId, key) then
        && out.Act? && out.plan.Relink? && out.plan.reservation == op.requestId
        && OldestReusable(rows, opId, key, out.plan.request)
        && out.plan.status == rows[out.plan.request].status
      else if op.status.Submitting? && op.requestId.Some? && now - op.updatedAt < SUBMISSION_CLAIM_SECONDS then
        out == Nothing
      else
        out == Act(TakeClaim(op.requestId, op.updatedAt))
  }

  // The conditional update still matches the row it was planned for.
  predicate PlanMatches(ops: Ops, opId: OpId, plan: Plan) {
    opId in ops &&
    var op := ops[opId];
    match plan
    case MarkCancelled(request) => op.requestId == Some(request)
    case Retarget(request) => op.requestId == Some(request) && op.status != Mirrors(Cancelled)
    case Relink(reservation, _, _) => op.requestId == reservation && op.status != Mirrors(Cancelled)
    case TakeClaim(previous, seen) =>
      op.requestId == previous && op.status != Mirrors(Cancelled) && op.updatedAt == seen
  }

  function PlanResult(op: Op, plan: Plan, token: Id, now: int): Op {
    match plan
    case MarkCancelled(_) => op.(status := Mirrors(Cancelled), updatedAt := now)
    case Relink(_, request, status) => Op(Some(request), Mirrors(status), now)
    case _ => Op(Some(token), Submitting, now)
  }

  function ApplyPlan(ops: Ops, opId: OpId, plan: Plan, token: Id, now: int): Ops {
    if PlanMatches(ops, opId, plan) then ops[opId := PlanResult(ops[opId], plan, token, now)] else ops
  }

  function FinishOp(ops: Ops, opId: OpId, expected: Id, status: RequestStatus, now: int): Ops {
    if opId in ops && ops[opId].requestId == Some(expected)
    then ops[opId := ops[opId].(status := Mirrors(status), updatedAt := now)]
    else ops
  }

  predicate HoldsClaim(ops: Ops, opId: OpId, token: Id) {
    opId in ops && ops[opId].requestId == Some(token) && ops[opId].status.Submitting?
  }

  datatype SubmitOutcome = Lost | SessionFenced | Refused(error: SubmitError) | Linked(request: Id)

  // Operations of a session in one generation that have not ended, marked cancelled (links kept).
  function CancelOps(ops: Ops, session: Session, generation: int, now: int): Ops {
    map o | o in ops ::
      if o.call.session == session && o.generation == generation && Open(ops[o])
      then ops[o].(status := Mirrors(Cancelled), updatedAt := now) else ops[o]
  }

  // Takeover: operations of older generations are cancelled and lose their links.
  function RetireOps(ops: Ops, session: Session, site: string, generation: int, now: int): Ops {
    map o | o in ops ::
      if o.call.session == session && o.call.site == site && o.generation < generation && Open(ops[o])
      then Op(None, Mirrors(Cancelled), now) else ops[o]
  }

  predicate Open(op: Op) {
    op.status.Submitting? || op.status.status.Queued? || op.status.status.Running? || op.status.status.Retry?
  }

  class BrokeredModelGateway {
    const db: Database
    const client: ModelRequestClient
    const session: Session
    const generation: int
    const maxAttempts: int

    constructor (client: ModelRequestClient, session: Session, generation: int, maxAttempts: int)
      requires generation >= 0 && maxAttempts >= 1
      ensures this.client == client && this.db == client.db
      ensures this.session == session && this.generation == generation && this.maxAttempts == maxAttempts
    {
      this.client, this.db := client, client.db;
      this.session, this.generation, this.maxAttempts := session, generation, maxAttempts;
    }

    // Finds the operation, or inserts it together with a fresh claim token.
    method Operation(call: Call, token: Id, now: int) returns (claim: Option<Id>)
      modifies db`ops
      ensures
        var opId := OpId(call, generation);
        if opId in old(db.ops) then claim.None? && db.ops == old(db.ops)
        else claim == Some(token) && db.ops == old(db.ops)[opId := Op(Some(token), Submitting, now)]
    {
      var opId := OpId(call, generation);
      if opId in db.ops {
        return None;
      }
      db.ops := db.ops[opId := Op(Some(token), Submitting, now)];
      claim := Some(token);
    }

    // The gateway's exhaustion test: SUM of durable attempts against MAX of the budgets.
    method RetryBudgetSpent(key: OpKey) returns (exhausted: bool)
      ensures exhausted == GatewayExhausted(db.rows, key)
    {
      var spent := SelectTotal(db.rows, DurableOf(key));
      var largest := 0;
      var found := false;
      ghost var at: Id := 0;
      var rest := db.rows.Keys;
      while rest != {}
        invariant rest <= db.rows.Keys
        invariant found <==> exists id :: id in db.rows.Keys - rest && db.rows[id].key == key
        invariant forall id :: id in db.rows.Keys - rest && db.rows[id].key == key ==>
          db.rows[id].maxAttempts <= largest
        invariant largest != 0 ==>
          found && at in db.rows && db.rows[at].key == key && db.rows[at].maxAttempts == largest
      {
        var id :| id in rest;
        if db.rows[id].key == key {
          found := true;
          if db.rows[id].maxAttempts > largest { largest, at := db.rows[id].maxAttempts, id; }
        }
        rest := rest - {id};
      }
      forall id | id in db.rows && db.rows[id].key == key
        ensures Durable(db.rows[id]) <= spent
      {
        TotalNonNegative(db.rows, DurableOf(key));
      }
      exhausted := found && spent >= largest;
    }

    method FindOldestReusable(opId: OpId, key: OpKey) returns (found: Option<Id>)
      ensures found.None? ==> forall id :: id in db.rows ==> !Reusable(db.rows[id], opId, key)
      ensures found.Some? ==> OldestReusable(db.rows, opId, key, found.value)
    {
      found := None;
      var rest := db.rows.Keys;
      while rest != {}
        invariant rest <= db.rows.Keys
        invariant found.None? ==> forall id :: id in db.rows.Keys - rest ==> !Reusable(db.rows[id], opId, key)
        invariant found.Some? ==>
          && found.value in db.rows && Reusable(db.rows[found.value], opId, key)
          && forall id :: id in db.rows.Keys - rest && Reusable(db.rows[id], opId, key)
               ==> db.rows[found.value].createdAt <= db.rows[id].createdAt
      {
        var id :| id in rest;
        if Reusable(db.rows[id], opId, key)
           && (found.None? || db.rows[id].createdAt < db.rows[found.value].createdAt) {
          found := Some(id);
        }
        rest := rest - {id};
      }
    }

    // First half of _recover_request_id: read and decide.
    method ReadForRecovery(opId: OpId, key: OpKey, now: int) returns (out: Reading)
      ensures MayRead(db.rows, db.ops, opId, key, now, out)
    {
      if opId !in db.ops || db.ops[opId].status == Mirrors(Cancelled) {
        return Nothing;
      }
      var op := db.ops[opId];
      if op.requestId.Some? && op.requestId.value in db.rows {
        var id := op.requestId.value;
        var row := db.rows[id];
        match row.status {
          case Cancelled => return Act(MarkCancelled(id));
          case Failed =>
            var permanent := PermanentError(row.error);
            var exhausted := RetryBudgetSpent(row.key);
            if exhausted && !permanent { return Exhausted; }
            if permanent { return Follow(id); }
            return Act(Retarget(id));
          case _ => return Follow(id);
        }
      }
      var reusable := FindOldestReusable(opId, key);
      if reusable.Some? {
        return Act(Relink(op.requestId, reusable.value, db.rows[reusable.value].status));
      }
      if op.status.Submitting? && op.requestId.Some? && now - op.updatedAt < SUBMISSION_CLAIM_SECONDS {
        return Nothing;
      }
      out := Act(TakeClaim(op.requestId, op.updatedAt));
    }

    // Second half: the conditional update. `changed` is its row count.
    method RunPlan(opId: OpId, plan: Plan, token: Id, now: int) returns (changed: bool)
      modifies db`ops
      ensures changed == PlanMatches(old(db.ops), opId, plan)
      ensures db.ops == ApplyPlan(old(db.ops), opId, plan, token, now)
    {
      if opId !in db.ops {
        return false;
      }
      var op := db.ops[opId];
      match plan {
        case MarkCancelled(request) =>
          changed := op.requestId == Some(request);
          if changed { db.ops := db.ops[opId := op.(status := Mirrors(Cancelled), updatedAt := now)]; }
        case Retarget(request) =>
          changed := op.requestId == Some(request) && op.status != Mirrors(Cancelled);
          if changed { db.ops := db.ops[opId := Op(Some(token), Submitting, now)]; }
        case Relink(reservation, request, status) =>
          changed := op.requestId == reservation && op.status != Mirrors(Cancelled);
          if changed { db.ops := db.ops[opId := Op(Some(request), Mirrors(status), now)]; }
        case TakeClaim(previous, seen) =>
          changed := op.requestId == previous && op.status != Mirrors(Cancelled) && op.updatedAt == seen;
          if changed { db.ops := db.ops[opId := Op(Some(token), Submitting, now)]; }
      }
    }

    // Commits the new request and its link together, if the claim is still held.
    method SubmitAndLink(opId: OpId, key: OpKey, token: Id, freshId: Id, now: int) returns (out: SubmitOutcome)
      requires client.db == db && freshId !in db.rows
      requires opId.generation == generation && opId.call.session == session
      modifies db
      ensures db.cache == old(db.cache) && db.executions == old(db.executions)
      ensures
        if !HoldsClaim(old(db.ops), opId, token) then
          out == Lost && db.ops == old(db.ops) && db.rows == old(db.rows)
        else if Fenced(db.executions, session, generation) then
          && out == SessionFenced && db.rows == old(db.rows)
          && db.ops == old(db.ops)[opId := old(db.ops)[opId].(status := Mirrors(Cancelled), updatedAt := now)]
        else
          match Submission(old(db.rows), db.cache, SubmitRequest(key, opId.call, generation, maxAttempts), now)
          case Err(e) => out == Refused(e) && db.ops == old(db.ops) && db.rows == old(db.rows)
          case Ok(row) =>
            && out == Linked(freshId) && db.rows == old(db.rows)[freshId := row]
            && db.ops == old(db.ops)[opId := Op(Some(freshId), Mirrors(row.status), now)]
    {
      if opId !in db.ops || db.ops[opId].requestId != Some(token) || !db.ops[opId].status.Submitting? {
        return Lost;
      }
      if session !in db.executions
         || db.executions[session].status in {Stopping, Stopped, SessionCancelled, SessionFailed}
         || db.executions[session].cancelRequested || db.executions[session].generation != generation {
        db.ops := db.ops[opId := db.ops[opId].(status := Mirrors(Cancelled), updatedAt := now)];
        return SessionFenced;
      }
      var receipt := client.SubmitInTransaction(SubmitRequest(key, opId.call, generation, maxAttempts), now, freshId);
      match receipt {
        case Err(e) => out := Refused(e);
        case Ok(id) =>
          db.ops := db.ops[opId := Op(Some(id), Mirrors(db.rows[id].status), now)];
          out := Linked(id);
      }
    }

    method FinishOperation(opId: OpId, expected: Id, status: RequestStatus, now: int)
      modifies db`ops
      ensures db.ops == FinishOp(old(db.ops), opId, expected, status, now)
    {
      if opId in db.ops && db.ops[opId].requestId == Some(expected) {
        db.ops := db.ops[opId := db.ops[opId].(status := Mirrors(status), updatedAt := now)];
      }
    }
  }
}
