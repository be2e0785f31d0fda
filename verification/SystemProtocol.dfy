// The model-request protocol and the vacancy pipeline over one database, as one state machine.

module SystemProtocol {
  import opened Records
  import opened RequestRows
  import opened BrokerGateway
  import opened ModelProtocol
  import opened Pipeline
  import opened PipelineInvariants
  import opened QueueBound

  // The links a worker holds between the two transactions of an `enqueue`.
  datatype Pending = Pending(inputs: map<string, Option<string>>, urls: map<string, Option<string>>)

  // Beside the database, what the workers still have to commit: for each place and generation at
  // most one second transaction, as its worker enqueues one batch after another.
  datatype System = System(model: Model, tables: Tables, pending: map<CheckpointId, Pending>)

  // `Enqueue` is the first transaction of `enqueue` and `Locate` the second, which may come at any
  // later time, or never.
  datatype Action =
    | Protocol(step: Step)
    | Enqueue(place: Place, refs: seq<JobRef>, expected: Option<int>)
    | Locate(home: CheckpointId)
    | Advance(place: Place, externalId: string, stage: Stage, expected: Option<int>)
    | CancelSession(session: Session, expected: Option<int>)
    | StoreVacancy(id: VacancyId, vacancy: Vacancy)
    | TakeOver(session: Session, cached: int)

  ghost predicate SystemInit(s: System) {
    Init(s.model) && s.tables.items == [] && s.tables.checkpoints == map[] && s.pending == map[]
  }

  // A worker serves the site its session was started for, and hands over vacancies with links.
  ghost predicate FromWorker(executions: Executions, place: Place, refs: seq<JobRef>) {
    && (place.session in executions ==> place.site == executions[place.session].adapter)
    && HaveLinks(refs)
  }

  function AfterHolding(
    pending: map<CheckpointId, Pending>, t': Tables, executions: Executions, place: Place, refs: seq<JobRef>,
    expected: Option<int>)
    : map<CheckpointId, Pending>
  {
    match WorkingGeneration(executions, place.session, expected)
    case None => pending
    case Some(g) =>
      var id := CheckpointId(place, g);
      pending[id := Pending(AsUrls(refs), CheckpointAt(t'.checkpoints, id).urls)]
  }

  ghost predicate NextSystem(s: System, action: Action, s': System, budget: int) {
    match action
    case Protocol(step) =>
      && !step.Takeover? && !step.CancelOperations?
      && Next(s.model, step, s'.model, budget) && s'.tables == s.tables && s'.pending == s.pending
    case Enqueue(place, refs, expected) =>
      && FromWorker(s.model.executions, place, refs)
      && var t' := AfterQueueing(s.tables, s.model.executions, place, refs, expected, s.model.now);
         s' == s.(tables := t', pending := AfterHolding(s.pending, t', s.model.executions, place, refs, expected))
    case Locate(id) =>
      && id in s.pending
      && s' == s.(
           tables := AfterLocating(s.tables, id.place, id.generation, s.pending[id].inputs, s.pending[id].urls),
           pending := s.pending - {id})
    case Advance(place, externalId, stage, expected) =>
      s' == s.(tables := AfterAdvance(s.tables, s.model.executions, place, externalId, stage, expected))
    case CancelSession(session, expected) =>
      && Next(s.model, ProtocolStep(s, action), s'.model, budget)
      && s'.tables == AfterCancel(s.tables, s.model.executions, session, expected) && s'.pending == s.pending
    case StoreVacancy(id, vacancy) =>
      s' == s.(tables := s.tables.(vacancies := s.tables.vacancies[id := vacancy]))
    case TakeOver(session, cached) =>
      && Next(s.model, Takeover(session, cached), s'.model, budget)
      && var e := s.model.executions[session];
         var generation := NextGeneration(e, cached);
         generation >= 0 && s'.tables == AfterAdoption(s.tables, Place(session, e.adapter), generation)
         && s'.pending == s.pending
  }

  // The protocol step an action takes; a pipeline transaction takes none.
  function ProtocolStep(s: System, action: Action): Step {
    match action
    case Protocol(step) => step
    case TakeOver(session, cached) => Takeover(session, cached)
    case CancelSession(session, expected) =>
      (match CurrentGeneration(s.model.executions, session, expected)
       case Some(g) => CancelOperations(session, g)
       case None => Elapse(0))
    case _ => Elapse(0)
  }

  datatype History = History(states: seq<System>, actions: seq<Action>)

  ghost predicate IsHistory(h: History, budget: int) {
    && |h.states| == |h.actions| + 1
    && SystemInit(h.states[0])
    && forall i :: 0 <= i < |h.actions| ==> NextSystem(h.states[i], h.actions[i], h.states[i + 1], budget)
  }
}
