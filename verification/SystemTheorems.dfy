// What holds over every history of the whole system.

module SystemTheorems {
  import opened Records
  import opened RequestRows
  import opened BrokerGateway
  import opened ModelProtocol
  import opened ModelInvariants
  import opened ModelTheorems
  import opened Pipeline
  import opened Backlog
  import opened Takeover
  import opened PipelineInvariants
  import opened QueueBound
  import opened SystemProtocol

  // ---- the protocol inside the system ----

  lemma ActionIsProtocolStep(s: System, action: Action, s': System, budget: int)
    requires NextSystem(s, action, s', budget)
    ensures Next(s.model, ProtocolStep(s, action), s'.model, budget)
  {
    hide AfterQueueing, AfterAdvance, AfterCancel, AfterAdoption, NextTick, NextRead, NextUpdate, NextSubmit;
    hide NextPoll, NextStatement;
    assert s.model.(now := s.model.now + 0) == s.model;
  }

  ghost function RunOf(h: History): Run
    requires |h.states| == |h.actions| + 1
  {
    Run(
      seq(|h.states|, i requires 0 <= i < |h.states| => h.states[i].model),
      seq(|h.actions|, i requires 0 <= i < |h.actions| => ProtocolStep(h.states[i], h.actions[i])))
  }

  // Every theorem about runs of the protocol is a theorem about the system.
  lemma HistoryIsRun(h: History, budget: int)
    requires IsHistory(h, budget)
    ensures IsRun(RunOf(h), budget)
  {
    hide NextSystem, Next;
    forall i | 0 <= i < |h.actions|
      ensures Next(h.states[i].model, ProtocolStep(h.states[i], h.actions[i]), h.states[i + 1].model, budget)
    {
      assert NextSystem(h.states[i], h.actions[i], h.states[i + 1], budget);
      ActionIsProtocolStep(h.states[i], h.actions[i], h.states[i + 1], budget);
    }
  }

  lemma OtherStepsKeepExecutions(m: Model, step: Step, m': Model, budget: int)
    requires Next(m, step, m', budget) && !step.SetStatus? && !step.Takeover?
    ensures m'.executions == m.executions
  {
    hide Next;
    ModelTheorems.StepKeepsTables(m, step, m', budget);
  }

  // ---- generations ----

  ghost predicate GenerationsGrow(executions: Executions, executions': Executions) {
    forall session :: session in executions ==>
      session in executions' && executions'[session].generation >= executions[session].generation
  }

  lemma StepGrowsGenerations(m: Model, step: Step, m': Model, budget: int)
    requires Next(m, step, m', budget)
    ensures GenerationsGrow(m.executions, m'.executions)
  {
    if !step.SetStatus? && !step.Takeover? {
      hide Next;
      OtherStepsKeepExecutions(m, step, m', budget);
    } else {
      hide CancelOlder, RetireOps;
    }
  }

  lemma ActionGrowsGenerations(s: System, action: Action, s': System, budget: int)
    requires NextSystem(s, action, s', budget)
    ensures GenerationsGrow(s.model.executions, s'.model.executions)
  {
    hide NextSystem, Next, GenerationsGrow;
    ActionIsProtocolStep(s, action, s', budget);
    StepGrowsGenerations(s.model, ProtocolStep(s, action), s'.model, budget);
  }

  // ---- the links a worker holds between the two transactions of an enqueue ----

  // They are enough for every row the second transaction will look at.
  ghost predicate HeldCovers(items: Items, executions: Executions, id: CheckpointId, held: Pending) {
    && id.place.session in executions && id.generation <= executions[id.place.session].generation
    && Usable(held.urls) && LinksCover(items, id.place, id.generation, held.urls)
  }

  ghost predicate PendingOk(items: Items, executions: Executions, pending: map<CheckpointId, Pending>) {
    forall id :: id in pending ==> HeldCovers(items, executions, id, pending[id])
  }

  ghost predicate SystemOk(s: System) {
    TablesOk(s.tables, s.model.executions) && PendingOk(s.tables.items, s.model.executions, s.pending)
  }

  lemma LocateChangesNothing(s: System, id: CheckpointId, s': System, budget: int)
    requires NextSystem(s, Locate(id), s', budget) && PendingOk(s.tables.items, s.model.executions, s.pending)
    ensures s'.tables == s.tables && s'.model == s.model
  {
    hide AfterLocating, LinksCover, Usable;
    assert HeldCovers(s.tables.items, s.model.executions, id, s.pending[id]);
    NothingIsUnlocated(s.tables, id.place, id.generation, s.pending[id].inputs, s.pending[id].urls);
  }

  lemma ProceedingKeepsCover(
    items: Items, items': Items, place: Place, generation: int, urls: map<string, Option<string>>)
    requires ItemsProceed(items, items') && LinksCover(items, place, generation, urls)
    ensures LinksCover(items', place, generation, urls)
  {
    forall i | 0 <= i < |items'| && ActiveIn(place, generation)(items'[i])
      ensures items'[i].externalId in urls
    {
      assert Proceeds(items[i], items'[i]);
    }
  }

  lemma EnqueueElsewhereKeepsCover(
    t: Tables, executions: Executions, at: Place, refs: seq<JobRef>, expected: Option<int>, now: int,
    place: Place, generation: int, urls: map<string, Option<string>>)
    requires at != place && LinksCover(t.items, place, generation, urls)
    ensures LinksCover(AfterQueueing(t, executions, at, refs, expected, now).items, place, generation, urls)
  {
    var working := WorkingGeneration(executions, at.session, expected);
    if working.Some? {
      var checkpoint := CheckpointAt(t.checkpoints, CheckpointId(at, working.value));
      var reconciled, promoted := Promoted(t.items, checkpoint, at, working.value, refs, t.vacancies, executions, now);
      hide EnqueueRefs, ReconcileItems;
      ReconcileItemsProceed(t.items, at, working.value, t.vacancies);
      ProceedingKeepsCover(t.items, reconciled, place, generation, urls);
    }
  }

  // An enqueue of another generation finds no active row of this one.
  lemma EnqueueKeepsCover(
    t: Tables, executions: Executions, at: Place, refs: seq<JobRef>, expected: Option<int>, now: int,
    place: Place, generation: int, urls: map<string, Option<string>>)
    requires TablesOk(t, executions) && FromWorker(executions, at, refs) && LinksCover(t.items, place, generation, urls)
    requires !(at == place && WorkingGeneration(executions, place.session, expected) == Some(generation))
    ensures LinksCover(AfterQueueing(t, executions, at, refs, expected, now).items, place, generation, urls)
  {
    if at != place {
      hide AfterQueueing;
      EnqueueElsewhereKeepsCover(t, executions, at, refs, expected, now, place, generation, urls);
    } else if WorkingGeneration(executions, at.session, expected).Some? {
      EnqueueKeepsTables(t, executions, at, refs, expected, now);
      var items := AfterQueueing(t, executions, at, refs, expected, now).items;
      hide AfterQueueing, UniqueItems, CheckpointsOk, AllPlaced;
      forall i | 0 <= i < |items|
        ensures !ActiveIn(place, generation)(items[i])
      {
        assert ItemOk(items[i], executions);
      }
    }
  }

  // A takeover of another session leaves the rows of the place alone; one of this session leaves
  // no row of its older generations active.
  lemma AdoptionKeepsCover(
    t: Tables, executions: Executions, session: Session, next: nat, place: Place, generation: int,
    urls: map<string, Option<string>>)
    requires TablesOk(t, executions) && session in executions && next > executions[session].generation
    requires LinksCover(t.items, place, generation, urls)
    requires place.session in executions && generation <= executions[place.session].generation
    ensures LinksCover(AfterAdoption(t, Place(session, executions[session].adapter), next).items,
      place, generation, urls)
  {
    var at := Place(session, executions[session].adapter);
    var t' := AfterAdoption(t, at, next);
    AdoptionKeepsTables(t, executions, session, next);
    var reconciled := ReconcileOlder(t.items, at, next, t.vacancies);
    ReconcileItemsProceed(t.items, at, next, t.vacancies);
    ProceedingKeepsItems(t.items, reconciled, executions);
    hide UniqueItems, CheckpointsOk, AllPlaced, ReconcileOlder, ItemsProceed;
    AdoptionConserves(reconciled, at, next);
    ProceedingKeepsCover(t.items, reconciled, place, generation, urls);
    forall i | 0 <= i < |t'.items| && ActiveIn(place, generation)(t'.items[i])
      ensures t'.items[i].externalId in urls
    {
      assert ItemOk(t'.items[i], TakenOver(executions, session, next));
      if place.session != session {
        AdoptionStaysAtHome(reconciled, at, next, i);
        assert t'.items[i] == reconciled[i];
      }
    }
  }

  lemma AdoptionStaysAtHome(items: Items, place: Place, generation: int, i: nat)
    requires UniqueItems(items) && i < |items|
    ensures |AdoptAll(items, place, generation)| == |items|
    ensures SameVacancy(items[i], AdoptAll(items, place, generation)[i])
  {
    AdoptAllAdopts(items, place, generation);
    var final := AdoptAll(items, place, generation);
    assert Becomes(items[i], final[i], PlaceOf(items[i]) == place && items[i].generation < generation, place,
      generation);
  }

  lemma ActionKeepsCover(
    s: System, action: Action, s': System, budget: int, place: Place, generation: int,
    urls: map<string, Option<string>>)
    requires NextSystem(s, action, s', budget) && TablesOk(s.tables, s.model.executions)
    requires PendingOk(s.tables.items, s.model.executions, s.pending)
    requires !(action.Enqueue? && action.place == place
      && WorkingGeneration(s.model.executions, place.session, action.expected) == Some(generation))
    requires LinksCover(s.tables.items, place, generation, urls)
    requires place.session in s.model.executions && generation <= s.model.executions[place.session].generation
    ensures LinksCover(s'.tables.items, place, generation, urls)
  {
    hide TablesOk, PendingOk, LinksCover, AfterQueueing, AfterLocating, AfterAdvance, AfterCancel;
    hide AfterAdoption, ItemsProceed;
    match action
    case Protocol(step) =>
    case Enqueue(at, refs, expected) =>
      EnqueueKeepsCover(s.tables, s.model.executions, at, refs, expected, s.model.now, place, generation, urls);
    case Locate(id) =>
      LocateChangesNothing(s, id, s', budget);
    case Advance(at, id, stage, expected) =>
      AdvanceProceeds(s.tables, s.model.executions, at, id, stage, expected);
      ProceedingKeepsCover(s.tables.items, s'.tables.items, place, generation, urls);
    case CancelSession(session, expected) =>
      CancelProceeds(s.tables, s.model.executions, session, expected);
      ProceedingKeepsCover(s.tables.items, s'.tables.items, place, generation, urls);
    case StoreVacancy(id, vacancy) =>
    case TakeOver(session, cached) =>
      AdoptionKeepsCover(
        s.tables, s.model.executions, session, NextGeneration(s.model.executions[session], cached), place, generation,
        urls);
  }

  lemma ActionKeepsHeld(s: System, action: Action, s': System, budget: int, id: CheckpointId, held: Pending)
    requires NextSystem(s, action, s', budget) && SystemOk(s)
    requires HeldCovers(s.tables.items, s.model.executions, id, held)
    requires !(action.Enqueue? && action.place == id.place
      && WorkingGeneration(s.model.executions, id.place.session, action.expected) == Some(id.generation))
    ensures HeldCovers(s'.tables.items, s'.model.executions, id, held)
  {
    hide NextSystem, TablesOk, PendingOk, LinksCover, Usable;
    ActionKeepsCover(s, action, s', budget, id.place, id.generation, held.urls);
    ActionGrowsGenerations(s, action, s', budget);
  }

  lemma EnqueueHoldsEnough(s: System, place: Place, refs: seq<JobRef>, expected: Option<int>, s': System, budget: int)
    requires NextSystem(s, Enqueue(place, refs, expected), s', budget)
    requires TablesOk(s.tables, s.model.executions)
    requires WorkingGeneration(s.model.executions, place.session, expected).Some?
    ensures var id := CheckpointId(place, WorkingGeneration(s.model.executions, place.session, expected).value);
      && s'.pending.Keys == s.pending.Keys + {id}
      && HeldCovers(s'.tables.items, s'.model.executions, id, s'.pending[id])
      && forall other :: other in s.pending && other != id ==> s'.pending[other] == s.pending[other]
  {
    EnqueueStoresCheckpoint(s, place, refs, expected);
    EnqueueKeepsTables(s.tables, s.model.executions, place, refs, expected, s.model.now);
    hide TablesOk, AfterQueueing, LinksCover, Usable;
    CheckpointCovers(s'.tables, s'.model.executions, place, s.model.executions[place.session].generation);
  }

  lemma ActionKeepsPending(s: System, action: Action, s': System, budget: int)
    requires NextSystem(s, action, s', budget) && SystemOk(s)
    ensures PendingOk(s'.tables.items, s'.model.executions, s'.pending)
  {
    hide TablesOk, HeldCovers, AfterQueueing, AfterLocating, AfterAdvance, AfterCancel, AfterAdoption, Next;
    var queues := action.Enqueue? && WorkingGeneration(s.model.executions, action.place.session, action.expected).Some?;
    if queues {
      EnqueueHoldsEnough(s, action.place, action.refs, action.expected, s', budget);
    }
    forall id | id in s'.pending
      ensures HeldCovers(s'.tables.items, s'.model.executions, id, s'.pending[id])
    {
      if !(queues
           && id == CheckpointId(action.place,
                                 WorkingGeneration(s.model.executions, action.place.session, action.expected).value)) {
        assert id in s.pending && s'.pending[id] == s.pending[id];
        assert HeldCovers(s.tables.items, s.model.executions, id, s.pending[id]);
        hide NextSystem;
        ActionKeepsHeld(s, action, s', budget, id, s.pending[id]);
      }
    }
  }

  lemma EnqueueStoresCheckpoint(s: System, place: Place, refs: seq<JobRef>, expected: Option<int>)
    requires TablesOk(s.tables, s.model.executions)
    requires WorkingGeneration(s.model.executions, place.session, expected).Some?
    ensures var g := WorkingGeneration(s.model.executions, place.session, expected).value;
      && g == s.model.executions[place.session].generation
      && CheckpointId(place, g) in
           AfterQueueing(s.tables, s.model.executions, place, refs, expected, s.model.now).checkpoints
  {
    hide ItemsOk, UniqueItems, CheckpointsOk, AllPlaced, EnqueueRefs;
  }

  // ---- the pipeline inside the system ----

  lemma ActionKeepsTables(s: System, action: Action, s': System, budget: int)
    requires NextSystem(s, action, s', budget) && SystemOk(s)
    ensures TablesOk(s'.tables, s'.model.executions)
  {
    hide TablesOk, PendingOk, AfterQueueing, AfterLocating, AfterAdvance, AfterCancel, AfterAdoption;
    match action
    case Protocol(step) =>
      if step.SetStatus? {
        StatusKeepsTables(s.tables, s.model.executions, step.session, step.status, step.cancel);
      } else {
        OtherStepsKeepExecutions(s.model, step, s'.model, budget);
      }
    case Enqueue(place, refs, expected) =>
      EnqueueKeepsTables(s.tables, s.model.executions, place, refs, expected, s.model.now);
    case Locate(id) =>
      LocateChangesNothing(s, id, s', budget);
    case Advance(place, externalId, stage, expected) =>
      AdvanceKeepsTables(s.tables, s.model.executions, place, externalId, stage, expected);
    case CancelSession(session, expected) =>
      CancelKeepsTables(s.tables, s.model.executions, session, expected);
      OtherStepsKeepExecutions(s.model, ProtocolStep(s, action), s'.model, budget);
    case StoreVacancy(id, vacancy) =>
      VacanciesKeepTables(s.tables, s.model.executions, s'.tables.vacancies);
    case TakeOver(session, cached) =>
      AdoptionKeepsTables(s.tables, s.model.executions, session, NextGeneration(s.model.executions[session], cached));
  }

  lemma VacanciesKeepTables(t: Tables, executions: Executions, vacancies: Vacancies)
    requires TablesOk(t, executions)
    ensures TablesOk(t.(vacancies := vacancies), executions)
  {
  }

  lemma EmptyTablesOk(s: System)
    requires SystemInit(s)
    ensures SystemOk(s)
  {
  }

  lemma {:induction false} HistoryKeepsTables(h: History, budget: int, i: nat)
    requires IsHistory(h, budget) && i < |h.states|
    ensures SystemOk(h.states[i])
    ensures TablesOk(h.states[i].tables, h.states[i].model.executions)
  {
    hide TablesOk, PendingOk, NextSystem;
    if i == 0 {
      EmptyTablesOk(h.states[0]);
    } else {
      HistoryKeepsTables(h, budget, i - 1);
      assert NextSystem(h.states[i - 1], h.actions[i - 1], h.states[i], budget);
      ActionKeepsTables(h.states[i - 1], h.actions[i - 1], h.states[i], budget);
      ActionKeepsPending(h.states[i - 1], h.actions[i - 1], h.states[i], budget);
    }
  }

  // An enqueue commits twice. In every history its second transaction changes nothing, however
  // late it comes: after other commits, takeovers, and enqueues of the generation that took over.
  lemma SecondCommitChangesNothing(h: History, budget: int, i: nat)
    requires IsHistory(h, budget) && i < |h.actions| && h.actions[i].Locate?
    ensures h.states[i + 1].tables == h.states[i].tables && h.states[i + 1].model == h.states[i].model
  {
    hide NextSystem, TablesOk, PendingOk;
    HistoryKeepsTables(h, budget, i);
    LocateChangesNothing(h.states[i], h.actions[i].home, h.states[i + 1], budget);
  }

  // ---- work carries the current generation ----

  // In every reachable state the live model requests and the active pipeline rows of a session
  // all belong to its current generation, and no row failed for want of a link.
  lemma WorkIsCurrent(h: History, budget: int, i: nat, k: nat, request: Id)
    requires IsHistory(h, budget) && budget >= 1 && i < |h.states|
    ensures var s := h.states[i];
      var executions := s.model.executions;
      && (k < |s.tables.items| ==> var item := s.tables.items[k];
        && item.error != Some("missing_source_url")
        && (Active(item) ==> item.session in executions && item.generation == executions[item.session].generation))
      && (request in s.model.rows && s.model.rows[request].Live() ==> var row := s.model.rows[request];
        row.key.session in executions && row.generation == executions[row.key.session].generation)
  {
    HistoryKeepsTables(h, budget, i);
    if k < |h.states[i].tables.items| {
      assert ItemOk(h.states[i].tables.items[k], h.states[i].model.executions);
    }
    if request in h.states[i].model.rows && h.states[i].model.rows[request].Live() {
      HistoryIsRun(h, budget);
      hide IsHistory;
      assert RunOf(h).states[i] == h.states[i].model;
      LiveRequestsAreCurrent(RunOf(h), budget, i, request);
    }
  }

  lemma {:induction false} GenerationsOnlyGrow(h: History, budget: int, i: nat, j: nat)
    requires IsHistory(h, budget) && i <= j < |h.states|
    ensures GenerationsGrow(h.states[i].model.executions, h.states[j].model.executions)
  {
    hide NextSystem;
    if i < j {
      GenerationsOnlyGrow(h, budget, i, j - 1);
      ActionGrowsGenerations(h.states[j - 1], h.actions[j - 1], h.states[j], budget);
    }
  }

  lemma TakeOverRaisesGeneration(s: System, session: Session, cached: int, s': System, budget: int)
    requires NextSystem(s, TakeOver(session, cached), s', budget)
    ensures session in s.model.executions && session in s'.model.executions
    ensures s'.model.executions[session].generation > s.model.executions[session].generation
  {
    hide AfterAdoption, CancelOlder, RetireOps;
  }

  // A worker that names a generation other than the session's can neither queue nor advance.
  lemma FencedWorkerChangesNothing(s: System, action: Action, s': System, budget: int, generation: int)
    requires NextSystem(s, action, s', budget) && TablesOk(s.tables, s.model.executions)
    requires (action.Enqueue? || action.Advance?) && action.expected == Some(generation)
    requires action.place.session in s.model.executions
    requires generation != s.model.executions[action.place.session].generation
    ensures s' == s
  {
    hide EnqueueRefs, FailUnlocated, AllPlaced, ItemsOk, CheckpointsOk, UniqueItems;
    assert WorkingGeneration(s.model.executions, action.place.session, action.expected) == None;
  }

  // Once its session was taken over, a worker of the replaced generation stays fenced for good.
  lemma LateWorkerCannotQueueOrAdvance(h: History, budget: int, i: nat, j: nat)
    requires IsHistory(h, budget) && i < j < |h.actions| && h.actions[i].TakeOver?
    requires h.actions[j].Enqueue? || h.actions[j].Advance?
    requires h.actions[j].place.session == h.actions[i].session
    requires h.actions[i].session in h.states[i].model.executions
    requires h.actions[j].expected == Some(h.states[i].model.executions[h.actions[i].session].generation)
    ensures h.states[j + 1] == h.states[j]
  {
    hide NextSystem, TablesOk;
    var generation := h.states[i].model.executions[h.actions[i].session].generation;
    HistoryKeepsTables(h, budget, j);
    GenerationsOnlyGrow(h, budget, i + 1, j);
    TakeOverRaisesGeneration(h.states[i], h.actions[i].session, h.actions[i].cached, h.states[i + 1], budget);
    FencedWorkerChangesNothing(h.states[j], h.actions[j], h.states[j + 1], budget, generation);
  }

  // Nor can it create a model request, whatever claim it still holds.
  lemma LateWorkerCannotCreateRequest(h: History, budget: int, i: nat, j: nat, w: WorkerId, id: Id)
    requires IsHistory(h, budget) && i < j < |h.actions| && h.actions[i].TakeOver?
    requires h.actions[j] == Protocol(Submit(w, id)) && w in h.states[j].model.workers
    requires h.states[j].model.workers[w].Holding?
    requires h.states[j].model.workers[w].op.call.session == h.actions[i].session
    requires h.actions[i].session in h.states[i].model.executions
    requires h.states[j].model.workers[w].op.generation <= h.states[i].model.executions[h.actions[i].session].generation
    ensures h.states[j + 1].model.rows == h.states[j].model.rows
    ensures h.states[j + 1].model.origin == h.states[j].model.origin
  {
    hide NextSystem, Next;
    GenerationsOnlyGrow(h, budget, i + 1, j);
    TakeOverRaisesGeneration(h.states[i], h.actions[i].session, h.actions[i].cached, h.states[i + 1], budget);
    ActionIsProtocolStep(h.states[j], h.actions[j], h.states[j + 1], budget);
    LateWorkerCannotSubmit(h.states[j].model, w, id, h.states[j + 1].model, budget);
  }

  // ---- what a takeover does to reachable work ----

  lemma ReachableAdoption(items: Items, executions: Executions, session: Session, generation: int, k: nat)
    requires ItemsOk(items, executions) && UniqueItems(items)
    requires session in executions && generation > executions[session].generation
    requires k < |items| && items[k].session == session && !Ended(items[k])
    ensures var final := AdoptAll(items, Place(session, executions[session].adapter), generation);
      && |final| == |items| && SameVacancy(items[k], final[k])
      && final[k].generation == generation && !Ended(final[k])
      && StageOrder(final[k].stage) >= StageOrder(items[k].stage)
      && forall u :: 0 <= u < |final| && SameVacancy(items[k], final[u]) && final[u].generation == generation ==> u == k
  {
    var place := Place(session, executions[session].adapter);
    assert ItemOk(items[k], executions);
    var t := AdoptionHasHeir(items, place, generation, k);
    AdoptAllAdopts(items, place, generation);
    var final := AdoptAll(items, place, generation);
    NewGenerationIsAdopted(items, executions, session, generation, t);
    assert ItemOk(items[t], executions);
    assert Becomes(items[t], final[t], true, place, generation);
    assert t == k;
  }

  // Row k went on as the new generation's only row for its vacancy, at least as far along; it
  // ended only if the vacancy itself had been closed.
  ghost predicate HandedOn(t: Tables, t': Tables, generation: int, k: nat)
    requires k < |t.items| == |t'.items|
  {
    var item, item' := t.items[k], t'.items[k];
    var id := VacancyId(PlaceOf(item), item.externalId);
    && SameVacancy(item, item')
    && if id in t.vacancies && t.vacancies[id].state.Closed? then item'.status.ItemCompleted?
       else
         && item'.generation == generation && !Ended(item') && StageOrder(item'.stage) >= StageOrder(item.stage)
         && forall u ::
              0 <= u < |t'.items| && SameVacancy(item, t'.items[u]) && t'.items[u].generation == generation ==> u == k
  }

  lemma AdoptionHandsOn(t: Tables, executions: Executions, session: Session, generation: nat, k: nat)
    requires TablesOk(t, executions) && session in executions && generation > executions[session].generation
    requires k < |t.items| && Active(t.items[k]) && t.items[k].session == session
    ensures var t' := AfterAdoption(t, Place(session, executions[session].adapter), generation);
      |t'.items| == |t.items| && HandedOn(t, t', generation, k)
  {
    hide CheckpointsOk, AllPlaced;
    var place := Place(session, executions[session].adapter);
    var item := t.items[k];
    assert ItemOk(item, executions);
    var reconciled := ReconcileOlder(t.items, place, generation, t.vacancies);
    assert reconciled[k] == ReconcileItem(item, t.vacancies);
    ReconcileItemsProceed(t.items, place, generation, t.vacancies);
    ProceedingKeepsItems(t.items, reconciled, executions);
    hide UniqueItems, ItemsOk, ReconcileOlder;
    AdoptionConserves(reconciled, place, generation);
    if !Ended(reconciled[k]) { ReachableAdoption(reconciled, executions, session, generation, k); }
  }

  // In every history a takeover hands on every active row of its session.
  lemma TakeoverHandsOnEveryRow(h: History, budget: int, i: nat, k: nat)
    requires IsHistory(h, budget) && i < |h.actions| && h.actions[i].TakeOver?
    requires k < |h.states[i].tables.items| && Active(h.states[i].tables.items[k])
    requires h.states[i].tables.items[k].session == h.actions[i].session
    ensures var s, s' := h.states[i], h.states[i + 1];
      && h.actions[i].session in s'.model.executions && |s'.tables.items| == |s.tables.items|
      && HandedOn(s.tables, s'.tables, s'.model.executions[h.actions[i].session].generation, k)
  {
    hide HandedOn, AfterAdoption, CancelOlder, RetireOps, TablesOk;
    var s := h.states[i];
    HistoryKeepsTables(h, budget, i);
    assert NextSystem(s, h.actions[i], h.states[i + 1], budget);
    var e := s.model.executions[h.actions[i].session];
    AdoptionHandsOn(s.tables, s.model.executions, h.actions[i].session, NextGeneration(e, h.actions[i].cached), k);
  }
}
