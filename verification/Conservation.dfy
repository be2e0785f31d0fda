// A vacancy once taken in is worked on until it ends: it waits in the backlog of its session's
// current generation or has an active row there, through every crash and takeover.

module Conservation {
  import opened Records
  import opened ModelProtocol
  import opened Pipeline
  import opened Backlog
  import opened Takeover
  import opened PipelineInvariants
  import opened QueueBound
  import opened SystemProtocol
  import opened SystemTheorems

  // ---- waiting and working ----

  // The vacancy waits in the backlog of the current generation, and has never had a row.
  ghost predicate Waits(t: Tables, executions: Executions, place: Place, externalId: string) {
    && place.session in executions
    && !HasRow(t.items, place, externalId)
    && InBacklog(t.checkpoints, CheckpointId(place, executions[place.session].generation), externalId)
  }

  ghost predicate InBacklog(checkpoints: Checkpoints, id: CheckpointId, externalId: string) {
    id in checkpoints && externalId in Ids(checkpoints[id].backlog)
  }

  // The vacancy has an active row of the current generation.
  ghost predicate Works(t: Tables, executions: Executions, place: Place, externalId: string) {
    exists k :: 0 <= k < |t.items| && IsWork(t.items[k], executions, place, externalId)
  }

  predicate IsWork(item: Item, executions: Executions, place: Place, externalId: string) {
    PlaceOf(item) == place && item.externalId == externalId && Active(item) && IsCurrent(item, executions)
  }

  ghost predicate InHand(t: Tables, executions: Executions, place: Place, externalId: string) {
    Waits(t, executions, place, externalId) || Works(t, executions, place, externalId)
  }

  predicate IsClosed(t: Tables, place: Place, externalId: string) {
    var id := VacancyId(place, externalId); id in t.vacancies && t.vacancies[id].state.Closed?
  }

  // The vacancy is reported done, its session is cancelled, or it is found closed when its rows
  // are compared with the vacancies. A worker of another generation can do none of these.
  predicate EndsWork(s: System, action: Action, place: Place, externalId: string) {
    match action
    case Advance(at, id, stage, expected) =>
      && at == place && id == externalId && stage.Done?
      && WorkingGeneration(s.model.executions, place.session, expected).Some?
    case CancelSession(session, expected) =>
      session == place.session && CurrentGeneration(s.model.executions, session, expected).Some?
    case Enqueue(at, _, expected) =>
      && at == place && IsClosed(s.tables, place, externalId)
      && WorkingGeneration(s.model.executions, place.session, expected).Some?
    case TakeOver(session, _) => session == place.session && IsClosed(s.tables, place, externalId)
    case _ => false
  }

  ghost predicate HasRow(items: Items, place: Place, externalId: string) {
    exists k :: 0 <= k < |items| && PlaceOf(items[k]) == place && items[k].externalId == externalId
  }

  // Rows are never deleted and never change their vacancy.
  ghost predicate KeepsRows(items: Items, items': Items) {
    |items| <= |items'| && forall k :: 0 <= k < |items| ==> SameVacancy(items[k], items'[k])
  }

  lemma ProceedingKeepsRows(items: Items, items': Items)
    requires ItemsProceed(items, items')
    ensures KeepsRows(items, items')
  {
    forall k | 0 <= k < |items|
      ensures SameVacancy(items[k], items'[k])
    {
      assert Proceeds(items[k], items'[k]);
    }
  }

  lemma QueuedIdHasRow(items: Items, place: Place, generation: int, externalId: string)
    requires externalId in QueuedIds(items, place, generation)
    ensures HasRow(items, place, externalId)
  {
  }

  lemma NoRowStays(items: Items, items': Items, place: Place, externalId: string)
    requires |items'| == |items| && KeepsRows(items, items') && !HasRow(items, place, externalId)
    ensures !HasRow(items', place, externalId)
  {
    forall k | 0 <= k < |items'|
      ensures !(PlaceOf(items'[k]) == place && items'[k].externalId == externalId)
    {
      assert SameVacancy(items[k], items'[k]);
    }
  }

  // ---- one enqueue ----

  lemma NewRowIsWork(
    items: Items, place: Place, generation: int, promoted: seq<JobRef>, now: int, executions: Executions,
    externalId: string)
    requires place.session in executions && generation == executions[place.session].generation
    requires !HasRow(items, place, externalId)
    requires HasRow(items + NewItems(place, generation, promoted, now), place, externalId)
    ensures var all := items + NewItems(place, generation, promoted, now);
      exists k :: 0 <= k < |all| && IsWork(all[k], executions, place, externalId)
  {
    var all := items + NewItems(place, generation, promoted, now);
    var k :| 0 <= k < |all| && PlaceOf(all[k]) == place && all[k].externalId == externalId;
    assert IsWork(all[k], executions, place, externalId);
  }

  // A vacancy without a row that was waiting, or was just handed over, waits or has a new row.
  lemma EnqueueTakesIn(
    t: Tables, executions: Executions, place: Place, refs: seq<JobRef>, expected: Option<int>, now: int,
    externalId: string)
    requires WorkingGeneration(executions, place.session, expected).Some? && Started(executions)
    requires !HasRow(t.items, place, externalId)
    requires externalId in Ids(refs)
      || InBacklog(t.checkpoints, CheckpointId(place, executions[place.session].generation), externalId)
    ensures InHand(AfterQueueing(t, executions, place, refs, expected, now), executions, place, externalId)
  {
    var g := executions[place.session].generation;
    var id := CheckpointId(place, g);
    var checkpoint := CheckpointAt(t.checkpoints, id);
    var t' := AfterQueueing(t, executions, place, refs, expected, now);
    EnqueueConserves(t.items, checkpoint, place, g, refs, t.vacancies, executions, now);
    var reconciled, promoted := Promoted(t.items, checkpoint, place, g, refs, t.vacancies, executions, now);
    ReconcileItemsProceed(t.items, place, g, t.vacancies);
    ProceedingKeepsRows(t.items, reconciled);
    NoRowStays(t.items, reconciled, place, externalId);
    hide EnqueueRefs, ReconcileItems, HasRow, Ids, QueuedIds, Distinct, KeepsRows;
    if HasRow(t'.items, place, externalId) {
      NewRowIsWork(reconciled, place, g, promoted, now, executions, externalId);
    } else if externalId in QueuedIds(t'.items, place, g) {
      QueuedIdHasRow(t'.items, place, g, externalId);
    } else {
      ListedEmpty(externalId);
      assert externalId in Ids(checkpoint.backlog) + Ids(refs);
    }
  }

  lemma ListedEmpty(externalId: string)
    ensures externalId !in Ids([])
  {
  }

  lemma EnqueueElsewhereKeepsWaiting(
    t: Tables, executions: Executions, at: Place, refs: seq<JobRef>, expected: Option<int>, now: int, place: Place,
    externalId: string)
    requires at != place && Waits(t, executions, place, externalId)
    ensures Waits(AfterQueueing(t, executions, at, refs, expected, now), executions, place, externalId)
  {
    var working := WorkingGeneration(executions, at.session, expected);
    if working.Some? {
      var g := working.value;
      var checkpoint := CheckpointAt(t.checkpoints, CheckpointId(at, g));
      var reconciled, promoted := Promoted(t.items, checkpoint, at, g, refs, t.vacancies, executions, now);
      ReconcileItemsProceed(t.items, at, g, t.vacancies);
      ProceedingKeepsRows(t.items, reconciled);
      NoRowStays(t.items, reconciled, place, externalId);
      hide EnqueueRefs, ReconcileItems, Ids, QueuedIds, Distinct, KeepsRows;
    }
  }

  lemma EnqueueKeepsWaiting(
    t: Tables, executions: Executions, at: Place, refs: seq<JobRef>, expected: Option<int>, now: int, place: Place,
    externalId: string)
    requires Started(executions) && Waits(t, executions, place, externalId)
    ensures InHand(AfterQueueing(t, executions, at, refs, expected, now), executions, place, externalId)
  {
    if WorkingGeneration(executions, at.session, expected).Some? {
      if at == place {
        EnqueueTakesIn(t, executions, place, refs, expected, now, externalId);
      } else {
        hide AfterQueueing;
        EnqueueElsewhereKeepsWaiting(t, executions, at, refs, expected, now, place, externalId);
      }
    }
  }

  lemma ReconcilingKeepsWork(
    t: Tables, executions: Executions, at: Place, generation: int, k: nat, place: Place, externalId: string)
    requires k < |t.items| && IsWork(t.items[k], executions, place, externalId)
    requires !(at == place && IsClosed(t, place, externalId))
    ensures IsWork(ReconcileItems(t.items, at, generation, t.vacancies)[k], executions, place, externalId)
  {
  }

  lemma EnqueueKeepsWork(
    t: Tables, executions: Executions, at: Place, refs: seq<JobRef>, expected: Option<int>, now: int, place: Place,
    externalId: string)
    requires Works(t, executions, place, externalId)
    requires !(at == place && IsClosed(t, place, externalId)
             && WorkingGeneration(executions, place.session, expected).Some?)
    ensures Works(AfterQueueing(t, executions, at, refs, expected, now), executions, place, externalId)
  {
    var k :| 0 <= k < |t.items| && IsWork(t.items[k], executions, place, externalId);
    var working := WorkingGeneration(executions, at.session, expected);
    if working.Some? {
      var checkpoint := CheckpointAt(t.checkpoints, CheckpointId(at, working.value));
      var reconciled, promoted := Promoted(t.items, checkpoint, at, working.value, refs, t.vacancies, executions, now);
      ReconcilingKeepsWork(t, executions, at, working.value, k, place, externalId);
      hide EnqueueRefs, ReconcileItems, NewItems, IsWork, Ids, QueuedIds, Distinct;
      assert AfterQueueing(t, executions, at, refs, expected, now).items[k] == reconciled[k];
    }
  }

  // ---- one takeover ----

  lemma AdoptionKeepsAllRows(t: Tables, executions: Executions, place: Place, generation: nat)
    requires ItemsOk(t.items, executions) && UniqueItems(t.items)
    ensures KeepsRows(t.items, AfterAdoption(t, place, generation).items)
  {
    var reconciled := ReconcileOlder(t.items, place, generation, t.vacancies);
    ReconcileItemsProceed(t.items, place, generation, t.vacancies);
    ProceedingKeepsRows(t.items, reconciled);
    ProceedingKeepsItems(t.items, reconciled, executions);
    hide UniqueItems, ItemsOk, ReconcileOlder;
    AdoptionKeepsRows(reconciled, place, generation);
    forall k | 0 <= k < |t.items|
      ensures SameVacancy(t.items[k], AdoptAll(reconciled, place, generation)[k])
    {
      assert SameVacancy(t.items[k], reconciled[k]);
    }
  }

  lemma AdoptionKeepsListed(t: Tables, executions: Executions, place: Place, generation: nat, externalId: string)
    requires CheckpointsOk(t.checkpoints, executions)
    requires place.session in executions && 0 <= executions[place.session].generation < generation
    requires var id := CheckpointId(place, executions[place.session].generation);
      id in t.checkpoints && externalId in Ids(t.checkpoints[id].backlog)
    ensures var t' := AfterAdoption(t, place, generation);
      var id := CheckpointId(place, generation);
      || (id in t'.checkpoints && externalId in Ids(t'.checkpoints[id].backlog))
      || externalId in AdoptedIds(ReconcileOlder(t.items, place, generation, t.vacancies), place, generation)
      || externalId in EndedIds(t'.items, place, generation)
  {
    BacklogAfterTakeover(t, place, generation, externalId);
    var g: nat := executions[place.session].generation;
    assert Listed(t.checkpoints, place, generation + 1, externalId);
  }

  lemma AdoptionKeepsRows(items: Items, place: Place, generation: int)
    requires UniqueItems(items)
    ensures KeepsRows(items, AdoptAll(items, place, generation))
  {
    AdoptAllAdopts(items, place, generation);
    hide UniqueItems;
    var final := AdoptAll(items, place, generation);
    forall i | 0 <= i < |items|
      ensures SameVacancy(items[i], final[i])
    {
      assert Becomes(items[i], final[i], PlaceOf(items[i]) == place && items[i].generation < generation, place,
        generation);
    }
  }

  lemma NoRowNoIds(items: Items, place: Place, generation: int, externalId: string)
    requires !HasRow(items, place, externalId)
    ensures externalId !in AdoptedIds(items, place, generation) && externalId !in EndedIds(items, place, generation)
  {
  }

  // A takeover carries a waiting vacancy over into the new backlog.
  lemma AdoptionKeepsWaiting(
    t: Tables, executions: Executions, session: Session, generation: nat, place: Place, externalId: string)
    requires TablesOk(t, executions) && session in executions && generation > executions[session].generation
    requires Waits(t, executions, place, externalId)
    ensures var t' := AfterAdoption(t, Place(session, executions[session].adapter), generation);
      Waits(t', TakenOver(executions, session, generation), place, externalId)
  {
    hide AdoptAll, ReconcileOlder, UniqueItems, ItemsOk, AllPlaced, CheckpointOk, HasRow, KeepsRows, Ids;
    hide AdoptedIds, EndedIds;
    var at := Place(session, executions[session].adapter);
    var t' := AfterAdoption(t, at, generation);
    AdoptionKeepsAllRows(t, executions, at, generation);
    AdoptionKeepsLength(t, executions, at, generation);
    NoRowStays(t.items, t'.items, place, externalId);
    if at == place {
      var reconciled := ReconcileOlder(t.items, at, generation, t.vacancies);
      ReconcileItemsProceed(t.items, at, generation, t.vacancies);
      ProceedingKeepsRows(t.items, reconciled);
      ProceedingKeepsLength(t.items, reconciled);
      NoRowStays(t.items, reconciled, place, externalId);
      NoRowNoIds(reconciled, place, generation, externalId);
      NoRowNoIds(t'.items, place, generation, externalId);
      AdoptionKeepsListed(t, executions, place, generation, externalId);
    }
  }

  lemma ProceedingKeepsLength(items: Items, items': Items)
    requires ItemsProceed(items, items')
    ensures |items'| == |items|
  {
  }

  lemma AdoptionKeepsLength(t: Tables, executions: Executions, place: Place, generation: nat)
    requires ItemsOk(t.items, executions) && UniqueItems(t.items)
    ensures |AfterAdoption(t, place, generation).items| == |t.items|
  {
    var reconciled := ReconcileOlder(t.items, place, generation, t.vacancies);
    ReconcileItemsProceed(t.items, place, generation, t.vacancies);
    ProceedingKeepsItems(t.items, reconciled, executions);
    hide UniqueItems, ReconcileOlder;
    AdoptAllAdopts(reconciled, place, generation);
  }

  lemma AdoptionLeavesOthers(t: Tables, executions: Executions, place: Place, generation: nat, k: nat)
    requires ItemsOk(t.items, executions) && UniqueItems(t.items) && k < |t.items| && PlaceOf(t.items[k]) != place
    ensures |AfterAdoption(t, place, generation).items| == |t.items|
    ensures AfterAdoption(t, place, generation).items[k] == t.items[k]
  {
    var reconciled := ReconcileOlder(t.items, place, generation, t.vacancies);
    assert reconciled[k] == t.items[k];
    ReconcileItemsProceed(t.items, place, generation, t.vacancies);
    ProceedingKeepsItems(t.items, reconciled, executions);
    hide UniqueItems, ReconcileOlder;
    AdoptionConserves(reconciled, place, generation);
  }

  // A takeover carries an active row on unless its vacancy was closed.
  lemma AdoptionKeepsWork(
    t: Tables, executions: Executions, session: Session, generation: nat, place: Place, externalId: string)
    requires TablesOk(t, executions) && session in executions && generation > executions[session].generation
    requires Works(t, executions, place, externalId) && !(session == place.session && IsClosed(t, place, externalId))
    ensures var t' := AfterAdoption(t, Place(session, executions[session].adapter), generation);
      Works(t', TakenOver(executions, session, generation), place, externalId)
  {
    hide AfterAdoption, CheckpointsOk, AllPlaced, UniqueItems;
    var k :| 0 <= k < |t.items| && IsWork(t.items[k], executions, place, externalId);
    var at := Place(session, executions[session].adapter);
    if session == place.session {
      AdoptionHandsOn(t, executions, session, generation, k);
    } else {
      AdoptionLeavesOthers(t, executions, at, generation, k);
    }
    assert IsWork(AfterAdoption(t, at, generation).items[k], TakenOver(executions, session, generation), place,
      externalId);
  }

  // ---- every action ----

  lemma SameBacklogWaits(t: Tables, t': Tables, executions: Executions, place: Place, externalId: string)
    requires t'.checkpoints == t.checkpoints && ItemsProceed(t.items, t'.items)
    requires Waits(t, executions, place, externalId)
    ensures Waits(t', executions, place, externalId)
  {
    ProceedingKeepsRows(t.items, t'.items);
    NoRowStays(t.items, t'.items, place, externalId);
  }

  lemma ActionKeepsWaiting(s: System, action: Action, s': System, budget: int, place: Place, externalId: string)
    requires NextSystem(s, action, s', budget) && SystemOk(s)
    requires Waits(s.tables, s.model.executions, place, externalId)
    ensures InHand(s'.tables, s'.model.executions, place, externalId)
  {
    hide ItemsOk, UniqueItems, CheckpointsOk, AllPlaced, PendingOk, AfterQueueing, AfterLocating, AfterAdoption;
    hide ItemsProceed, HasRow, InBacklog, Works;
    match action
    case Protocol(step) =>
      if !step.SetStatus? { OtherStepsKeepExecutions(s.model, step, s'.model, budget); }
    case Enqueue(at, refs, expected) =>
      EnqueueKeepsWaiting(s.tables, s.model.executions, at, refs, expected, s.model.now, place, externalId);
    case Locate(home) =>
      LocateChangesNothing(s, home, s', budget);
    case Advance(at, id, stage, expected) =>
      AdvanceProceeds(s.tables, s.model.executions, at, id, stage, expected);
      SameBacklogWaits(s.tables, s'.tables, s.model.executions, place, externalId);
    case CancelSession(session, expected) =>
      OtherStepsKeepExecutions(s.model, ProtocolStep(s, action), s'.model, budget);
      CancelProceeds(s.tables, s.model.executions, session, expected);
      SameBacklogWaits(s.tables, s'.tables, s.model.executions, place, externalId);
    case StoreVacancy(id, vacancy) =>
    case TakeOver(session, cached) =>
      var generation := NextGeneration(s.model.executions[session], cached);
      AdoptionKeepsWaiting(s.tables, s.model.executions, session, generation, place, externalId);
  }

  lemma AdvanceKeepsWork(
    t: Tables, executions: Executions, at: Place, id: string, stage: Stage, expected: Option<int>, place: Place,
    externalId: string)
    requires Works(t, executions, place, externalId)
    requires !(at == place && id == externalId && stage.Done?
             && WorkingGeneration(executions, place.session, expected).Some?)
    ensures Works(AfterAdvance(t, executions, at, id, stage, expected), executions, place, externalId)
  {
    var k :| 0 <= k < |t.items| && IsWork(t.items[k], executions, place, externalId);
    var t' := AfterAdvance(t, executions, at, id, stage, expected);
    var working := WorkingGeneration(executions, at.session, expected);
    if working.Some? { FindItemFinds(t.items, at, id, working.value); }
    assert IsWork(t'.items[k], executions, place, externalId);
  }

  lemma CancelKeepsWork(
    t: Tables, executions: Executions, session: Session, expected: Option<int>, place: Place, externalId: string)
    requires Works(t, executions, place, externalId)
    requires !(session == place.session && CurrentGeneration(executions, session, expected).Some?)
    ensures Works(AfterCancel(t, executions, session, expected), executions, place, externalId)
  {
    var k :| 0 <= k < |t.items| && IsWork(t.items[k], executions, place, externalId);
    assert IsWork(AfterCancel(t, executions, session, expected).items[k], executions, place, externalId);
  }

  lemma StatusKeepsWork(
    t: Tables, executions: Executions, session: Session, status: SessionStatus, cancel: bool, place: Place,
    externalId: string)
    requires session in executions && Works(t, executions, place, externalId)
    ensures Works(t, WithStatus(executions, session, status, cancel), place, externalId)
  {
    var k :| 0 <= k < |t.items| && IsWork(t.items[k], executions, place, externalId);
    assert IsWork(t.items[k], WithStatus(executions, session, status, cancel), place, externalId);
  }

  lemma ActionKeepsWork(s: System, action: Action, s': System, budget: int, place: Place, externalId: string)
    requires NextSystem(s, action, s', budget) && SystemOk(s)
    requires Works(s.tables, s.model.executions, place, externalId) && !EndsWork(s, action, place, externalId)
    ensures Works(s'.tables, s'.model.executions, place, externalId)
  {
    hide TablesOk, PendingOk, AfterQueueing, AfterLocating, AfterAdvance, AfterCancel, AfterAdoption, Works;
    match action
    case Protocol(step) =>
      if step.SetStatus? {
        StatusKeepsWork(s.tables, s.model.executions, step.session, step.status, step.cancel, place, externalId);
      } else {
        OtherStepsKeepExecutions(s.model, step, s'.model, budget);
      }
    case Enqueue(at, refs, expected) =>
      EnqueueKeepsWork(s.tables, s.model.executions, at, refs, expected, s.model.now, place, externalId);
    case Locate(home) =>
      LocateChangesNothing(s, home, s', budget);
    case Advance(at, id, stage, expected) =>
      AdvanceKeepsWork(s.tables, s.model.executions, at, id, stage, expected, place, externalId);
    case CancelSession(session, expected) =>
      OtherStepsKeepExecutions(s.model, ProtocolStep(s, action), s'.model, budget);
      CancelKeepsWork(s.tables, s.model.executions, session, expected, place, externalId);
    case StoreVacancy(id, vacancy) =>
      StoringKeepsWork(s.tables, s'.tables, s.model.executions, place, externalId);
    case TakeOver(session, cached) =>
      var generation := NextGeneration(s.model.executions[session], cached);
      AdoptionKeepsWork(s.tables, s.model.executions, session, generation, place, externalId);
  }

  lemma StoringKeepsWork(t: Tables, t': Tables, executions: Executions, place: Place, externalId: string)
    requires Works(t, executions, place, externalId) && t'.items == t.items
    ensures Works(t', executions, place, externalId)
  {
  }

  // ---- whole histories ----

  ghost predicate WaitsAt(h: History, i: nat, place: Place, externalId: string)
    requires i < |h.states|
  {
    Waits(h.states[i].tables, h.states[i].model.executions, place, externalId)
  }

  ghost predicate WorksAt(h: History, i: nat, place: Place, externalId: string)
    requires i < |h.states|
  {
    Works(h.states[i].tables, h.states[i].model.executions, place, externalId)
  }

  // Nothing drops a waiting vacancy: it goes on waiting until it has an active row of the
  // generation then current.
  lemma {:induction false} WaitingIsNeverDropped(
    h: History, budget: int, i: nat, j: nat, place: Place, externalId: string)
    requires IsHistory(h, budget) && i <= j < |h.states| && WaitsAt(h, i, place, externalId)
    ensures WaitsAt(h, j, place, externalId) || exists m :: i < m <= j && WorksAt(h, m, place, externalId)
  {
    hide NextSystem, SystemOk, Waits, Works;
    if i < j {
      WaitingIsNeverDropped(h, budget, i, j - 1, place, externalId);
      if WaitsAt(h, j - 1, place, externalId) {
        HistoryKeepsTables(h, budget, j - 1);
        ActionKeepsWaiting(h.states[j - 1], h.actions[j - 1], h.states[j], budget, place, externalId);
        assert WorksAt(h, j, place, externalId) || WaitsAt(h, j, place, externalId);
      }
    }
  }

  // A vacancy that waits or is worked on stays in hand until it is done, found closed, or its
  // session is cancelled.
  lemma {:induction false} WorkGoesOn(h: History, budget: int, i: nat, j: nat, place: Place, externalId: string)
    requires IsHistory(h, budget) && i <= j < |h.states|
    requires WaitsAt(h, i, place, externalId) || WorksAt(h, i, place, externalId)
    requires forall n :: i <= n < j ==> !EndsWork(h.states[n], h.actions[n], place, externalId)
    ensures WaitsAt(h, j, place, externalId) || WorksAt(h, j, place, externalId)
  {
    hide NextSystem, SystemOk, Waits, Works, EndsWork;
    if i < j {
      WorkGoesOn(h, budget, i, j - 1, place, externalId);
      HistoryKeepsTables(h, budget, j - 1);
      if WaitsAt(h, j - 1, place, externalId) {
        ActionKeepsWaiting(h.states[j - 1], h.actions[j - 1], h.states[j], budget, place, externalId);
      } else {
        ActionKeepsWork(h.states[j - 1], h.actions[j - 1], h.states[j], budget, place, externalId);
      }
    }
  }

  // An accepted enqueue takes every new reference in, and it stays in hand until it ends.
  lemma EnqueuedStaysInHand(h: History, budget: int, i: nat, j: nat, externalId: string)
    requires IsHistory(h, budget) && i < j < |h.states| && h.actions[i].Enqueue?
    requires var e := h.actions[i];
      && WorkingGeneration(h.states[i].model.executions, e.place.session, e.expected).Some?
      && externalId in Ids(e.refs) && !HasRow(h.states[i].tables.items, e.place, externalId)
    requires forall n :: i < n < j ==> !EndsWork(h.states[n], h.actions[n], h.actions[i].place, externalId)
    ensures WaitsAt(h, j, h.actions[i].place, externalId) || WorksAt(h, j, h.actions[i].place, externalId)
  {
    var s, e := h.states[i], h.actions[i];
    HistoryKeepsTables(h, budget, i);
    assert NextSystem(s, e, h.states[i + 1], budget);
    hide AfterQueueing, Ids, HasRow, Waits, Works;
    EnqueueTakesIn(s.tables, s.model.executions, e.place, e.refs, e.expected, s.model.now, externalId);
    hide NextSystem, TablesOk, EndsWork;
    WorkGoesOn(h, budget, i + 1, j, e.place, externalId);
  }
}
