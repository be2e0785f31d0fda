// How many evaluation slots of a site are taken, and which transactions can take more.

module QueueBound {
  import opened Records
  import opened ModelProtocol
  import opened Pipeline
  import opened Backlog
  import opened Takeover
  import opened PipelineInvariants

  lemma {:induction false} FewerOccupy(
    items: Items, items': Items, site: string, executions: Executions, executions': Executions)
    requires |items'| == |items|
    requires forall i :: 0 <= i < |items| && Occupies(items'[i], site, executions') ==>
      Occupies(items[i], site, executions)
    ensures ActiveAtSite(items', site, executions') <= ActiveAtSite(items, site, executions)
  {
    hide Occupies;
    if items != [] {
      var last := |items| - 1;
      FewerOccupy(items[..last], items'[..last], site, executions, executions');
    }
  }

  lemma {:induction false} ActiveInSum(a: Items, b: Items, site: string, executions: Executions)
    ensures ActiveAtSite(a + b, site, executions) ==
      ActiveAtSite(a, site, executions) + ActiveAtSite(b, site, executions)
  {
    hide Occupies;
    if b == [] {
      assert a + b == a;
    } else {
      var last := |b| - 1;
      assert (a + b)[..|a + b| - 1] == a + b[..last];
      ActiveInSum(a, b[..last], site, executions);
    }
  }

  lemma {:induction false} NewItemsOccupy(
    place: Place, generation: int, refs: seq<JobRef>, now: int, site: string, executions: Executions)
    requires WorkingGeneration(executions, place.session, None) == Some(generation)
    requires executions[place.session].generation >= 0
    ensures ActiveAtSite(NewItems(place, generation, refs, now), site, executions) ==
      (if site == place.site then |refs| else 0)
  {
    if refs != [] {
      var last := |refs| - 1;
      NewItemsOccupy(place, generation, refs[..last], now, site, executions);
      assert NewItems(place, generation, refs, now)[..last] == NewItems(place, generation, refs[..last], now);
    }
  }

  lemma ProceedingOccupiesNoMore(items: Items, items': Items, site: string, executions: Executions)
    requires ItemsProceed(items, items')
    ensures ActiveAtSite(items', site, executions) <= ActiveAtSite(items, site, executions)
  {
    forall i | 0 <= i < |items| && Occupies(items'[i], site, executions)
      ensures Occupies(items[i], site, executions)
    {
      assert Proceeds(items[i], items'[i]);
    }
    FewerOccupy(items, items', site, executions, executions);
  }

  // Enqueue takes a slot for as many waiting vacancies as there are free slots, the first in the
  // backlog first, and never a slot beyond the limit.
  lemma EnqueueFillsFreeSlots(
    items: Items, checkpoint: Checkpoint, place: Place, generation: int, refs: seq<JobRef>,
    vacancies: Vacancies, executions: Executions, now: int, site: string)
    requires WorkingGeneration(executions, place.session, None) == Some(generation)
    requires executions[place.session].generation >= 0
    ensures var queue := EnqueueRefs(items, checkpoint, place, generation, refs, vacancies, executions, now);
      var reconciled := ReconcileItems(items, place, generation, vacancies);
      var waiting := WaitingRefs(reconciled, checkpoint, place, generation, refs);
      var before := ActiveAtSite(reconciled, site, executions);
      var after := ActiveAtSite(queue.items, site, executions);
      && before <= ActiveAtSite(items, site, executions)
      && (site != place.site ==> after == before)
      && (site == place.site && before >= EVALUATION_QUEUE_LIMIT ==> after == before)
      && (site == place.site && before <= EVALUATION_QUEUE_LIMIT ==>
        after == if before + |waiting| < EVALUATION_QUEUE_LIMIT then before + |waiting| else EVALUATION_QUEUE_LIMIT)
  {
    hide Unqueued, QueuedIds, PutAll;
    var reconciled := ReconcileItems(items, place, generation, vacancies);
    ReconcileItemsProceed(items, place, generation, vacancies);
    ProceedingOccupiesNoMore(items, reconciled, site, executions);
    var slots := EVALUATION_QUEUE_LIMIT - ActiveAtSite(reconciled, place.site, executions);
    var promoted := Take(WaitingRefs(reconciled, checkpoint, place, generation, refs), slots);
    NewItemsOccupy(place, generation, promoted, now, site, executions);
    ActiveInSum(reconciled, NewItems(place, generation, promoted, now), site, executions);
  }

  lemma AdoptedRowOccupied(
    items: Items, executions: Executions, session: Session, generation: nat, site: string, i: nat)
    requires MayTakeOver(executions, session) && generation > executions[session].generation
    requires ItemsOk(items, executions) && UniqueItems(items)
    requires var final := AdoptAll(items, Place(session, executions[session].adapter), generation);
      |final| == |items| && i < |items| && Occupies(final[i], site, TakenOver(executions, session, generation))
    ensures Occupies(items[i], site, executions)
  {
    var place := Place(session, executions[session].adapter);
    AdoptAllAdopts(items, place, generation);
    hide UniqueItems;
    var final := AdoptAll(items, place, generation);
    assert ItemOk(items[i], executions);
    assert Becomes(items[i], final[i], PlaceOf(items[i]) == place && items[i].generation < generation, place,
      generation);
    if final[i].session == session {
      NewGenerationIsAdopted(items, executions, session, generation, i);
    }
  }

  // A takeover moves rows from generation to generation without taking another slot.
  lemma AdoptionOccupiesNoMore(t: Tables, executions: Executions, session: Session, generation: nat, site: string)
    requires TablesOk(t, executions) && MayTakeOver(executions, session)
    requires generation > executions[session].generation
    ensures var t' := AfterAdoption(t, Place(session, executions[session].adapter), generation);
      ActiveAtSite(t'.items, site, TakenOver(executions, session, generation))
      <= ActiveAtSite(t.items, site, executions)
  {
    hide UniqueItems, AllPlaced, CheckpointsOk, ReconcileOlder, ItemsOk, AdoptAll, Occupies;
    var place := Place(session, executions[session].adapter);
    var executions' := TakenOver(executions, session, generation);
    var reconciled := ReconcileOlder(t.items, place, generation, t.vacancies);
    ReconcileItemsProceed(t.items, place, generation, t.vacancies);
    ProceedingKeepsItems(t.items, reconciled, executions);
    ProceedingOccupiesNoMore(t.items, reconciled, site, executions);
    AdoptionConserves(reconciled, place, generation);
    var final := AdoptAll(reconciled, place, generation);
    forall i | 0 <= i < |final| && Occupies(final[i], site, executions')
      ensures Occupies(reconciled[i], site, executions)
    {
      AdoptedRowOccupied(reconciled, executions, session, generation, site, i);
    }
    FewerOccupy(reconciled, final, site, executions, executions');
  }

  // Rows that hold no slot only because their session is over.
  predicate Parked(item: Item, site: string, session: Session, generation: int) {
    && item.session == session && item.site == site && item.generation == generation
    && Active(item) && CapacityStage(item.stage)
  }

  function ParkedAtSite(items: Items, site: string, session: Session, generation: int): nat {
    if items == [] then 0
    else
      var last := if Parked(items[|items| - 1], site, session, generation) then 1 else 0;
      ParkedAtSite(items[..|items| - 1], site, session, generation) + last
  }

  predicate Over(executions: Executions, session: Session) {
    session in executions && executions[session].status in TERMINAL_SESSION
  }

  function WithStatus(executions: Executions, session: Session, status: SessionStatus, cancel: bool): Executions
    requires session in executions
  {
    executions[session := executions[session].(status := status, cancelRequested := cancel)]
  }

  // A session that comes back brings every row it had parked.
  lemma {:induction false} RevivalTakesParkedSlots(
    items: Items, site: string, executions: Executions, session: Session, status: SessionStatus, cancel: bool)
    requires session in executions
    ensures var executions' := WithStatus(executions, session, status, cancel);
      var before := ActiveAtSite(items, site, executions);
      var after := ActiveAtSite(items, site, executions');
      var parked := ParkedAtSite(items, site, session, executions[session].generation);
      after == before + (if Over(executions, session) && !Over(executions', session) then parked else 0)
        - (if !Over(executions, session) && Over(executions', session) then parked else 0)
  {
    if items != [] {
      RevivalTakesParkedSlots(items[..|items| - 1], site, executions, session, status, cancel);
    }
  }
}
