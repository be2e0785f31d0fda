// What every transaction on the pipeline tables keeps, for sessions that queue vacancies
// with usable links.

module PipelineInvariants {
  import opened Records
  import opened ModelProtocol
  import opened Pipeline
  import opened Backlog
  import opened Takeover

  const MISSING_URL := Some("missing_source_url")

  ghost predicate ItemOk(item: Item, executions: Executions) {
    && item.session in executions
    && item.site == executions[item.session].adapter
    && 0 <= item.generation <= executions[item.session].generation
    && (Active(item) ==> item.generation == executions[item.session].generation && !item.stage.Done?)
    && item.error != MISSING_URL
  }

  ghost predicate ItemsOk(items: Items, executions: Executions) {
    forall i :: 0 <= i < |items| ==> ItemOk(items[i], executions)
  }

  ghost predicate CheckpointsOk(checkpoints: Checkpoints, executions: Executions) {
    forall id :: id in checkpoints ==>
      && CheckpointOk(checkpoints[id])
      && id.place.session in executions && id.place.site == executions[id.place.session].adapter
      && 0 <= id.generation <= executions[id.place.session].generation
  }

  function HomeOf(item: Item): CheckpointId { CheckpointId(PlaceOf(item), item.generation) }

  // An active row has a link, and a row's id is not also waiting in its own generation's backlog.
  ghost predicate Placed(item: Item, checkpoints: Checkpoints) {
    && (Active(item) ==> HomeOf(item) in checkpoints && item.externalId in checkpoints[HomeOf(item)].urls)
    && (HomeOf(item) in checkpoints ==> item.externalId !in Ids(checkpoints[HomeOf(item)].backlog))
  }

  predicate IsCurrent(item: Item, executions: Executions) {
    item.session in executions && item.generation == executions[item.session].generation
  }

  // Rows of generations the session has left behind are only history.
  ghost predicate AllPlaced(items: Items, checkpoints: Checkpoints, executions: Executions) {
    forall i :: 0 <= i < |items| && IsCurrent(items[i], executions) ==> Placed(items[i], checkpoints)
  }

  ghost predicate Started(executions: Executions) {
    forall session :: session in executions ==> executions[session].generation >= 0
  }

  ghost predicate TablesOk(t: Tables, executions: Executions) {
    && Started(executions)
    && ItemsOk(t.items, executions)
    && UniqueItems(t.items)
    && CheckpointsOk(t.checkpoints, executions)
    && AllPlaced(t.items, t.checkpoints, executions)
  }

  // ---- rows that only move forward ----

  ghost predicate Proceeds(item: Item, item': Item) {
    && SameVacancy(item, item') && item'.generation == item.generation
    && StageOrder(item'.stage) >= StageOrder(item.stage)
    && (Active(item') ==> Active(item) && (item'.stage.Done? ==> item.stage.Done?))
    && (item'.error == item.error || item'.error == Some("cancelled"))
  }

  ghost predicate ItemsProceed(items: Items, items': Items) {
    |items'| == |items| && forall i :: 0 <= i < |items| ==> Proceeds(items[i], items'[i])
  }

  lemma ReconcileProceeds(item: Item, vacancies: Vacancies)
    ensures Proceeds(item, ReconcileItem(item, vacancies))
  {
  }

  lemma ReconcileItemsProceed(items: Items, place: Place, generation: int, vacancies: Vacancies)
    ensures ItemsProceed(items, ReconcileItems(items, place, generation, vacancies))
    ensures ItemsProceed(items, ReconcileOlder(items, place, generation, vacancies))
  {
    forall i | 0 <= i < |items|
      ensures Proceeds(items[i], items[i]) && Proceeds(items[i], ReconcileItem(items[i], vacancies))
    {
      ReconcileProceeds(items[i], vacancies);
    }
  }

  lemma ProceedingKeepsItems(items: Items, items': Items, executions: Executions)
    requires ItemsProceed(items, items')
    ensures ItemsOk(items, executions) ==> ItemsOk(items', executions)
    ensures UniqueItems(items) ==> UniqueItems(items')
  {
  }

  lemma ProceedingKeepsPlaced(items: Items, items': Items, checkpoints: Checkpoints, executions: Executions)
    requires ItemsProceed(items, items') && AllPlaced(items, checkpoints, executions)
    ensures AllPlaced(items', checkpoints, executions)
  {
    hide Ids;
    forall i | 0 <= i < |items| && IsCurrent(items'[i], executions)
      ensures Placed(items'[i], checkpoints)
    {
      assert Proceeds(items[i], items'[i]) && Placed(items[i], checkpoints);
    }
  }

  lemma ProceedingKeepsTables(t: Tables, items': Items, executions: Executions)
    requires ItemsProceed(t.items, items') && TablesOk(t, executions)
    ensures TablesOk(t.(items := items'), executions)
  {
    hide ItemsProceed, ItemsOk, UniqueItems, AllPlaced;
    ProceedingKeepsItems(t.items, items', executions);
    ProceedingKeepsPlaced(t.items, items', t.checkpoints, executions);
  }

  lemma AdvanceProceeds(
    t: Tables, executions: Executions, place: Place, externalId: string, stage: Stage, expected: Option<int>)
    ensures var t' := AfterAdvance(t, executions, place, externalId, stage, expected);
      ItemsProceed(t.items, t'.items) && t' == t.(items := t'.items)
  {
  }

  lemma CancelProceeds(t: Tables, executions: Executions, session: Session, expected: Option<int>)
    ensures var t' := AfterCancel(t, executions, session, expected);
      ItemsProceed(t.items, t'.items) && t' == t.(items := t'.items)
  {
  }

  lemma AdvanceKeepsTables(
    t: Tables, executions: Executions, place: Place, externalId: string, stage: Stage, expected: Option<int>)
    requires TablesOk(t, executions)
    ensures TablesOk(AfterAdvance(t, executions, place, externalId, stage, expected), executions)
  {
    hide TablesOk, ItemsProceed;
    AdvanceProceeds(t, executions, place, externalId, stage, expected);
    ProceedingKeepsTables(t, AfterAdvance(t, executions, place, externalId, stage, expected).items, executions);
  }

  lemma CancelKeepsTables(t: Tables, executions: Executions, session: Session, expected: Option<int>)
    requires TablesOk(t, executions)
    ensures TablesOk(AfterCancel(t, executions, session, expected), executions)
  {
    hide TablesOk, ItemsProceed;
    CancelProceeds(t, executions, session, expected);
    ProceedingKeepsTables(t, AfterCancel(t, executions, session, expected).items, executions);
  }

  // ---- enqueue ----

  lemma QueuedIdsOf(items: Items, place: Place, generation: int, i: nat)
    requires i < |items| && PlaceOf(items[i]) == place && items[i].generation == generation
    ensures items[i].externalId in QueuedIds(items, place, generation)
  {
  }

  // What enqueue works with: the merged backlog, what of it is not queued yet, and the free slots.
  ghost function Merged(checkpoint: Checkpoint, refs: seq<JobRef>): seq<JobRef> {
    PutAll(PutAll([], checkpoint.backlog), refs)
  }

  ghost function WaitingRefs(
    items: Items, checkpoint: Checkpoint, place: Place, generation: int, refs: seq<JobRef>): seq<JobRef> {
    Unqueued(Merged(checkpoint, refs), QueuedIds(items, place, generation))
  }

  lemma MergedKeeps(checkpoint: Checkpoint, refs: seq<JobRef>)
    ensures Distinct(Merged(checkpoint, refs))
    ensures Ids(Merged(checkpoint, refs)) == Ids(checkpoint.backlog) + Ids(refs)
  {
    PutAllKeeps([], checkpoint.backlog);
    PutAllKeeps(PutAll([], checkpoint.backlog), refs);
  }

  lemma WaitingKeeps(items: Items, checkpoint: Checkpoint, place: Place, generation: int, refs: seq<JobRef>)
    ensures var waiting := WaitingRefs(items, checkpoint, place, generation, refs);
      && Distinct(waiting)
      && Ids(waiting) == Ids(checkpoint.backlog) + Ids(refs) - QueuedIds(items, place, generation)
  {
    MergedKeeps(checkpoint, refs);
    UnqueuedKeeps(Merged(checkpoint, refs), QueuedIds(items, place, generation));
  }

  lemma ProceedingKeepsQueued(items: Items, items': Items, place: Place, generation: int)
    requires ItemsProceed(items, items')
    ensures QueuedIds(items', place, generation) == QueuedIds(items, place, generation)
  {
    forall id
      ensures id in QueuedIds(items', place, generation) <==> id in QueuedIds(items, place, generation)
    {
      assert forall i :: 0 <= i < |items| ==> Proceeds(items[i], items'[i]);
    }
  }

  lemma QueuedIdsOfSum(items: Items, place: Place, generation: int, refs: seq<JobRef>, now: int)
    ensures QueuedIds(items + NewItems(place, generation, refs, now), place, generation)
         == QueuedIds(items, place, generation) + Ids(refs)
  {
    var all := items + NewItems(place, generation, refs, now);
    forall id
      ensures id in QueuedIds(all, place, generation) <==> id in QueuedIds(items, place, generation) + Ids(refs)
    {
      if id in QueuedIds(items, place, generation) {
        var i :| 0 <= i < |items| && PlaceOf(items[i]) == place && items[i].generation == generation
          && items[i].externalId == id;
        assert all[i] == items[i];
      }
      if id in Ids(refs) {
        var i :| 0 <= i < |refs| && refs[i].externalId == id;
        assert all[|items| + i] == NewItem(place, generation, refs[i], now);
      }
    }
  }

  // Enqueueing loses nothing and queues nothing twice: afterwards rows and backlog together hold
  // exactly the ids they held before and the ids just given, and no id is in both.
  lemma EnqueueConserves(
    items: Items, checkpoint: Checkpoint, place: Place, generation: int, refs: seq<JobRef>,
    vacancies: Vacancies, executions: Executions, now: int)
    ensures var queue := EnqueueRefs(items, checkpoint, place, generation, refs, vacancies, executions, now);
      var queued := QueuedIds(queue.items, place, generation);
      && queued + Ids(queue.checkpoint.backlog) ==
           QueuedIds(items, place, generation) + Ids(checkpoint.backlog) + Ids(refs)
      && queued !! Ids(queue.checkpoint.backlog)
      && Distinct(queue.checkpoint.backlog)
  {
    hide Ids, QueuedIds, Distinct;
    var reconciled := ReconcileItems(items, place, generation, vacancies);
    ReconcileItemsProceed(items, place, generation, vacancies);
    ProceedingKeepsQueued(items, reconciled, place, generation);
    var waiting := WaitingRefs(reconciled, checkpoint, place, generation, refs);
    WaitingKeeps(reconciled, checkpoint, place, generation, refs);
    var slots := EVALUATION_QUEUE_LIMIT - ActiveAtSite(reconciled, place.site, executions);
    TakeDrop(waiting, slots);
    QueuedIdsOfSum(reconciled, place, generation, Take(waiting, slots), now);
  }

  lemma Promoted(
    items: Items, checkpoint: Checkpoint, place: Place, generation: int, refs: seq<JobRef>,
    vacancies: Vacancies, executions: Executions, now: int) returns (reconciled: Items, promoted: seq<JobRef>)
    ensures reconciled == ReconcileItems(items, place, generation, vacancies)
    ensures Distinct(promoted)
    ensures Ids(promoted) !! QueuedIds(reconciled, place, generation)
    ensures Ids(promoted) <= Ids(checkpoint.backlog) + Ids(refs)
    ensures EnqueueRefs(items, checkpoint, place, generation, refs, vacancies, executions, now).items
      == reconciled + NewItems(place, generation, promoted, now)
  {
    hide Ids, QueuedIds, Distinct;
    reconciled := ReconcileItems(items, place, generation, vacancies);
    var waiting := WaitingRefs(reconciled, checkpoint, place, generation, refs);
    WaitingKeeps(reconciled, checkpoint, place, generation, refs);
    var slots := EVALUATION_QUEUE_LIMIT - ActiveAtSite(reconciled, place.site, executions);
    TakeDrop(waiting, slots);
    promoted := Take(waiting, slots);
  }

  lemma NewItemsAreUnique(items: Items, place: Place, generation: int, refs: seq<JobRef>, now: int)
    requires UniqueItems(items) && Distinct(refs) && Ids(refs) !! QueuedIds(items, place, generation)
    ensures UniqueItems(items + NewItems(place, generation, refs, now))
  {
    var all := items + NewItems(place, generation, refs, now);
    forall i, j | 0 <= i < j < |all|
      ensures !(SameVacancy(all[i], all[j]) && all[i].generation == all[j].generation)
    {
      if i < |items| <= j {
        assert all[j].externalId == refs[j - |items|].externalId && refs[j - |items|].externalId in Ids(refs);
        assert all[i] == items[i];
      }
    }
  }

  lemma NewItemsAreOk(items: Items, place: Place, generation: int, refs: seq<JobRef>, now: int, executions: Executions)
    requires ItemsOk(items, executions)
    requires place.session in executions && place.site == executions[place.session].adapter
    requires generation == executions[place.session].generation >= 0
    ensures ItemsOk(items + NewItems(place, generation, refs, now), executions)
  {
  }

  // The checkpoint of the place grows its links; rows elsewhere see no change.
  lemma EnqueueKeepsPlaced(
    items: Items, checkpoints: Checkpoints, executions: Executions, place: Place, generation: int,
    promoted: seq<JobRef>, now: int, c: Checkpoint)
    requires AllPlaced(items, checkpoints, executions)
    requires var id := CheckpointId(place, generation);
      && (id in checkpoints ==> checkpoints[id].urls.Keys <= c.urls.Keys)
      && (id !in checkpoints ==> forall i :: 0 <= i < |items| && Active(items[i]) && IsCurrent(items[i], executions) ==>
           HomeOf(items[i]) != id)
    requires Ids(promoted) <= c.urls.Keys
    requires QueuedIds(items + NewItems(place, generation, promoted, now), place, generation) !! Ids(c.backlog)
    ensures AllPlaced(
      items + NewItems(place, generation, promoted, now), checkpoints[CheckpointId(place, generation) := c], executions)
  {
    var all := items + NewItems(place, generation, promoted, now);
    var id := CheckpointId(place, generation);
    forall i | 0 <= i < |all| && IsCurrent(all[i], executions)
      ensures Placed(all[i], checkpoints[id := c])
    {
      if i >= |items| {
        assert promoted[i - |items|].externalId in Ids(promoted);
        QueuedIdsOf(all, place, generation, i);
      } else if HomeOf(items[i]) == id {
        assert Placed(items[i], checkpoints);
        QueuedIdsOf(all, place, generation, i);
      } else {
        assert Placed(items[i], checkpoints);
      }
    }
  }

  lemma UsableUrl(
    urls: map<string, Option<string>>, inputs: map<string, Option<string>>, vacancies: Vacancies, place: Place,
    id: string)
    requires Usable(urls) && id in urls
    ensures SourceUrl(inputs, urls, vacancies, place, id) != ""
  {
  }

  // Every active row of the place and generation has one of these links.
  ghost predicate LinksCover(items: Items, place: Place, generation: int, urls: map<string, Option<string>>) {
    forall i :: 0 <= i < |items| && ActiveIn(place, generation)(items[i]) ==> items[i].externalId in urls
  }

  // With links for every row, the second transaction of enqueue fails nothing.
  lemma NothingIsUnlocated(
    t: Tables, place: Place, generation: int, inputs: map<string, Option<string>>, urls: map<string, Option<string>>)
    requires LinksCover(t.items, place, generation, urls) && Usable(urls)
    ensures AfterLocating(t, place, generation, inputs, urls) == t
  {
    forall i | 0 <= i < |t.items| && ActiveIn(place, generation)(t.items[i])
      ensures SourceUrl(inputs, urls, t.vacancies, place, t.items[i].externalId) != ""
    {
      UsableUrl(urls, inputs, t.vacancies, place, t.items[i].externalId);
    }
    assert FailUnlocated(t.items, place, generation, inputs, urls, t.vacancies) == t.items;
  }

  // The links of the current checkpoint are enough.
  lemma CheckpointCovers(t: Tables, executions: Executions, place: Place, generation: int)
    requires TablesOk(t, executions)
    requires place.session in executions && generation == executions[place.session].generation
    requires CheckpointId(place, generation) in t.checkpoints
    ensures var urls := t.checkpoints[CheckpointId(place, generation)].urls;
      Usable(urls) && LinksCover(t.items, place, generation, urls)
  {
    hide Ids, Usable, UniqueItems, ItemsOk;
    forall i | 0 <= i < |t.items| && ActiveIn(place, generation)(t.items[i])
      ensures t.items[i].externalId in t.checkpoints[CheckpointId(place, generation)].urls
    {
      assert Placed(t.items[i], t.checkpoints);
    }
  }

  ghost predicate HaveLinks(refs: seq<JobRef>) { forall i :: 0 <= i < |refs| ==> refs[i].url != "" }

  lemma EnqueueKeepsCheckpoint(
    items: Items, checkpoint: Checkpoint, place: Place, generation: int, refs: seq<JobRef>,
    vacancies: Vacancies, executions: Executions, now: int)
    requires CheckpointOk(checkpoint) && HaveLinks(refs)
    ensures var c := EnqueueRefs(items, checkpoint, place, generation, refs, vacancies, executions, now).checkpoint;
      && CheckpointOk(c)
      && c.urls.Keys == checkpoint.urls.Keys + Ids(refs)
  {
    EnqueueConserves(items, checkpoint, place, generation, refs, vacancies, executions, now);
    UpdateUrlsKeeps(checkpoint.urls, refs);
    hide Ids, Distinct, QueuedIds;
    var reconciled := ReconcileItems(items, place, generation, vacancies);
    var waiting := WaitingRefs(reconciled, checkpoint, place, generation, refs);
    WaitingKeeps(reconciled, checkpoint, place, generation, refs);
    TakeDrop(waiting, EVALUATION_QUEUE_LIMIT - ActiveAtSite(reconciled, place.site, executions));
  }

  lemma ActiveRowsAreHome(items: Items, checkpoints: Checkpoints, executions: Executions, id: CheckpointId)
    requires AllPlaced(items, checkpoints, executions) && id !in checkpoints
    ensures forall i :: 0 <= i < |items| && Active(items[i]) && IsCurrent(items[i], executions) ==>
      HomeOf(items[i]) != id
  {
    hide Ids;
    forall i | 0 <= i < |items| && Active(items[i]) && IsCurrent(items[i], executions)
      ensures HomeOf(items[i]) != id
    {
      assert Placed(items[i], checkpoints);
    }
  }

  // A worker of another generation, or of a session that is over, changes nothing; any other
  // enqueue keeps the invariant.
  lemma EnqueueKeepsTables(
    t: Tables, executions: Executions, place: Place, refs: seq<JobRef>, expected: Option<int>, now: int)
    requires TablesOk(t, executions) && HaveLinks(refs)
    requires place.session in executions ==> place.site == executions[place.session].adapter
    ensures TablesOk(AfterQueueing(t, executions, place, refs, expected, now), executions)
    ensures var t' := AfterQueueing(t, executions, place, refs, expected, now);
      match WorkingGeneration(executions, place.session, expected)
      case None => t' == t
      case Some(g) =>
        var checkpoint := CheckpointAt(t.checkpoints, CheckpointId(place, g));
        t'.items == EnqueueRefs(t.items, checkpoint, place, g, refs, t.vacancies, executions, now).items
  {
    if WorkingGeneration(executions, place.session, expected).Some? {
      EnqueueKeepsWorking(t, executions, place, refs, expected, now);
    }
  }

  lemma EnqueueKeepsWorking(
    t: Tables, executions: Executions, place: Place, refs: seq<JobRef>, expected: Option<int>, now: int)
    requires TablesOk(t, executions) && HaveLinks(refs)
    requires WorkingGeneration(executions, place.session, expected).Some?
    requires place.site == executions[place.session].adapter
    ensures TablesOk(AfterQueueing(t, executions, place, refs, expected, now), executions)
    ensures var g := WorkingGeneration(executions, place.session, expected).value;
      var checkpoint := CheckpointAt(t.checkpoints, CheckpointId(place, g));
      AfterQueueing(t, executions, place, refs, expected, now).items
        == EnqueueRefs(t.items, checkpoint, place, g, refs, t.vacancies, executions, now).items
  {
    hide Ids, Distinct, QueuedIds, UniqueItems, ItemsOk, AllPlaced, Usable, EnqueueRefs, ReconcileItems;
    var g := WorkingGeneration(executions, place.session, expected).value;
    var id := CheckpointId(place, g);
    var checkpoint := CheckpointAt(t.checkpoints, id);
    EmptyCheckpointOk();
    var queue := EnqueueRefs(t.items, checkpoint, place, g, refs, t.vacancies, executions, now);
    var reconciled, promoted := Promoted(t.items, checkpoint, place, g, refs, t.vacancies, executions, now);
    ReconcileItemsProceed(t.items, place, g, t.vacancies);
    ProceedingKeepsItems(t.items, reconciled, executions);
    ProceedingKeepsPlaced(t.items, reconciled, t.checkpoints, executions);
    NewItemsAreUnique(reconciled, place, g, promoted, now);
    NewItemsAreOk(reconciled, place, g, promoted, now, executions);
    EnqueueKeepsCheckpoint(t.items, checkpoint, place, g, refs, t.vacancies, executions, now);
    EnqueueConserves(t.items, checkpoint, place, g, refs, t.vacancies, executions, now);
    if id !in t.checkpoints { ActiveRowsAreHome(reconciled, t.checkpoints, executions, id); }
    EnqueueKeepsPlaced(reconciled, t.checkpoints, executions, place, g, promoted, now, queue.checkpoint);
  }

  // Both transactions in one go are the first alone.
  lemma EnqueueIsQueueing(
    t: Tables, executions: Executions, place: Place, refs: seq<JobRef>, expected: Option<int>, now: int)
    requires TablesOk(t, executions) && HaveLinks(refs)
    requires place.session in executions ==> place.site == executions[place.session].adapter
    ensures AfterEnqueue(t, executions, place, refs, expected, now) ==
      AfterQueueing(t, executions, place, refs, expected, now)
  {
    EnqueueKeepsTables(t, executions, place, refs, expected, now);
    var working := WorkingGeneration(executions, place.session, expected);
    if working.Some? {
      var t' := AfterQueueing(t, executions, place, refs, expected, now);
      assert CheckpointId(place, working.value) in t'.checkpoints;
      hide TablesOk, AfterQueueing, AfterLocating, LinksCover, Usable;
      CheckpointCovers(t', executions, place, working.value);
      NothingIsUnlocated(t', place, working.value, AsUrls(refs),
        t'.checkpoints[CheckpointId(place, working.value)].urls);
    }
  }

  lemma EmptyCheckpointOk()
    ensures CheckpointOk(Checkpoint([], map[], 0, 0))
  {
  }

  // ---- takeover ----

  ghost function TakenOver(executions: Executions, session: Session, generation: int): Executions
    requires session in executions
  {
    executions[session := executions[session].(generation := generation)]
  }

  lemma AdoptionKeepsItems(items: Items, executions: Executions, session: Session, generation: int)
    requires session in executions && generation > executions[session].generation
    requires ItemsOk(items, executions) && UniqueItems(items)
    ensures var final := AdoptAll(items, Place(session, executions[session].adapter), generation);
      ItemsOk(final, TakenOver(executions, session, generation)) && UniqueItems(final)
  {
    var place := Place(session, executions[session].adapter);
    AdoptAllAdopts(items, place, generation);
    hide UniqueItems;
    var final := AdoptAll(items, place, generation);
    forall i | 0 <= i < |final|
      ensures ItemOk(final[i], TakenOver(executions, session, generation))
    {
      assert ItemOk(items[i], executions);
      assert Becomes(items[i], final[i], PlaceOf(items[i]) == place && items[i].generation < generation, place,
        generation);
    }
  }

  // Every row of the new generation is an adopted one: the new generation had no rows before.
  lemma NewGenerationIsAdopted(items: Items, executions: Executions, session: Session, generation: int, i: nat)
    requires session in executions && generation > executions[session].generation
    requires ItemsOk(items, executions) && UniqueItems(items)
    requires var final := AdoptAll(items, Place(session, executions[session].adapter), generation);
      |final| == |items| && i < |items| && PlaceOf(final[i]).session == session && final[i].generation == generation
    ensures var place := Place(session, executions[session].adapter);
      && OlderActive(items[i], place, generation)
      && items[i].externalId == AdoptAll(items, place, generation)[i].externalId
      && items[i].externalId in AdoptedIds(items, place, generation)
  {
    var place := Place(session, executions[session].adapter);
    AdoptAllAdopts(items, place, generation);
    var final := AdoptAll(items, place, generation);
    assert ItemOk(items[i], executions);
    assert Becomes(items[i], final[i], items[i].generation < generation, place, generation);
    FindItemFinds(items, place, items[i].externalId, generation);
  }

  lemma AdoptedIdsHaveLinks(
    items: Items, checkpoints: Checkpoints, executions: Executions, session: Session, generation: nat)
    requires session in executions && generation > executions[session].generation >= 0
    requires ItemsOk(items, executions) && CheckpointsOk(checkpoints, executions)
    requires AllPlaced(items, checkpoints, executions)
    ensures var place := Place(session, executions[session].adapter);
      AdoptedIds(items, place, generation) <= MergeCheckpoints(checkpoints, place, generation + 1).urls.Keys
  {
    var place := Place(session, executions[session].adapter);
    MergeKeeps(checkpoints, place, generation + 1);
    hide Ids;
    forall id | id in AdoptedIds(items, place, generation)
      ensures id in MergeCheckpoints(checkpoints, place, generation + 1).urls
    {
      var i :| 0 <= i < |items| && OlderActive(items[i], place, generation) && items[i].externalId == id;
      assert ItemOk(items[i], executions);
      assert OlderActive(items[i], place, generation);
      assert !Ended(items[i]);
      assert Active(items[i]);
      assert IsCurrent(items[i], executions);
      assert Placed(items[i], checkpoints);
    }
  }

  lemma AdoptionKeepsCheckpoint(
    items: Items, t: Tables, executions: Executions, session: Session, generation: nat, ended: set<string>)
    requires session in executions && generation > executions[session].generation >= 0
    requires ItemsOk(items, executions) && CheckpointsOk(t.checkpoints, executions)
    requires AllPlaced(items, t.checkpoints, executions)
    ensures var place := Place(session, executions[session].adapter);
      var adopted := AdoptedIds(items, place, generation);
      var c := AdoptedCheckpoint(t.checkpoints, place, generation, adopted, ended, t.vacancies);
      && CheckpointOk(c)
      && adopted <= c.urls.Keys
      && adopted !! Ids(c.backlog)
  {
    var place := Place(session, executions[session].adapter);
    var merged := MergeCheckpoints(t.checkpoints, place, generation + 1);
    var adopted := AdoptedIds(items, place, generation);
    MergeKeeps(t.checkpoints, place, generation + 1);
    AdoptedIdsHaveLinks(items, t.checkpoints, executions, session, generation);
    UnqueuedKeeps(merged.backlog, adopted + ended);
    hide AdoptedIds, Ids, Distinct;
    assert MissingUrls(merged.urls, adopted, place, t.vacancies) == map[];
  }

  lemma AdoptionKeepsPlaced(
    items: Items, checkpoints: Checkpoints, executions: Executions, session: Session, generation: nat, c: Checkpoint)
    requires session in executions && generation > executions[session].generation >= 0
    requires ItemsOk(items, executions) && UniqueItems(items) && AllPlaced(items, checkpoints, executions)
    requires var place := Place(session, executions[session].adapter);
      var adopted := AdoptedIds(items, place, generation);
      adopted <= c.urls.Keys && adopted !! Ids(c.backlog)
    ensures var place := Place(session, executions[session].adapter);
      AllPlaced(AdoptAll(items, place, generation), checkpoints[CheckpointId(place, generation) := c],
        TakenOver(executions, session, generation))
  {
    var place := Place(session, executions[session].adapter);
    AdoptAllAdopts(items, place, generation);
    var final := AdoptAll(items, place, generation);
    var checkpoints' := checkpoints[CheckpointId(place, generation) := c];
    hide Ids, UniqueItems, AdoptedIds;
    forall i | 0 <= i < |final| && IsCurrent(final[i], TakenOver(executions, session, generation))
      ensures Placed(final[i], checkpoints')
    {
      assert ItemOk(items[i], executions);
      if final[i].session == session {
        NewGenerationIsAdopted(items, executions, session, generation, i);
        assert PlaceOf(final[i]) == place;
      } else {
        assert Becomes(items[i], final[i], false, place, generation);
        assert Placed(items[i], checkpoints);
      }
    }
  }

  lemma CheckpointsStayOk(
    checkpoints: Checkpoints, executions: Executions, session: Session, generation: nat, c: Checkpoint)
    requires session in executions && generation > executions[session].generation
    requires CheckpointsOk(checkpoints, executions) && CheckpointOk(c)
    ensures CheckpointsOk(
      checkpoints[CheckpointId(Place(session, executions[session].adapter), generation) := c],
      TakenOver(executions, session, generation))
  {
    hide CheckpointOk;
  }

  lemma AdoptionKeepsTables(t: Tables, executions: Executions, session: Session, generation: nat)
    requires TablesOk(t, executions)
    requires session in executions && generation > executions[session].generation
    ensures TablesOk(
      AfterAdoption(t, Place(session, executions[session].adapter), generation),
      TakenOver(executions, session, generation))
  {
    var place := Place(session, executions[session].adapter);
    hide ItemsOk, UniqueItems, CheckpointsOk, AllPlaced, AdoptAll, AdoptedIds, EndedIds, CheckpointOk, ReconcileOlder;
    var reconciled := ReconcileOlder(t.items, place, generation, t.vacancies);
    ReconcileItemsProceed(t.items, place, generation, t.vacancies);
    ProceedingKeepsItems(t.items, reconciled, executions);
    ProceedingKeepsPlaced(t.items, reconciled, t.checkpoints, executions);
    var items := AdoptAll(reconciled, place, generation);
    var ended := EndedIds(items, place, generation);
    var adopted := AdoptedIds(reconciled, place, generation);
    var c := AdoptedCheckpoint(t.checkpoints, place, generation, adopted, ended, t.vacancies);
    AdoptionKeepsItems(reconciled, executions, session, generation);
    AdoptionKeepsCheckpoint(reconciled, t, executions, session, generation, ended);
    AdoptionKeepsPlaced(reconciled, t.checkpoints, executions, session, generation, c);
    CheckpointsStayOk(t.checkpoints, executions, session, generation, c);
  }

  lemma StatusKeepsTables(t: Tables, executions: Executions, session: Session, status: SessionStatus, cancel: bool)
    requires TablesOk(t, executions) && session in executions
    ensures TablesOk(t, executions[session := executions[session].(status := status, cancelRequested := cancel)])
  {
    hide Placed, CheckpointOk, UniqueItems;
  }
}
