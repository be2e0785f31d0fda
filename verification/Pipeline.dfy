// The durable vacancy pipeline: a bounded per-site queue with an overflow backlog, and the
// takeover that merges every older generation of a session's work into the new one.

module Pipeline {
  import opened Records
  import opened ModelProtocol

  const EVALUATION_QUEUE_LIMIT := 10

  datatype Stage = Discovery | Extraction | Evaluation | Letter | Submission | Reporting | Done

  datatype ItemStatus = ItemQueued | ItemRunning | ItemCompleted | ItemFailed | ItemCancelled

  datatype Item = Item(
    session: Session, site: string, externalId: string, generation: int,
    stage: Stage, status: ItemStatus, revision: int, createdAt: int, error: Option<string>)

  datatype VacancyState =
    | Closed           // applied, submitted, reported, rejected, error, cancelled
    | Extracted | Evaluating | ReadyToSubmit | SubmittingNow | ReadyToReport | OtherState

  datatype Vacancy = Vacancy(state: VacancyState, url: string)

  datatype JobRef = JobRef(externalId: string, url: string)

  datatype Checkpoint = Checkpoint(
    backlog: seq<JobRef>, urls: map<string, Option<string>>, highWater: int, revision: int)

  datatype Place = Place(session: Session, site: string)

  datatype CheckpointId = CheckpointId(place: Place, generation: int)

  datatype VacancyId = VacancyId(place: Place, externalId: string)

  // In table order: the integer primary key grows with the index.
  type Items = seq<Item>
  type Checkpoints = map<CheckpointId, Checkpoint>
  type Vacancies = map<VacancyId, Vacancy>

  datatype Tables = Tables(items: Items, checkpoints: Checkpoints, vacancies: Vacancies)

  function PlaceOf(item: Item): Place { Place(item.session, item.site) }

  function StageOrder(stage: Stage): nat {
    match stage
    case Discovery => 0
    case Extraction => 1
    case Evaluation => 2
    case Letter => 3
    case Submission => 4
    case Reporting => 4
    case Done => 5
  }

  predicate CapacityStage(stage: Stage) { stage.Discovery? || stage.Extraction? || stage.Evaluation? }

  predicate Active(item: Item) { item.status.ItemQueued? || item.status.ItemRunning? }

  predicate Ended(item: Item) { !Active(item) || item.stage.Done? }

  // ---- single rows ----

  function AdvanceItem(item: Item, stage: Stage): Item {
    if !Active(item) || StageOrder(stage) < StageOrder(item.stage) then item
    else
      item.(stage := stage,
            revision := if item.stage != stage then item.revision + 1 else item.revision,
            status := if stage.Done? then ItemCompleted else if stage.Discovery? then ItemQueued else ItemRunning)
  }

  predicate Advances(item: Item, stage: Stage) { Active(item) && StageOrder(stage) >= StageOrder(item.stage) }

  function ReconcileItem(item: Item, vacancies: Vacancies): Item {
    var id := VacancyId(PlaceOf(item), item.externalId);
    if !Active(item) || id !in vacancies then item
    else
      match vacancies[id].state
      case Closed => item.(stage := Done, status := ItemCompleted)
      case Extracted => AdvanceItem(item, Extraction)
      case Evaluating => AdvanceItem(item, Evaluation)
      case ReadyToSubmit => AdvanceItem(item, Submission)
      case SubmittingNow => AdvanceItem(item, Submission)
      case ReadyToReport => AdvanceItem(item, Reporting)
      case OtherState => item
  }

  function ReconcileItems(items: Items, place: Place, generation: int, vacancies: Vacancies): Items {
    seq(|items|, i requires 0 <= i < |items| =>
      if PlaceOf(items[i]) == place && items[i].generation == generation
      then ReconcileItem(items[i], vacancies) else items[i])
  }

  function ReconcileOlder(items: Items, place: Place, generation: int, vacancies: Vacancies): Items {
    seq(|items|, i requires 0 <= i < |items| =>
      if PlaceOf(items[i]) == place && items[i].generation < generation
      then ReconcileItem(items[i], vacancies) else items[i])
  }

  // ---- generations and capacity ----

  // None when the caller belongs to another generation, or the session is unknown.
  function CurrentGeneration(executions: Executions, session: Session, expected: Option<int>): Option<int> {
    if session !in executions then None
    else
      var actual := if executions[session].generation < 0 then 0 else executions[session].generation;
      if expected.Some? && expected.value != actual then None else Some(actual)
  }

  // Whether this worker may queue or advance work, and for which generation.
  function WorkingGeneration(executions: Executions, session: Session, expected: Option<int>): Option<int> {
    var g := CurrentGeneration(executions, session, expected);
    if g.Some? && executions[session].status in TERMINAL_SESSION then None else g
  }

  // Occupies one of the site's evaluation slots.
  predicate Occupies(item: Item, site: string, executions: Executions) {
    && item.site == site && Active(item) && CapacityStage(item.stage)
    && item.session in executions
    && executions[item.session].status !in TERMINAL_SESSION
    && executions[item.session].generation == item.generation
  }

  function ActiveAtSite(items: Items, site: string, executions: Executions): nat {
    if items == [] then 0
    else
      var last := if Occupies(items[|items| - 1], site, executions) then 1 else 0;
      ActiveAtSite(items[..|items| - 1], site, executions) + last
  }

  function FindItem(items: Items, place: Place, externalId: string, generation: int): (found: Option<nat>)
    ensures found.Some? ==> found.value < |items|
  {
    if items == [] then None
    else
      var last := |items| - 1;
      var found := FindItem(items[..last], place, externalId, generation);
      if found.Some? then found
      else if PlaceOf(items[last]) == place && items[last].externalId == externalId
        && items[last].generation == generation
      then Some(last)
      else None
  }

  // ---- ORDER BY created_at, id ----

  type Choice = Item -> bool

  function OlderThan(place: Place, generation: int): Choice {
    (item: Item) => PlaceOf(item) == place && item.generation < generation
  }

  function ActiveIn(place: Place, generation: int): Choice {
    (item: Item) => PlaceOf(item) == place && item.generation == generation && Active(item)
  }

  predicate Older(items: Items, a: nat, b: nat)
    requires a < |items| && b < |items|
  {
    items[a].createdAt < items[b].createdAt || (items[a].createdAt == items[b].createdAt && a < b)
  }

  predicate InRange(items: Items, order: seq<nat>) { forall k :: 0 <= k < |order| ==> order[k] < |items| }

  function InsertByAge(items: Items, order: seq<nat>, i: nat): seq<nat>
    requires i < |items| && InRange(items, order)
  {
    if order == [] || Older(items, i, order[0]) then [i] + order
    else [order[0]] + InsertByAge(items, order[1..], i)
  }

  // The chosen rows among the first n, oldest first.
  function OldestFirst(items: Items, choose: Choice, n: nat): (order: seq<nat>)
    requires n <= |items|
    ensures InRange(items, order)
  {
    if n == 0 then []
    else
      var rest := OldestFirst(items, choose, n - 1);
      if choose(items[n - 1]) then InsertedInRange(items, rest, n - 1); InsertByAge(items, rest, n - 1)
      else rest
  }

  lemma {:induction false} InsertedInRange(items: Items, order: seq<nat>, i: nat)
    requires i < |items| && InRange(items, order)
    ensures InRange(items, InsertByAge(items, order, i))
    ensures multiset(InsertByAge(items, order, i)) == multiset(order) + multiset{i}
  {
    if order == [] || Older(items, i, order[0]) {
    } else {
      InsertedInRange(items, order[1..], i);
      assert order == [order[0]] + order[1..];
    }
  }

  // ---- backlog: an insertion-ordered dictionary keyed by external id ----

  function Put(refs: seq<JobRef>, ref: JobRef): seq<JobRef> {
    if refs == [] then [ref]
    else if refs[0].externalId == ref.externalId then [ref] + refs[1..]
    else [refs[0]] + Put(refs[1..], ref)
  }

  function PutIfAbsent(refs: seq<JobRef>, ref: JobRef): seq<JobRef> {
    if refs == [] then [ref]
    else if refs[0].externalId == ref.externalId then refs
    else [refs[0]] + PutIfAbsent(refs[1..], ref)
  }

  function PutAll(refs: seq<JobRef>, more: seq<JobRef>): seq<JobRef> {
    if more == [] then refs else Put(PutAll(refs, more[..|more| - 1]), more[|more| - 1])
  }

  function PutAllIfAbsent(refs: seq<JobRef>, more: seq<JobRef>): seq<JobRef> {
    if more == [] then refs else PutIfAbsent(PutAllIfAbsent(refs, more[..|more| - 1]), more[|more| - 1])
  }

  function UpdateUrls(urls: map<string, Option<string>>, refs: seq<JobRef>): map<string, Option<string>> {
    if refs == [] then urls
    else UpdateUrls(urls, refs[..|refs| - 1])[refs[|refs| - 1].externalId := Some(refs[|refs| - 1].url)]
  }

  // Backlog entries that are not queued yet, in backlog order.
  function Unqueued(refs: seq<JobRef>, queued: set<string>): seq<JobRef> {
    if refs == [] then []
    else
      var rest := Unqueued(refs[..|refs| - 1], queued);
      if refs[|refs| - 1].externalId in queued then rest else rest + [refs[|refs| - 1]]
  }

  function Take(refs: seq<JobRef>, n: int): seq<JobRef> {
    if n <= 0 then [] else if n >= |refs| then refs else refs[..n]
  }

  function Drop(refs: seq<JobRef>, n: int): seq<JobRef> {
    if n <= 0 then refs else if n >= |refs| then [] else refs[n..]
  }

  function QueuedIds(items: Items, place: Place, generation: int): set<string> {
    set i | 0 <= i < |items| && PlaceOf(items[i]) == place && items[i].generation == generation :: items[i].externalId
  }

  function NewItem(place: Place, generation: int, ref: JobRef, now: int): Item {
    Item(place.session, place.site, ref.externalId, generation, Discovery, ItemQueued, 0, now, None)
  }

  function NewItems(place: Place, generation: int, refs: seq<JobRef>, now: int): Items {
    seq(|refs|, i requires 0 <= i < |refs| => NewItem(place, generation, refs[i], now))
  }

  function CheckpointAt(checkpoints: Checkpoints, id: CheckpointId): Checkpoint {
    if id in checkpoints then checkpoints[id] else Checkpoint([], map[], 0, 0)
  }

  // ---- enqueue ----

  datatype Queue = Queue(items: Items, checkpoint: Checkpoint)

  // Items and checkpoint after the first transaction of `enqueue`.
  function EnqueueRefs(
    items: Items, checkpoint: Checkpoint, place: Place, generation: int, refs: seq<JobRef>,
    vacancies: Vacancies, executions: Executions, now: int): Queue
  {
    var reconciled := ReconcileItems(items, place, generation, vacancies);
    var merged := PutAll(PutAll([], checkpoint.backlog), refs);
    var waiting := Unqueued(merged, QueuedIds(reconciled, place, generation));
    var active := ActiveAtSite(reconciled, place.site, executions);
    var slots := EVALUATION_QUEUE_LIMIT - active;
    var promoted := Take(waiting, slots);
    var nowActive := active + |promoted|;
    Queue(
      reconciled + NewItems(place, generation, promoted, now),
      Checkpoint(
        Drop(waiting, slots),
        UpdateUrls(checkpoint.urls, refs),
        if checkpoint.highWater > nowActive then checkpoint.highWater else nowActive,
        checkpoint.revision + 1))
  }

  function AsUrls(refs: seq<JobRef>): map<string, Option<string>> { UpdateUrls(map[], refs) }

  function VacancyUrl(vacancies: Vacancies, place: Place, externalId: string): string {
    var id := VacancyId(place, externalId);
    if id in vacancies then vacancies[id].url else ""
  }

  function UrlOf(urls: map<string, Option<string>>, externalId: string): string {
    if externalId in urls && urls[externalId].Some? then urls[externalId].value else ""
  }

  // `a or b` on strings
  function Or(a: string, b: string): string { if a != "" then a else b }

  function SourceUrl(
    inputs: map<string, Option<string>>, urls: map<string, Option<string>>, vacancies: Vacancies, place: Place,
    id: string): string
  {
    Or(Or(UrlOf(inputs, id), UrlOf(urls, id)), VacancyUrl(vacancies, place, id))
  }

  // A row without a usable link fails.
  function Located(
    item: Item, place: Place,
    inputs: map<string, Option<string>>, urls: map<string, Option<string>>, vacancies: Vacancies): Item
  {
    if SourceUrl(inputs, urls, vacancies, place, item.externalId) != "" then item
    else item.(status := ItemFailed, error := Some("missing_source_url"))
  }

  function FailUnlocated(
    items: Items, place: Place, generation: int,
    inputs: map<string, Option<string>>, urls: map<string, Option<string>>, vacancies: Vacancies): Items
  {
    seq(|items|, i requires 0 <= i < |items| =>
      if ActiveIn(place, generation)(items[i]) then Located(items[i], place, inputs, urls, vacancies) else items[i])
  }

  // What the first n rows in this order give the worker.
  function Delivered(
    items: Items, order: seq<nat>, n: nat, place: Place,
    inputs: map<string, Option<string>>, urls: map<string, Option<string>>, vacancies: Vacancies): seq<JobRef>
    requires InRange(items, order) && n <= |order|
  {
    if n == 0 then []
    else
      var rest := Delivered(items, order, n - 1, place, inputs, urls, vacancies);
      var id := items[order[n - 1]].externalId;
      var url := SourceUrl(inputs, urls, vacancies, place, id);
      if url == "" then rest else rest + [JobRef(id, url)]
  }

  // The first transaction of `enqueue` stores what is queued and what waits.
  function AfterQueueing(
    t: Tables, executions: Executions, place: Place, refs: seq<JobRef>, expected: Option<int>, now: int): Tables
  {
    match WorkingGeneration(executions, place.session, expected)
    case None => t
    case Some(g) =>
      var id := CheckpointId(place, g);
      var queue := EnqueueRefs(t.items, CheckpointAt(t.checkpoints, id), place, g, refs, t.vacancies, executions, now);
      t.(items := queue.items, checkpoints := t.checkpoints[id := queue.checkpoint])
  }

  // The second one, with the links the first has seen, fails the rows that have none.
  function AfterLocating(
    t: Tables, place: Place, generation: int, inputs: map<string, Option<string>>,
    urls: map<string, Option<string>>): Tables
  {
    t.(items := FailUnlocated(t.items, place, generation, inputs, urls, t.vacancies))
  }

  // Both, when nothing happens in between.
  function AfterEnqueue(
    t: Tables, executions: Executions, place: Place, refs: seq<JobRef>, expected: Option<int>, now: int): Tables
  {
    match WorkingGeneration(executions, place.session, expected)
    case None => t
    case Some(g) =>
      var t' := AfterQueueing(t, executions, place, refs, expected, now);
      AfterLocating(t', place, g, AsUrls(refs), t'.checkpoints[CheckpointId(place, g)].urls)
  }

  function AfterAdvance(
    t: Tables, executions: Executions, place: Place, externalId: string, stage: Stage, expected: Option<int>): Tables
  {
    match WorkingGeneration(executions, place.session, expected)
    case None => t
    case Some(g) =>
      match FindItem(t.items, place, externalId, g)
      case None => t
      case Some(i) => t.(items := t.items[i := AdvanceItem(t.items[i], stage)])
  }

  function CancelItems(items: Items, session: Session, generation: int): Items {
    seq(|items|, i requires 0 <= i < |items| =>
      if items[i].session == session && items[i].generation == generation && Active(items[i])
      then items[i].(status := ItemCancelled, error := Some("cancelled")) else items[i])
  }

  function AfterCancel(t: Tables, executions: Executions, session: Session, expected: Option<int>): Tables {
    match CurrentGeneration(executions, session, expected)
    case None => t
    case Some(g) => t.(items := CancelItems(t.items, session, g))
  }

  // ---- takeover ----

  function Supersede(item: Item): Item {
    item.(status := ItemCancelled, error := Some("superseded_generation"))
  }

  function MergeInto(target: Item, item: Item): Item {
    var later := StageOrder(item.stage) > StageOrder(target.stage);
    target.(
      stage := if later then item.stage else target.stage,
      revision := if later || item.stage == target.stage
                  then (if target.revision > item.revision then target.revision else item.revision)
                  else target.revision,
      status := if item.status.ItemRunning? || target.status.ItemRunning? then ItemRunning else ItemQueued,
      createdAt := if target.createdAt < item.createdAt then target.createdAt else item.createdAt)
  }

  // What the takeover loop does with one older row.
  function AdoptItem(items: Items, i: nat, generation: int): Items
    requires i < |items|
  {
    var item := items[i];
    if Ended(item) then items
    else
      var target := FindItem(items, PlaceOf(item), item.externalId, generation);
      if target.None? then items[i := item.(generation := generation)]
      else if Ended(items[target.value]) then items[i := Supersede(item)]
      else items[target.value := MergeInto(items[target.value], item)][i := Supersede(item)]
  }

  function AdoptItems(items: Items, order: seq<nat>, generation: int): Items
    requires InRange(items, order)
    ensures |AdoptItems(items, order, generation)| == |items|
  {
    if order == [] then items
    else AdoptItem(AdoptItems(items, order[..|order| - 1], generation), order[|order| - 1], generation)
  }

  // Ids adopted by the takeover: active somewhere older, with no ended row already in the new generation.
  function AdoptedIds(items: Items, place: Place, generation: int): set<string> {
    set i | 0 <= i < |items| && PlaceOf(items[i]) == place && items[i].generation < generation && !Ended(items[i])
         && (var t := FindItem(items, place, items[i].externalId, generation);
             t.None? || !Ended(items[t.value]))
      :: items[i].externalId
  }

  function EndedIds(items: Items, place: Place, generation: int): set<string> {
    set i | 0 <= i < |items| && PlaceOf(items[i]) == place && items[i].generation <= generation && Ended(items[i])
      :: items[i].externalId
  }

  // Checkpoints of generations 0 .. n-1, older first: urls are overwritten, backlog entries kept.
  function MergeCheckpoints(checkpoints: Checkpoints, place: Place, n: nat): Checkpoint {
    if n == 0 then Checkpoint([], map[], 0, 0)
    else
      var merged := MergeCheckpoints(checkpoints, place, n - 1);
      var id := CheckpointId(place, n - 1);
      if id !in checkpoints then merged
      else
        var c := checkpoints[id];
        Checkpoint(
          PutAllIfAbsent(merged.backlog, c.backlog), merged.urls + c.urls,
          if merged.highWater > c.highWater then merged.highWater else c.highWater, c.revision)
  }

  function Without(refs: seq<JobRef>, ids: set<string>): seq<JobRef> { Unqueued(refs, ids) }

  function MissingUrls(urls: map<string, Option<string>>, ids: set<string>, place: Place, vacancies: Vacancies)
    : map<string, Option<string>>
  {
    map id | id in ids && id !in urls ::
      var url := VacancyUrl(vacancies, place, id); if url != "" then Some(url) else None
  }

  function AdoptedCheckpoint(
    checkpoints: Checkpoints, place: Place, generation: nat, adopted: set<string>, ended: set<string>,
    vacancies: Vacancies): Checkpoint
  {
    var merged := MergeCheckpoints(checkpoints, place, generation + 1);
    var target := CheckpointAt(checkpoints, CheckpointId(place, generation));
    Checkpoint(
      Without(merged.backlog, adopted + ended),
      merged.urls + MissingUrls(merged.urls, adopted, place, vacancies),
      merged.highWater,
      target.revision + 1)
  }

  function AdoptAll(items: Items, place: Place, generation: int): Items {
    AdoptItems(items, OldestFirst(items, OlderThan(place, generation), |items|), generation)
  }

  // The site's part of a takeover, after the execution row has received its new generation.
  function AfterAdoption(t: Tables, place: Place, generation: nat): Tables {
    var reconciled := ReconcileOlder(t.items, place, generation, t.vacancies);
    var adopted := AdoptedIds(reconciled, place, generation);
    var items := AdoptAll(reconciled, place, generation);
    var checkpoint := AdoptedCheckpoint(
      t.checkpoints, place, generation, adopted, EndedIds(items, place, generation), t.vacancies);
    t.(items := items, checkpoints := t.checkpoints[CheckpointId(place, generation) := checkpoint])
  }
}
