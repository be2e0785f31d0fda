// PipelineStore and the supervisor's generation bump over the shared tables. Each public
// method is one database transaction; the caller supplies the clock.

module PipelineStores {
  import opened Records
  import opened RequestRows
  import opened ModelBroker
  import opened BrokerGateway
  import opened ModelProtocol
  import opened Pipeline
  import opened Backlog
  import opened Takeover

  // An adoption row by row: which ids it has taken over when the rows in `done` have been looked at.
  lemma AdoptedExactly(before: Items, items: Items, done: seq<nat>, i: nat, place: Place, generation: int)
    requires Adopting(before, items, done, place, generation) && UniqueItems(before)
    requires i < |items| && i !in done && OlderActive(before[i], place, generation)
    ensures var target := FindItem(items, place, before[i].externalId, generation);
      before[i].externalId in AdoptedIds(before, place, generation) <==> target.None? || !Ended(items[target.value])
  {
    var id := before[i].externalId;
    FindItemFinds(items, place, id, generation);
    FindItemFinds(before, place, id, generation);
    var now, first := FindItem(items, place, id, generation), FindItem(before, place, id, generation);
    if now.Some? {
      var t := now.value;
      assert Becomes(before[t], items[t], t in done, place, generation);
    }
    if first.Some? {
      var t := first.value;
      assert Becomes(before[t], items[t], t in done, place, generation);
    }
  }

  lemma PromoteNext(merged: seq<JobRef>, i: nat, queued: set<string>, limit: int)
    requires Distinct(merged) && i < |merged|
    ensures var waiting := Unqueued(merged[..i], queued);
      var waiting' := Unqueued(merged[..i + 1], queued);
      var ref := merged[i];
      && ref.externalId !in Ids(Take(waiting, limit))
      && (ref.externalId in queued ==> waiting' == waiting)
      && (ref.externalId !in queued ==> waiting' == waiting + [ref])
      && (limit > |waiting| ==>
        && Take(waiting + [ref], limit) == Take(waiting, limit) + [ref]
        && Pipeline.Drop(waiting + [ref], limit) == Pipeline.Drop(waiting, limit))
      && (limit <= |waiting| ==>
        && Take(waiting + [ref], limit) == Take(waiting, limit)
        && Pipeline.Drop(waiting + [ref], limit) == Pipeline.Drop(waiting, limit) + [ref])
      && Ids(Take(waiting, limit) + [ref]) == Ids(Take(waiting, limit)) + {ref.externalId}
  {
    var waiting := Unqueued(merged[..i], queued);
    assert merged[..i + 1][..i] == merged[..i];
    DistinctSum(merged[..i + 1], merged[i + 1..]);
    assert merged == merged[..i + 1] + merged[i + 1..];
    Snoc(merged[..i + 1]);
    UnqueuedKeeps(merged[..i], queued);
    TakeDrop(waiting, limit);
    SnocOf(Take(waiting, limit), merged[i]);
  }

  lemma NewItemsOfSum(place: Place, generation: int, refs: seq<JobRef>, ref: JobRef, now: int)
    ensures NewItems(place, generation, refs + [ref], now) ==
      NewItems(place, generation, refs, now) + [NewItem(place, generation, ref, now)]
  {
  }

  // What a worker receives of a row: its id, with the first link known for it.
  predicate LinkedAs(
    item: Item, place: Place,
    inputs: map<string, Option<string>>, urls: map<string, Option<string>>, vacancies: Vacancies, ref: JobRef)
  {
    ref.externalId == item.externalId && ref.url == SourceUrl(inputs, urls, vacancies, place, item.externalId) != ""
  }

  predicate Delivers(
    t: Tables, place: Place, generation: int,
    inputs: map<string, Option<string>>, urls: map<string, Option<string>>, ref: JobRef)
  {
    exists i :: 0 <= i < |t.items| && ActiveIn(place, generation)(t.items[i])
                && LinkedAs(t.items[i], place, inputs, urls, t.vacancies, ref)
  }

  function DeliveredOldestFirst(
    t: Tables, place: Place, generation: int,
    inputs: map<string, Option<string>>, urls: map<string, Option<string>>): seq<JobRef>
  {
    var order := OldestFirst(t.items, ActiveIn(place, generation), |t.items|);
    Delivered(t.items, order, |order|, place, inputs, urls, t.vacancies)
  }

  lemma NobodyQueues(
    t: Tables, executions: Executions, place: Place, refs: seq<JobRef>, expected: Option<int>, now: int)
    requires WorkingGeneration(executions, place.session, expected).None?
    ensures AfterQueueing(t, executions, place, refs, expected, now) == t
  {
  }

  class PipelineStore {
    const db: Database
    var items: Items
    var checkpoints: Checkpoints
    var vacancies: Vacancies

    constructor (db: Database, vacancies: Vacancies)
      ensures this.db == db && items == [] && checkpoints == map[] && this.vacancies == vacancies
    {
      this.db := db;
      items, checkpoints := [], map[];
      this.vacancies := vacancies;
    }

    ghost function State(): Tables
      reads this
    {
      Tables(items, checkpoints, vacancies)
    }

    method Reconcile(place: Place, generation: int)
      modifies this`items
      ensures items == ReconcileItems(old(items), place, generation, vacancies)
    {
      ghost var before := items;
      ghost var after := ReconcileItems(items, place, generation, vacancies);
      for i := 0 to |items|
        invariant |items| == |before| && items[..i] == after[..i] && items[i..] == before[i..]
      {
        assert items[i] == before[i];
        if PlaceOf(items[i]) == place && items[i].generation == generation {
          items := items[i := ReconcileItem(items[i], vacancies)];
        }
        assert items[..i + 1] == after[..i] + [after[i]];
      }
    }

    // SELECT COUNT(*) of the rows that hold a slot of the site.
    method CountActive(site: string) returns (count: nat)
      ensures count == ActiveAtSite(items, site, db.executions)
    {
      count := 0;
      for i := 0 to |items|
        invariant count == ActiveAtSite(items[..i], site, db.executions)
      {
        if Occupies(items[i], site, db.executions) {
          count := count + 1;
        }
        assert items[..i + 1][..i] == items[..i];
      }
      assert items[..|items|] == items;
    }

    method MergeRefs(backlog: seq<JobRef>, refs: seq<JobRef>) returns (merged: seq<JobRef>)
      ensures merged == PutAll(PutAll([], backlog), refs) && Distinct(merged)
    {
      PutAllKeeps([], backlog);
      PutAllKeeps(PutAll([], backlog), refs);
      merged := [];
      for i := 0 to |backlog|
        invariant merged == PutAll([], backlog[..i])
      {
        merged := Put(merged, backlog[i]);
        assert backlog[..i + 1][..i] == backlog[..i];
      }
      assert backlog[..|backlog|] == backlog;
      for i := 0 to |refs|
        invariant merged == PutAll(PutAll([], backlog), refs[..i])
      {
        merged := Put(merged, refs[i]);
        assert refs[..i + 1][..i] == refs[..i];
      }
      assert refs[..|refs|] == refs;
    }

    // Queues backlog entries in order while slots are free; entries that already have a row leave the
    // backlog, the others stay.
    method Promote(place: Place, generation: int, merged: seq<JobRef>, active: nat, now: int)
      returns (kept: seq<JobRef>, nowActive: nat)
      requires Distinct(merged)
      modifies this`items
      ensures
        var waiting := Unqueued(merged, QueuedIds(old(items), place, generation));
        var slots := EVALUATION_QUEUE_LIMIT - active;
        && kept == Pipeline.Drop(waiting, slots)
        && items == old(items) + NewItems(place, generation, Take(waiting, slots), now)
        && nowActive == active + |Take(waiting, slots)|
    {
      var existing := QueuedIds(items, place, generation);
      ghost var before, queued := items, existing;
      ghost var limit := EVALUATION_QUEUE_LIMIT - active;
      var slots := if EVALUATION_QUEUE_LIMIT > active then EVALUATION_QUEUE_LIMIT - active else 0;
      kept, nowActive := [], active;
      for i := 0 to |merged|
        invariant var waiting := Unqueued(merged[..i], queued);
          && kept == Pipeline.Drop(waiting, limit)
          && items == before + NewItems(place, generation, Take(waiting, limit), now)
          && nowActive == active + |Take(waiting, limit)|
          && slots == (if limit > |waiting| then limit - |waiting| else 0)
          && existing == queued + Ids(Take(waiting, limit))
      {
        PromoteNext(merged, i, queued, limit);
        if merged[i].externalId !in existing {
          if slots > 0 {
            NewItemsOfSum(place, generation, Take(Unqueued(merged[..i], queued), limit), merged[i], now);
            items := items + [NewItem(place, generation, merged[i], now)];
            existing := existing + {merged[i].externalId};
            slots := slots - 1;
            nowActive := nowActive + 1;
          } else {
            kept := kept + [merged[i]];
          }
        }
      }
      assert merged[..|merged|] == merged;
    }

    method LinksOf(urls: map<string, Option<string>>, refs: seq<JobRef>) returns (links: map<string, Option<string>>)
      ensures links == UpdateUrls(urls, refs)
    {
      links := urls;
      for i := 0 to |refs|
        invariant links == UpdateUrls(urls, refs[..i])
      {
        links := links[refs[i].externalId := Some(refs[i].url)];
        assert refs[..i + 1][..i] == refs[..i];
      }
      assert refs[..|refs|] == refs;
    }

    // The second transaction of enqueue: rows with no link fail, the others go to the worker.
    method Deliver(
      place: Place, generation: int, inputs: map<string, Option<string>>, urls: map<string, Option<string>>)
      returns (result: seq<JobRef>)
      modifies this`items
      ensures items == FailUnlocated(old(items), place, generation, inputs, urls, vacancies)
      ensures
        var order := OldestFirst(old(items), ActiveIn(place, generation), |old(items)|);
        result == Delivered(old(items), order, |order|, place, inputs, urls, vacancies)
    {
      ghost var before := items;
      var order := OldestFirst(items, ActiveIn(place, generation), |items|);
      StartDelivery(items, place, generation, inputs, urls, vacancies);
      hide OldestFirst, SourceUrl, FailUnlocated, Delivering, Delivered;
      result := [];
      for k := 0 to |order|
        invariant Delivering(before, order, k, place, inputs, urls, vacancies, items, result)
      {
        DeliverStep(before, order, k, place, inputs, urls, vacancies, items, result);
        var i := order[k];
        var url := SourceUrl(inputs, urls, vacancies, place, items[i].externalId);
        if url == "" {
          items := items[i := items[i].(status := ItemFailed, error := Some("missing_source_url"))];
        } else {
          result := result + [JobRef(items[i].externalId, url)];
        }
      }
      EndDelivery(before, place, generation, inputs, urls, vacancies, items, result);
    }

    // Up to the first commit: reconciles, merges the references into the backlog and queues what
    // fits. Answers the generation worked for and all links known so far.
    method QueueRefs(place: Place, refs: seq<JobRef>, expected: Option<int>, now: int)
      returns (working: Option<int>, urls: map<string, Option<string>>)
      modifies this`items, this`checkpoints
      ensures working == WorkingGeneration(db.executions, place.session, expected)
      ensures State() == AfterQueueing(old(State()), db.executions, place, refs, expected, now)
      ensures working.Some? ==>
        var id := CheckpointId(place, working.value); id in checkpoints && urls == checkpoints[id].urls
    {
      hide PutAll, Unqueued, UpdateUrls, Take, Pipeline.Drop, NewItems;
      hide ReconcileItems, ActiveAtSite, QueuedIds, Distinct, Ids;
      working := WorkingGeneration(db.executions, place.session, expected);
      urls := map[];
      if working.None? {
        return;
      }
      var generation := working.value;
      Reconcile(place, generation);
      var id := CheckpointId(place, generation);
      var checkpoint := CheckpointAt(checkpoints, id);
      var merged := MergeRefs(checkpoint.backlog, refs);
      var active := CountActive(place.site);
      var kept, nowActive := Promote(place, generation, merged, active, now);
      urls := LinksOf(checkpoint.urls, refs);
      var highWater := if checkpoint.highWater > nowActive then checkpoint.highWater else nowActive;
      checkpoints := checkpoints[id := Checkpoint(kept, urls, highWater, checkpoint.revision + 1)];
    }

    // Two transactions: the second hands the worker every active row that has a link.
    method Enqueue(place: Place, refs: seq<JobRef>, expected: Option<int>, now: int) returns (result: seq<JobRef>)
      modifies this`items, this`checkpoints
      ensures State() == AfterEnqueue(old(State()), db.executions, place, refs, expected, now)
      ensures WorkingGeneration(db.executions, place.session, expected).None? ==> result == []
      ensures WorkingGeneration(db.executions, place.session, expected).Some? ==>
        var g := WorkingGeneration(db.executions, place.session, expected).value;
        var t' := AfterQueueing(old(State()), db.executions, place, refs, expected, now);
        var urls := CheckpointAt(t'.checkpoints, CheckpointId(place, g)).urls;
        && result == DeliveredOldestFirst(t', place, g, AsUrls(refs), urls)
        && forall ref :: ref in result <==> Delivers(t', place, g, AsUrls(refs), urls, ref)
    {
      hide UpdateUrls, FailUnlocated, OldestFirst, Delivered, AfterQueueing;
      var working, urls := QueueRefs(place, refs, expected, now);
      if working.None? {
        assert AfterQueueing(old(State()), db.executions, place, refs, expected, now) == old(State()) by {
          NobodyQueues(old(State()), db.executions, place, refs, expected, now);
        }
        return [];
      }
      var inputs := LinksOf(map[], refs);
      ghost var queued := State();
      result := Deliver(place, working.value, inputs, urls);
      forall ref
        ensures ref in result <==> Delivers(queued, place, working.value, inputs, urls, ref)
      {
        DeliversExactly(queued, place, working.value, inputs, urls, ref);
      }
    }

    method Advance(place: Place, externalId: string, stage: Stage, expected: Option<int>) returns (changed: bool)
      modifies this`items
      ensures State() == AfterAdvance(old(State()), db.executions, place, externalId, stage, expected)
      ensures changed <==>
        && WorkingGeneration(db.executions, place.session, expected).Some?
        && var found := FindItem(old(items), place, externalId,
             WorkingGeneration(db.executions, place.session, expected).value);
           found.Some? && Advances(old(items)[found.value], stage)
    {
      var working := WorkingGeneration(db.executions, place.session, expected);
      if working.None? {
        return false;
      }
      var found := FindItem(items, place, externalId, working.value);
      if found.None? {
        return false;
      }
      changed := Advances(items[found.value], stage);
      items := items[found.value := AdvanceItem(items[found.value], stage)];
    }

    method CancelSession(session: Session, expected: Option<int>, now: int)
      modifies this`items, db`ops
      ensures State() == AfterCancel(old(State()), db.executions, session, expected)
      ensures var generation := CurrentGeneration(db.executions, session, expected);
        db.ops == if generation.Some? then CancelOps(old(db.ops), session, generation.value, now) else old(db.ops)
    {
      var generation := CurrentGeneration(db.executions, session, expected);
      if generation.None? {
        return;
      }
      ghost var before := items;
      ghost var after := CancelItems(items, session, generation.value);
      for i := 0 to |items|
        modifies this`items
        invariant |items| == |before| && items[..i] == after[..i] && items[i..] == before[i..]
      {
        assert items[i] == before[i];
        if items[i].session == session && items[i].generation == generation.value && Active(items[i]) {
          items := items[i := items[i].(status := ItemCancelled, error := Some("cancelled"))];
        }
        assert items[..i + 1] == after[..i] + [after[i]];
      }
      db.ops := CancelOps(db.ops, session, generation.value, now);
    }

    // ---- takeover ----

    method ReconcileOlderRows(place: Place, generation: nat)
      requires forall i :: 0 <= i < |items| ==> items[i].generation >= 0
      modifies this`items
      ensures items == ReconcileOlder(old(items), place, generation, vacancies)
    {
      ghost var before := items;
      for g := 0 to generation
        invariant |items| == |before|
        invariant items == ReconcileOlder(before, place, g, vacancies)
      {
        Reconcile(place, g);
      }
    }

    // One older row that is still active; tells whether the new generation takes its vacancy on.
    method AdoptRow(i: nat, generation: int) returns (taken: bool)
      requires i < |items| && !Ended(items[i])
      modifies this`items
      ensures items == AdoptItem(old(items), i, generation)
      ensures
        var target := FindItem(old(items), PlaceOf(old(items)[i]), old(items)[i].externalId, generation);
        taken <==> target.None? || !Ended(old(items)[target.value])
    {
      var item := items[i];
      var target := FindItem(items, PlaceOf(item), item.externalId, generation);
      if target.None? {
        items := items[i := item.(generation := generation)];
        return true;
      }
      taken := !Ended(items[target.value]);
      if taken {
        items := items[target.value := MergeInto(items[target.value], item)];
      }
      items := items[i := Supersede(item)];
    }

    // Retires or moves each older row, oldest first, and collects the ids the new generation took on.
    method AdoptRows(place: Place, generation: int) returns (active: set<string>)
      requires UniqueItems(items)
      modifies this`items
      ensures items == AdoptAll(old(items), place, generation)
      ensures active == AdoptedIds(old(items), place, generation)
    {
      ghost var before := items;
      var order := OldestFirst(items, OlderThan(place, generation), |items|);
      OldestFirstSelects(items, OlderThan(place, generation), |items|);
      forall k | 0 <= k < |order|
        ensures PlaceOf(before[order[k]]) == place && before[order[k]].generation < generation
      {
        assert order[k] in order;
      }
      hide UniqueItems, AdoptedIds, AdoptItem, AdoptItems, Ended, TakesOn, FindItem, ByAge, OldestFirst;
      active := {};
      for k := 0 to |order|
        invariant |items| == |before| && InRange(items, order)
        invariant items == AdoptItems(before, order[..k], generation)
        invariant forall id :: id in active <==>
          id in AdoptedIds(before, place, generation) && TakesOn(before, order[..k], place, generation, id)
      {
        var i := order[k];
        AdoptStep(before, order, k, place, generation);
        TakesOnNext(before, order[..k], place, generation, i);
        if !Ended(items[i]) {
          var id := items[i].externalId;
          var taken := AdoptRow(i, generation);
          if taken {
            active := active + {id};
          }
        }
      }
      assert order[..|order|] == order;
      AllAdoptedAreTakenOn(before, order, place, generation);
    }

    // The checkpoints of generations 0 .. n-1, older first.
    method MergeRows(place: Place, n: nat) returns (merged: Checkpoint)
      ensures merged == MergeCheckpoints(checkpoints, place, n)
    {
      merged := Checkpoint([], map[], 0, 0);
      for g := 0 to n
        invariant merged == MergeCheckpoints(checkpoints, place, g)
      {
        var id := CheckpointId(place, g);
        if id in checkpoints {
          var c := checkpoints[id];
          var backlog := merged.backlog;
          for i := 0 to |c.backlog|
            invariant backlog == PutAllIfAbsent(merged.backlog, c.backlog[..i])
          {
            backlog := PutIfAbsent(backlog, c.backlog[i]);
            assert c.backlog[..i + 1][..i] == c.backlog[..i];
          }
          assert c.backlog[..|c.backlog|] == c.backlog;
          var highWater := if merged.highWater > c.highWater then merged.highWater else c.highWater;
          merged := Checkpoint(backlog, merged.urls + c.urls, highWater, c.revision);
        }
      }
    }

    method DropHandled(backlog: seq<JobRef>, handled: set<string>) returns (kept: seq<JobRef>)
      ensures kept == Without(backlog, handled)
    {
      kept := [];
      for i := 0 to |backlog|
        invariant kept == Without(backlog[..i], handled)
      {
        assert backlog[..i + 1][..i] == backlog[..i];
        if backlog[i].externalId !in handled {
          kept := kept + [backlog[i]];
        }
      }
      assert backlog[..|backlog|] == backlog;
    }

    method AdoptCheckpoint(place: Place, generation: nat, active: set<string>, ended: set<string>)
      modifies this`checkpoints
      ensures checkpoints == old(checkpoints)[
        CheckpointId(place, generation) :=
          AdoptedCheckpoint(old(checkpoints), place, generation, active, ended, vacancies)]
    {
      var target := CheckpointAt(checkpoints, CheckpointId(place, generation));
      var merged := MergeRows(place, generation + 1);
      var kept := DropHandled(merged.backlog, active + ended);
      var urls := merged.urls + MissingUrls(merged.urls, active, place, vacancies);
      checkpoints := checkpoints[CheckpointId(place, generation) :=
        Checkpoint(kept, urls, merged.highWater, target.revision + 1)];
    }

    // The caller has given the execution row its new generation in the same transaction.
    method AdoptGeneration(session: Session, site: string, generation: int, now: int) returns (adopted: bool)
      requires UniqueItems(items) && forall i :: 0 <= i < |items| ==> items[i].generation >= 0
      modifies this`items, this`checkpoints, db`rows, db`ops
      ensures adopted <==>
        MayTakeOver(db.executions, session) && db.executions[session].generation == generation && generation >= 0
      ensures adopted ==> State() == AfterAdoption(old(State()), Place(session, site), generation)
      ensures adopted ==> db.rows == CancelOlder(old(db.rows), session, site, generation, now)
      ensures adopted ==> db.ops == RetireOps(old(db.ops), session, site, generation, now)
      ensures !adopted ==> State() == old(State()) && db.rows == old(db.rows) && db.ops == old(db.ops)
    {
      if session !in db.executions {
        return false;
      }
      var execution := db.executions[session];
      if execution.status in TERMINAL_SESSION || execution.generation != generation || execution.cancelRequested
        || generation < 0 {
        return false;
      }
      var place := Place(session, site);
      ReconcileOlderIsUnique(items, place, generation, vacancies);
      hide UniqueItems, ReconcileOlder, AdoptAll, AdoptedIds, EndedIds, AdoptedCheckpoint, CancelOlder, RetireOps;
      ReconcileOlderRows(place, generation);
      db.rows := CancelOlder(db.rows, session, site, generation, now);
      var active := AdoptRows(place, generation);
      var ended := EndedIds(items, place, generation);
      db.ops := RetireOps(db.ops, session, site, generation, now);
      AdoptCheckpoint(place, generation, active, ended);
      return true;
    }
  }

  lemma ReconcileOlderIsUnique(items: Items, place: Place, generation: int, vacancies: Vacancies)
    requires UniqueItems(items)
    ensures UniqueItems(ReconcileOlder(items, place, generation, vacancies))
  {
  }

  class RuntimeSupervisor {
    const store: PipelineStore
    var generations: map<string, int>

    constructor (store: PipelineStore)
      ensures this.store == store && generations == map[]
    {
      this.store := store;
      generations := map[];
    }

    // Bumps the generation and adopts the pending work in one transaction; a refused adoption
    // rolls the bump back.
    method NextGeneration(site: string, session: Session, now: int) returns (outcome: Result<int, string>)
      requires UniqueItems(store.items) && forall i :: 0 <= i < |store.items| ==> store.items[i].generation >= 0
      modifies this, store`items, store`checkpoints, store.db`rows, store.db`ops, store.db`executions
      ensures
        var db := store.db;
        var cached := if site in old(generations) then old(generations)[site] else 0;
        if session !in old(db.executions) then
          && outcome == Ok((if cached > 0 then cached else 0) + 1)
          && db.executions == old(db.executions) && store.State() == old(store.State())
          && db.rows == old(db.rows) && db.ops == old(db.ops)
        else
          var generation := ModelProtocol.NextGeneration(old(db.executions)[session], cached);
          if MayTakeOver(old(db.executions), session) && generation >= 0 then
            && outcome == Ok(generation)
            && db.executions == old(db.executions)[session := old(db.executions)[session].(generation := generation)]
            && store.State() == AfterAdoption(old(store.State()), Place(session, site), generation)
            && db.rows == CancelOlder(old(db.rows), session, site, generation, now)
            && db.ops == RetireOps(old(db.ops), session, site, generation, now)
          else
            && outcome.Err?
            && db.executions == old(db.executions) && store.State() == old(store.State())
            && db.rows == old(db.rows) && db.ops == old(db.ops)
      ensures generations == if outcome.Ok? then old(generations)[site := outcome.value] else old(generations)
    {
      var cached := if site in generations then generations[site] else 0;
      var db := store.db;
      var generation := (if cached > 0 then cached else 0) + 1;
      if session in db.executions {
        var committed := db.executions;
        var execution := committed[session];
        generation := ModelProtocol.NextGeneration(execution, cached);
        db.executions := committed[session := execution.(generation := generation)];
        var adopted := store.AdoptGeneration(session, site, generation, now);
        if !adopted {
          db.executions := committed;
          return Err("Could not adopt durable pipeline generation");
        }
      }
      generations := generations[site := generation];
      return Ok(generation);
    }
  }

  lemma AdoptStep(before: Items, order: seq<nat>, k: nat, place: Place, generation: int)
    requires UniqueItems(before) && InRange(before, order) && ByAge(before, order) && k < |order|
    requires forall k :: 0 <= k < |order| ==>
      PlaceOf(before[order[k]]) == place && before[order[k]].generation < generation
    ensures var items := AdoptItems(before, order[..k], generation);
      var i := order[k];
      var target := FindItem(items, place, items[i].externalId, generation);
      && items[i] == before[i]
      && order[..k + 1] == order[..k] + [i]
      && AdoptItems(before, order[..k + 1], generation) == AdoptItem(items, i, generation)
      && (Ended(items[i]) ==> AdoptItem(items, i, generation) == items)
      && (!Ended(items[i]) ==>
        (items[i].externalId in AdoptedIds(before, place, generation) <==> target.None? || !Ended(items[target.value])))
  {
    var i := order[k];
    AdoptMany(before, order[..k], place, generation);
    var items := AdoptItems(before, order[..k], generation);
    assert Becomes(before[i], items[i], false, place, generation);
    assert order[..k + 1][..k] == order[..k];
    hide AdoptedIds, UniqueItems, Adopting;
    if !Ended(items[i]) { AdoptedExactly(before, items, order[..k], i, place, generation); }
  }

  ghost predicate TakesOn(before: Items, done: seq<nat>, place: Place, generation: int, id: string)
    requires InRange(before, done)
  {
    exists j :: j in done && OlderActive(before[j], place, generation) && before[j].externalId == id
  }

  lemma TakesOnNext(before: Items, done: seq<nat>, place: Place, generation: int, i: nat)
    requires InRange(before, done) && i < |before| && PlaceOf(before[i]) == place && before[i].generation < generation
    ensures forall id :: TakesOn(before, done + [i], place, generation, id) <==>
      TakesOn(before, done, place, generation, id) || (!Ended(before[i]) && before[i].externalId == id)
  {
    forall id
      ensures TakesOn(before, done + [i], place, generation, id) <==>
        TakesOn(before, done, place, generation, id) || (!Ended(before[i]) && before[i].externalId == id)
    {
      assert forall j :: j in done + [i] <==> j in done || j == i;
    }
  }

  lemma AllAdoptedAreTakenOn(before: Items, order: seq<nat>, place: Place, generation: int)
    requires InRange(before, order)
    requires forall i: nat :: i in order <==>
      i < |before| && PlaceOf(before[i]) == place && before[i].generation < generation
    ensures forall id :: id in AdoptedIds(before, place, generation) ==> TakesOn(before, order, place, generation, id)
  {
    forall id | id in AdoptedIds(before, place, generation)
      ensures TakesOn(before, order, place, generation, id)
    {
      var i: nat :| i < |before| && OlderActive(before[i], place, generation) && before[i].externalId == id;
      assert OlderActive(before[i], place, generation);
      assert i in order;
    }
  }

  ghost function LocateIn(
    items: Items, order: seq<nat>, n: nat, place: Place,
    inputs: map<string, Option<string>>, urls: map<string, Option<string>>, vacancies: Vacancies): (located: Items)
    requires InRange(items, order) && n <= |order|
    ensures |located| == |items|
  {
    if n == 0 then items
    else
      var rest := LocateIn(items, order, n - 1, place, inputs, urls, vacancies);
      rest[order[n - 1] := Located(rest[order[n - 1]], place, inputs, urls, vacancies)]
  }

  lemma {:induction false} LocateSkips(
    items: Items, order: seq<nat>, n: nat, place: Place,
    inputs: map<string, Option<string>>, urls: map<string, Option<string>>, vacancies: Vacancies, i: nat)
    requires InRange(items, order) && n <= |order| && i < |items| && forall k :: 0 <= k < n ==> order[k] != i
    ensures LocateIn(items, order, n, place, inputs, urls, vacancies)[i] == items[i]
  {
    if n > 0 { LocateSkips(items, order, n - 1, place, inputs, urls, vacancies, i); }
  }

  // After the first k rows of the order.
  ghost predicate Delivering(
    before: Items, order: seq<nat>, k: nat, place: Place,
    inputs: map<string, Option<string>>, urls: map<string, Option<string>>, vacancies: Vacancies,
    items: Items, result: seq<JobRef>)
  {
    && InRange(before, order) && k <= |order| && OnceEach(order)
    && items == LocateIn(before, order, k, place, inputs, urls, vacancies)
    && result == Delivered(before, order, k, place, inputs, urls, vacancies)
  }

  lemma StartDelivery(
    items: Items, place: Place, generation: int,
    inputs: map<string, Option<string>>, urls: map<string, Option<string>>, vacancies: Vacancies)
    ensures var order := OldestFirst(items, ActiveIn(place, generation), |items|);
      Delivering(items, order, 0, place, inputs, urls, vacancies, items, [])
  {
    OldestFirstSelects(items, ActiveIn(place, generation), |items|);
    SelectedOnce(items, OldestFirst(items, ActiveIn(place, generation), |items|));
  }

  lemma DeliverStep(
    before: Items, order: seq<nat>, k: nat, place: Place,
    inputs: map<string, Option<string>>, urls: map<string, Option<string>>, vacancies: Vacancies,
    items: Items, result: seq<JobRef>)
    requires Delivering(before, order, k, place, inputs, urls, vacancies, items, result) && k < |order|
    ensures var i := order[k];
      i < |items| && var url := SourceUrl(inputs, urls, vacancies, place, items[i].externalId);
      var failed := items[i].(status := ItemFailed, error := Some("missing_source_url"));
      && (url == "" ==> Delivering(before, order, k + 1, place, inputs, urls, vacancies, items[i := failed], result))
      && (url != "" ==>
        Delivering(before, order, k + 1, place, inputs, urls, vacancies, items,
          result + [JobRef(items[i].externalId, url)]))
  {
    LocateSkips(before, order, k, place, inputs, urls, vacancies, order[k]);
  }

  lemma EndDelivery(
    before: Items, place: Place, generation: int,
    inputs: map<string, Option<string>>, urls: map<string, Option<string>>, vacancies: Vacancies,
    items: Items, result: seq<JobRef>)
    requires var order := OldestFirst(before, ActiveIn(place, generation), |before|);
      Delivering(before, order, |order|, place, inputs, urls, vacancies, items, result)
    ensures items == FailUnlocated(before, place, generation, inputs, urls, vacancies)
    ensures var order := OldestFirst(before, ActiveIn(place, generation), |before|);
      result == Delivered(before, order, |order|, place, inputs, urls, vacancies)
  {
    DeliveryOrder(before, place, generation, inputs, urls, vacancies);
  }

  // Each row in the order is located once, the others are left alone.
  lemma {:induction false} LocatesOnce(
    items: Items, order: seq<nat>, n: nat, place: Place,
    inputs: map<string, Option<string>>, urls: map<string, Option<string>>, vacancies: Vacancies, j: nat)
    requires InRange(items, order) && j < n <= |order| && OnceEach(order)
    ensures LocateIn(items, order, n, place, inputs, urls, vacancies)[order[j]]
      == Located(items[order[j]], place, inputs, urls, vacancies)
  {
    hide Located;
    if j == n - 1 {
      LocateSkips(items, order, j, place, inputs, urls, vacancies, order[j]);
    } else {
      LocatesOnce(items, order, n - 1, place, inputs, urls, vacancies, j);
    }
  }

  lemma EachLocatedOnce(
    items: Items, order: seq<nat>, place: Place, generation: int,
    inputs: map<string, Option<string>>, urls: map<string, Option<string>>, vacancies: Vacancies)
    requires InRange(items, order) && OnceEach(order)
    requires forall i :: i in order <==> 0 <= i < |items| && ActiveIn(place, generation)(items[i])
    ensures LocateIn(items, order, |order|, place, inputs, urls, vacancies)
      == FailUnlocated(items, place, generation, inputs, urls, vacancies)
  {
    hide Located, LocateIn;
    forall i: nat | i < |items|
      ensures LocateIn(items, order, |order|, place, inputs, urls, vacancies)[i]
        == FailUnlocated(items, place, generation, inputs, urls, vacancies)[i]
    {
      if i in order {
        var j :| 0 <= j < |order| && order[j] == i;
        LocatesOnce(items, order, |order|, place, inputs, urls, vacancies, j);
      } else {
        LocateSkips(items, order, |order|, place, inputs, urls, vacancies, i);
      }
    }
  }

  lemma DeliveryOrder(
    items: Items, place: Place, generation: int,
    inputs: map<string, Option<string>>, urls: map<string, Option<string>>, vacancies: Vacancies)
    ensures var order := OldestFirst(items, ActiveIn(place, generation), |items|);
      && OnceEach(order)
      && LocateIn(items, order, |order|, place, inputs, urls, vacancies)
        == FailUnlocated(items, place, generation, inputs, urls, vacancies)
  {
    var order := OldestFirst(items, ActiveIn(place, generation), |items|);
    OldestFirstSelects(items, ActiveIn(place, generation), |items|);
    SelectedOnce(items, order);
    EachLocatedOnce(items, order, place, generation, inputs, urls, vacancies);
  }

  lemma SelectedOnce(items: Items, order: seq<nat>)
    requires InRange(items, order) && ByAge(items, order)
    ensures OnceEach(order)
  {
  }

  ghost predicate OnceEach(order: seq<nat>) { forall j, k :: 0 <= j < k < |order| ==> order[j] != order[k] }

  lemma {:induction false} DeliveredSoFar(
    items: Items, order: seq<nat>, n: nat, place: Place,
    inputs: map<string, Option<string>>, urls: map<string, Option<string>>, vacancies: Vacancies, ref: JobRef)
    requires InRange(items, order) && n <= |order|
    ensures ref in Delivered(items, order, n, place, inputs, urls, vacancies) <==>
      exists k :: 0 <= k < n && LinkedAs(items[order[k]], place, inputs, urls, vacancies, ref)
  {
    if n > 0 {
      DeliveredSoFar(items, order, n - 1, place, inputs, urls, vacancies, ref);
      assert LinkedAs(items[order[n - 1]], place, inputs, urls, vacancies, ref) ==>
        ref == JobRef(items[order[n - 1]].externalId, ref.url);
    }
  }

  // The worker receives a reference exactly for each active row that has a link.
  lemma DeliversExactly(
    t: Tables, place: Place, generation: int,
    inputs: map<string, Option<string>>, urls: map<string, Option<string>>, ref: JobRef)
    ensures ref in DeliveredOldestFirst(t, place, generation, inputs, urls)
      <==> Delivers(t, place, generation, inputs, urls, ref)
  {
    var choose := ActiveIn(place, generation);
    var order := OldestFirst(t.items, choose, |t.items|);
    OldestFirstSelects(t.items, choose, |t.items|);
    DeliveredSoFar(t.items, order, |order|, place, inputs, urls, t.vacancies, ref);
    if Delivers(t, place, generation, inputs, urls, ref) {
      var i :| 0 <= i < |t.items| && choose(t.items[i]) && LinkedAs(t.items[i], place, inputs, urls, t.vacancies, ref);
      assert i in order;
      var k :| 0 <= k < |order| && order[k] == i;
    } else {
      forall k | 0 <= k < |order|
        ensures !LinkedAs(t.items[order[k]], place, inputs, urls, t.vacancies, ref)
      {
        assert order[k] in order;
      }
    }
  }
}
