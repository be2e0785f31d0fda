// A takeover merges every older generation of a place into the new one. Whatever rows the
// older workers left, no active id is lost, none appears twice, and no stage goes back.

module Takeover {
  import opened Records
  import opened Pipeline
  import opened Backlog

  ghost predicate SameVacancy(a: Item, b: Item) { PlaceOf(a) == PlaceOf(b) && a.externalId == b.externalId }

  // The table's unique constraint.
  ghost predicate UniqueItems(items: Items) {
    forall i, j :: 0 <= i < j < |items| ==>
      !(SameVacancy(items[i], items[j]) && items[i].generation == items[j].generation)
  }

  lemma {:induction false} FindItemFinds(items: Items, place: Place, externalId: string, generation: int)
    ensures var found := FindItem(items, place, externalId, generation);
      match found
      case Some(t) =>
        && PlaceOf(items[t]) == place && items[t].externalId == externalId && items[t].generation == generation
      case None =>
        forall i :: 0 <= i < |items| ==>
          !(PlaceOf(items[i]) == place && items[i].externalId == externalId && items[i].generation == generation)
  {
    if items != [] {
      FindItemFinds(items[..|items| - 1], place, externalId, generation);
    }
  }

  // ---- the order of the older rows ----

  ghost predicate ByAge(items: Items, order: seq<nat>)
    requires InRange(items, order)
  {
    forall j, k :: 0 <= j < k < |order| ==> Older(items, order[j], order[k])
  }

  lemma ByAgeFrom(items: Items, first: nat, rest: seq<nat>)
    requires first < |items| && InRange(items, rest) && ByAge(items, rest)
    requires forall k :: 0 <= k < |rest| ==> Older(items, first, rest[k])
    ensures InRange(items, [first] + rest) && ByAge(items, [first] + rest)
  {
  }

  lemma {:induction false} InsertKeepsAge(items: Items, order: seq<nat>, i: nat)
    requires i < |items| && InRange(items, order) && ByAge(items, order) && i !in order
    ensures InRange(items, InsertByAge(items, order, i)) && ByAge(items, InsertByAge(items, order, i))
  {
    if order == [] {
    } else if Older(items, i, order[0]) {
      assert forall k :: 0 < k < |order| ==> Older(items, order[0], order[k]);
      ByAgeFrom(items, i, order);
    } else {
      InsertKeepsAge(items, order[1..], i);
      InsertHolds(items, order[1..], i);
      var rest := InsertByAge(items, order[1..], i);
      assert forall x :: x in order[1..] ==> Older(items, order[0], x);
      forall k | 0 <= k < |rest|
        ensures Older(items, order[0], rest[k])
      {
        assert rest[k] in rest;
      }
      ByAgeFrom(items, order[0], rest);
    }
  }

  lemma NothingIsOrdered(items: Items)
    ensures ByAge(items, [])
  {
  }

  // The SELECT returns every chosen row once, oldest first.
  lemma {:induction false} OldestFirstSelects(items: Items, choose: Choice, n: nat)
    requires n <= |items|
    ensures ByAge(items, OldestFirst(items, choose, n))
    ensures forall i :: i in OldestFirst(items, choose, n) <==> 0 <= i < n && choose(items[i])
  {
    hide ByAge, InsertByAge;
    if n == 0 {
      NothingIsOrdered(items);
    } else {
      OldestFirstSelects(items, choose, n - 1);
      if choose(items[n - 1]) {
        var rest := OldestFirst(items, choose, n - 1);
        InsertedInRange(items, rest, n - 1);
        InsertKeepsAge(items, rest, n - 1);
        InsertHolds(items, rest, n - 1);
      }
    }
  }

  lemma InsertHolds(items: Items, order: seq<nat>, i: nat)
    requires i < |items| && InRange(items, order)
    ensures forall x :: x in InsertByAge(items, order, i) <==> x in order || x == i
  {
    InsertedInRange(items, order, i);
    forall x
      ensures x in InsertByAge(items, order, i) <==> x in order || x == i
    {
      assert x in InsertByAge(items, order, i) <==> x in multiset(InsertByAge(items, order, i));
    }
  }

  // ---- one row after another ----

  // What one row may have become, once the rows in `done` have been adopted.
  ghost predicate Becomes(before: Item, after: Item, done: bool, place: Place, generation: int) {
    && SameVacancy(before, after)
    && (after.error == before.error || after.error == Some("superseded_generation"))
    && (PlaceOf(before) != place || before.generation > generation || Ended(before) ==> after == before)
    && (PlaceOf(before) == place && before.generation < generation && !done ==> after == before)
    && (PlaceOf(before) == place && before.generation < generation && done && !Ended(before) ==>
      || (!Active(after) && after.generation == before.generation)
      || (!Ended(after) && after.generation == generation && StageOrder(after.stage) >= StageOrder(before.stage)))
    && (PlaceOf(before) == place && before.generation == generation && !Ended(before) ==>
      !Ended(after) && after.generation == generation && StageOrder(after.stage) >= StageOrder(before.stage))
  }

  // A row of the new generation carries this vacancy on: at least as far along, or already ended there.
  ghost predicate Carries(item: Item, heir: Item, generation: int) {
    SameVacancy(item, heir) && heir.generation == generation
    && (Ended(heir) || StageOrder(heir.stage) >= StageOrder(item.stage))
  }

  ghost predicate Carried(items: Items, item: Item, generation: int) {
    exists t :: 0 <= t < |items| && Carries(item, items[t], generation)
  }

  ghost predicate Adopting(before: Items, items: Items, done: seq<nat>, place: Place, generation: int) {
    && |items| == |before|
    && UniqueItems(items)
    && (forall i :: 0 <= i < |items| ==> Becomes(before[i], items[i], i in done, place, generation))
    && (forall i :: 0 <= i < |items| && i in done && !Ended(before[i]) ==> Carried(items, before[i], generation))
  }

  ghost predicate CarriedOn(item: Item, item': Item) {
    && SameVacancy(item, item') && item'.generation == item.generation
    && (Ended(item) ==> Ended(item')) && StageOrder(item'.stage) >= StageOrder(item.stage)
  }

  lemma MoveKeepsCarried(items: Items, items': Items, item: Item, generation: int)
    requires Carried(items, item, generation) && |items'| == |items|
    requires forall t :: 0 <= t < |items| && items[t].generation == generation ==> CarriedOn(items[t], items'[t])
    ensures Carried(items', item, generation)
  {
    var t :| 0 <= t < |items| && Carries(item, items[t], generation);
    assert Carries(item, items'[t], generation);
  }

  lemma AdoptKeepsUnique(items: Items, i: nat, generation: int)
    requires UniqueItems(items) && i < |items|
    ensures UniqueItems(AdoptItem(items, i, generation))
  {
    FindItemFinds(items, PlaceOf(items[i]), items[i].externalId, generation);
  }

  lemma AdoptBecomes(before: Items, items: Items, done: seq<nat>, i: nat, place: Place, generation: int, j: nat)
    requires |items| == |before| && i < |items| && i !in done && j < |items|
    requires forall j :: 0 <= j < |items| ==> Becomes(before[j], items[j], j in done, place, generation)
    requires PlaceOf(before[i]) == place && before[i].generation < generation
    ensures Becomes(before[j], AdoptItem(items, i, generation)[j], j in done + [i], place, generation)
  {
    FindItemFinds(items, PlaceOf(items[i]), items[i].externalId, generation);
  }

  lemma AdoptCarriesOn(items: Items, i: nat, generation: int, t: nat)
    requires i < |items| && items[i].generation < generation
    requires t < |items| && items[t].generation == generation
    ensures CarriedOn(items[t], AdoptItem(items, i, generation)[t])
  {
    FindItemFinds(items, PlaceOf(items[i]), items[i].externalId, generation);
  }

  lemma AdoptCarries(items: Items, i: nat, generation: int)
    requires i < |items| && items[i].generation < generation && !Ended(items[i])
    ensures Carried(AdoptItem(items, i, generation), items[i], generation)
  {
    var found := FindItem(items, PlaceOf(items[i]), items[i].externalId, generation);
    FindItemFinds(items, PlaceOf(items[i]), items[i].externalId, generation);
    var t := if found.None? then i else found.value;
    assert Carries(items[i], AdoptItem(items, i, generation)[t], generation);
  }

  lemma AdoptOne(before: Items, items: Items, done: seq<nat>, i: nat, place: Place, generation: int)
    requires Adopting(before, items, done, place, generation)
    requires i < |items| && i !in done && PlaceOf(before[i]) == place && before[i].generation < generation
    ensures Adopting(before, AdoptItem(items, i, generation), done + [i], place, generation)
  {
    assert items[i] == before[i];
    var after := AdoptItem(items, i, generation);
    AdoptKeepsUnique(items, i, generation);
    hide UniqueItems, Carried, CarriedOn, AdoptItem;
    forall j | 0 <= j < |items|
      ensures Becomes(before[j], after[j], j in done + [i], place, generation)
    {
      AdoptBecomes(before, items, done, i, place, generation, j);
    }
    forall j | 0 <= j < |items| && j in done + [i] && !Ended(before[j])
      ensures Carried(after, before[j], generation)
    {
      if j == i {
        AdoptCarries(items, i, generation);
      } else {
        forall t | 0 <= t < |items| && items[t].generation == generation
          ensures CarriedOn(items[t], after[t])
        {
          AdoptCarriesOn(items, i, generation, t);
        }
        MoveKeepsCarried(items, after, before[j], generation);
      }
    }
  }

  lemma {:induction false} AdoptMany(before: Items, order: seq<nat>, place: Place, generation: int)
    requires UniqueItems(before) && InRange(before, order) && ByAge(before, order)
    requires forall k :: 0 <= k < |order| ==>
      PlaceOf(before[order[k]]) == place && before[order[k]].generation < generation
    ensures Adopting(before, AdoptItems(before, order, generation), order, place, generation)
  {
    if order != [] {
      var last := |order| - 1;
      AdoptMany(before, order[..last], place, generation);
      AdoptOne(before, AdoptItems(before, order[..last], generation), order[..last], order[last], place, generation);
      assert order == order[..last] + [order[last]];
    }
  }

  // ---- the whole takeover ----

  ghost predicate OlderActive(item: Item, place: Place, generation: int) {
    PlaceOf(item) == place && item.generation < generation && !Ended(item)
  }

  // Row t of the result carries row i on: it is the new generation's only row for the vacancy, and
  // either it had already ended there, or it is as far along as every older active row.
  ghost predicate Heir(items: Items, final: Items, i: nat, t: nat, place: Place, generation: int)
    requires i < |items| == |final|
  {
    && t < |final| && SameVacancy(items[i], final[t]) && final[t].generation == generation
    && (forall u :: 0 <= u < |final| && SameVacancy(items[i], final[u]) && final[u].generation == generation ==> u == t)
    && (Ended(final[t]) ==> final[t] == items[t])
    && (!Ended(final[t]) ==>
         forall j :: 0 <= j < |items| && OlderActive(items[j], place, generation) && SameVacancy(items[i], items[j]) ==>
           StageOrder(final[t].stage) >= StageOrder(items[j].stage))
  }

  // Every active id of the older generations goes on in exactly one row of the new one; no older
  // row stays active; rows of other places, newer rows and ended rows are untouched.
  lemma AdoptionConserves(items: Items, place: Place, generation: int)
    requires UniqueItems(items)
    ensures var final := AdoptAll(items, place, generation);
      && |final| == |items| && UniqueItems(final)
      && (forall i :: 0 <= i < |items| && OlderActive(items[i], place, generation) ==>
        exists t :: Heir(items, final, i, t, place, generation))
      && (forall i :: 0 <= i < |items| && OlderActive(items[i], place, generation) ==>
        Ended(final[i]) || final[i].generation == generation)
      && (forall i :: 0 <= i < |items|
                      && (PlaceOf(items[i]) != place || items[i].generation > generation || Ended(items[i])) ==>
        final[i] == items[i])
  {
    AdoptAllAdopts(items, place, generation);
    var final := AdoptAll(items, place, generation);
    forall i | 0 <= i < |items| && OlderActive(items[i], place, generation)
      ensures exists t :: Heir(items, final, i, t, place, generation)
    {
      var t := AdoptionHasHeir(items, place, generation, i);
    }
  }

  lemma AdoptAllAdopts(items: Items, place: Place, generation: int)
    requires UniqueItems(items)
    ensures var order := OldestFirst(items, OlderThan(place, generation), |items|);
      && Adopting(items, AdoptAll(items, place, generation), order, place, generation)
      && forall i :: i in order <==> 0 <= i < |items| && PlaceOf(items[i]) == place && items[i].generation < generation
  {
    var choose := OlderThan(place, generation);
    OldestFirstSelects(items, choose, |items|);
    var order := OldestFirst(items, choose, |items|);
    forall k | 0 <= k < |order|
      ensures choose(items[order[k]])
    {
      assert order[k] in order;
    }
    AdoptMany(items, order, place, generation);
  }

  lemma AdoptionHasHeir(items: Items, place: Place, generation: int, i: nat) returns (t: nat)
    requires UniqueItems(items) && i < |items| && OlderActive(items[i], place, generation)
    ensures |AdoptAll(items, place, generation)| == |items|
    ensures Heir(items, AdoptAll(items, place, generation), i, t, place, generation)
  {
    AdoptAllAdopts(items, place, generation);
    var final := AdoptAll(items, place, generation);
    assert Carried(final, items[i], generation);
    t :| 0 <= t < |final| && Carries(items[i], final[t], generation);
    assert Becomes(items[t], final[t], items[t].generation < generation, place, generation);
    if !Ended(final[t]) {
      forall j | 0 <= j < |items| && SameVacancy(items[i], items[j]) && OlderActive(items[j], place, generation)
        ensures StageOrder(final[t].stage) >= StageOrder(items[j].stage)
      {
        assert Carried(final, items[j], generation);
        var u :| 0 <= u < |final| && Carries(items[j], final[u], generation);
        assert u == t;
      }
    }
  }

  // ---- the backlog after a takeover ----

  // The new backlog lists exactly the ids some generation's checkpoint listed, without those the
  // takeover adopted and those that have ended: a stale checkpoint cannot bring either back.
  lemma BacklogAfterTakeover(t: Tables, place: Place, generation: nat, externalId: string)
    requires forall id :: id in t.checkpoints ==> Distinct(t.checkpoints[id].backlog)
    ensures var reconciled := ReconcileOlder(t.items, place, generation, t.vacancies);
      var t' := AfterAdoption(t, place, generation);
      var backlog := t'.checkpoints[CheckpointId(place, generation)].backlog;
      && Distinct(backlog)
      && (externalId in Ids(backlog) <==>
        && Listed(t.checkpoints, place, generation + 1, externalId)
        && externalId !in AdoptedIds(reconciled, place, generation)
        && externalId !in EndedIds(t'.items, place, generation))
  {
    hide Distinct, Ids;
    MergeIsDistinct(t.checkpoints, place, generation + 1);
    MergeListsAll(t.checkpoints, place, generation + 1, externalId);
    var reconciled := ReconcileOlder(t.items, place, generation, t.vacancies);
    var t' := AfterAdoption(t, place, generation);
    UnqueuedKeeps(
      MergeCheckpoints(t.checkpoints, place, generation + 1).backlog,
      AdoptedIds(reconciled, place, generation) + EndedIds(t'.items, place, generation));
  }
}
