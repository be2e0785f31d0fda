// The backlog as an insertion-ordered dictionary: what one enqueue does to the ids it holds,
// and how the merge of many checkpoints keeps every one of them.

module Backlog {
  import opened Records
  import opened Pipeline

  ghost function Ids(refs: seq<JobRef>): set<string> { set i | 0 <= i < |refs| :: refs[i].externalId }

  ghost predicate Distinct(refs: seq<JobRef>) {
    forall i, j :: 0 <= i < j < |refs| ==> refs[i].externalId != refs[j].externalId
  }

  // Every value is a usable link.
  ghost predicate Usable(urls: map<string, Option<string>>) {
    forall id :: id in urls ==> urls[id].Some? && urls[id].value != ""
  }

  lemma IdsOfSum(a: seq<JobRef>, b: seq<JobRef>)
    ensures Ids(a + b) == Ids(a) + Ids(b)
  {
    forall id
      ensures id in Ids(a + b) <==> id in Ids(a) + Ids(b)
    {
      if id in Ids(a) {
        var i :| 0 <= i < |a| && a[i].externalId == id;
        assert (a + b)[i].externalId == id;
      }
      if id in Ids(b) {
        var i :| 0 <= i < |b| && b[i].externalId == id;
        assert (a + b)[|a| + i].externalId == id;
      }
    }
  }

  lemma DistinctSum(a: seq<JobRef>, b: seq<JobRef>)
    ensures Distinct(a + b) <==> Distinct(a) && Distinct(b) && Ids(a) !! Ids(b)
  {
    var c := a + b;
    if Distinct(c) {
      forall i, j | 0 <= i < |a| && 0 <= j < |b|
        ensures a[i].externalId != b[j].externalId
      {
        assert c[i] == a[i] && c[|a| + j] == b[j];
      }
      assert Distinct(a) by { assert forall i :: 0 <= i < |a| ==> a[i] == c[i]; }
      assert Distinct(b) by { assert forall j :: 0 <= j < |b| ==> b[j] == c[|a| + j]; }
    }
    if Distinct(a) && Distinct(b) && Ids(a) !! Ids(b) {
      forall i, j | 0 <= i < j < |c|
        ensures c[i].externalId != c[j].externalId
      {
        if i < |a| <= j { assert c[i].externalId in Ids(a) && b[j - |a|].externalId in Ids(b); }
      }
    }
  }

  lemma Cons(refs: seq<JobRef>)
    requires refs != []
    ensures Ids(refs) == {refs[0].externalId} + Ids(refs[1..])
    ensures Distinct(refs) <==> refs[0].externalId !in Ids(refs[1..]) && Distinct(refs[1..])
  {
    ConsOf(refs[0], refs[1..]);
    assert refs == [refs[0]] + refs[1..];
  }

  lemma ConsOf(ref: JobRef, rest: seq<JobRef>)
    ensures Ids([ref] + rest) == {ref.externalId} + Ids(rest)
    ensures Distinct([ref] + rest) <==> ref.externalId !in Ids(rest) && Distinct(rest)
  {
    IdsOfSum([ref], rest);
    DistinctSum([ref], rest);
    assert [ref][0].externalId in Ids([ref]);
  }

  lemma SnocOf(front: seq<JobRef>, ref: JobRef)
    ensures Ids(front + [ref]) == Ids(front) + {ref.externalId}
    ensures Distinct(front + [ref]) <==> ref.externalId !in Ids(front) && Distinct(front)
  {
    IdsOfSum(front, [ref]);
    DistinctSum(front, [ref]);
    assert [ref][0].externalId in Ids([ref]);
  }

  lemma Snoc(refs: seq<JobRef>)
    requires refs != []
    ensures var last := |refs| - 1;
      && Ids(refs) == Ids(refs[..last]) + {refs[last].externalId}
      && (Distinct(refs) <==> refs[last].externalId !in Ids(refs[..last]) && Distinct(refs[..last]))
  {
    var last := |refs| - 1;
    SnocOf(refs[..last], refs[last]);
    assert refs == refs[..last] + [refs[last]];
  }

  lemma {:induction false} PutKeeps(refs: seq<JobRef>, ref: JobRef)
    requires Distinct(refs)
    ensures Distinct(Put(refs, ref)) && Ids(Put(refs, ref)) == Ids(refs) + {ref.externalId}
  {
    if refs == [] {
      SnocOf(refs, ref);
      assert refs + [ref] == [ref];
    } else {
      hide Distinct, Ids;
      Cons(refs);
      if refs[0].externalId == ref.externalId {
        ConsOf(ref, refs[1..]);
      } else {
        PutKeeps(refs[1..], ref);
        ConsOf(refs[0], Put(refs[1..], ref));
      }
    }
  }

  // A reference stored under a known id stays where that id was; a new id goes to the end.
  lemma {:induction false} PutKeepsOrder(refs: seq<JobRef>, ref: JobRef)
    ensures |refs| <= |Put(refs, ref)| <= |refs| + 1
    ensures forall i :: 0 <= i < |refs| ==> Put(refs, ref)[i].externalId == refs[i].externalId
    ensures |Put(refs, ref)| == |refs| + 1 ==> Put(refs, ref) == refs + [ref]
  {
    if refs != [] && refs[0].externalId != ref.externalId {
      PutKeepsOrder(refs[1..], ref);
      assert refs == [refs[0]] + refs[1..];
    }
  }

  lemma {:induction false} PutAllKeeps(refs: seq<JobRef>, more: seq<JobRef>)
    requires Distinct(refs)
    ensures Distinct(PutAll(refs, more)) && Ids(PutAll(refs, more)) == Ids(refs) + Ids(more)
  {
    hide Distinct;
    if more != [] {
      var last := |more| - 1;
      PutAllKeeps(refs, more[..last]);
      PutKeeps(PutAll(refs, more[..last]), more[last]);
      Snoc(more);
    }
  }

  lemma {:induction false} PutIfAbsentKeeps(refs: seq<JobRef>, ref: JobRef)
    requires Distinct(refs)
    ensures Distinct(PutIfAbsent(refs, ref)) && Ids(PutIfAbsent(refs, ref)) == Ids(refs) + {ref.externalId}
  {
    if refs == [] {
      SnocOf(refs, ref);
      assert refs + [ref] == [ref];
    } else {
      hide Distinct, Ids;
      Cons(refs);
      if refs[0].externalId != ref.externalId {
        PutIfAbsentKeeps(refs[1..], ref);
        ConsOf(refs[0], PutIfAbsent(refs[1..], ref));
      }
    }
  }

  lemma {:induction false} PutAllIfAbsentKeeps(refs: seq<JobRef>, more: seq<JobRef>)
    requires Distinct(refs)
    ensures Distinct(PutAllIfAbsent(refs, more)) && Ids(PutAllIfAbsent(refs, more)) == Ids(refs) + Ids(more)
  {
    hide Distinct;
    if more != [] {
      var last := |more| - 1;
      PutAllIfAbsentKeeps(refs, more[..last]);
      PutIfAbsentKeeps(PutAllIfAbsent(refs, more[..last]), more[last]);
      Snoc(more);
    }
  }

  lemma {:induction false} UnqueuedKeeps(refs: seq<JobRef>, queued: set<string>)
    requires Distinct(refs)
    ensures Distinct(Unqueued(refs, queued)) && Ids(Unqueued(refs, queued)) == Ids(refs) - queued
  {
    hide Distinct;
    if refs != [] {
      var last := |refs| - 1;
      Snoc(refs);
      UnqueuedKeeps(refs[..last], queued);
      SnocOf(Unqueued(refs[..last], queued), refs[last]);
    }
  }

  lemma TakeDrop(refs: seq<JobRef>, n: int)
    requires Distinct(refs)
    ensures Ids(Take(refs, n)) + Ids(Drop(refs, n)) == Ids(refs)
    ensures Ids(Take(refs, n)) !! Ids(Drop(refs, n))
    ensures Distinct(Take(refs, n)) && Distinct(Drop(refs, n))
  {
    assert Take(refs, n) + Drop(refs, n) == refs;
    IdsOfSum(Take(refs, n), Drop(refs, n));
    DistinctSum(Take(refs, n), Drop(refs, n));
  }

  lemma {:induction false} UpdateUrlsKeeps(urls: map<string, Option<string>>, refs: seq<JobRef>)
    requires Usable(urls) && forall i :: 0 <= i < |refs| ==> refs[i].url != ""
    ensures Usable(UpdateUrls(urls, refs))
    ensures UpdateUrls(urls, refs).Keys == urls.Keys + Ids(refs)
  {
    if refs == [] {
    } else {
      var last := |refs| - 1;
      UpdateUrlsKeeps(urls, refs[..last]);
      Snoc(refs);
    }
  }

  ghost predicate CheckpointOk(c: Checkpoint) {
    Distinct(c.backlog) && Usable(c.urls) && Ids(c.backlog) <= c.urls.Keys
  }

  // The merge of generations 0 .. n-1 holds every id and every link of each of them.
  lemma {:induction false} MergeKeeps(checkpoints: Checkpoints, place: Place, n: nat)
    requires forall id :: id in checkpoints ==> CheckpointOk(checkpoints[id])
    ensures CheckpointOk(MergeCheckpoints(checkpoints, place, n))
    ensures forall g: nat :: g < n && CheckpointId(place, g) in checkpoints ==>
      && Ids(checkpoints[CheckpointId(place, g)].backlog) <= Ids(MergeCheckpoints(checkpoints, place, n).backlog)
      && checkpoints[CheckpointId(place, g)].urls.Keys <= MergeCheckpoints(checkpoints, place, n).urls.Keys
  {
    if n == 0 {
    } else {
      MergeKeeps(checkpoints, place, n - 1);
      var merged := MergeCheckpoints(checkpoints, place, n - 1);
      var id := CheckpointId(place, n - 1);
      if id in checkpoints {
        PutAllIfAbsentKeeps(merged.backlog, checkpoints[id].backlog);
      }
    }
  }

  lemma {:induction false} MergeIsDistinct(checkpoints: Checkpoints, place: Place, n: nat)
    requires forall id :: id in checkpoints ==> Distinct(checkpoints[id].backlog)
    ensures Distinct(MergeCheckpoints(checkpoints, place, n).backlog)
  {
    if n > 0 {
      MergeIsDistinct(checkpoints, place, n - 1);
      var id := CheckpointId(place, n - 1);
      if id in checkpoints {
        PutAllIfAbsentKeeps(MergeCheckpoints(checkpoints, place, n - 1).backlog, checkpoints[id].backlog);
      }
    }
  }

  ghost predicate Listed(checkpoints: Checkpoints, place: Place, n: nat, externalId: string) {
    exists g: nat ::
      g < n && CheckpointId(place, g) in checkpoints && externalId in Ids(checkpoints[CheckpointId(place, g)].backlog)
  }

  // The merge lists exactly the ids that some generation of the checkpoint lists.
  lemma {:induction false} MergeListsAll(checkpoints: Checkpoints, place: Place, n: nat, externalId: string)
    requires forall id :: id in checkpoints ==> Distinct(checkpoints[id].backlog)
    ensures externalId in Ids(MergeCheckpoints(checkpoints, place, n).backlog) <==>
      Listed(checkpoints, place, n, externalId)
  {
    hide Distinct;
    if n == 0 {
      assert MergeCheckpoints(checkpoints, place, n).backlog == [];
    } else {
      MergeIsDistinct(checkpoints, place, n - 1);
      MergeListsAll(checkpoints, place, n - 1, externalId);
      var merged := MergeCheckpoints(checkpoints, place, n - 1);
      var id := CheckpointId(place, n - 1);
      if id in checkpoints {
        PutAllIfAbsentKeeps(merged.backlog, checkpoints[id].backlog);
      }
    }
  }
}
