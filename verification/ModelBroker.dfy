// The durable scheduler: ModelRequestClient and ModelRequestBroker over the shared tables.
// Each method is one database transaction; the caller supplies the clock and fresh ids.

module ModelBroker {
  import opened Records
  import opened Totals
  import opened RequestRows
  import opened SiteRotation

  class Database {
    var rows: Rows
    var cache: Cache
    var ops: Ops
    var executions: Executions

    constructor (executions: Executions)
      ensures rows == map[] && cache == map[] && ops == map[] && this.executions == executions
    {
      rows, cache, ops := map[], map[], map[];
      this.executions := executions;
    }
  }

  // ---- queries ----

  // SELECT SUM(w) over the table.
  method SelectTotal(rows: Rows, w: Weight) returns (total: int)
    ensures total == Total(rows, w)
  {
    total := 0;
    var rest := rows;
    while rest != map[]
      invariant total + Total(rest, w) == Total(rows, w)
      decreases |rest|
    {
      var id :| id in rest;
      TotalSplit(rest, id, w);
      Smaller(rest, id);
      total := total + w(rest[id]);
      rest := rest - {id};
    }
  }

  ghost predicate Ordered(rows: Rows, ids: seq<Id>) {
    && (forall i :: 0 <= i < |ids| ==> ids[i] in rows)
    && (forall i, j :: 0 <= i < j < |ids| ==> Before(rows, ids[i], ids[j]))
  }

  // ORDER BY created_at, id: one more row into an ordered result.
  method InsertOrdered(rows: Rows, ids: seq<Id>, id: Id) returns (out: seq<Id>)
    requires id in rows && Ordered(rows, ids)
    ensures Ordered(rows, out)
    ensures forall x :: x in out <==> x in ids || x == id
  {
    var n := 0;
    while n < |ids| && Before(rows, ids[n], id)
      invariant 0 <= n <= |ids|
      invariant forall i :: 0 <= i < n ==> Before(rows, ids[i], id)
    {
      n := n + 1;
    }
    out := ids[..n] + [id] + ids[n..];
    forall x
      ensures x in out <==> x in ids || x == id
    {
      assert ids == ids[..n] + ids[n..];
    }
  }

  method SelectEligible(rows: Rows, now: int) returns (ids: seq<Id>)
    ensures Ordered(rows, ids)
    ensures forall id :: id in ids <==> id in rows && Eligible(rows[id], now)
  {
    ids := [];
    var rest := rows.Keys;
    while rest != {}
      invariant rest <= rows.Keys
      invariant Ordered(rows, ids)
      invariant forall id :: id in ids <==> id in rows.Keys - rest && Eligible(rows[id], now)
    {
      var id :| id in rest;
      if Eligible(rows[id], now) {
        ids := InsertOrdered(rows, ids, id);
      }
      rest := rest - {id};
    }
  }

  ghost predicate Increasing(sites: seq<string>) {
    forall i, j :: 0 <= i < j < |sites| ==> Less(sites[i], sites[j])
  }

  method SortedSites(sites: set<string>) returns (out: seq<string>)
    ensures Increasing(out)
    ensures forall s :: s in out <==> s in sites
  {
    out := [];
    var rest := sites;
    while rest != {}
      invariant rest <= sites
      invariant Increasing(out)
      invariant forall s :: s in out <==> s in sites - rest
    {
      var site :| site in rest;
      var n := 0;
      while n < |out| && Less(out[n], site)
        invariant 0 <= n <= |out|
        invariant forall i :: 0 <= i < n ==> Less(out[i], site)
      {
        n := n + 1;
      }
      InsertKeepsIncreasing(out, n, site);
      ghost var before := out;
      out := out[..n] + [site] + out[n..];
      forall s
        ensures s in out <==> s in before || s == site
      {
        assert before == before[..n] + before[n..];
      }
      rest := rest - {site};
    }
  }

  lemma InsertKeepsIncreasing(sites: seq<string>, n: nat, site: string)
    requires Increasing(sites) && n <= |sites| && site !in sites
    requires forall i :: 0 <= i < n ==> Less(sites[i], site)
    requires n < |sites| ==> !Less(sites[n], site)
    ensures Increasing(sites[..n] + [site] + sites[n..])
  {
    forall i | n <= i < |sites|
      ensures Less(site, sites[i])
    {
      LessTotal(site, sites[n]);
      if n < i { LessTransitive(site, sites[n], sites[i]); }
    }
  }

  ghost predicate InRotation(last: Option<string>, sites: seq<string>) {
    forall i, j :: 0 <= i < j < |sites| ==> Sooner(last, sites[i], sites[j])
  }

  method Rotate(sorted: seq<string>, last: Option<string>) returns (sites: seq<string>)
    requires Increasing(sorted)
    ensures InRotation(last, sites)
    ensures forall s :: s in sites <==> s in sorted
  {
    sites := sorted;
    if last.Some? {
      var pivot := 0;
      while pivot < |sorted| && !Less(last.value, sorted[pivot])
        invariant 0 <= pivot <= |sorted|
        invariant forall i :: 0 <= i < pivot ==> !Less(last.value, sorted[i])
      {
        pivot := pivot + 1;
      }
      if pivot < |sorted| {
        forall i | pivot <= i < |sorted|
          ensures Less(last.value, sorted[i])
        {
          if pivot < i { LessTransitive(last.value, sorted[pivot], sorted[i]); }
        }
        sites := sorted[pivot..] + sorted[..pivot];
        assert forall s :: s in sorted <==> s in sorted[..pivot] || s in sorted[pivot..] by {
          assert sorted == sorted[..pivot] + sorted[pivot..];
        }
      }
    }
  }

  // rows grouped by site, each group in queue order
  ghost predicate Grouped(rows: Rows, ids: seq<Id>, bySite: map<string, seq<Id>>) {
    && (forall id :: id in ids ==>
          id in rows && rows[id].key.site in bySite && id in bySite[rows[id].key.site])
    && (forall s :: s in bySite ==> Ordered(rows, bySite[s]))
    && (forall s, id :: s in bySite && id in bySite[s] ==> id in ids && rows[id].key.site == s)
  }

  lemma AppendKeepsOrder(rows: Rows, group: seq<Id>, id: Id)
    requires Ordered(rows, group) && id in rows && forall x :: x in group ==> Before(rows, x, id)
    ensures Ordered(rows, group + [id])
  {
  }

  lemma AppendKeepsGroups(rows: Rows, ids: seq<Id>, id: Id, bySite: map<string, seq<Id>>, group: seq<Id>)
    requires id in rows && Grouped(rows, ids, bySite)
    requires forall x :: x in ids ==> Before(rows, x, id)
    requires group == if rows[id].key.site in bySite then bySite[rows[id].key.site] else []
    ensures Grouped(rows, ids + [id], bySite[rows[id].key.site := group + [id]])
  {
    forall x | x in group
      ensures Before(rows, x, id)
    {
    }
    AppendKeepsOrder(rows, group, id);
  }

  method GroupBySite(rows: Rows, ids: seq<Id>) returns (bySite: map<string, seq<Id>>)
    requires Ordered(rows, ids)
    ensures Grouped(rows, ids, bySite)
  {
    bySite := map[];
    for n := 0 to |ids|
      invariant Grouped(rows, ids[..n], bySite)
    {
      assert ids[..n + 1] == ids[..n] + [ids[n]];
      var site := rows[ids[n]].key.site;
      var group := if site in bySite then bySite[site] else [];
      AppendKeepsGroups(rows, ids[..n], ids[n], bySite, group);
      bySite := bySite[site := group + [ids[n]]];
    }
    assert ids[..|ids|] == ids;
  }

  // ---- worker side ----

  class ModelRequestClient {
    const db: Database

    constructor (db: Database)
      ensures this.db == db
    {
      this.db := db;
    }

    method SubmitInTransaction(request: SubmitRequest, now: int, freshId: Id) returns (r: Result<Id, SubmitError>)
      requires freshId !in db.rows
      modifies db
      ensures db.cache == old(db.cache) && db.ops == old(db.ops) && db.executions == old(db.executions)
      ensures
        match Submission(old(db.rows), db.cache, request, now)
        case Ok(row) => r == Ok(freshId) && db.rows == old(db.rows)[freshId := row]
        case Err(e) => r == Err(e) && db.rows == old(db.rows)
    {
      if !ValidRequest(request) {
        return Err(InvalidRequest);
      }
      var spent := SelectTotal(db.rows, DurableOf(request.key));
      var remaining := Remaining(request.maxAttempts, spent);
      var cached := Lookup(db.cache, SlotOf(request.key));
      if cached.None? && remaining != 0 {
        var ofSession := SelectTotal(db.rows, CountLiveOf(request.key.session));
        var overall := SelectTotal(db.rows, CountLive());
        if ofSession >= SESSION_OUTSTANDING_LIMIT || overall >= GLOBAL_OUTSTANDING_LIMIT {
          return Err(Overloaded);
        }
      }
      db.rows := db.rows[freshId := NewRow(request, cached, remaining, now)];
      r := Ok(freshId);
    }

    // The statement that ends a wait whose deadline has passed; `seen` is the status polled before it.
    method WaitExpired(id: Id, seen: RequestStatus, now: int)
      modifies db
      ensures db.cache == old(db.cache) && db.ops == old(db.ops) && db.executions == old(db.executions)
      ensures db.rows == if id in old(db.rows)
        then old(db.rows)[id := WaitExpiredRow(old(db.rows)[id], seen, now)] else old(db.rows)
    {
      if id in db.rows && db.rows[id].Live() {
        db.rows := db.rows[id := db.rows[id].(
          status := Failed, completedAt := Some(now), leaseOwner := None, heartbeatAt := None,
          error := Some(if seen.Queued? then "queue_wait_exceeded" else "deadline_exceeded"))];
      }
    }

    method Cancel(id: Id, now: int) returns (changed: bool)
      modifies db
      ensures db.cache == old(db.cache) && db.ops == old(db.ops) && db.executions == old(db.executions)
      ensures changed <==> id in old(db.rows) && old(db.rows)[id].Live()
      ensures db.rows == if id in old(db.rows)
        then old(db.rows)[id := CancelRow(old(db.rows)[id], now)] else old(db.rows)
    {
      changed := id in db.rows && db.rows[id].Live();
      if changed {
        db.rows := db.rows[id := db.rows[id].(
          status := Cancelled, completedAt := Some(now), leaseOwner := None, heartbeatAt := None,
          error := Some("cancelled"))];
      }
    }
  }

  // ---- application side ----

  class ModelRequestBroker {
    const db: Database
    const owner: Owner
    const window: int
    const retryBase: int
    var lastSite: Option<string>

    constructor (db: Database, owner: Owner, window: int, retryBase: int)
      requires 0 < window <= LOGICAL_DEADLINE && MIN_RETRY <= retryBase <= MAX_RETRY
      ensures this.db == db && this.owner == owner && this.window == window && this.retryBase == retryBase
      ensures lastSite.None?
    {
      this.db, this.owner, this.window, this.retryBase := db, owner, window, retryBase;
      lastSite := None;
    }

    method ExpireWaiting(now: int)
      modifies db
      ensures db.rows == ExpireRows(old(db.rows), now)
      ensures db.cache == old(db.cache) && db.ops == old(db.ops) && db.executions == old(db.executions)
    {
      var rest := db.rows.Keys;
      while rest != {}
        invariant rest <= db.rows.Keys == old(db.rows.Keys)
        invariant forall id :: id in db.rows ==>
          db.rows[id] == if id in rest then old(db.rows)[id] else ExpireRow(old(db.rows)[id], now)
        invariant db.cache == old(db.cache) && db.ops == old(db.ops) && db.executions == old(db.executions)
      {
        var id :| id in rest;
        var row := db.rows[id];
        if row.Waiting() && row.deadlineAt <= now {
          db.rows := db.rows[id := row.(
            status := Failed, completedAt := Some(now),
            error := Some(if row.status.Queued? then "queue_wait_exceeded" else "deadline_exceeded"))];
        }
        rest := rest - {id};
      }
    }

    // Round robin over sites; within a site, oldest first among sessions with capacity.
    method NextCandidate(now: int) returns (candidate: Option<Id>)
      modifies this`lastSite
      ensures candidate.None? ==> lastSite == old(lastSite) && forall id :: !Runnable(db.rows, id, now)
      ensures candidate.Some? ==>
        && IsNextCandidate(db.rows, now, old(lastSite), candidate.value)
        && lastSite == Some(db.rows[candidate.value].key.site)
    {
      var ids := SelectEligible(db.rows, now);
      var bySite := GroupBySite(db.rows, ids);
      var sorted := SortedSites(bySite.Keys);
      var sites := Rotate(sorted, lastSite);
      var n := 0;
      while n < |sites|
        invariant 0 <= n <= |sites|
        invariant lastSite == old(lastSite)
        invariant forall id, k :: Runnable(db.rows, id, now) && 0 <= k < n ==> db.rows[id].key.site != sites[k]
      {
        var head := HeadWithCapacity(bySite[sites[n]]);
        if head.Some? {
          NextIsFound(now, ids, bySite, sites, n, head.value);
          lastSite := Some(sites[n]);
          return head;
        }
        n := n + 1;
      }
      candidate := None;
    }

    method HeadWithCapacity(group: seq<Id>) returns (head: Option<Id>)
      requires Ordered(db.rows, group)
      ensures head.None? ==> forall id :: id in group ==>
        Total(db.rows, CountRunningOf(db.rows[id].key.session)) >= SESSION_RUNNING_LIMIT
      ensures head.Some? ==>
        && head.value in group
        && Total(db.rows, CountRunningOf(db.rows[head.value].key.session)) < SESSION_RUNNING_LIMIT
        && forall id :: id in group && Total(db.rows, CountRunningOf(db.rows[id].key.session)) < SESSION_RUNNING_LIMIT
             ==> Before(db.rows, head.value, id)
    {
      for n := 0 to |group|
        invariant forall i :: 0 <= i < n ==>
          Total(db.rows, CountRunningOf(db.rows[group[i]].key.session)) >= SESSION_RUNNING_LIMIT
      {
        var running := SelectTotal(db.rows, CountRunningOf(db.rows[group[n]].key.session));
        if running < SESSION_RUNNING_LIMIT {
          return Some(group[n]);
        }
      }
      head := None;
    }

    lemma NextIsFound(
      now: int, ids: seq<Id>, bySite: map<string, seq<Id>>, sites: seq<string>, n: nat, head: Id)
      requires forall id :: id in ids <==> id in db.rows && Eligible(db.rows[id], now)
      requires Grouped(db.rows, ids, bySite)
      requires InRotation(lastSite, sites) && (forall s :: s in sites <==> s in bySite)
      requires n < |sites| && sites[n] in bySite && head in bySite[sites[n]]
      requires Total(db.rows, CountRunningOf(db.rows[head].key.session)) < SESSION_RUNNING_LIMIT
      requires forall id :: id in bySite[sites[n]] ==>
        Total(db.rows, CountRunningOf(db.rows[id].key.session)) < SESSION_RUNNING_LIMIT ==> Before(db.rows, head, id)
      requires forall id, k :: Runnable(db.rows, id, now) && 0 <= k < n ==> db.rows[id].key.site != sites[k]
      ensures IsNextCandidate(db.rows, now, lastSite, head)
    {
      forall other | Runnable(db.rows, other, now)
        ensures
          if db.rows[other].key.site == db.rows[head].key.site then Before(db.rows, head, other)
          else Sooner(lastSite, db.rows[head].key.site, db.rows[other].key.site)
      {
        var site := db.rows[other].key.site;
        if site != sites[n] {
          var k :| 0 <= k < |sites| && sites[k] == site;
          assert !(k < n);
        }
      }
    }

    // One scheduling transaction: expire, check the global limit, pick, claim.
    method ClaimOne(now: int) returns (claimed: Option<Id>)
      modifies db, this`lastSite
      ensures db.cache == old(db.cache) && db.ops == old(db.ops) && db.executions == old(db.executions)
      ensures
        var rows := ExpireRows(old(db.rows), now);
        if Total(rows, CountRunning()) >= GLOBAL_RUNNING_LIMIT then
          claimed.None? && db.rows == rows && lastSite == old(lastSite)
        else if claimed.None? then
          db.rows == rows && lastSite == old(lastSite) && forall id :: !Runnable(rows, id, now)
        else
          && IsNextCandidate(rows, now, old(lastSite), claimed.value)
          && db.rows == rows[claimed.value := ClaimRow(rows[claimed.value], owner, now, window)]
          && lastSite == Some(rows[claimed.value].key.site)
    {
      ExpireWaiting(now);
      var running := SelectTotal(db.rows, CountRunning());
      if running >= GLOBAL_RUNNING_LIMIT {
        return None;
      }
      claimed := NextCandidate(now);
      if claimed.Some? {
        var row := db.rows[claimed.value];
        db.rows := db.rows[claimed.value := row.(
          status := Running, attempt := row.attempt + 1, startedAt := Some(now), heartbeatAt := Some(now),
          leaseOwner := Some(owner),
          deadlineAt := if row.attempt == 0 then now + window else row.deadlineAt,
          error := None)];
      }
    }

    method Heartbeat(id: Id, now: int)
      modifies db`rows
      ensures db.rows == if id in old(db.rows)
        then old(db.rows)[id := HeartbeatRow(old(db.rows)[id], owner, now)] else old(db.rows)
    {
      if id in db.rows && db.rows[id].status.Running? && db.rows[id].leaseOwner == Some(owner) {
        db.rows := db.rows[id := db.rows[id].(heartbeatAt := Some(now))];
      }
    }

    method Complete(id: Id, output: string, now: int) returns (done: bool)
      modifies db`rows, db`cache
      ensures done <==> id in old(db.rows) && Leased(old(db.rows)[id], owner)
      ensures id !in old(db.rows) ==> db.rows == old(db.rows) && db.cache == old(db.cache)
      ensures id in old(db.rows) ==>
        && db.rows == old(db.rows)[id := CompleteRow(old(db.rows)[id], owner, output, now)]
        && db.cache == CompleteCache(old(db.rows), old(db.cache), id, owner, output)
    {
      if id !in db.rows || !db.rows[id].status.Running? || db.rows[id].leaseOwner != Some(owner) {
        return false;
      }
      var row := db.rows[id];
      db.rows := db.rows[id := row.(
        status := Completed, output := Some(output), completedAt := Some(now),
        heartbeatAt := None, leaseOwner := None)];
      var slot := SlotOf(row.key);
      if slot !in db.cache {
        db.cache := db.cache[slot := CacheEntry(id, output)];
      }
      done := true;
    }

    method FailOrRetry(id: Id, code: string, terminal: bool, now: int)
      modifies db`rows
      ensures db.rows == if id in old(db.rows)
        then old(db.rows)[id := FailOrRetryRow(old(db.rows)[id], owner, now, retryBase, code, terminal)]
        else old(db.rows)
    {
      if id !in db.rows || !db.rows[id].status.Running? || db.rows[id].leaseOwner != Some(owner) {
        return;
      }
      var row := db.rows[id];
      var retryAt := now + Backoff(retryBase, row.attempt);
      var canRetry := !terminal && row.attempt < row.maxAttempts && retryAt < row.deadlineAt;
      if canRetry {
        row := row.(status := Retry, availableAt := retryAt, completedAt := None);
      } else {
        row := row.(status := Failed, completedAt := Some(now));
      }
      db.rows := db.rows[id := row.(startedAt := None, heartbeatAt := None, leaseOwner := None, error := Some(code))];
    }

    // The body of the recovery loop: release one row's lease if it is stale.
    method ReleaseStale(id: Id, cutoff: int, now: int) returns (stale: bool)
      requires id in db.rows
      modifies db`rows
      ensures stale == Stale(old(db.rows)[id], cutoff)
      ensures db.rows == old(db.rows)[id := RecoverRow(old(db.rows)[id], now, retryBase, cutoff)]
    {
      var row := db.rows[id];
      var lastSeen := if row.heartbeatAt.Some? then row.heartbeatAt else row.startedAt;
      stale := row.status.Running? && !(lastSeen.Some? && lastSeen.value > cutoff);
      if stale {
        if row.deadlineAt <= now || row.attempt >= row.maxAttempts {
          row := row.(status := Failed, completedAt := Some(now),
            error := Some(if row.deadlineAt <= now then "stale_deadline" else "stale_attempt_limit"));
        } else {
          var retryAt := now + Backoff(retryBase, row.attempt);
          if retryAt >= row.deadlineAt {
            row := row.(status := Failed, completedAt := Some(now), error := Some("stale_deadline"));
          } else {
            row := row.(status := Retry, availableAt := retryAt, error := Some("stale_recovered"));
          }
        }
        db.rows := db.rows[id := row.(startedAt := None, heartbeatAt := None, leaseOwner := None)];
      }
    }

    // Releases every running lease, of any broker, that has not been seen since the cutoff.
    method RecoverStale(staleAfter: int, now: int) returns (changed: nat)
      requires staleAfter >= 0
      modifies db`rows
      ensures db.rows == RecoverRows(old(db.rows), now, retryBase, now - staleAfter)
      ensures changed == |set id | id in old(db.rows) && Stale(old(db.rows)[id], now - staleAfter)|
    {
      var cutoff := now - staleAfter;
      var rest := db.rows.Keys;
      ghost var released: set<Id> := {};
      changed := 0;
      while rest != {}
        invariant rest <= db.rows.Keys == old(db.rows.Keys)
        invariant forall id :: id in rest ==> db.rows[id] == old(db.rows)[id]
        invariant forall id :: id in db.rows && id !in rest ==>
          db.rows[id] == RecoverRow(old(db.rows)[id], now, retryBase, cutoff)
        invariant forall id :: id in released <==> id in old(db.rows) && id !in rest && Stale(old(db.rows)[id], cutoff)
        invariant changed == |released|
      {
        var id :| id in rest;
        var stale := ReleaseStale(id, cutoff, now);
        rest := rest - {id};
        if stale {
          released := released + {id};
          changed := changed + 1;
        }
      }
      assert released == set id | id in old(db.rows) && Stale(old(db.rows)[id], cutoff);
    }
  }
}
