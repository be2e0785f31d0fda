// Which row the scheduler serves next, and why no site waits behind another one twice.

module SiteRotation {
  import opened Records
  import opened Totals
  import opened RequestRows

  // ---- lexical order of site names ----

  predicate Less(a: string, b: string) {
    b != [] && (a == [] || a[0] < b[0] || (a[0] == b[0] && Less(a[1..], b[1..])))
  }

  lemma {:induction false} LessTotal(a: string, b: string)
    ensures a == b || Less(a, b) || Less(b, a)
    ensures !(Less(a, b) && Less(b, a))
    ensures !Less(a, a)
  {
    if a != [] && b != [] {
      LessTotal(a[1..], b[1..]);
      assert a == [a[0]] + a[1..] && b == [b[0]] + b[1..];
    }
    if a != [] {
      LessTotal(a[1..], a[1..]);
    }
  }

  lemma {:induction false} LessTransitive(a: string, b: string, c: string)
    requires Less(a, b) && Less(b, c)
    ensures Less(a, c)
  {
    if a != [] && a[0] == b[0] && b[0] == c[0] {
      LessTransitive(a[1..], b[1..], c[1..]);
    }
  }

  // ---- rotation ----

  // `a` is served before `b` when the rotation continues after site `last`.
  predicate Sooner(last: Option<string>, a: string, b: string) {
    match last
    case None => Less(a, b)
    case Some(site) => if Less(site, a) == Less(site, b) then Less(a, b) else Less(site, a)
  }

  // Older first; request ids break ties.
  predicate Before(rows: Rows, a: Id, b: Id)
    requires a in rows && b in rows
  {
    rows[a].createdAt < rows[b].createdAt || (rows[a].createdAt == rows[b].createdAt && a <= b)
  }

  // The row the scheduler must pick: first site in rotation with a runnable row, oldest row there.
  ghost predicate IsNextCandidate(rows: Rows, now: int, last: Option<string>, id: Id) {
    && Runnable(rows, id, now)
    && forall other :: Runnable(rows, other, now) ==>
         if rows[other].key.site == rows[id].key.site then Before(rows, id, other)
         else Sooner(last, rows[id].key.site, rows[other].key.site)
  }

  // Moving on from `last` to `c`, which comes before `s`, never passes `s`.
  lemma RotationMovesForward(last: string, c: string, d: string, s: string)
    requires Sooner(Some(last), c, s) && Sooner(Some(c), d, s)
    ensures Sooner(Some(last), d, s)
  {
    LessTotal(last, c); LessTotal(last, d); LessTotal(last, s);
    LessTotal(c, d); LessTotal(c, s); LessTotal(d, s);
    if Less(last, c) && Less(c, d) { LessTransitive(last, c, d); }
    if Less(last, c) && Less(c, s) { LessTransitive(last, c, s); }
    if Less(c, d) && Less(d, s) { LessTransitive(c, d, s); }
    if Less(d, s) && Less(s, last) { LessTransitive(d, s, last); }
    if Less(s, last) && Less(last, c) { LessTransitive(s, last, c); }
    if Less(last, d) && Less(d, s) { LessTransitive(last, d, s); }
    if Less(d, s) && Less(s, c) { LessTransitive(d, s, c); }
    if Less(c, s) && Less(s, last) { LessTransitive(c, s, last); }
    if Less(s, last) && Less(last, d) { LessTransitive(s, last, d); }
  }

  lemma LastSiteIsServedLast(last: string, s: string)
    ensures !Sooner(Some(last), last, s)
  {
    LessTotal(last, last);
    LessTotal(last, s);
  }

  // ---- fairness over any sequence of claims by one scheduler ----

  // What one claim saw and served; the tables of different claims are unrelated.
  datatype Claim = Claim(rows: Rows, now: int, served: Id)

  ghost predicate ServedBy(claim: Claim, last: Option<string>) {
    IsNextCandidate(claim.rows, claim.now, last, claim.served)
  }

  function SiteServed(claim: Claim): string
    requires claim.served in claim.rows
  {
    claim.rows[claim.served].key.site
  }

  ghost predicate Served(claims: seq<Claim>) {
    && (forall i :: 0 <= i < |claims| ==> claims[i].served in claims[i].rows)
    && (forall i :: 0 < i < |claims| ==> ServedBy(claims[i], Some(SiteServed(claims[i - 1]))))
  }

  ghost predicate Wants(claim: Claim, site: string) {
    exists id :: Runnable(claim.rows, id, claim.now) && claim.rows[id].key.site == site
  }

  lemma {:induction false} ServedBeforeWaiting(claims: seq<Claim>, i: int, k: int, site: string)
    requires Served(claims) && 0 <= i < k < |claims|
    requires forall n :: i < n <= k ==> Wants(claims[n], site) && SiteServed(claims[n]) != site
    ensures Sooner(Some(SiteServed(claims[i])), SiteServed(claims[k]), site)
    decreases k
  {
    assert ServedBy(claims[k], Some(SiteServed(claims[k - 1])));
    assert Wants(claims[k], site);
    if k > i + 1 {
      ServedBeforeWaiting(claims, i, k - 1, site);
      RotationMovesForward(SiteServed(claims[i]), SiteServed(claims[k - 1]), SiteServed(claims[k]), site);
    }
  }

  // While a site has a runnable row at every claim and is not served, no other site is served twice.
  lemma NoSiteServedTwiceWhileAnotherWaits(claims: seq<Claim>, i: int, j: int, site: string)
    requires Served(claims) && 0 <= i < j < |claims|
    requires forall n :: i < n <= j ==> Wants(claims[n], site)
    requires forall n :: i <= n <= j ==> SiteServed(claims[n]) != site
    ensures SiteServed(claims[i]) != SiteServed(claims[j])
  {
    ServedBeforeWaiting(claims, i, j, site);
    LastSiteIsServedLast(SiteServed(claims[i]), site);
  }

  // So a waiting site is served after at most one claim of each other site.
  lemma WaitIsBoundedByOtherSites(claims: seq<Claim>, i: int, j: int, site: string, others: set<string>)
    requires Served(claims) && 0 <= i <= j < |claims|
    requires forall n :: i < n <= j ==> Wants(claims[n], site)
    requires forall n :: i <= n <= j ==> SiteServed(claims[n]) != site && SiteServed(claims[n]) in others
    ensures j - i + 1 <= |others|
    decreases j - i
  {
    var first := SiteServed(claims[i]);
    if i < j {
      forall n | i < n <= j
        ensures SiteServed(claims[n]) in others - {first}
      {
        NoSiteServedTwiceWhileAnotherWaits(claims, i, n, site);
      }
      WaitIsBoundedByOtherSites(claims, i + 1, j, site, others - {first});
    }
    assert first in others;
    assert others == {first} + (others - {first});
  }
}
