// The HireHi search wrapper: every vacancy it discovers is handed out once, waits in the queue, or
// was ruled out by the profile; and every analysis is attributed to at most one source.

module HireHiSearch {
  import opened Records
  import P = Pipeline
  import opened Backlog
  import opened SiteRotation
  import opened HireHiScheduler

  type JobRef = P.JobRef

  // A vacancy card: its reference, whether the profile rules it out, and its priority.
  datatype Card = Card(ref: JobRef, rejected: bool, priority: int)

  const MAX_ACTIVE := 12
  const RELATED := "related"

  function RefsOf(cards: seq<Card>): seq<JobRef> { seq(|cards|, i requires 0 <= i < |cards| => cards[i].ref) }

  lemma RefsOfSum(a: seq<Card>, b: seq<Card>)
    ensures RefsOf(a + b) == RefsOf(a) + RefsOf(b)
  {
  }

  // ---- stable sort, highest priority first ----

  ghost predicate Descending(cards: seq<Card>) {
    forall i, j :: 0 <= i < j < |cards| ==> cards[i].priority >= cards[j].priority
  }

  // Goes behind the cards of the same priority.
  method InsertByPriority(cards: seq<Card>, card: Card) returns (out: seq<Card>, ghost at: nat)
    requires Descending(cards)
    ensures Descending(out) && at <= |cards| && out == cards[..at] + [card] + cards[at..]
    ensures forall i :: at <= i < |cards| ==> cards[i].priority < card.priority
    ensures forall c :: c in out <==> c in cards || c == card
    ensures Ids(RefsOf(out)) == Ids(RefsOf(cards)) + {card.ref.externalId}
    ensures Distinct(RefsOf(cards)) && card.ref.externalId !in Ids(RefsOf(cards)) ==> Distinct(RefsOf(out))
  {
    hide Ids, Distinct, RefsOf, Descending;
    var n := |cards|;
    while n > 0 && cards[n - 1].priority < card.priority
      invariant 0 <= n <= |cards|
      invariant forall i :: n <= i < |cards| ==> cards[i].priority < card.priority
    {
      n := n - 1;
    }
    out, at := cards[..n] + [card] + cards[n..], n;
    assert cards == cards[..n] + cards[n..];
    assert forall c :: c in out <==> c in cards[..n] + cards[n..] || c == card;
    InsertedDescends(cards[..n], card, cards[n..]);
    InsertKeepsRefs(cards[..n], card, cards[n..]);
  }

  lemma InsertedDescends(a: seq<Card>, card: Card, b: seq<Card>)
    requires Descending(a + b)
    requires a != [] ==> a[|a| - 1].priority >= card.priority
    requires forall i :: 0 <= i < |b| ==> b[i].priority < card.priority
    ensures Descending(a + [card] + b)
  {
    var out := a + [card] + b;
    forall i, j | 0 <= i < j < |out|
      ensures out[i].priority >= out[j].priority
    {
      var x, y := if i < |a| then i else i - 1, if j < |a| then j else j - 1;
      if i < |a| {
        assert (a + b)[i].priority >= (a + b)[|a| - 1].priority || i == |a| - 1;
      }
      if i != |a| && j != |a| { assert out[i] == (a + b)[x] && out[j] == (a + b)[y]; }
    }
  }

  lemma InsertKeepsRefs(a: seq<Card>, card: Card, b: seq<Card>)
    ensures Ids(RefsOf(a + [card] + b)) == Ids(RefsOf(a + b)) + {card.ref.externalId}
    ensures Distinct(RefsOf(a + b)) && card.ref.externalId !in Ids(RefsOf(a + b)) ==> Distinct(RefsOf(a + [card] + b))
  {
    var x, c, y := RefsOf(a), RefsOf([card]), RefsOf(b);
    RefsOfSum(a, b);
    RefsOfSum(a, [card]);
    RefsOfSum(a + [card], b);
    assert c == [card.ref];
    IdsOfSum(x, y);
    DistinctSum(x, y);
    SnocOf(x, card.ref);
    IdsOfSum(x + c, y);
    DistinctSum(x + c, y);
  }

  // ---- counters ----

  function AnalyzedBy(sources: seq<Source>): nat {
    if sources == [] then 0 else AnalyzedBy(sources[..|sources| - 1]) + sources[|sources| - 1].analyzed
  }

  lemma {:induction false} UpdateAnalyzed(sources: seq<Source>, i: nat, s: Source)
    requires i < |sources|
    ensures AnalyzedBy(sources[i := s]) + sources[i].analyzed == AnalyzedBy(sources) + s.analyzed
  {
    var last := |sources| - 1;
    if i == last {
      assert sources[i := s][..last] == sources[..last];
    } else {
      assert sources[i := s][..last] == sources[..last][i := s];
      UpdateAnalyzed(sources[..last], i, s);
    }
  }

  lemma {:induction false} RemoveAnalyzed(sources: seq<Source>, i: nat)
    requires i < |sources|
    ensures AnalyzedBy(sources[..i] + sources[i + 1..]) <= AnalyzedBy(sources)
  {
    var last := |sources| - 1;
    if i == last {
      assert sources[..i] + sources[i + 1..] == sources[..last];
    } else {
      var rest := sources[..i] + sources[i + 1..];
      assert rest[..|rest| - 1] == sources[..last][..i] + sources[..last][i + 1..];
      RemoveAnalyzed(sources[..last], i);
    }
  }

  ghost predicate Counted(sources: seq<Source>) {
    forall i :: 0 <= i < |sources| ==> sources[i].relevant <= sources[i].analyzed
  }

  // A new id starts with the source that found it; a known id keeps its origins, and may gain one.
  ghost predicate OriginsGrow(origin: map<string, seq<string>>, origin': map<string, seq<string>>, key: string) {
    && (forall id :: id in origin ==> id in origin' && origin'[id] in {origin[id], origin[id] + [key]})
    && (forall id :: id in origin' && id !in origin ==> origin'[id] == [key])
  }

  lemma KnownOriginGrows(origin: map<string, seq<string>>, now: map<string, seq<string>>, key: string, id: string)
    requires OriginsGrow(origin, now, key) && id in now && key !in now[id]
    ensures OriginsGrow(origin, now[id := now[id] + [key]], key)
  {
    if id in origin { assert key in origin[id] + [key]; }
  }

  lemma NewOriginGrows(origin: map<string, seq<string>>, now: map<string, seq<string>>, key: string, id: string)
    requires OriginsGrow(origin, now, key) && id !in now
    ensures OriginsGrow(origin, now[id := [key]], key)
  {
  }

  // A card is worth delivering if the profile accepts it, or if it was drawn for audit.
  predicate Deliverable(card: Card, sampled: string -> bool) { !card.rejected || sampled(card.ref.externalId) }

  // The cards of a page that name an unknown vacancy, the first card of each, in page order.
  ghost function FreshCards(cards: seq<Card>, known: set<string>): seq<Card> {
    if cards == [] then []
    else
      var card := cards[|cards| - 1];
      var unseen := FreshCards(cards[..|cards| - 1], known);
      var id := card.ref.externalId;
      if id == "" || id in known || id in Ids(RefsOf(unseen)) then unseen else unseen + [card]
  }

  // Of two cards with one priority the accepted one goes first, or else the first on the page.
  ghost predicate Ahead(cards: seq<Card>, a: Card, b: Card) {
    if a.rejected != b.rejected then b.rejected
    else exists i, j :: 0 <= i < j < |cards| && cards[i] == a && cards[j] == b
  }

  ghost predicate TiesInOrder(cards: seq<Card>, ranked: seq<Card>) {
    forall i, j :: 0 <= i < j < |ranked| && ranked[i].priority == ranked[j].priority ==>
      Ahead(cards, ranked[i], ranked[j])
  }

  // Card k of the page joins cards that are accepted or stand before it there.
  lemma InsertKeepsTies(cards: seq<Card>, k: nat, ranked: seq<Card>, at: nat)
    requires k < |cards| && at <= |ranked| && TiesInOrder(cards, ranked)
    requires forall card :: card in ranked ==> Ahead(cards, card, cards[k])
    requires forall i :: at <= i < |ranked| ==> ranked[i].priority < cards[k].priority
    ensures TiesInOrder(cards, ranked[..at] + [cards[k]] + ranked[at..])
  {
    hide Ahead;
    var out := ranked[..at] + [cards[k]] + ranked[at..];
    forall i, j | 0 <= i < j < |out| && out[i].priority == out[j].priority
      ensures Ahead(cards, out[i], out[j])
    {
      if j == at {
        assert out[i] == ranked[i];
      } else if i != at {
        var x, y := if i < at then i else i - 1, if j < at then j else j - 1;
        assert out[i] == ranked[x] && out[j] == ranked[y];
      }
    }
  }

  // The deliverable cards, each once, by descending priority.
  ghost predicate RanksAs(cards: seq<Card>, sampled: string -> bool, ranked: seq<Card>) {
    && Descending(ranked) && TiesInOrder(cards, ranked) && Distinct(RefsOf(ranked))
    && forall card :: card in ranked <==> card in cards && Deliverable(card, sampled)
  }

  ghost predicate Ranks(cards: seq<Card>, sampled: string -> bool, output: seq<JobRef>) {
    exists ranked :: RanksAs(cards, sampled, ranked) && output == RefsOf(ranked)
  }

  // ---- the audit lists ----

  predicate RejectedAt(cards: seq<Card>, n: nat, id: string)
    requires n <= |cards|
  {
    exists j :: 0 <= j < n && cards[j].ref.externalId == id && cards[j].rejected
  }

  function Rejections(cards: seq<Card>): nat {
    if cards == [] then 0 else Rejections(cards[..|cards| - 1]) + Bit(cards[|cards| - 1].rejected)
  }

  // What audit has let go: rejected, and not drawn.
  ghost function RuledOut(eligible: seq<string>, selected: seq<string>): set<string> {
    set id | id in eligible && id !in selected
  }

  ghost function RuledOutOn(cards: seq<Card>, sampled: string -> bool): set<string> {
    set j | 0 <= j < |cards| && !Deliverable(cards[j], sampled) :: cards[j].ref.externalId
  }

  ghost predicate Audited(eligible: seq<string>, selected: seq<string>, sampled: string -> bool, known: set<string>) {
    && (forall id :: id in eligible ==> id in known)
    && (forall id :: id in selected <==> id in eligible && sampled(id))
  }

  // What one page adds to the audit lists.
  ghost predicate Audits(
    eligible: seq<string>, eligible': seq<string>, selected: seq<string>, selected': seq<string>,
    cards: seq<Card>, n: nat, sampled: string -> bool)
    requires n <= |cards|
  {
    && (forall id :: id in eligible' <==> id in eligible || RejectedAt(cards, n, id))
    && (forall id :: id in selected' <==> id in selected || (RejectedAt(cards, n, id) && sampled(id)))
  }

  lemma AuditNext(
    eligible: seq<string>, now: seq<string>, selected: seq<string>, drawn: seq<string>,
    cards: seq<Card>, n: nat, sampled: string -> bool)
    requires n < |cards| && Audits(eligible, now, selected, drawn, cards, n, sampled)
    ensures var id := cards[n].ref.externalId;
      var now' := if cards[n].rejected && id !in now then now + [id] else now;
      var drawn' := if cards[n].rejected && sampled(id) && id !in drawn then drawn + [id] else drawn;
      Audits(eligible, now', selected, drawn', cards, n + 1, sampled)
  {
    forall id
      ensures RejectedAt(cards, n + 1, id) <==>
        RejectedAt(cards, n, id) || (cards[n].rejected && cards[n].ref.externalId == id)
    {
      if cards[n].rejected && cards[n].ref.externalId == id { assert RejectedAt(cards, n + 1, id); }
    }
  }

  // A page of new vacancies lets go exactly those whose card is rejected and not drawn.
  lemma AuditKeeps(
    eligible: seq<string>, eligible': seq<string>, selected: seq<string>, selected': seq<string>,
    cards: seq<Card>, sampled: string -> bool, known: set<string>)
    requires Audited(eligible, selected, sampled, known)
    requires Audits(eligible, eligible', selected, selected', cards, |cards|, sampled)
    ensures Audited(eligible', selected', sampled, known + Ids(RefsOf(cards)))
    ensures RuledOut(eligible', selected') == RuledOut(eligible, selected) + RuledOutOn(cards, sampled)
  {
    forall id | RejectedAt(cards, |cards|, id)
      ensures id in Ids(RefsOf(cards))
    {
      var j :| 0 <= j < |cards| && cards[j].ref.externalId == id && cards[j].rejected;
      assert RefsOf(cards)[j].externalId == id;
    }
  }

  // No new vacancy is lost but those.
  lemma OnlyRuledOutAreLost(cards: seq<Card>, ranked: seq<Card>, sampled: string -> bool)
    requires Distinct(RefsOf(cards)) && RanksAs(cards, sampled, ranked)
    ensures Ids(RefsOf(ranked)) <= Ids(RefsOf(cards))
    ensures RuledOutOn(cards, sampled) == Ids(RefsOf(cards)) - Ids(RefsOf(ranked))
  {
    forall id | id in Ids(RefsOf(ranked))
      ensures id in Ids(RefsOf(cards)) && id !in RuledOutOn(cards, sampled)
    {
      var k :| 0 <= k < |ranked| && ranked[k].ref.externalId == id;
      assert ranked[k] in cards && Deliverable(ranked[k], sampled);
      var j :| 0 <= j < |cards| && cards[j] == ranked[k];
      assert RefsOf(cards)[j].externalId == id;
      FreshCard(cards, j);
    }
    forall id | id in RuledOutOn(cards, sampled)
      ensures id in Ids(RefsOf(cards))
    {
      var j :| 0 <= j < |cards| && !Deliverable(cards[j], sampled) && cards[j].ref.externalId == id;
      assert RefsOf(cards)[j].externalId == id;
    }
    forall id | id in Ids(RefsOf(cards)) && id !in RuledOutOn(cards, sampled)
      ensures id in Ids(RefsOf(ranked))
    {
      var j :| 0 <= j < |cards| && cards[j].ref.externalId == id;
      assert cards[j] in ranked;
      var k :| 0 <= k < |ranked| && ranked[k] == cards[j];
      assert RefsOf(ranked)[k].externalId == id;
    }
  }

  // ---- what the wrapper holds ----

  // What left it, in order, what waits, what it knows, and what audit let go.
  datatype Shelf = Shelf(handed: seq<JobRef>, pending: seq<JobRef>, known: set<string>, ruledOut: set<string>)

  // One page: every new vacancy on it is handed out or queued, best first, or ruled out.
  ghost predicate Yields(
    s: Shelf, s': Shelf, cards: seq<Card>, sampled: string -> bool, returned: seq<JobRef>, rest: seq<JobRef>)
  {
    var unseen := FreshCards(cards, s.known);
    && s'.handed == s.handed + returned && s'.pending == s.pending + rest
    && Ranks(unseen, sampled, returned + rest)
    && s'.known == s.known + Ids(RefsOf(unseen))
    && s'.ruledOut == s.ruledOut + RuledOutOn(unseen, sampled)
  }

  // What the vacancies linked from a relevant detail page come to: nothing if their source has no
  // room, otherwise they are queued or ruled out like those of a page.
  ghost predicate Follows(
    sources: seq<Source>, imprecise: Source -> bool, s: Shelf, s': Shelf, cards: seq<Card>, sampled: string -> bool)
  {
    if NoRoom(sources, RELATED, RelatedPage, imprecise) then s' == s
    else |s.pending| <= |s'.pending| && Yields(s, s', cards, sampled, [], s'.pending[|s.pending|..])
  }

  // What one call comes to: nothing while it waits, or while no source can be visited, or if the
  // page cannot be read; otherwise the page.
  ghost predicate Collects(
    waits: bool, idle: bool, s: Shelf, s': Shelf, page: Page, sampled: string -> bool, returned: seq<JobRef>)
  {
    if waits || idle || page.Unreachable? then returned == [] && s' == s
    else
      && |s.pending| <= |s'.pending|
      && Yields(s, s', page.cards, sampled, returned, s'.pending[|s.pending|..])
      && (|s.pending| < |s'.pending| ==> returned != [])
  }

  // Every known id was handed out, is pending, or was ruled out: exactly one of the three, once.
  ghost predicate Partition(handed: seq<JobRef>, pending: seq<JobRef>, ruledOut: set<string>, known: set<string>) {
    && Distinct(handed + pending)
    && Ids(handed + pending) !! ruledOut
    && known == Ids(handed + pending) + ruledOut
  }

  lemma DiscoveryKeepsPartition(
    handed: seq<JobRef>, pending: seq<JobRef>, ruledOut: set<string>, known: set<string>, unseen: set<string>,
    output: seq<JobRef>)
    requires Partition(handed, pending, ruledOut, known) && unseen !! known
    requires Distinct(output) && Ids(output) <= unseen
    ensures Partition(handed, pending + output, ruledOut + (unseen - Ids(output)), known + unseen)
  {
    hide Ids, Distinct;
    IdsOfSum(handed + pending, output);
    DistinctSum(handed + pending, output);
    assert handed + (pending + output) == handed + pending + output;
  }

  // An analysis is counted by at most one source, and a relevant one was analyzed.
  ghost predicate Tallied(
    sources: seq<Source>, analyzed: set<string>, relevantIds: set<string>, verdicts: map<string, bool>, count: nat)
  {
    && AnalyzedBy(sources) <= |analyzed|
    && Counted(sources)
    && relevantIds <= analyzed && verdicts.Keys == analyzed && count == |analyzed|
  }

  lemma VerdictKeepsTallies(
    sources: seq<Source>, analyzed: set<string>, relevantIds: set<string>, verdicts: map<string, bool>, count: nat,
    id: string, relevant: bool)
    requires Tallied(sources, analyzed, relevantIds, verdicts, count) && id !in analyzed
    ensures Tallied(
      sources, analyzed + {id}, if relevant then relevantIds + {id} else relevantIds, verdicts[id := relevant],
      count + 1)
    ensures AnalyzedBy(sources) < |analyzed + {id}|
  {
    assert |analyzed + {id}| == |analyzed| + 1;
  }

  class HireHiAdaptiveSearch {
    const scheduler: HireHiSearchScheduler
    const sampled: string -> bool
    const imprecise: Source -> bool
    var pending: seq<JobRef>
    var origin: map<string, seq<string>>
    var seen: set<string>
    var eligible: seq<string>
    var selected: seq<string>
    var analyzed: set<string>
    var relevantIds: set<string>
    var verdicts: map<string, bool>
    var observedBySource: map<string, set<string>>
    var analysisCount: nat
    var backoff: nat
    var retryDeadline: Option<int>
    // what left the wrapper, in order
    ghost var handed: seq<JobRef>

    constructor (scheduler: HireHiSearchScheduler, sampled: string -> bool, imprecise: Source -> bool)
      requires scheduler.sources == []
      ensures Valid() && this.scheduler == scheduler && this.sampled == sampled && this.imprecise == imprecise
      ensures Contents() == Shelf([], [], {}, {}) && origin == map[] && backoff == 1
    {
      this.scheduler, this.sampled, this.imprecise := scheduler, sampled, imprecise;
      pending, origin, seen, eligible, selected := [], map[], {}, [], [];
      analyzed, relevantIds, verdicts, observedBySource, analysisCount := {}, {}, map[], map[], 0;
      backoff, retryDeadline := 1, None;
      handed := [];
    }

    ghost function Contents(): Shelf
      reads this
    {
      Shelf(handed, pending, origin.Keys, RuledOut(eligible, selected))
    }

    ghost predicate Partitioned()
      reads this
    {
      && Partition(handed, pending, RuledOut(eligible, selected), origin.Keys) && seen == origin.Keys
      && Audited(eligible, selected, sampled, origin.Keys)
    }

    ghost predicate Attributed()
      reads this, scheduler
    {
      Tallied(scheduler.sources, analyzed, relevantIds, verdicts, analysisCount)
    }

    ghost predicate Valid()
      reads this, scheduler
    {
      Partitioned() && Attributed() && |scheduler.sources| <= MAX_ACTIVE
    }

    // Cards the profile rules out go to audit; a stable sample of them is let through.
    method PreRank(cards: seq<Card>) returns (accepted: seq<Card>, rejected: nat)
      requires Distinct(RefsOf(cards))
      modifies this`eligible, this`selected
      ensures RanksAs(cards, sampled, accepted) && rejected == Rejections(cards)
      ensures Audits(old(eligible), eligible, old(selected), selected, cards, |cards|, sampled)
    {
      accepted, rejected := AcceptCards(cards);
      for i := 0 to |cards|
        invariant Descending(accepted) && Distinct(RefsOf(accepted)) && TiesInOrder(cards, accepted)
        invariant forall card :: card in accepted <==>
          card in cards && (!card.rejected || (card in cards[..i] && sampled(card.ref.externalId)))
        invariant Audits(old(eligible), eligible, old(selected), selected, cards, i, sampled)
      {
        assert cards[..i + 1] == cards[..i] + [cards[i]];
        AuditNext(old(eligible), eligible, old(selected), selected, cards, i, sampled);
        if cards[i].rejected {
          var id := cards[i].ref.externalId;
          if id !in eligible { eligible := eligible + [id]; }
          if sampled(id) {
            if id !in selected { selected := selected + [id]; }
            FreshCard(cards, i);
            NotYetAccepted(cards, i, accepted);
            ghost var before, at := accepted, 0;
            accepted, at := InsertByPriority(accepted, cards[i]);
            InsertKeepsTies(cards, i, before, at);
          }
        }
      }
      assert cards[..|cards|] == cards;
    }

    method AcceptCards(cards: seq<Card>) returns (accepted: seq<Card>, rejected: nat)
      requires Distinct(RefsOf(cards))
      ensures Descending(accepted) && TiesInOrder(cards, accepted) && Distinct(RefsOf(accepted))
      ensures rejected == Rejections(cards)
      ensures forall card :: card in accepted <==> card in cards && !card.rejected
    {
      accepted, rejected := [], 0;
      for i := 0 to |cards|
        invariant Descending(accepted) && TiesInOrder(cards, accepted) && Distinct(RefsOf(accepted))
        invariant rejected == Rejections(cards[..i])
        invariant forall card :: card in accepted <==> card in cards[..i] && !card.rejected
      {
        assert cards[..i + 1] == cards[..i] + [cards[i]] && cards[..i + 1][..i] == cards[..i];
        if cards[i].rejected {
          rejected := rejected + 1;
        } else {
          FreshCard(cards, i);
          NotYetAccepted(cards, i, accepted);
          ghost var before, at := accepted, 0;
          accepted, at := InsertByPriority(accepted, cards[i]);
          InsertKeepsTies(cards, i, before, at);
        }
      }
      assert cards[..|cards|] == cards;
    }

    // First discoveries get an origin; the others count as duplicates of the source.
    method NoteCards(i: nat, cards: seq<Card>) returns (unseen: seq<Card>, duplicates: nat)
      requires i < |scheduler.sources| && seen == origin.Keys
      modifies this`origin, this`seen, scheduler`sources
      ensures Noted(old(origin), origin, old(scheduler.sources)[i].key, cards, |cards|, unseen, duplicates)
      ensures seen == origin.Keys
      ensures scheduler.sources == old(scheduler.sources)[i :=
        old(scheduler.sources)[i].(duplicates := old(scheduler.sources)[i].duplicates + duplicates)]
    {
      unseen, duplicates := [], 0;
      var source := scheduler.sources[i];
      NothingNoted(origin, source.key, cards);
      hide Noted;
      for k := 0 to |cards|
        invariant scheduler.sources ==
          old(scheduler.sources)[i := source.(duplicates := source.duplicates + duplicates)]
        invariant Noted(old(origin), origin, source.key, cards, k, unseen, duplicates) && seen == origin.Keys
      {
        var id := cards[k].ref.externalId;
        NoteNext(old(origin), origin, source.key, cards, k, unseen, duplicates);
        if id == "" {
        } else if id in origin {
          duplicates := duplicates + 1;
          scheduler.sources := scheduler.sources[i :=
            scheduler.sources[i].(duplicates := scheduler.sources[i].duplicates + 1)];
          if source.key !in origin[id] { origin := origin[id := origin[id] + [source.key]]; }
        } else {
          seen := seen + {id};
          origin := origin[id := [source.key]];
          unseen := unseen + [cards[k]];
        }
      }
    }

    // Reads one page: what of it is new, and what of that is worth delivering.
    method ReadCards(i: nat, cards: seq<Card>) returns (unseen: seq<Card>, accepted: seq<Card>)
      requires i < |scheduler.sources| && seen == origin.Keys && Attributed()
      modifies this`origin, this`seen, this`eligible, this`selected, scheduler`sources
      ensures Attributed() && SameKeys(old(scheduler.sources), scheduler.sources)
      ensures AnalyzedBy(scheduler.sources) == AnalyzedBy(old(scheduler.sources))
      ensures seen == origin.Keys && OriginsGrow(old(origin), origin, old(scheduler.sources)[i].key)
      ensures unseen == FreshCards(cards, old(origin).Keys) && Distinct(RefsOf(unseen))
      ensures origin.Keys == old(origin).Keys + Ids(RefsOf(unseen)) && Ids(RefsOf(unseen)) !! old(origin).Keys
      ensures RanksAs(unseen, sampled, accepted)
      ensures Audits(old(eligible), eligible, old(selected), selected, unseen, |unseen|, sampled)
      ensures forall k :: 0 <= k < |cards| && cards[k].ref.externalId != "" ==> cards[k].ref.externalId in origin
    {
      hide Distinct, Ids, RefsOf, RanksAs, Audits, UpdateSource, AnalyzedBy, Counted, Named, SameCounts, OriginsGrow;
      var duplicates;
      ghost var source := scheduler.sources[i];
      SameCountsAt(scheduler.sources, i, source);
      unseen, duplicates := NoteCards(i, cards);
      assert cards[..|cards|] == cards;
      SameCountsAt(old(scheduler.sources), i, source.(duplicates := source.duplicates + duplicates));
      var rejected;
      accepted, rejected := PreRank(unseen);
      CountPage(i, |cards|, |unseen|);
      SameCountsKeep(old(scheduler.sources), scheduler.sources);
    }

    method CountPage(i: nat, raw: nat, unique: nat)
      requires i < |scheduler.sources|
      modifies scheduler`sources
      ensures forall sources :: SameCounts(sources, old(scheduler.sources)) ==> SameCounts(sources, scheduler.sources)
    {
      UpdateCounts(scheduler.sources[i], scheduler.turn, raw, unique, 0, 0, 0, true, scheduler.weak);
      hide UpdateSource;
      scheduler.Update(i, raw, unique, 0, 0, 0, true);
    }

    // The cards of one page: known ids count as duplicates, new ones are queued or ruled out.
    method RecordDiscovery(i: nat, cards: seq<Card>) returns (output: seq<JobRef>)
      requires Valid() && i < |scheduler.sources|
      modifies this`pending, this`origin, this`seen, this`eligible, this`selected, scheduler`sources
      ensures Valid() && Yields(old(Contents()), Contents(), cards, sampled, [], output)
      ensures OriginsGrow(old(origin), origin, old(scheduler.sources)[i].key)
      ensures SameKeys(old(scheduler.sources), scheduler.sources)
      ensures AnalyzedBy(scheduler.sources) == AnalyzedBy(old(scheduler.sources))
      ensures forall k :: 0 <= k < |cards| && cards[k].ref.externalId != "" ==> cards[k].ref.externalId in origin
      ensures Ids(output) !! old(origin).Keys
    {
      hide Distinct, Ids, RefsOf, AnalyzedBy, Counted, Partition, Audited, Audits, RanksAs, RuledOut;
      hide RuledOutOn, OriginsGrow;
      ghost var before := Contents();
      var unseen, accepted := ReadCards(i, cards);
      output := RefsOf(accepted);
      RankingIsRanked(unseen, sampled, accepted);
      OnlyRuledOutAreLost(unseen, accepted, sampled);
      AuditKeeps(old(eligible), eligible, old(selected), selected, unseen, sampled, before.known);
      DiscoveryKeepsPartition(handed, pending, before.ruledOut, before.known, Ids(RefsOf(unseen)), output);
      pending := pending + output;
      assert [] + output == output && handed + [] == handed;
    }

    // ---- sources ----

    method FindSource(key: string) returns (found: Option<nat>)
      ensures found.Some? ==> found.value < |scheduler.sources| && scheduler.sources[found.value].key == key
      ensures found.Some? ==> forall i :: 0 <= i < found.value ==> scheduler.sources[i].key != key
      ensures found.None? ==> forall i :: 0 <= i < |scheduler.sources| ==> scheduler.sources[i].key != key
    {
      for i := 0 to |scheduler.sources|
        invariant forall j :: 0 <= j < i ==> scheduler.sources[j].key != key
      {
        if scheduler.sources[i].key == key { return Some(i); }
      }
      return None;
    }

    method PickVictim(rule: Eviction) returns (victim: Option<nat>)
      ensures victim.None? ==> forall i :: 0 <= i < |scheduler.sources| ==>
        !MayEvict(scheduler.sources, rule, imprecise, i)
      ensures victim.Some? ==> Evicts(scheduler.sources, rule, imprecise, victim.value)
    {
      var sources := scheduler.sources;
      var idle := false;
      for i := 0 to |sources|
        invariant idle <==> exists j :: 0 <= j < i && Idle(sources[j])
      {
        if Idle(sources[i]) { idle := true; }
      }
      victim := None;
      for i := 0 to |sources|
        invariant victim.None? ==> forall j :: 0 <= j < i ==> !MayEvict(sources, rule, imprecise, j)
        invariant victim.Some? ==> victim.value < i && MayEvict(sources, rule, imprecise, victim.value)
        invariant victim.Some? ==> forall j :: 0 <= j < i && MayEvict(sources, rule, imprecise, j) ==>
          !WorthLess(sources[j], sources[victim.value], rule)
      {
        if Idle(sources[i]) || (!idle && Weak(sources[i], rule, imprecise)) {
          WorthLessIsStrict(sources[i], rule);
          if victim.None? || WorthLess(sources[i], sources[victim.value], rule) {
            forall j | 0 <= j < i && victim.Some? && WorthLess(sources[j], sources[i], rule)
              ensures WorthLess(sources[j], sources[victim.value], rule)
            {
              WorthLessIsTransitive(sources[j], sources[i], sources[victim.value], rule);
            }
            victim := Some(i);
          }
        }
      }
    }

    // Drops the source least worth keeping, if the rule allows dropping one at all.
    method MakeRoom(rule: Eviction) returns (made: bool)
      requires Valid()
      modifies scheduler`sources
      ensures Valid() && AnalyzedBy(scheduler.sources) <= AnalyzedBy(old(scheduler.sources))
      ensures if made then
          |scheduler.sources| == |old(scheduler.sources)| - 1
          && exists v: nat :: Drops(old(scheduler.sources), scheduler.sources, rule, imprecise, v)
        else scheduler.sources == old(scheduler.sources) && !Evictable(scheduler.sources, rule, imprecise)
      ensures made <==> Evictable(old(scheduler.sources), rule, imprecise)
    {
      var victim := PickVictim(rule);
      if victim.None? { return false; }
      var v := victim.value;
      RemoveAnalyzed(scheduler.sources, v);
      hide Evicts;
      ghost var before := scheduler.sources;
      scheduler.sources := scheduler.sources[..v] + scheduler.sources[v + 1..];
      assert Drops(before, scheduler.sources, rule, imprecise, v);
      return true;
    }

    // A validated source enters with empty counters while there is room, or in another one's place.
    method AddSource(key: string, isProtected: bool, rule: Eviction) returns (found: Option<nat>)
      requires Valid()
      modifies scheduler`sources
      ensures Valid() && AnalyzedBy(scheduler.sources) <= AnalyzedBy(old(scheduler.sources))
      ensures found.None? <==> NoRoom(old(scheduler.sources), key, rule, imprecise)
      ensures found.None? ==> scheduler.sources == old(scheduler.sources)
      ensures found.Some? ==> found.value < |scheduler.sources| && scheduler.sources[found.value].key == key
    {
      hide Drops, Partition, Audited, RuledOut, Evictable, AnalyzedBy, Counted;
      found := FindSource(key);
      if found.Some? { return found; }
      if |scheduler.sources| >= MAX_ACTIVE {
        var made := MakeRoom(rule);
        if !made { return None; }
      }
      OneMoreSource(scheduler.sources, EmptySource(key, isProtected));
      scheduler.sources := scheduler.sources + [EmptySource(key, isProtected)];
      return Some(|scheduler.sources| - 1);
    }

    // Vacancies linked from a relevant detail page, through a source of their own.
    method DiscoverRelated(cards: seq<Card>) returns (output: seq<JobRef>)
      requires Valid()
      modifies this`pending, this`origin, this`seen, this`eligible, this`selected, scheduler`sources
      ensures Valid() && AnalyzedBy(scheduler.sources) <= AnalyzedBy(old(scheduler.sources))
      ensures if NoRoom(old(scheduler.sources), RELATED, RelatedPage, imprecise)
        then output == [] && Contents() == old(Contents()) && scheduler.sources == old(scheduler.sources)
        else Yields(old(Contents()), Contents(), cards, sampled, [], output)
      ensures Follows(old(scheduler.sources), imprecise, old(Contents()), Contents(), cards, sampled)
      ensures Ids(output) !! old(origin).Keys
    {
      ghost var before := Contents();
      var related := AddSource(RELATED, false, RelatedPage);
      if related.None? { NoIds(); return []; }
      hide Partition, Audited, AnalyzedBy, Counted, Ids, Yields;
      assert Contents() == before;
      output := RecordDiscovery(related.value, cards);
      YieldsAppends(before, Contents(), cards, sampled, output);
    }

    // ---- delivery ----

    // A page that repeats three times in a row ends its source for now.
    method NoteRepeat(i: nat, repeated: bool)
      requires i < |scheduler.sources| && backoff >= 1
      modifies scheduler`sources
      ensures |scheduler.sources| == |old(scheduler.sources)| && SameCounts(old(scheduler.sources), scheduler.sources)
      ensures var s, s' := old(scheduler.sources)[i], scheduler.sources[i];
        && s'.repeats == (if repeated then s.repeats + 1 else 0) && s'.cursor == s.cursor
        && s'.exhausted == (s.exhausted || s'.repeats >= 3)
        && (s'.repeats >= 3 ==> s'.nextRefresh == scheduler.turn + backoff)
    {
      var s := scheduler.sources[i];
      ghost var before := scheduler.sources;
      scheduler.sources := scheduler.sources[i := s.(repeats := if repeated then s.repeats + 1 else 0)];
      if repeated && scheduler.sources[i].repeats >= 3 {
        scheduler.MarkExhausted(i, backoff);
      }
      assert scheduler.sources == before[i := scheduler.sources[i]];
      SameCountsAt(before, i, scheduler.sources[i]);
    }

    method EndVisit(i: nat, page: Page)
      requires page.Cards? && i < |scheduler.sources| && backoff >= 1
      modifies scheduler`sources, this`backoff
      ensures backoff == NextBackoff(page, old(backoff))
      ensures |scheduler.sources| == |old(scheduler.sources)| && SameCounts(old(scheduler.sources), scheduler.sources)
      ensures var s, s' := old(scheduler.sources)[i], scheduler.sources[i];
        && s'.repeats == s.repeats && s'.cursor == s.cursor + 1
        && s'.exhausted == (s.exhausted || EndsSource(page))
        && s'.nextRefresh == if EndsSource(page) then scheduler.turn + EndDelay(page, old(backoff)) else s.nextRefresh
    {
      ghost var before := scheduler.sources;
      scheduler.sources := scheduler.sources[i := scheduler.sources[i].(cursor := scheduler.sources[i].cursor + 1)];
      if page.unavailable {
        scheduler.MarkExhausted(i, if backoff < MAX_BACKOFF then backoff else MAX_BACKOFF);
      } else if page.terminal || (page.cards == [] && !page.repeated) {
        scheduler.MarkExhausted(i, backoff);
        backoff := if 2 * backoff < MAX_BACKOFF then 2 * backoff else MAX_BACKOFF;
      } else {
        backoff := 1;
      }
      assert scheduler.sources == before[i := scheduler.sources[i]];
      SameCountsAt(before, i, scheduler.sources[i]);
    }

    // What a page visit leaves in its source besides the cards.
    method FinishPage(i: nat, page: Page)
      requires page.Cards? && i < |scheduler.sources| && backoff >= 1
      modifies scheduler`sources, this`backoff
      ensures SameCounts(old(scheduler.sources), scheduler.sources)
      ensures backoff == NextBackoff(page, old(backoff))
      ensures |scheduler.sources| == |old(scheduler.sources)|
        && Visited(old(scheduler.sources)[i], scheduler.sources[i], page, scheduler.turn, old(backoff))
    {
      hide SameCounts;
      ghost var sources0 := scheduler.sources;
      NoteRepeat(i, page.repeated);
      ghost var sources1 := scheduler.sources;
      CountTime(i);
      SameCountsChain(sources0, sources1, scheduler.sources);
      ghost var sources2 := scheduler.sources;
      EndVisit(i, page);
      SameCountsChain(sources0, sources2, scheduler.sources);
    }

    method CountTime(i: nat)
      requires i < |scheduler.sources|
      modifies scheduler`sources
      ensures |scheduler.sources| == |old(scheduler.sources)|
      ensures var s, s' := old(scheduler.sources)[i], scheduler.sources[i];
        s'.exhausted == s.exhausted && s'.repeats == s.repeats && s'.cursor == s.cursor
        && s'.nextRefresh >= s.nextRefresh
      ensures SameCounts(old(scheduler.sources), scheduler.sources)
    {
      UpdateCounts(scheduler.sources[i], scheduler.turn, 0, 0, 0, 0, 0, false, scheduler.weak);
      hide UpdateSource;
      scheduler.Update(i, 0, 0, 0, 0, 0, false);
    }

    method CountFailure(i: nat)
      requires i < |scheduler.sources|
      modifies scheduler`sources
      ensures SameCounts(old(scheduler.sources), scheduler.sources)
    {
      UpdateCounts(scheduler.sources[i], scheduler.turn, 0, 0, 0, 0, 1, true, scheduler.weak);
      hide UpdateSource;
      scheduler.Update(i, 0, 0, 0, 0, 1, true);
      var s := scheduler.sources[i];
      scheduler.sources := scheduler.sources[i := s.(nextRefresh := scheduler.turn + FailureDelay(s.failures))];
    }

    // Hands out the first of the page's new references; the rest of them stays pending.
    method HandOut(output: seq<JobRef>, limit: nat) returns (returned: seq<JobRef>)
      requires Valid() && |output| <= |pending| && pending == pending[..|pending| - |output|] + output
      modifies this`pending, this`handed
      ensures Valid() && handed == old(handed) + returned
      ensures returned == if limit < |output| then output[..limit] else output
      ensures pending == old(pending)[..|old(pending)| - |output|] + output[|returned|..]
    {
      hide Partition, Audited, RuledOut, P.Unqueued, AnalyzedBy, Counted;
      var n := if limit < |output| then limit else |output|;
      returned := output[..n];
      var older := pending[..|pending| - |output|];
      assert output == returned + output[n..];
      assert pending == older + (returned + output[n..]) && pending == older + returned + output[n..];
      HandingOutKeepsPartition(handed, older, returned, output[n..], RuledOut(eligible, selected), origin.Keys);
      pending := P.Unqueued(pending, set k | 0 <= k < |returned| :: returned[k].externalId);
      handed := handed + returned;
    }

    method PickSource(draw: Draw) returns (chosen: Option<nat>)
      requires Attributed()
      modifies scheduler
      ensures Attributed() && SameKeys(old(scheduler.sources), scheduler.sources)
      ensures chosen.None? <==> !AnyAvailable(WakeAll(old(scheduler.sources), old(scheduler.turn)))
      ensures chosen.Some? ==> chosen.value < |scheduler.sources| && Available(scheduler.sources[chosen.value])
    {
      WakingKeepsCounts(scheduler.sources, scheduler.turn);
      ghost var sources := scheduler.sources;
      chosen := scheduler.Choose(draw);
      hide SameCounts, WakeAll, AnalyzedBy, Counted;
      SameCountsKeep(sources, scheduler.sources);
    }

    // The batch that one visit hands out, the rest queued behind what was pending.
    method VisitSource(i: nat, page: Page, precise: bool) returns (returned: seq<JobRef>)
      requires Valid() && backoff >= 1 && i < |scheduler.sources|
      modifies this, scheduler`sources
      ensures Valid() && backoff >= 1
      ensures Collects(false, false, old(Contents()), Contents(), page, sampled, returned)
      ensures |returned| <= EXPLOIT_BATCH && Ids(returned) !! old(origin).Keys
      ensures |scheduler.sources| == |old(scheduler.sources)|
      ensures page.Cards? && |old(pending)| < |pending| ==>
        |returned| == BatchSize(scheduler.sources[i], scheduler.turn, precise)
    {
      NoIds();
      hide Partition, Audited, RuledOut, Ids, SameCounts, AnalyzedBy, Counted, Yields, Visited;
      ghost var shelf := Contents();
      ghost var before := scheduler.sources;
      if page.Unreachable? {
        CountFailure(i);
        SameCountsKeep(before, scheduler.sources);
        return [];
      }
      var output := RecordDiscovery(i, page.cards);
      ghost var found := Contents();
      YieldsAppends(shelf, found, page.cards, sampled, output);
      before := scheduler.sources;
      FinishPage(i, page);
      SameCountsKeep(before, scheduler.sources);
      var limit := BatchSize(scheduler.sources[i], scheduler.turn, precise);
      assert pending[..|pending| - |output|] == shelf.pending;
      returned := HandOut(output, limit);
      PrefixIds(output, returned);
      BatchIsTaken(shelf, found, Contents(), page, sampled, output, returned);
    }

    // One visit to the source the scheduler picks. `page` is what the adapter read, `now` the clock.
    method CollectCardRefs(draw: Draw, page: Page, precise: bool, now: int) returns (returned: seq<JobRef>)
      requires Valid() && backoff >= 1
      modifies this, scheduler
      ensures Valid() && backoff >= 1
      ensures Collects(
        Early(old(retryDeadline), now), Idles(old(scheduler.sources), old(scheduler.turn), old(retryDeadline).Some?),
        old(Contents()), Contents(), page, sampled, returned)
      ensures |returned| <= EXPLOIT_BATCH && Ids(returned) !! old(origin).Keys
    {
      NoIds();
      hide Partition, Audited, RuledOut, Ids, NextWakeup, WakeAll, AnalyzedBy, Counted, Collects;
      ghost var shelf, turn := Contents(), scheduler.turn;
      returned := [];
      if retryDeadline.Some? {
        if now < retryDeadline.value {
          StillWaiting(true, false, shelf, page, sampled);
          StillWaiting(true, true, shelf, page, sampled);
          return;
        }
        var moved := scheduler.AdvanceToWakeup();
        retryDeadline := None;
      }
      ClockIsUnique(scheduler.sources, turn, old(retryDeadline).Some?, scheduler.turn);
      var chosen := PickSource(draw);
      if chosen.None? {
        StillWaiting(false, true, shelf, page, sampled);
        retryDeadline := Some(now + RetryDelay(scheduler.sources, scheduler.turn));
        return;
      }
      assert Contents() == shelf;
      returned := VisitSource(chosen.value, page, precise);
    }

    // The next delivery: an older pending reference first, otherwise a new page.
    method CollectMore(draw: Draw, page: Page, precise: bool, now: int) returns (returned: seq<JobRef>)
      requires Valid() && backoff >= 1
      modifies this, scheduler
      ensures Valid() && backoff >= 1 && |returned| <= EXPLOIT_BATCH
      ensures old(pending) != [] ==> returned == [old(pending)[0]]
      ensures old(pending) != [] ==>
        Contents() == old(Contents()).(handed := old(handed) + returned, pending := old(pending)[1..])
      ensures old(pending) == [] ==> Ids(returned) !! old(origin).Keys && Collects(
        Early(old(retryDeadline), now), Idles(old(scheduler.sources), old(scheduler.turn), old(retryDeadline).Some?),
        old(Contents()), Contents(), page, sampled, returned)
    {
      if pending != [] {
        var ref := NextRef();
        return [ref.value];
      }
      hide Valid, Collects, Idles;
      returned := CollectCardRefs(draw, page, precise, now);
    }

    method NextRef() returns (ref: Option<JobRef>)
      requires Valid()
      modifies this`pending, this`handed
      ensures Valid()
      ensures if old(pending) == [] then ref.None? && pending == [] && handed == old(handed)
        else ref == Some(old(pending)[0]) && pending == old(pending)[1..] && handed == old(handed) + [old(pending)[0]]
    {
      if pending == [] { return None; }
      ref := Some(pending[0]);
      assert handed + pending == (handed + [pending[0]]) + pending[1..];
      handed := handed + [pending[0]];
      pending := pending[1..];
    }

    // ---- verdicts ----

    method CountVerdict(i: nat, relevant: bool)
      requires i < |scheduler.sources| && Counted(scheduler.sources)
      modifies scheduler`sources
      ensures AnalyzedBy(scheduler.sources) == AnalyzedBy(old(scheduler.sources)) + 1 && Counted(scheduler.sources)
      ensures scheduler.sources ==
        old(scheduler.sources)[i := WithVerdict(old(scheduler.sources)[i], scheduler.turn, relevant, scheduler.weak)]
    {
      var found := if relevant then 1 else 0;
      UpdateCounts(scheduler.sources[i], scheduler.turn, 0, 0, 1, found, 0, true, scheduler.weak);
      UpdateAnalyzed(scheduler.sources, i, WithVerdict(scheduler.sources[i], scheduler.turn, relevant, scheduler.weak));
      hide UpdateSource, AnalyzedBy;
      scheduler.Update(i, 0, 0, 1, found, 0, true);
    }

    // Attribution is to the first source that discovered the vacancy, once, if it is still there.
    method Attribute(id: string, relevant: bool)
      requires Valid() && AnalyzedBy(scheduler.sources) < |analyzed|
      modifies this`observedBySource, scheduler`sources
      ensures Valid()
      ensures Attributes(
        origin, old(observedBySource), observedBySource, old(scheduler.sources), scheduler.sources, scheduler.turn,
        scheduler.weak, id, relevant)
    {
      hide AnalyzedBy, Counted, Partition, WithVerdict;
      if id !in origin || origin[id] == [] { return; }
      var key := origin[id][0];
      var observed := if key in observedBySource then observedBySource[key] else {};
      if id in observed { return; }
      observedBySource := observedBySource[key := observed + {id}];
      var source := FindSource(key);
      if source.Some? {
        ghost var before := scheduler.sources;
        CountVerdict(source.value, relevant);
        assert BooksVerdict(before, scheduler.sources, key, source.value, scheduler.turn, scheduler.weak, relevant);
      }
    }

    method NoteVerdict(id: string, relevant: bool)
      requires Valid() && id !in analyzed
      modifies this`analyzed, this`relevantIds, this`verdicts, this`analysisCount
      ensures Valid() && AnalyzedBy(scheduler.sources) < |analyzed|
      ensures analyzed == old(analyzed) + {id} && verdicts == old(verdicts)[id := relevant]
      ensures relevantIds == if relevant then old(relevantIds) + {id} else old(relevantIds)
    {
      VerdictKeepsTallies(scheduler.sources, analyzed, relevantIds, verdicts, analysisCount, id, relevant);
      hide Partition, Tallied;
      analyzed, analysisCount, verdicts, relevantIds :=
        analyzed + {id}, analysisCount + 1, verdicts[id := relevant],
        if relevant then relevantIds + {id} else relevantIds;
    }

    // The first verdict on a vacancy counts. `linked` holds the cards that a detail page links to.
    method Observe(id: string, relevant: bool, linked: Option<seq<Card>>) returns (counted: bool)
      requires Valid()
      modifies this`analyzed, this`relevantIds, this`verdicts, this`analysisCount, this`observedBySource
      modifies this`pending, this`origin, this`seen, this`eligible, this`selected, scheduler`sources
      ensures Valid()
      ensures counted <==> id !in old(analyzed)
      ensures !counted ==>
        analyzed == old(analyzed) && Contents() == old(Contents()) && scheduler.sources == old(scheduler.sources)
      ensures counted ==> analyzed == old(analyzed) + {id} && verdicts == old(verdicts)[id := relevant]
      ensures counted ==> relevantIds == if relevant then old(relevantIds) + {id} else old(relevantIds)
      ensures counted && !(relevant && linked.Some?) ==> Contents() == old(Contents()) && Attributes(
        origin, old(observedBySource), observedBySource, old(scheduler.sources), scheduler.sources,
        scheduler.turn, scheduler.weak, id, relevant)
      ensures counted && relevant && linked.Some? ==>
        Follows(old(scheduler.sources), imprecise, old(Contents()), Contents(), linked.value, sampled)
      ensures counted && relevant && linked.Some? ==> AttributesLater(
        origin, old(observedBySource), observedBySource, old(scheduler.sources), scheduler.sources,
        scheduler.turn, scheduler.weak, id)
    {
      if id in analyzed { return false; }
      hide Valid, Attributes, AttributesLater, Follows;
      CountFirstVerdict(id, relevant, linked);
      return true;
    }

    method CountFirstVerdict(id: string, relevant: bool, linked: Option<seq<Card>>)
      requires Valid() && id !in analyzed
      modifies this`analyzed, this`relevantIds, this`verdicts, this`analysisCount, this`observedBySource
      modifies this`pending, this`origin, this`seen, this`eligible, this`selected, scheduler`sources
      ensures Valid()
      ensures analyzed == old(analyzed) + {id} && verdicts == old(verdicts)[id := relevant]
      ensures relevantIds == if relevant then old(relevantIds) + {id} else old(relevantIds)
      ensures !(relevant && linked.Some?) ==> Contents() == old(Contents()) && Attributes(
        origin, old(observedBySource), observedBySource, old(scheduler.sources), scheduler.sources,
        scheduler.turn, scheduler.weak, id, relevant)
      ensures relevant && linked.Some? ==>
        Follows(old(scheduler.sources), imprecise, old(Contents()), Contents(), linked.value, sampled)
      ensures relevant && linked.Some? ==> AttributesLater(
        origin, old(observedBySource), observedBySource, old(scheduler.sources), scheduler.sources,
        scheduler.turn, scheduler.weak, id)
    {
      hide Valid, AnalyzedBy, Ids, Attributes, Yields, NoRoom, RuledOut, Follows;
      NoteVerdict(id, relevant);
      if relevant && linked.Some? {
        var related := DiscoverRelated(linked.value);
      }
      ghost var found := scheduler.sources;
      Attribute(id, relevant);
      assert AnalyzedBy(found) <= AnalyzedBy(old(scheduler.sources));
    }
  }

  // A source after one verdict on a vacancy it discovered first.
  function WithVerdict(s: Source, turn: int, relevant: bool, weak: Source -> bool): Source {
    UpdateSource(s, turn, 0, 0, 1, if relevant then 1 else 0, 0, true, weak)
  }

  function ObservedBy(observed: map<string, set<string>>, key: string): set<string> {
    if key in observed then observed[key] else {}
  }

  // The verdict is booked on the first origin, unless that origin has it already; the counters move
  // only if the source is still among the active ones.
  ghost predicate Attributes(
    origin: map<string, seq<string>>, observed: map<string, set<string>>, observed': map<string, set<string>>,
    sources: seq<Source>, sources': seq<Source>, turn: int, weak: Source -> bool, id: string, relevant: bool)
  {
    if id !in origin || origin[id] == [] || id in ObservedBy(observed, origin[id][0]) then
      observed' == observed && sources' == sources
    else
      var key := origin[id][0];
      && observed' == observed[key := ObservedBy(observed, key) + {id}]
      && if forall i :: 0 <= i < |sources| ==> sources[i].key != key then sources' == sources
         else exists i: nat :: BooksVerdict(sources, sources', key, i, turn, weak, relevant)
  }

  // A relevant verdict whose detail page links to others is booked after their discovery, which adds
  // no analysis to any source.
  ghost predicate AttributesLater(
    origin: map<string, seq<string>>, observed: map<string, set<string>>, observed': map<string, set<string>>,
    sources: seq<Source>, sources': seq<Source>, turn: int, weak: Source -> bool, id: string)
  {
    exists found :: AnalyzedBy(found) <= AnalyzedBy(sources)
                    && Attributes(origin, observed, observed', found, sources', turn, weak, id, true)
  }

  predicate BooksVerdict(
    sources: seq<Source>, sources': seq<Source>, key: string, i: nat, turn: int, weak: Source -> bool, relevant: bool)
  {
    && i < |sources| && sources[i].key == key && (forall j :: 0 <= j < i ==> sources[j].key != key)
    && sources' == sources[i := WithVerdict(sources[i], turn, relevant, weak)]
  }

  function Occurrences(refs: seq<JobRef>, id: string): nat {
    if refs == [] then 0
    else Occurrences(refs[..|refs| - 1], id) + Bit(refs[|refs| - 1].externalId == id)
  }

  lemma {:induction false} OccursOnce(refs: seq<JobRef>, id: string)
    requires Distinct(refs)
    ensures Occurrences(refs, id) == Bit(id in Ids(refs))
  {
    if refs == [] {
      NoIds();
    } else {
      Snoc(refs);
      OccursOnce(refs[..|refs| - 1], id);
    }
  }

  lemma {:induction false} OccurrencesOfSum(a: seq<JobRef>, b: seq<JobRef>, id: string)
    ensures Occurrences(a + b, id) == Occurrences(a, id) + Occurrences(b, id)
  {
    if b == [] {
      assert a + b == a;
    } else {
      var last := |b| - 1;
      assert (a + b)[..|a + b| - 1] == a + b[..last];
      OccurrencesOfSum(a, b[..last], id);
    }
  }

  // In every valid state each discovered id was handed out once, or is pending once, or was rejected
  // and not drawn for audit, and never two of these; no other id was ever handed out.
  lemma DeliveredOnce(
    handed: seq<JobRef>, pending: seq<JobRef>, eligible: seq<string>, selected: seq<string>,
    sampled: string -> bool, known: set<string>, id: string)
    requires Partition(handed, pending, RuledOut(eligible, selected), known)
    requires Audited(eligible, selected, sampled, known)
    ensures Occurrences(handed, id) + Occurrences(pending, id) + Bit(id in eligible && !sampled(id)) == Bit(id in known)
  {
    OccursOnce(handed + pending, id);
    OccurrencesOfSum(handed, pending, id);
  }

  // The deadline set when no source could be served has not passed.
  predicate Early(deadline: Option<int>, now: int) { deadline.Some? && now < deadline.value }

  // Logical time at a visit: once the deadline has passed it moves to the next wakeup, if there is one.
  ghost predicate ClockAt(sources: seq<Source>, turn: int, due: bool, t: int) {
    if due then NextWakeup(sources, turn, t) || (t == turn && Wakeless(sources, turn)) else t == turn
  }

  predicate Wakeless(sources: seq<Source>, turn: int) {
    forall i :: 0 <= i < |sources| ==> !FutureCooldown(sources[i], turn) && !FutureRefresh(sources[i], turn)
  }

  // Even then no source can be visited.
  ghost predicate Idles(sources: seq<Source>, turn: int, due: bool) {
    exists t :: ClockAt(sources, turn, due, t) && !AnyAvailable(WakeAll(sources, t))
  }

  lemma ClockIsUnique(sources: seq<Source>, turn: int, due: bool, t: int)
    requires ClockAt(sources, turn, due, t)
    ensures Idles(sources, turn, due) <==> !AnyAvailable(WakeAll(sources, t))
  {
    hide WakeAll;
    forall u | ClockAt(sources, turn, due, u)
      ensures u == t
    {
    }
  }

  lemma StillWaiting(waits: bool, idle: bool, s: Shelf, page: Page, sampled: string -> bool)
    requires waits || idle
    ensures Collects(waits, idle, s, s, page, sampled, [])
  {
  }

  lemma RankingIsRanked(cards: seq<Card>, sampled: string -> bool, ranked: seq<Card>)
    requires RanksAs(cards, sampled, ranked)
    ensures Ranks(cards, sampled, RefsOf(ranked)) && Distinct(RefsOf(ranked))
  {
  }

  lemma YieldsAppends(s: Shelf, s': Shelf, cards: seq<Card>, sampled: string -> bool, output: seq<JobRef>)
    requires Yields(s, s', cards, sampled, [], output)
    ensures s'.pending == s.pending + output && s'.handed == s.handed && s'.pending[|s.pending|..] == output
  {
    assert s.handed + [] == s.handed;
  }

  // Handing out the first of what a page yielded.
  lemma BatchIsTaken(
    s: Shelf, found: Shelf, s': Shelf, page: Page, sampled: string -> bool, output: seq<JobRef>, returned: seq<JobRef>)
    requires page.Cards? && Yields(s, found, page.cards, sampled, [], output)
    requires |returned| <= |output| && returned == output[..|returned|] && (returned == [] ==> output == [])
    requires s' == found.(handed := found.handed + returned, pending := s.pending + output[|returned|..])
    ensures Collects(false, false, s, s', page, sampled, returned)
  {
    assert s'.pending[|s.pending|..] == output[|returned|..];
    assert [] + output == returned + output[|returned|..];
  }

  // What an adapter reports about one page of a source.
  datatype Page = Unreachable | Cards(cards: seq<Card>, terminal: bool, repeated: bool, unavailable: bool)

  const MAX_BACKOFF := 128

  // A page without new navigation ends its source for now; so does one that keeps repeating.
  predicate EndsSource(page: Page)
    requires page.Cards?
  {
    page.unavailable || page.terminal || (page.cards == [] && !page.repeated)
  }

  function NextBackoff(page: Page, backoff: nat): nat
    requires page.Cards?
  {
    if page.unavailable then backoff
    else if EndsSource(page) then (if 2 * backoff < MAX_BACKOFF then 2 * backoff else MAX_BACKOFF)
    else 1
  }

  function EndDelay(page: Page, backoff: nat): nat
    requires page.Cards?
  {
    if page.unavailable && backoff > MAX_BACKOFF then MAX_BACKOFF else backoff
  }

  // What a visit makes of its source.
  predicate Visited(s: Source, s': Source, page: Page, turn: int, backoff: nat)
    requires page.Cards?
  {
    && s'.repeats == (if page.repeated then s.repeats + 1 else 0) && s'.cursor == s.cursor + 1
    && s'.exhausted == (s.exhausted || EndsSource(page) || s'.repeats >= 3)
    && (EndsSource(page) ==> s'.nextRefresh == turn + EndDelay(page, backoff))
    && (!EndsSource(page) && s'.repeats >= 3 ==> s'.nextRefresh >= turn + backoff)
  }

  // min(128, 2 ** min(failures + 1, 7))
  function FailureDelay(failures: nat): (n: nat)
    ensures 1 <= n <= MAX_BACKOFF
  {
    match failures
    case 0 => 2
    case 1 => 4
    case 2 => 8
    case 3 => 16
    case 4 => 32
    case 5 => 64
    case _ => 128
  }

  // Seconds until some cooldown or refresh may be over, between 1 and 128.
  function RetryDelay(sources: seq<Source>, turn: int): (n: nat)
    ensures 1 <= n <= MAX_BACKOFF
  {
    if sources == [] then 1
    else
      var s := sources[|sources| - 1];
      var rest := sources[..|sources| - 1];
      var own := if FutureCooldown(s, turn) && FutureRefresh(s, turn) then
          (if s.cooldownUntil.value < s.nextRefresh then s.cooldownUntil.value else s.nextRefresh) - turn
        else if FutureCooldown(s, turn) then s.cooldownUntil.value - turn
        else if FutureRefresh(s, turn) then s.nextRefresh - turn
        else MAX_BACKOFF;
      var others := if Wakeups(rest, turn) > 0 then RetryDelay(rest, turn) else MAX_BACKOFF;
      if Wakeups(sources, turn) == 0 then 1 else if own < others then own else others
  }

  lemma SameCountsAt(sources: seq<Source>, i: nat, s: Source)
    requires i < |sources| && s.key == sources[i].key && s.analyzed == sources[i].analyzed
    requires s.relevant == sources[i].relevant
    ensures SameCounts(sources, sources[i := s])
  {
  }

  lemma SameCountsChain(a: seq<Source>, b: seq<Source>, c: seq<Source>)
    requires SameCounts(a, b) && SameCounts(b, c)
    ensures SameCounts(a, c)
  {
  }

  lemma PrefixIds(output: seq<JobRef>, returned: seq<JobRef>)
    requires |returned| <= |output| && returned == output[..|returned|]
    ensures Ids(returned) <= Ids(output)
  {
    IdsOfSum(returned, output[|returned|..]);
    assert output == returned + output[|returned|..];
  }

  lemma {:induction false} UnqueuedSum(a: seq<JobRef>, b: seq<JobRef>, ids: set<string>)
    ensures P.Unqueued(a + b, ids) == P.Unqueued(a, ids) + P.Unqueued(b, ids)
  {
    if b == [] {
      assert a + b == a;
    } else {
      var last := |b| - 1;
      assert (a + b)[..|a + b| - 1] == a + b[..last];
      UnqueuedSum(a, b[..last], ids);
    }
  }

  lemma {:induction false} UnqueuedNone(a: seq<JobRef>, ids: set<string>)
    requires Ids(a) !! ids
    ensures P.Unqueued(a, ids) == a
  {
    if a != [] {
      Snoc(a);
      UnqueuedNone(a[..|a| - 1], ids);
    }
  }

  lemma {:induction false} UnqueuedAll(a: seq<JobRef>, ids: set<string>)
    requires Ids(a) <= ids
    ensures P.Unqueued(a, ids) == []
  {
    if a != [] {
      Snoc(a);
      UnqueuedAll(a[..|a| - 1], ids);
    }
  }

  // Taking the returned ids out of the queue takes out exactly the returned references.
  lemma TakenOut(older: seq<JobRef>, returned: seq<JobRef>, rest: seq<JobRef>, ids: set<string>)
    requires ids == Ids(returned) && Ids(older) !! ids && Ids(rest) !! ids
    ensures P.Unqueued(older + returned + rest, ids) == older + rest
  {
    hide Ids;
    UnqueuedSum(older + returned, rest, ids);
    UnqueuedSum(older, returned, ids);
    UnqueuedNone(older, ids);
    UnqueuedAll(returned, ids);
    UnqueuedNone(rest, ids);
  }

  lemma HandingOutKeepsPartition(
    handed: seq<JobRef>, older: seq<JobRef>, returned: seq<JobRef>, rest: seq<JobRef>, ruledOut: set<string>,
    known: set<string>)
    requires Partition(handed, older + (returned + rest), ruledOut, known)
    ensures P.Unqueued(older + returned + rest, set k | 0 <= k < |returned| :: returned[k].externalId) == older + rest
    ensures Partition(handed + returned, older + rest, ruledOut, known)
  {
    var ids := set k | 0 <= k < |returned| :: returned[k].externalId;
    assert ids == Ids(returned);
    assert handed + (older + (returned + rest)) == handed + older + returned + rest;
    assert handed + returned + (older + rest) == handed + returned + older + rest;
    hide Ids, Distinct, P.Unqueued;
    DistinctParts(handed + older, returned, rest);
    DistinctParts(handed, older, returned);
    TakenOut(older, returned, rest, ids);
    Swapped(handed, older, returned);
    Appended(handed + older + returned, handed + returned + older, rest);
  }

  lemma DistinctParts(a: seq<JobRef>, b: seq<JobRef>, c: seq<JobRef>)
    requires Distinct(a + b + c)
    ensures Distinct(a + b) && Ids(b) !! Ids(c) && Ids(a) !! Ids(b)
  {
    hide Ids, Distinct;
    DistinctSum(a + b, c);
    DistinctSum(a, b);
    IdsOfSum(a, b);
  }

  lemma Swapped(a: seq<JobRef>, b: seq<JobRef>, c: seq<JobRef>)
    requires Distinct(a + b + c)
    ensures Distinct(a + c + b) && Ids(a + c + b) == Ids(a + b + c)
  {
    hide Ids, Distinct;
    DistinctSum(a + b, c);
    DistinctSum(a, b);
    IdsOfSum(a, b);
    IdsOfSum(a + b, c);
    DistinctSum(a, c);
    DistinctSum(a + c, b);
    IdsOfSum(a, c);
    IdsOfSum(a + c, b);
  }

  lemma Appended(a: seq<JobRef>, b: seq<JobRef>, c: seq<JobRef>)
    requires Distinct(a + c) && Distinct(b) && Ids(a) == Ids(b)
    ensures Distinct(b + c) && Ids(b + c) == Ids(a + c)
  {
    hide Ids, Distinct;
    DistinctSum(a, c);
    DistinctSum(b, c);
    IdsOfSum(a, c);
    IdsOfSum(b, c);
  }

  // Why a source is dropped: to make room for one seen on a page, for a planned expansion, for a
  // related source a plan asked for, or for the related vacancies of a detail page.
  datatype Eviction = Visible | Expansion | RelatedSpec | RelatedPage

  predicate Idle(s: Source) { !s.isProtected && (s.exhausted || s.cooldownUntil.Some?) }

  predicate Weak(s: Source, rule: Eviction, imprecise: Source -> bool) {
    !s.isProtected && (rule.RelatedSpec? || (!rule.Visible? && s.analyzed >= COOLDOWN_ANALYSES && imprecise(s)))
  }

  predicate AnyIdle(sources: seq<Source>) { exists i :: 0 <= i < |sources| && Idle(sources[i]) }

  // Idle sources go first; only without one may a weak source go.
  predicate MayEvict(sources: seq<Source>, rule: Eviction, imprecise: Source -> bool, i: nat)
    requires i < |sources|
  {
    Idle(sources[i]) || (!AnyIdle(sources) && Weak(sources[i], rule, imprecise))
  }

  predicate Evictable(sources: seq<Source>, rule: Eviction, imprecise: Source -> bool) {
    exists i :: 0 <= i < |sources| && MayEvict(sources, rule, imprecise, i)
  }

  // A source cannot enter: it is not there, all places are taken, and none may be given up.
  predicate NoRoom(sources: seq<Source>, key: string, rule: Eviction, imprecise: Source -> bool) {
    && (forall i :: 0 <= i < |sources| ==> sources[i].key != key)
    && |sources| >= MAX_ACTIVE && !Evictable(sources, rule, imprecise)
  }

  // `last_used_at or -1`
  function Used(s: Source): int { if s.lastUsedAt.Some? && s.lastUsedAt.value != 0 then s.lastUsedAt.value else -1 }

  predicate WorthLess(a: Source, b: Source, rule: Eviction) {
    if a.exhausted != b.exhausted then a.exhausted
    else if a.analyzed != b.analyzed then a.analyzed < b.analyzed
    else if !rule.RelatedPage? && Used(a) != Used(b) then Used(a) < Used(b)
    else Less(a.key, b.key)
  }

  ghost predicate Evicts(sources: seq<Source>, rule: Eviction, imprecise: Source -> bool, v: nat) {
    && v < |sources| && MayEvict(sources, rule, imprecise, v) && !sources[v].isProtected
    && forall j :: 0 <= j < |sources| && MayEvict(sources, rule, imprecise, j) ==>
         !WorthLess(sources[j], sources[v], rule)
  }

  ghost predicate Drops(
    sources: seq<Source>, sources': seq<Source>, rule: Eviction, imprecise: Source -> bool, v: nat) {
    Evicts(sources, rule, imprecise, v) && v < |sources| && sources' == sources[..v] + sources[v + 1..]
  }

  lemma WorthLessIsTransitive(a: Source, b: Source, c: Source, rule: Eviction)
    requires WorthLess(a, b, rule) && WorthLess(b, c, rule)
    ensures WorthLess(a, c, rule)
  {
    if Less(a.key, b.key) && Less(b.key, c.key) { LessTransitive(a.key, b.key, c.key); }
  }

  lemma WorthLessIsStrict(a: Source, rule: Eviction)
    ensures !WorthLess(a, a, rule)
  {
    LessTotal(a.key, a.key);
  }

  function EmptySource(key: string, isProtected: bool): Source {
    Source(key, false, None, 0, None, isProtected, 0, 0, 0, 0, 0, 0, 0, 0, 0)
  }

  lemma OneMoreSource(sources: seq<Source>, s: Source)
    requires s.analyzed == 0 && s.relevant == 0
    ensures AnalyzedBy(sources + [s]) == AnalyzedBy(sources) && (Counted(sources) ==> Counted(sources + [s]))
  {
    assert (sources + [s])[..|sources|] == sources;
  }

  lemma NoIds()
    ensures Ids([]) == {}
  {
  }

  // What noting the first k cards of a page has made of the origins.
  ghost predicate Noted(
    origin: map<string, seq<string>>, origin': map<string, seq<string>>, key: string,
    cards: seq<Card>, k: nat, unseen: seq<Card>, duplicates: nat)
  {
    && k <= |cards|
    && OriginsGrow(origin, origin', key)
    && Distinct(RefsOf(unseen)) && Ids(RefsOf(unseen)) == origin'.Keys - origin.Keys && origin.Keys <= origin'.Keys
    && (forall j :: 0 <= j < k && cards[j].ref.externalId != "" ==> cards[j].ref.externalId in origin')
    && unseen == FreshCards(cards[..k], origin.Keys)
    && |unseen| + duplicates == Named(cards[..k])
  }

  lemma NothingNoted(origin: map<string, seq<string>>, key: string, cards: seq<Card>)
    ensures Noted(origin, origin, key, cards, 0, [], 0)
  {
    NoRefs();
  }

  lemma NoteNext(
    origin: map<string, seq<string>>, now: map<string, seq<string>>, key: string,
    cards: seq<Card>, k: nat, unseen: seq<Card>, duplicates: nat)
    requires Noted(origin, now, key, cards, k, unseen, duplicates) && k < |cards|
    ensures var id := cards[k].ref.externalId;
      && (id == "" ==> Noted(origin, now, key, cards, k + 1, unseen, duplicates))
      && (id != "" && id in now && key in now[id] ==> Noted(origin, now, key, cards, k + 1, unseen, duplicates + 1))
      && (id != "" && id in now && key !in now[id] ==>
        Noted(origin, now[id := now[id] + [key]], key, cards, k + 1, unseen, duplicates + 1))
      && (id != "" && id !in now ==>
        Noted(origin, now[id := [key]], key, cards, k + 1, unseen + [cards[k]], duplicates))
  {
    hide Distinct, Ids, RefsOf, OriginsGrow;
    assert cards[..k + 1][..k] == cards[..k] && cards[..k + 1][k] == cards[k];
    var id := cards[k].ref.externalId;
    if id in now {
      if key !in now[id] { KnownOriginGrows(origin, now, key, id); }
    } else {
      NewOriginGrows(origin, now, key, id);
      OneMoreCard(unseen, cards[k]);
    }
  }

  // Cards that carry an id at all.
  function Named(cards: seq<Card>): nat {
    if cards == [] then 0
    else
      var last := if cards[|cards| - 1].ref.externalId != "" then 1 else 0;
      Named(cards[..|cards| - 1]) + last
  }

  lemma {:induction false} SameCountsKeep(sources: seq<Source>, sources': seq<Source>)
    requires SameCounts(sources, sources')
    ensures SameKeys(sources, sources')
    ensures AnalyzedBy(sources') == AnalyzedBy(sources) && (Counted(sources) ==> Counted(sources'))
  {
    if sources != [] { SameCountsKeep(sources[..|sources| - 1], sources'[..|sources| - 1]); }
  }

  lemma NoRefs()
    ensures Distinct(RefsOf([])) && Ids(RefsOf([])) == {}
  {
  }

  lemma OneMoreCard(cards: seq<Card>, card: Card)
    ensures Ids(RefsOf(cards + [card])) == Ids(RefsOf(cards)) + {card.ref.externalId}
    ensures Distinct(RefsOf(cards)) && card.ref.externalId !in Ids(RefsOf(cards)) ==> Distinct(RefsOf(cards + [card]))
  {
    RefsOfSum(cards, [card]);
    assert RefsOf([card]) == [card.ref];
    SnocOf(RefsOf(cards), card.ref);
  }

  lemma NotYetAccepted(cards: seq<Card>, i: nat, accepted: seq<Card>)
    requires i < |cards| && Distinct(RefsOf(cards)) && cards[i] !in accepted
    requires forall card :: card in accepted ==> card in cards
    ensures cards[i].ref.externalId !in Ids(RefsOf(accepted))
    ensures cards[i] !in cards[..i]
  {
    FreshCard(cards, i);
    forall k | 0 <= k < |accepted|
      ensures RefsOf(accepted)[k].externalId != cards[i].ref.externalId
    {
      assert accepted[k] in cards;
    }
  }

  lemma FreshCard(cards: seq<Card>, i: nat)
    requires i < |cards| && Distinct(RefsOf(cards))
    ensures forall j :: 0 <= j < |cards| && j != i ==> cards[j].ref.externalId != cards[i].ref.externalId
  {
    var refs := RefsOf(cards);
    forall j | 0 <= j < |cards| && j != i
      ensures cards[j].ref.externalId != cards[i].ref.externalId
    {
      assert refs[j] == cards[j].ref && refs[i] == cards[i].ref;
    }
  }
}
