// The HH discovery scheduler: a ten-slot cycle of lanes. Whatever the score function is, no
// source that stays ready waits longer than its lane's oldest-first turns allow, even when the
// source of related vacancies enters beside `add`.

module SearchScheduler {
  import opened Records

  datatype Source = Source(
    key: string, kind: string, cluster: string, exhausted: bool, visits: int, lastTurn: int,
    raw: real, novel: real, judged: real, relevant: real, seconds: real, retryAfter: int, retryAt: real)

  // The yield estimate, lowered for clusters served recently; only its order matters.
  type Score = (Source, int, seq<string>) -> real

  datatype Queue = Queue(sources: seq<Source>, turn: int, recent: seq<string>)

  const CYCLE := 10
  const RECOMMENDATIONS: set<string> := {"recommendations", "related", "resume", "resume_index"}

  predicate Recommends(source: Source) { source.kind in RECOMMENDATIONS }

  function Slot(turn: int): int { turn % CYCLE }

  predicate RecommendationSlot(turn: int) { Slot(turn) in {0, 1, 3, 5, 6, 8} }

  predicate OldestFirstSlot(turn: int) { Slot(turn) in {4, 8, 9} }

  predicate Awake(source: Source, now: real) { !source.exhausted && source.retryAt <= now }

  predicate Ready(source: Source, turn: int, now: real) { Awake(source, now) && source.retryAfter <= turn }

  predicate InLane(source: Source, turn: int) { Recommends(source) == RecommendationSlot(turn) }

  predicate LaneServes(sources: seq<Source>, turn: int, now: real) {
    exists i :: 0 <= i < |sources| && Ready(sources[i], turn, now) && InLane(sources[i], turn)
  }

  // An empty lane donates its turn.
  predicate Candidate(sources: seq<Source>, turn: int, now: real, i: nat)
    requires i < |sources|
  {
    Ready(sources[i], turn, now) && (LaneServes(sources, turn, now) ==> InLane(sources[i], turn))
  }

  predicate Preferred(a: Source, b: Source, turn: int, recent: seq<string>, score: Score) {
    if OldestFirstSlot(turn) then a.lastTurn < b.lastTurn || (a.lastTurn == b.lastTurn && a.visits < b.visits)
    else
      var x, y := score(a, turn, recent), score(b, turn, recent);
      x > y || (x == y && a.lastTurn < b.lastTurn)
  }

  // The first of the best candidates.
  ghost predicate Chooses(q: Queue, score: Score, now: real, i: nat) {
    && i < |q.sources| && Candidate(q.sources, q.turn, now, i)
    && forall j :: 0 <= j < |q.sources| && j != i && Candidate(q.sources, q.turn, now, j) ==>
      && !Preferred(q.sources[j], q.sources[i], q.turn, q.recent, score)
      && (j < i ==> Preferred(q.sources[i], q.sources[j], q.turn, q.recent, score))
  }

  function LastTwenty(recent: seq<string>, cluster: string): seq<string> {
    (if |recent| > 19 then recent[|recent| - 19..] else recent) + [cluster]
  }

  function Serve(q: Queue, i: nat): Queue
    requires i < |q.sources|
  {
    Queue(q.sources[i := q.sources[i].(lastTurn := q.turn)], q.turn + 1, LastTwenty(q.recent, q.sources[i].cluster))
  }

  // With nothing ready now, logical time jumps to the first retry among the sources whose wall-clock
  // wait is over.
  ghost predicate JumpsTo(q: Queue, now: real, turn: int) {
    if exists i :: 0 <= i < |q.sources| && Ready(q.sources[i], q.turn, now) then turn == q.turn
    else
      && (exists i :: 0 <= i < |q.sources| && Awake(q.sources[i], now) && q.sources[i].retryAfter == turn)
      && (forall i :: 0 <= i < |q.sources| && Awake(q.sources[i], now) ==> turn <= q.sources[i].retryAfter)
  }

  // One call of `choose` that returns source i.
  ghost predicate Selects(q: Queue, score: Score, now: real, i: nat, q': Queue) {
    exists t :: JumpsTo(q, now, t) && Chooses(q.(turn := t), score, now, i) && q' == Serve(q.(turn := t), i)
  }

  // Between two selections sources change their results and waits and new ones enter, none older
  // than the turn before.
  ghost predicate Disturbs(q: Queue, q': Queue) {
    && q'.turn == q.turn
    && |q.sources| <= |q'.sources|
    && (forall i :: 0 <= i < |q.sources| ==> SameStanding(q.sources[i], q'.sources[i]))
    && (forall i :: |q.sources| <= i < |q'.sources| ==> q'.sources[i].lastTurn >= q.turn - 1)
  }

  // Sources are held by key.
  ghost predicate Keyed(sources: seq<Source>) {
    forall i, j :: 0 <= i < j < |sources| ==> sources[i].key != sources[j].key
  }

  predicate IsRelated(source: Source) { source.key == "related" && source.kind == "related" && source.lastTurn == -1 }

  predicate HasRelated(sources: seq<Source>) { exists i :: 0 <= i < |sources| && sources[i].key == "related" }

  // The same, but the source of related vacancies may be among the new ones: it enters without
  // `add`, as if it had waited for ever.
  ghost predicate DisturbsWithRelated(q: Queue, q': Queue) {
    && q'.turn == q.turn
    && |q.sources| <= |q'.sources|
    && (forall i :: 0 <= i < |q.sources| ==> SameStanding(q.sources[i], q'.sources[i]))
    && (forall i :: |q.sources| <= i < |q'.sources| ==>
          q'.sources[i].lastTurn >= q.turn - 1 || IsRelated(q'.sources[i]))
  }

  // No more new references than references, no more relevant vacancies than judged ones.
  predicate Plausible(source: Source) {
    0.0 <= source.novel <= source.raw && 0.0 <= source.relevant <= source.judged && source.seconds >= 0.0
  }

  predicate SameStanding(a: Source, b: Source) { b.key == a.key && b.kind == a.kind && b.lastTurn == a.lastTurn }

  class Scheduler {
    var sources: seq<Source>
    var turn: int
    var recent: seq<string>

    constructor ()
      ensures State() == Queue([], 0, [])
    {
      sources, turn, recent := [], 0, [];
    }

    ghost function State(): Queue
      reads this
    {
      Queue(sources, turn, recent)
    }

    // A source enters once, no older than the turn before.
    method Add(source: Source)
      requires Keyed(sources)
      modifies this`sources
      ensures Keyed(sources)
      ensures
        if exists i :: 0 <= i < |old(sources)| && old(sources)[i].key == source.key then
          sources == old(sources)
        else
          var lastTurn := if source.lastTurn > turn - 1 then source.lastTurn else turn - 1;
          sources == old(sources) + [source.(lastTurn := lastTurn)]
      ensures Disturbs(old(State()), State())
    {
      for i := 0 to |sources|
        invariant forall j :: 0 <= j < i ==> sources[j].key != source.key
      {
        if sources[i].key == source.key { return; }
      }
      var lastTurn := if source.lastTurn > turn - 1 then source.lastTurn else turn - 1;
      sources := sources + [source.(lastTurn := lastTurn)];
    }

    // `setdefault`: the source of related vacancies is appended as it was made, or found and woken.
    method EnterRelated()
      requires Keyed(sources)
      modifies this`sources
      ensures Keyed(sources) && HasRelated(sources)
      ensures HasRelated(old(sources)) ==> Disturbs(old(State()), State())
      ensures !HasRelated(old(sources)) ==>
        && |sources| == |old(sources)| + 1 && sources[..|old(sources)|] == old(sources)
        && IsRelated(sources[|old(sources)|])
      ensures DisturbsWithRelated(old(State()), State())
      ensures exists i :: 0 <= i < |sources| && sources[i].key == "related" && !sources[i].exhausted
    {
      for i := 0 to |sources|
        invariant forall j :: 0 <= j < i ==> sources[j].key != "related"
      {
        if sources[i].key == "related" {
          sources := sources[i := sources[i].(exhausted := false)];
          assert sources[i].key == "related" && !sources[i].exhausted;
          return;
        }
      }
      sources := sources + [Source("related", "related", "", false, 0, -1, 0.0, 0.0, 0.0, 0.0, 0.0, 0, 0.0)];
      assert sources[|sources| - 1].key == "related" && !sources[|sources| - 1].exhausted;
    }

    method Batch(i: nat, raw: int, novel: int, seconds: real)
      requires i < |sources|
      modifies this`sources
      ensures var s := old(sources)[i];
        sources == old(sources)[i := s.(
          visits := s.visits + 1, raw := s.raw * 0.9 + raw as real, novel := s.novel * 0.9 + novel as real,
          judged := s.judged * 0.9, relevant := s.relevant * 0.9,
          seconds := s.seconds * 0.9 + (if seconds > 0.0 then seconds else 0.0))]
      ensures Plausible(old(sources)[i]) && 0 <= novel <= raw ==> Plausible(sources[i])
      ensures Disturbs(old(State()), State())
    {
      var s := sources[i].(visits := sources[i].visits + 1);
      s := s.(raw := s.raw * 0.9, novel := s.novel * 0.9, judged := s.judged * 0.9, relevant := s.relevant * 0.9,
              seconds := s.seconds * 0.9);
      s := s.(raw := s.raw + raw as real);
      s := s.(novel := s.novel + novel as real);
      s := s.(seconds := s.seconds + (if seconds > 0.0 then seconds else 0.0));
      sources := sources[i := s];
    }

    // A source is returned exactly when some source is neither exhausted nor waiting for the clock.
    method Choose(score: Score, now: real) returns (chosen: Option<nat>)
      modifies this
      ensures chosen.Some? <==> exists i :: 0 <= i < |old(sources)| && Awake(old(sources)[i], now)
      ensures chosen.None? ==> State() == old(State())
      ensures chosen.Some? ==> Selects(old(State()), score, now, chosen.value, State())
    {
      var ready := AnyReady(turn, now);
      var before := turn;
      if !ready {
        var jump := FirstRetry(now);
        if jump.None? { return None; }
        turn := jump.value;
      }
      assert JumpsTo(old(State()), now, turn);
      var best := PickBest(score, now);
      var served := sources[best].cluster;
      sources := sources[best := sources[best].(lastTurn := turn)];
      recent := LastTwenty(recent, served);
      turn := turn + 1;
      assert State() == Serve(old(State()).(turn := turn - 1), best);
      return Some(best);
    }

    method AnyReady(turn: int, now: real) returns (found: bool)
      ensures found <==> exists i :: 0 <= i < |sources| && Ready(sources[i], turn, now)
    {
      for i := 0 to |sources|
        invariant forall j :: 0 <= j < i ==> !Ready(sources[j], turn, now)
      {
        if Ready(sources[i], turn, now) { return true; }
      }
      return false;
    }

    method FirstRetry(now: real) returns (turn: Option<int>)
      ensures turn.None? <==> forall i :: 0 <= i < |sources| ==> !Awake(sources[i], now)
      ensures turn.Some? ==>
        && (exists i :: 0 <= i < |sources| && Awake(sources[i], now) && sources[i].retryAfter == turn.value)
        && (forall i :: 0 <= i < |sources| && Awake(sources[i], now) ==> turn.value <= sources[i].retryAfter)
    {
      turn := None;
      for i := 0 to |sources|
        invariant turn.None? <==> forall j :: 0 <= j < i ==> !Awake(sources[j], now)
        invariant turn.Some? ==>
          && (exists j :: 0 <= j < i && Awake(sources[j], now) && sources[j].retryAfter == turn.value)
          && (forall j :: 0 <= j < i && Awake(sources[j], now) ==> turn.value <= sources[j].retryAfter)
      {
        if Awake(sources[i], now) && (turn.None? || sources[i].retryAfter < turn.value) {
          turn := Some(sources[i].retryAfter);
        }
      }
    }

    method PickBest(score: Score, now: real) returns (best: nat)
      requires exists i :: 0 <= i < |sources| && Ready(sources[i], turn, now)
      ensures Chooses(State(), score, now, best)
    {
      var lane := false;
      for i := 0 to |sources|
        invariant lane <==> exists j :: 0 <= j < i && Ready(sources[j], turn, now) && InLane(sources[j], turn)
      {
        if Ready(sources[i], turn, now) && InLane(sources[i], turn) { lane := true; }
      }
      var found: Option<nat> := None;
      for i := 0 to |sources|
        invariant found.None? ==> forall j :: 0 <= j < i ==> !Candidate(sources, turn, now, j)
        invariant found.Some? ==>
          && found.value < i && Candidate(sources, turn, now, found.value)
          && forall j :: 0 <= j < i && j != found.value && Candidate(sources, turn, now, j) ==>
            && !Preferred(sources[j], sources[found.value], turn, recent, score)
            && (j < found.value ==> Preferred(sources[found.value], sources[j], turn, recent, score))
      {
        if Ready(sources[i], turn, now) && (lane ==> InLane(sources[i], turn)) {
          if found.None? || Preferred(sources[i], sources[found.value], turn, recent, score) {
            found := Some(i);
          }
        }
      }
      assert found.Some? by {
        var i :| 0 <= i < |sources| && Ready(sources[i], turn, now) && (lane ==> InLane(sources[i], turn));
        assert Candidate(sources, turn, now, i);
      }
      return found.value;
    }
  }

  // ---- bounded starvation ----

  datatype Selection = Selection(score: Score, now: real, picked: nat)

  // Selection i finds the queue disturbed[i] and leaves queues[i + 1].
  datatype Run = Run(queues: seq<Queue>, disturbed: seq<Queue>, selections: seq<Selection>)

  // With `late`, the source of related vacancies may enter during the run without `add`.
  ghost predicate IsRun(run: Run, late: bool) {
    && |run.queues| == |run.selections| + 1 && |run.disturbed| == |run.selections|
    && forall i :: 0 <= i < |run.selections| ==>
         IsRound(run.queues[i], run.disturbed[i], run.selections[i], run.queues[i + 1], late)
  }

  ghost predicate IsRound(q: Queue, mid: Queue, selection: Selection, q': Queue, late: bool) {
    && Keyed(mid.sources) && (if late then DisturbsWithRelated(q, mid) else Disturbs(q, mid))
    && Selects(mid, selection.score, selection.now, selection.picked, q')
  }

  // Source p is ready at every selection from `from` on, up to the one that picks it.
  ghost predicate ReadyUntilServed(run: Run, p: nat, from: nat)
    requires |run.disturbed| == |run.selections|
  {
    forall i :: from <= i < |run.selections| && NeverPicked(run, p, from, i) ==>
      ReadyIn(run.disturbed[i], run.selections[i], p)
  }

  predicate ReadyIn(mid: Queue, selection: Selection, p: nat) {
    p < |mid.sources| && Ready(mid.sources[p], mid.turn, selection.now)
  }

  ghost predicate NeverPicked(run: Run, p: nat, from: nat, to: nat)
    requires to <= |run.selections|
  {
    forall i :: from <= i < to ==> run.selections[i].picked != p
  }

  // Sources of the same lane, exhausted or not, that were not served after source p.
  ghost function Rivals(q: Queue, p: nat): set<int>
    requires p < |q.sources|
  {
    set j | 0 <= j < |q.sources| && j != p && Recommends(q.sources[j]) == Recommends(q.sources[p])
      && q.sources[j].lastTurn <= q.sources[p].lastTurn
  }

  // How often a lane serves its oldest source.
  function Period(recommends: bool): nat { if recommends then CYCLE else CYCLE / 2 }

  predicate OwnTurn(recommends: bool, turn: int) {
    OldestFirstSlot(turn) && RecommendationSlot(turn) == recommends
  }

  // The first of the lane's own turns from here on.
  function Wait(recommends: bool, turn: int): (n: nat)
    ensures n < Period(recommends) && OwnTurn(recommends, turn + n)
  {
    var slot := Slot(turn);
    var n := if recommends then (if slot <= 8 then 8 - slot else 9) else if slot <= 4 then 4 - slot else 9 - slot;
    SlotAfter(turn, n);
    n
  }

  lemma SlotAfter(turn: int, n: nat)
    requires n < CYCLE
    ensures Slot(turn + n) == if Slot(turn) + n < CYCLE then Slot(turn) + n else Slot(turn) + n - CYCLE
  {
    assert turn == 10 * (turn / 10) + Slot(turn);
  }

  // Its standing can only be overtaken by sources already there: at least one turn has passed since
  // it entered or was served.
  predicate Settled(q: Queue, p: nat) { p < |q.sources| && q.sources[p].lastTurn <= q.turn - 2 }

  // The sources that may still be served before p at a turn of its lane's oldest: its rivals, and
  // the source of related vacancies if that is yet to enter.
  ghost function Overtakers(q: Queue, p: nat, late: bool): nat
    requires p < |q.sources|
  {
    |Rivals(q, p)| + if late && Recommends(q.sources[p]) && !HasRelated(q.sources) then 1 else 0
  }

  lemma DisturbanceKeepsRivals(q: Queue, mid: Queue, p: nat)
    requires Disturbs(q, mid) && Settled(q, p)
    ensures Rivals(mid, p) == Rivals(q, p)
  {
  }

  // At most one of the new sources is the one of related vacancies.
  lemma RelatedAddsOneRival(q: Queue, mid: Queue, p: nat)
    requires DisturbsWithRelated(q, mid) && Keyed(mid.sources) && Settled(q, p)
    ensures HasRelated(q.sources) ==> HasRelated(mid.sources) && Rivals(mid, p) == Rivals(q, p)
    ensures !HasRelated(mid.sources) ==> Rivals(mid, p) == Rivals(q, p)
    ensures |Rivals(mid, p)| <= |Rivals(q, p)| + 1
  {
    if HasRelated(q.sources) {
      var f :| 0 <= f < |q.sources| && q.sources[f].key == "related";
      assert SameStanding(q.sources[f], mid.sources[f]);
      OnlyRelatedIsNew(q, mid, p, f);
    } else if HasRelated(mid.sources) {
      var e :| 0 <= e < |mid.sources| && mid.sources[e].key == "related";
      OnlyRelatedIsNew(q, mid, p, e);
      SubsetIsSmaller(Rivals(mid, p), Rivals(q, p) + {e});
    } else {
      OnlyRelatedIsNew(q, mid, p, |mid.sources|);
    }
  }

  // The one new rival is the source of related vacancies, held at index e.
  lemma OnlyRelatedIsNew(q: Queue, mid: Queue, p: nat, e: nat)
    requires DisturbsWithRelated(q, mid) && Keyed(mid.sources) && Settled(q, p)
    requires if e < |mid.sources| then mid.sources[e].key == "related" else !HasRelated(mid.sources)
    ensures Rivals(q, p) <= Rivals(mid, p) <= Rivals(q, p) + {e}
    ensures e < |q.sources| || e >= |mid.sources| ==> Rivals(mid, p) == Rivals(q, p)
  {
    forall j | j in Rivals(mid, p)
      ensures j in Rivals(q, p) || (j == e >= |q.sources|)
    {
      if j >= |q.sources| { assert IsRelated(mid.sources[j]); }
    }
  }

  lemma RelatedIsNoSearch(q: Queue, mid: Queue, p: nat)
    requires DisturbsWithRelated(q, mid) && Settled(q, p) && !Recommends(q.sources[p])
    ensures Rivals(mid, p) == Rivals(q, p)
  {
  }

  lemma DisturbanceKeepsOvertakers(q: Queue, mid: Queue, p: nat, late: bool)
    requires Keyed(mid.sources) && (if late then DisturbsWithRelated(q, mid) else Disturbs(q, mid)) && Settled(q, p)
    ensures Settled(mid, p) && mid.turn == q.turn && SameStanding(q.sources[p], mid.sources[p])
    ensures Overtakers(mid, p, late) <= Overtakers(q, p, late)
  {
    if !late {
      DisturbanceKeepsRivals(q, mid, p);
    } else if Recommends(q.sources[p]) {
      RelatedAddsOneRival(q, mid, p);
    } else {
      RelatedIsNoSearch(q, mid, p);
    }
  }

  lemma SelectionShrinksRivals(mid: Queue, selection: Selection, q': Queue, p: nat)
    requires Selects(mid, selection.score, selection.now, selection.picked, q')
    requires Settled(mid, p) && ReadyIn(mid, selection, p) && selection.picked != p
    ensures Settled(q', p) && q'.turn == mid.turn + 1 && SameStanding(mid.sources[p], q'.sources[p])
    ensures Rivals(q', p) <= Rivals(mid, p) && HasRelated(q'.sources) == HasRelated(mid.sources)
    ensures OwnTurn(Recommends(mid.sources[p]), mid.turn) ==> selection.picked in Rivals(mid, p) - Rivals(q', p)
  {
    var t :| JumpsTo(mid, selection.now, t)
      && Chooses(mid.(turn := t), selection.score, selection.now, selection.picked)
      && q' == Serve(mid.(turn := t), selection.picked);
    assert t == mid.turn;
    ServeKeepsRelated(mid.(turn := t), selection.picked);
    if OwnTurn(Recommends(mid.sources[p]), mid.turn) {
      assert LaneServes(mid.sources, t, selection.now);
      assert Candidate(mid.sources, t, selection.now, p);
    }
  }

  lemma ServeKeepsRelated(q: Queue, i: nat)
    requires i < |q.sources|
    ensures HasRelated(Serve(q, i).sources) == HasRelated(q.sources)
  {
    forall j | 0 <= j < |q.sources|
      ensures Serve(q, i).sources[j].key == q.sources[j].key
    {
    }
  }

  // While another source is picked, no one new can come to be served before p, and at its lane's
  // own turns one source less can.
  lemma RoundShrinksOvertakers(q: Queue, mid: Queue, selection: Selection, q': Queue, p: nat, late: bool)
    requires IsRound(q, mid, selection, q', late) && Settled(q, p) && ReadyIn(mid, selection, p)
    requires selection.picked != p
    ensures Settled(q', p) && q'.turn == q.turn + 1 && SameStanding(q.sources[p], q'.sources[p])
    ensures Overtakers(q', p, late) <= Overtakers(q, p, late)
    ensures OwnTurn(Recommends(q.sources[p]), q.turn) ==> Overtakers(q', p, late) < Overtakers(q, p, late)
  {
    hide Selects, Disturbs, DisturbsWithRelated, Keyed, Rivals, HasRelated;
    DisturbanceKeepsOvertakers(q, mid, p, late);
    SelectionShrinksRivals(mid, selection, q', p);
    SubsetIsSmaller(Rivals(q', p), Rivals(mid, p));
    if OwnTurn(Recommends(q.sources[p]), q.turn) {
      SmallerSet(Rivals(q', p), Rivals(mid, p));
    }
  }

  // A source just served or just added is settled as soon as another one has been served.
  lemma OneSelectionSettles(q: Queue, mid: Queue, selection: Selection, q': Queue, p: nat, late: bool)
    requires IsRound(q, mid, selection, q', late) && ReadyIn(mid, selection, p) && selection.picked != p
    requires mid.sources[p].lastTurn <= q.turn - 1
    ensures Settled(q', p)
  {
    var t :| JumpsTo(mid, selection.now, t)
      && Chooses(mid.(turn := t), selection.score, selection.now, selection.picked)
      && q' == Serve(mid.(turn := t), selection.picked);
  }

  lemma {:induction false} RoundsShrinkOvertakers(run: Run, late: bool, p: nat, from: nat, n: nat)
    requires IsRun(run, late) && ReadyUntilServed(run, p, from) && from + n <= |run.selections|
    requires Settled(run.queues[from], p) && NeverPicked(run, p, from, from + n)
    ensures var q, q' := run.queues[from], run.queues[from + n];
      && Settled(q', p) && q'.turn == q.turn + n && SameStanding(q.sources[p], q'.sources[p])
      && Overtakers(q', p, late) <= Overtakers(q, p, late)
      && (Wait(Recommends(q.sources[p]), q.turn) < n ==> Overtakers(q', p, late) < Overtakers(q, p, late))
  {
    hide IsRound, Overtakers;
    if n > 0 {
      RoundsShrinkOvertakers(run, late, p, from, n - 1);
      var q, last := run.queues[from], from + n - 1;
      assert IsRound(run.queues[last], run.disturbed[last], run.selections[last], run.queues[last + 1], late);
      assert ReadyIn(run.disturbed[last], run.selections[last], p);
      RoundShrinksOvertakers(run.queues[last], run.disturbed[last], run.selections[last], run.queues[last + 1], p,
        late);
    }
  }

  ghost function LongestWait(q: Queue, p: nat, late: bool): nat
    requires p < |q.sources|
  {
    Period(Recommends(q.sources[p])) * (Overtakers(q, p, late) + 1)
  }

  lemma WaitShrinks(q: Queue, q': Queue, p: nat, late: bool)
    requires p < |q.sources| && p < |q'.sources| && SameStanding(q.sources[p], q'.sources[p])
    ensures Period(Recommends(q.sources[p])) <= LongestWait(q, p, late)
    ensures Overtakers(q', p, late) < Overtakers(q, p, late) ==>
      Period(Recommends(q.sources[p])) + LongestWait(q', p, late) <= LongestWait(q, p, late)
  {
    hide Overtakers, Period;
    PeriodsAdd(Period(Recommends(q.sources[p])), Overtakers(q, p, late));
    if Overtakers(q', p, late) < Overtakers(q, p, late) {
      PeriodsGrow(Period(Recommends(q.sources[p])), Overtakers(q', p, late) + 1, Overtakers(q, p, late));
    }
  }

  // A source that stays ready is chosen within one period for itself and one for each source that
  // may overtake it: five selections for a search source, ten for a recommendation source. Only
  // the latter can be overtaken by the source of related vacancies, and only once.
  lemma {:induction false} ReadySourceIsServed(run: Run, late: bool, p: nat, from: nat) returns (i: nat)
    requires IsRun(run, late) && from < |run.queues| && ReadyUntilServed(run, p, from) && Settled(run.queues[from], p)
    requires from + Period(Recommends(run.queues[from].sources[p])) * (Overtakers(run.queues[from], p, late) + 1)
      <= |run.selections|
    ensures from <= i
      < from + Period(Recommends(run.queues[from].sources[p])) * (Overtakers(run.queues[from], p, late) + 1)
    ensures run.selections[i].picked == p
    decreases |run.selections| - from
  {
    i := ServedWithin(run, late, p, from);
  }

  lemma {:induction false} ServedWithin(run: Run, late: bool, p: nat, from: nat) returns (i: nat)
    requires IsRun(run, late) && from < |run.queues| && ReadyUntilServed(run, p, from) && Settled(run.queues[from], p)
    requires from + LongestWait(run.queues[from], p, late) <= |run.selections|
    ensures from <= i < from + LongestWait(run.queues[from], p, late)
    ensures run.selections[i].picked == p
    decreases |run.selections| - from
  {
    hide IsRound, Overtakers, LongestWait, ReadyIn;
    var q := run.queues[from];
    var period := Period(Recommends(q.sources[p]));
    WaitShrinks(q, q, p, late);
    if !NeverPicked(run, p, from, from + period) {
      i :| from <= i < from + period && run.selections[i].picked == p;
    } else {
      RoundsShrinkOvertakers(run, late, p, from, period);
      WaitShrinks(q, run.queues[from + period], p, late);
      StillReady(run, p, from, period);
      i := ServedWithin(run, late, p, from + period);
    }
  }

  lemma StillReady(run: Run, p: nat, from: nat, n: nat)
    requires |run.disturbed| == |run.selections| && from + n <= |run.selections|
    requires ReadyUntilServed(run, p, from) && NeverPicked(run, p, from, from + n)
    ensures ReadyUntilServed(run, p, from + n)
  {
    hide ReadyIn;
    forall i | from + n <= i < |run.selections| && NeverPicked(run, p, from + n, i)
      ensures ReadyIn(run.disturbed[i], run.selections[i], p)
    {
      assert NeverPicked(run, p, from, i);
    }
  }

  lemma PeriodsAdd(period: nat, k: nat)
    ensures period * (k + 1) == period + period * k >= period
  {
  }

  lemma PeriodsGrow(period: nat, a: nat, b: nat)
    requires a <= b
    ensures period * a <= period * b
  {
  }

  // ---- a source that has to wait longer for the source of related vacancies ----

  function Listing(key: string, kind: string, lastTurn: int): Source {
    Source(key, kind, "", false, 0, lastTurn, 0.0, 0.0, 0.0, 0.0, 0.0, 0, 0.0)
  }

  // Two recommendation sources and a search source, each served once; the first waits longest.
  const WAITING := Queue([Listing("p", "recommendations", 0), Listing("r", "recommendations", 1),
    Listing("s", "query", 1)], 2, [])

  // The newer of the two has the better score.
  const FAVOURS_R: Score := (source: Source, turn: int, recent: seq<string>) => if source.key == "r" then 1.0 else 0.0

  // Search slots serve s, the oldest-first recommendation slot the newcomer, all others r.
  function PickAt(turn: int): nat { if Slot(turn) in {2, 4, 7, 9} then 2 else if Slot(turn) == 8 then 3 else 1 }

  function MidAt(n: nat): Queue
    requires n < 10
    decreases n, 1
  {
    if n == 0 then WAITING.(sources := WAITING.sources + [Listing("related", "related", -1)]) else QueueAt(n)
  }

  function QueueAt(n: nat): Queue
    requires n <= 10
    decreases n, 0
  {
    if n == 0 then WAITING
    else
      var mid := MidAt(n - 1);
      if PickAt(n + 1) < |mid.sources| then Serve(mid, PickAt(n + 1)) else mid
  }

  // Before selection n the newcomer is still the oldest, unless its turn, the eighth, has passed.
  ghost predicate Stands(q: Queue, n: nat) {
    && q.turn == n + 2 && |q.sources| == 4
    && q.sources[0] == Listing("p", "recommendations", 0)
    && q.sources[1] == Listing("r", "recommendations", q.sources[1].lastTurn) && q.sources[1].lastTurn >= 1
    && q.sources[2] == Listing("s", "query", q.sources[2].lastTurn) && q.sources[2].lastTurn >= 1
    && q.sources[3] == Listing("related", "related", if n <= 6 then -1 else 8)
  }

  lemma StandsChooses(q: Queue, n: nat)
    requires n < 10 && Stands(q, n)
    ensures Chooses(q, FAVOURS_R, 0.0, PickAt(n + 2))
  {
    var i := PickAt(n + 2);
    assert Slot(q.turn) == if n < 8 then n + 2 else n - 8;
    assert forall j :: 0 <= j < 4 ==> Ready(q.sources[j], q.turn, 0.0);
    assert Recommends(q.sources[0]) && Recommends(q.sources[1]) && Recommends(q.sources[3])
      && !Recommends(q.sources[2]);
    assert InLane(q.sources[i], q.turn);
    assert LaneServes(q.sources, q.turn, 0.0);
  }

  lemma StandsServes(q: Queue, n: nat)
    requires n < 10 && Stands(q, n)
    ensures Stands(Serve(q, PickAt(n + 2)), n + 1) && Ready(q.sources[0], q.turn, 0.0)
  {
    assert Slot(q.turn) == if n < 8 then n + 2 else n - 8;
  }

  lemma StandsSelects(q: Queue, n: nat)
    requires n < 10 && Stands(q, n)
    ensures Selects(q, FAVOURS_R, 0.0, PickAt(n + 2), Serve(q, PickAt(n + 2)))
  {
    StandsChooses(q, n);
    StandsServes(q, n);
    hide Chooses, Serve, PickAt, Stands;
    assert JumpsTo(q, 0.0, q.turn) && q.(turn := q.turn) == q;
  }

  lemma QueueFollows(n: nat)
    requires n < 10 && |MidAt(n).sources| == 4
    ensures QueueAt(n + 1) == Serve(MidAt(n), PickAt(n + 2))
  {
    hide Serve, MidAt;
  }

  lemma MidStarts()
    ensures Stands(MidAt(0), 0)
  {
    hide QueueAt, Serve;
  }

  lemma MidIsQueue(n: nat)
    requires 0 < n < 10
    ensures MidAt(n) == QueueAt(n)
  {
    hide QueueAt;
  }

  lemma {:induction false} MidStands(n: nat)
    requires n < 10
    ensures Stands(MidAt(n), n) && QueueAt(n + 1) == Serve(MidAt(n), PickAt(n + 2))
  {
    hide Serve, MidAt, QueueAt, PickAt, Listing;
    if n == 0 {
      MidStarts();
    } else {
      MidStands(n - 1);
      StandsServes(MidAt(n - 1), n - 1);
      MidIsQueue(n);
    }
    QueueFollows(n);
  }

  lemma LateDisturbs(n: nat)
    requires n < 10
    ensures DisturbsWithRelated(QueueAt(n), MidAt(n))
  {
    hide Serve, PickAt;
    if n > 0 { assert MidAt(n) == QueueAt(n); }
  }

  lemma LateRound(n: nat)
    requires n < 10
    ensures IsRound(QueueAt(n), MidAt(n), Selection(FAVOURS_R, 0.0, PickAt(n + 2)), QueueAt(n + 1), true)
    ensures ReadyIn(MidAt(n), Selection(FAVOURS_R, 0.0, PickAt(n + 2)), 0)
  {
    MidStands(n);
    StandsSelects(MidAt(n), n);
    StandsServes(MidAt(n), n);
    StandsAreKeyed(MidAt(n), n);
    LateDisturbs(n);
    hide Selects, Keyed, Serve, DisturbsWithRelated, QueueAt, MidAt, Ready;
  }

  function LateRun(): Run {
    Run(seq(11, n requires 0 <= n < 11 => QueueAt(n)), seq(10, n requires 0 <= n < 10 => MidAt(n)),
        seq(10, n requires 0 <= n < 10 => Selection(FAVOURS_R, 0.0, PickAt(n + 2))))
  }

  // No source stands before p, p stays ready, and ten selections go by without it.
  lemma RelatedCostsOnePeriod()
    ensures IsRun(LateRun(), true) && ReadyUntilServed(LateRun(), 0, 0)
    ensures LateRun().queues[0] == WAITING && Settled(WAITING, 0) && Recommends(WAITING.sources[0])
    ensures Rivals(WAITING, 0) == {}
    ensures |LateRun().selections| == 10 && NeverPicked(LateRun(), 0, 0, 10)
  {
    hide MidAt, IsRound, ReadyIn, PickAt;
    var run := LateRun();
    forall n | 0 <= n < 10
      ensures IsRound(run.queues[n], run.disturbed[n], run.selections[n], run.queues[n + 1], true)
      ensures ReadyIn(run.disturbed[n], run.selections[n], 0) && run.selections[n].picked != 0
    {
      LateRound(n);
      PicksOthers(n + 2);
    }
  }

  lemma PicksOthers(turn: int)
    ensures PickAt(turn) != 0
  {
  }

  lemma StandsAreKeyed(q: Queue, n: nat)
    requires Stands(q, n)
    ensures Keyed(q.sources)
  {
    assert "p" != "r" && "p" != "s" && "r" != "s" && |"related"| == 7;
  }

  lemma SubsetIsSmaller(a: set<int>, b: set<int>)
    requires a <= b
    ensures |a| <= |b|
  {
    assert b == (b - a) + a;
  }

  lemma SmallerSet(a: set<int>, b: set<int>)
    requires a < b
    ensures |a| < |b|
  {
    assert b == (b - a) + a;
    assert b - a == {} ==> b <= a;
  }
}
