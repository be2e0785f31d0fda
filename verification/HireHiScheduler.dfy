// The HireHi source scheduler: cooldowns and refreshes on a logical clock that only moves when
// a source is served or when every source waits. It cannot deadlock.

module HireHiScheduler {
  import opened Records
  import opened SiteRotation

  datatype Source = Source(
    key: string, exhausted: bool, cooldownUntil: Option<int>, nextRefresh: int, lastUsedAt: Option<int>,
    isProtected: bool, repeats: nat,
    batchCount: nat, raw: nat, unique: nat, analyzed: nat, relevant: nat, duplicates: nat, failures: nat, cursor: int)

  // The draw of this turn for each source; only its order matters.
  type Draw = nat -> real

  datatype Clock = Clock(sources: seq<Source>, turn: int)

  const CALIBRATION_ANALYSES := 10
  const NORMAL_BATCH := 8
  const EXPLOIT_BATCH := 15
  const EXPLORE_BATCH := 5
  const COOLDOWN_ANALYSES := 25

  // ---- what one turn makes of a source ----

  function Wake(s: Source, turn: int): Source {
    var rested := if s.cooldownUntil.Some? && turn >= s.cooldownUntil.value then s.(cooldownUntil := None) else s;
    if rested.exhausted && turn >= rested.nextRefresh then rested.(exhausted := false, cursor := 0) else rested
  }

  function WakeAll(sources: seq<Source>, turn: int): seq<Source> {
    seq(|sources|, i requires 0 <= i < |sources| => Wake(sources[i], turn))
  }

  // A source can be served: it is neither exhausted nor cooling down.
  predicate Available(s: Source) { !s.exhausted && s.cooldownUntil.None? }

  predicate AnyAvailable(sources: seq<Source>) { exists i :: 0 <= i < |sources| && Available(sources[i]) }

  function UsedAt(s: Source): int { if s.lastUsedAt.Some? then s.lastUsedAt.value else -1 }

  // The order of exploration: least analyzed, fewest batches, longest unused, then by key.
  predicate LessExplored(a: Source, b: Source) {
    a.analyzed < b.analyzed || (a.analyzed == b.analyzed && (
      a.batchCount < b.batchCount || (a.batchCount == b.batchCount && (
        UsedAt(a) < UsedAt(b) || (UsedAt(a) == UsedAt(b) && Less(a.key, b.key))))))
  }

  predicate MorePromising(a: Source, x: real, b: Source, y: real) {
    x > y || (x == y && (a.analyzed < b.analyzed || (a.analyzed == b.analyzed && Less(b.key, a.key))))
  }

  predicate Explores(turn: int) { turn % 5 == 0 }

  predicate AnyUncalibrated(sources: seq<Source>) {
    exists i :: 0 <= i < |sources| && Available(sources[i]) && sources[i].analyzed < CALIBRATION_ANALYSES
  }

  // Exploitation first brings every available source through calibration.
  predicate Candidate(sources: seq<Source>, turn: int, i: nat)
    requires i < |sources|
  {
    && Available(sources[i])
    && (!Explores(turn) && AnyUncalibrated(sources) ==> sources[i].analyzed < CALIBRATION_ANALYSES)
  }

  predicate Preferred(sources: seq<Source>, turn: int, draw: Draw, a: nat, b: nat)
    requires a < |sources| && b < |sources|
  {
    if Explores(turn) then LessExplored(sources[a], sources[b])
    else MorePromising(sources[a], draw(a), sources[b], draw(b))
  }

  // The first of the best candidates.
  ghost predicate Chooses(sources: seq<Source>, turn: int, draw: Draw, i: nat) {
    && i < |sources| && Candidate(sources, turn, i)
    && forall j :: 0 <= j < |sources| && j != i && Candidate(sources, turn, j) ==>
      !Preferred(sources, turn, draw, j, i) && (j < i ==> Preferred(sources, turn, draw, i, j))
  }

  // ---- wakeups ----

  predicate FutureCooldown(s: Source, turn: int) { s.cooldownUntil.Some? && s.cooldownUntil.value > turn }

  predicate FutureRefresh(s: Source, turn: int) { s.nextRefresh > turn }

  function Bit(b: bool): nat { if b then 1 else 0 }

  // How many cooldowns and refreshes still lie ahead.
  function Wakeups(sources: seq<Source>, turn: int): nat {
    if sources == [] then 0
    else
      var s := sources[|sources| - 1];
      Wakeups(sources[..|sources| - 1], turn) + Bit(FutureCooldown(s, turn)) + Bit(FutureRefresh(s, turn))
  }

  // The next logical time at which a wait ends.
  ghost predicate NextWakeup(sources: seq<Source>, turn: int, next: int) {
    && next > turn
    && (exists i :: 0 <= i < |sources| && (sources[i].cooldownUntil == Some(next) || sources[i].nextRefresh == next))
    && forall i :: 0 <= i < |sources| ==>
      && (FutureCooldown(sources[i], turn) ==> next <= sources[i].cooldownUntil.value)
      && (FutureRefresh(sources[i], turn) ==> next <= sources[i].nextRefresh)
  }

  // `weak` is the scheduler's test that the source's precision stays below its target.
  function UpdateSource(
    s: Source, turn: int, raw: int, unique: int, analyzed: int, relevant: int, failures: int, countBatch: bool,
    weak: Source -> bool): Source
  {
    var more := Positive(analyzed);
    var counted := s.(
      batchCount := if countBatch then s.batchCount + 1 else s.batchCount,
      raw := s.raw + Positive(raw), unique := s.unique + Positive(unique), analyzed := s.analyzed + more,
      relevant := s.relevant + (if Positive(relevant) < more then Positive(relevant) else more),
      failures := s.failures + Positive(failures));
    if counted.analyzed >= COOLDOWN_ANALYSES && weak(counted)
    then counted.(
      cooldownUntil := Some(turn + 3), nextRefresh := if s.nextRefresh > turn + 6 then s.nextRefresh else turn + 6)
    else counted
  }

  // An update never counts more relevant vacancies than it counts analyzed ones.
  lemma UpdateCounts(
    s: Source, turn: int, raw: int, unique: int, analyzed: int, relevant: int, failures: int, countBatch: bool,
    weak: Source -> bool)
    ensures var s' := UpdateSource(s, turn, raw, unique, analyzed, relevant, failures, countBatch, weak);
      && s'.key == s.key && s'.isProtected == s.isProtected
      && s'.analyzed == s.analyzed + Positive(analyzed)
      && s.relevant <= s'.relevant <= s.relevant + Positive(analyzed)
      && (s.relevant <= s.analyzed ==> s'.relevant <= s'.analyzed)
  {
  }

  // How many vacancies of a source are wanted next; calibration asks for exactly what it lacks.
  function BatchSize(s: Source, turn: int, precise: bool): (n: nat)
    ensures 1 <= n <= EXPLOIT_BATCH
    ensures s.analyzed < CALIBRATION_ANALYSES ==> s.analyzed + n == CALIBRATION_ANALYSES
  {
    if s.analyzed < CALIBRATION_ANALYSES then CALIBRATION_ANALYSES - s.analyzed
    else if turn <= 1 || (turn - 1) % 5 == 0 then EXPLORE_BATCH
    else if precise then EXPLOIT_BATCH
    else NORMAL_BATCH
  }

  function Positive(n: int): nat { if n > 0 then n else 0 }

  ghost predicate SameKeys(sources: seq<Source>, sources': seq<Source>) {
    |sources'| == |sources| && forall i :: 0 <= i < |sources| ==> sources'[i].key == sources[i].key
  }

  ghost predicate SameCounts(sources: seq<Source>, sources': seq<Source>) {
    SameKeys(sources, sources') && forall i :: 0 <= i < |sources| ==>
      sources'[i].analyzed == sources[i].analyzed && sources'[i].relevant == sources[i].relevant
  }

  class HireHiSearchScheduler {
    const weak: Source -> bool
    var sources: seq<Source>
    var turn: int
    var explorationRounds: nat
    var exploitationRounds: nat

    constructor (weak: Source -> bool)
      ensures sources == [] && turn == 0 && this.weak == weak
    {
      this.weak := weak;
      sources, turn, explorationRounds, exploitationRounds := [], 0, 0, 0;
    }

    // Ends the cooldowns and refreshes whose time has come.
    method WakeSources()
      modifies this`sources
      ensures sources == WakeAll(old(sources), turn)
    {
      ghost var before := sources;
      ghost var after := WakeAll(sources, turn);
      for i := 0 to |sources|
        invariant |sources| == |before| && sources[..i] == after[..i] && sources[i..] == before[i..]
      {
        assert sources[i] == before[i];
        var s := sources[i];
        if s.cooldownUntil.Some? && turn >= s.cooldownUntil.value {
          s := s.(cooldownUntil := None);
        }
        if s.exhausted && turn >= s.nextRefresh {
          s := s.(exhausted := false, cursor := 0);
        }
        sources := sources[i := s];
        assert sources[..i + 1] == after[..i] + [after[i]];
      }
    }

    // Serves a source that is neither exhausted nor cooling down, if there is one.
    method Choose(draw: Draw) returns (chosen: Option<nat>)
      modifies this
      ensures chosen.Some? <==> AnyAvailable(WakeAll(old(sources), old(turn)))
      ensures chosen.None? ==> sources == WakeAll(old(sources), old(turn)) && turn == old(turn)
      ensures chosen.Some? ==>
        && Chooses(WakeAll(old(sources), old(turn)), old(turn), draw, chosen.value)
        && turn == old(turn) + 1
        && var awake := WakeAll(old(sources), old(turn));
           sources == awake[chosen.value := awake[chosen.value].(lastUsedAt := Some(old(turn)))]
    {
      WakeSources();
      var best := PickBest(draw);
      if best.None? {
        return None;
      }
      if Explores(turn) { explorationRounds := explorationRounds + 1; }
      else { exploitationRounds := exploitationRounds + 1; }
      sources := sources[best.value := sources[best.value].(lastUsedAt := Some(turn))];
      turn := turn + 1;
      return best;
    }

    method PickBest(draw: Draw) returns (found: Option<nat>)
      ensures found.None? <==> !AnyAvailable(sources)
      ensures found.Some? ==> Chooses(sources, turn, draw, found.value)
    {
      var uncalibrated := false;
      for i := 0 to |sources|
        invariant uncalibrated <==>
          exists j :: 0 <= j < i && Available(sources[j]) && sources[j].analyzed < CALIBRATION_ANALYSES
      {
        if Available(sources[i]) && sources[i].analyzed < CALIBRATION_ANALYSES { uncalibrated := true; }
      }
      found := None;
      for i := 0 to |sources|
        invariant found.None? ==> forall j :: 0 <= j < i ==> !Candidate(sources, turn, j)
        invariant found.Some? ==>
          && found.value < i && Candidate(sources, turn, found.value)
          && forall j :: 0 <= j < i && j != found.value && Candidate(sources, turn, j) ==>
            && !Preferred(sources, turn, draw, j, found.value)
            && (j < found.value ==> Preferred(sources, turn, draw, found.value, j))
      {
        if Available(sources[i]) && (!Explores(turn) && uncalibrated ==> sources[i].analyzed < CALIBRATION_ANALYSES) {
          if found.None? || Preferred(sources, turn, draw, i, found.value) {
            ghost var before := found;
            found := Some(i);
            forall j | 0 <= j < i && Candidate(sources, turn, j)
              ensures !Preferred(sources, turn, draw, j, i) && Preferred(sources, turn, draw, i, j)
            {
              PreferenceSplits(sources, turn, draw, i, before.value, j);
              PreferenceSplits(sources, turn, draw, i, j, j);
            }
          }
        }
      }
      if found.None? { NoCandidateNoSource(sources, turn); }
    }

    method AdvanceToWakeup() returns (moved: bool)
      modifies this`turn
      ensures moved ==> NextWakeup(sources, old(turn), turn)
      ensures !moved ==> turn == old(turn) && forall i :: 0 <= i < |sources| ==>
        !FutureCooldown(sources[i], turn) && !FutureRefresh(sources[i], turn)
    {
      var next: Option<int> := None;
      for i := 0 to |sources|
        invariant turn == old(turn)
        invariant next.None? ==> forall j :: 0 <= j < i ==>
          !FutureCooldown(sources[j], turn) && !FutureRefresh(sources[j], turn)
        invariant next.Some? ==> NextWakeup(sources[..i], turn, next.value)
      {
        var s := sources[i];
        ghost var before := next;
        if FutureCooldown(s, turn) && (next.None? || s.cooldownUntil.value < next.value) { next := s.cooldownUntil; }
        if FutureRefresh(s, turn) && (next.None? || s.nextRefresh < next.value) { next := Some(s.nextRefresh); }
        assert sources[..i + 1] == sources[..i] + [s];
        if next.Some? { WakeupOfMore(sources[..i], s, turn, before, next.value); }
      }
      assert sources[..|sources|] == sources;
      if next.None? { return false; }
      turn := next.value;
      return true;
    }

    method Update(i: nat, raw: int, unique: int, analyzed: int, relevant: int, failures: int, countBatch: bool)
      requires i < |sources|
      modifies this`sources
      ensures sources == old(sources)[i :=
        UpdateSource(old(sources)[i], turn, raw, unique, analyzed, relevant, failures, countBatch, weak)]
    {
      var s := sources[i];
      if countBatch { s := s.(batchCount := s.batchCount + 1); }
      s := s.(raw := s.raw + Positive(raw));
      s := s.(unique := s.unique + Positive(unique));
      s := s.(analyzed := s.analyzed + Positive(analyzed));
      var good := if Positive(relevant) < Positive(analyzed) then Positive(relevant) else Positive(analyzed);
      s := s.(relevant := s.relevant + good);
      s := s.(failures := s.failures + Positive(failures));
      if s.analyzed >= COOLDOWN_ANALYSES && weak(s) {
        s := s.(cooldownUntil := Some(turn + 3));
        s := s.(nextRefresh := if s.nextRefresh > turn + 6 then s.nextRefresh else turn + 6);
      }
      sources := sources[i := s];
    }

    method MarkExhausted(i: nat, refreshAfter: int)
      requires i < |sources|
      modifies this`sources
      ensures sources == old(sources)[i := old(sources)[i].(
        exhausted := true, nextRefresh := turn + (if refreshAfter > 1 then refreshAfter else 1))]
    {
      var s := sources[i].(exhausted := true);
      s := s.(nextRefresh := turn + (if refreshAfter > 1 then refreshAfter else 1));
      sources := sources[i := s];
    }
  }

  lemma WakingKeepsCounts(sources: seq<Source>, turn: int)
    ensures SameCounts(sources, WakeAll(sources, turn))
    ensures forall i :: 0 <= i < |sources| ==>
      SameCounts(sources, WakeAll(sources, turn)[i := WakeAll(sources, turn)[i].(lastUsedAt := Some(turn))])
  {
  }

  lemma LessSplits(a: string, b: string, c: string)
    requires Less(a, b)
    ensures Less(a, c) || Less(c, b)
    ensures !Less(b, a)
  {
    LessTotal(a, b);
    LessTotal(a, c);
    if Less(c, a) { LessTransitive(c, a, b); }
  }

  // A better source stays ahead of everything the worse one was ahead of.
  lemma PreferenceSplits(sources: seq<Source>, turn: int, draw: Draw, a: nat, b: nat, c: nat)
    requires a < |sources| && b < |sources| && c < |sources|
    requires Preferred(sources, turn, draw, a, b)
    ensures Preferred(sources, turn, draw, a, c) || Preferred(sources, turn, draw, c, b)
    ensures !Preferred(sources, turn, draw, b, a)
  {
    hide Less;
    var x, y, z := sources[a].key, sources[b].key, sources[c].key;
    if Less(x, y) { LessSplits(x, y, z); }
    if Less(y, x) { LessSplits(y, x, z); }
  }

  lemma NotCandidate(sources: seq<Source>, turn: int, u: nat)
    requires u < |sources| && !Candidate(sources, turn, u)
    ensures !(Available(sources[u]) && sources[u].analyzed < CALIBRATION_ANALYSES)
  {
  }

  lemma NoCandidateNoSource(sources: seq<Source>, turn: int)
    requires forall j :: 0 <= j < |sources| ==> !Candidate(sources, turn, j)
    ensures !AnyAvailable(sources)
  {
    forall i | 0 <= i < |sources|
      ensures !Available(sources[i])
    {
      assert !Candidate(sources, turn, i);
      if AnyUncalibrated(sources) {
        var u :| 0 <= u < |sources| && Available(sources[u]) && sources[u].analyzed < CALIBRATION_ANALYSES;
        NotCandidate(sources, turn, u);
      }
    }
  }

  lemma WakeupOfMore(sources: seq<Source>, s: Source, turn: int, before: Option<int>, next: int)
    requires before.Some? ==> NextWakeup(sources, turn, before.value)
    requires before.None? ==> forall j :: 0 <= j < |sources| ==>
      !FutureCooldown(sources[j], turn) && !FutureRefresh(sources[j], turn)
    requires next > turn && (before == Some(next) || s.cooldownUntil == Some(next) || s.nextRefresh == next)
    requires before.Some? ==> next <= before.value
    requires FutureCooldown(s, turn) ==> next <= s.cooldownUntil.value
    requires FutureRefresh(s, turn) ==> next <= s.nextRefresh
    ensures NextWakeup(sources + [s], turn, next)
  {
    var all := sources + [s];
    if before == Some(next) {
      var i :| 0 <= i < |sources| && (sources[i].cooldownUntil == Some(next) || sources[i].nextRefresh == next);
      assert all[i] == sources[i];
    } else {
      assert all[|sources|] == s;
    }
  }

  // ---- no deadlock ----

  // `choose` finds no source now.
  ghost predicate Stuck(c: Clock) { !AnyAvailable(WakeAll(c.sources, c.turn)) }

  // One failed `choose`, followed by `advance_to_wakeup`.
  ghost predicate Retries(c: Clock, c': Clock) {
    && Stuck(c)
    && c'.sources == WakeAll(c.sources, c.turn)
    && NextWakeup(c'.sources, c.turn, c'.turn)
  }

  lemma {:induction false} WakeupsBound(sources: seq<Source>, turn: int)
    ensures Wakeups(sources, turn) <= 2 * |sources|
  {
    if sources != [] { WakeupsBound(sources[..|sources| - 1], turn); }
  }

  lemma {:induction false} WakingKeepsWakeups(sources: seq<Source>, turn: int)
    ensures Wakeups(WakeAll(sources, turn), turn) == Wakeups(sources, turn)
  {
    if sources != [] {
      var last := |sources| - 1;
      WakingKeepsWakeups(sources[..last], turn);
      assert WakeAll(sources, turn)[..last] == WakeAll(sources[..last], turn);
    }
  }

  // Later, fewer waits lie ahead; one fewer at least when some wait has ended in between.
  lemma {:induction false} TimePasses(sources: seq<Source>, turn: int, next: int)
    requires turn < next
    ensures Wakeups(sources, next) <= Wakeups(sources, turn)
    ensures (exists i :: 0 <= i < |sources|
                         && (sources[i].cooldownUntil == Some(next) || sources[i].nextRefresh == next)) ==>
      Wakeups(sources, next) < Wakeups(sources, turn)
  {
    if sources != [] {
      var last := |sources| - 1;
      TimePasses(sources[..last], turn, next);
      assert forall i :: 0 <= i < last ==> sources[..last][i] == sources[i];
    }
  }

  lemma {:induction false} NoWakeupsAhead(sources: seq<Source>, turn: int)
    ensures Wakeups(sources, turn) == 0 <==>
      forall i :: 0 <= i < |sources| ==> !FutureCooldown(sources[i], turn) && !FutureRefresh(sources[i], turn)
  {
    if sources != [] {
      var last := |sources| - 1;
      NoWakeupsAhead(sources[..last], turn);
      assert forall i :: 0 <= i < last ==> sources[..last][i] == sources[i];
    }
  }

  // When no source can be served, some wait lies ahead.
  lemma StuckHasWakeup(c: Clock)
    requires c.sources != [] && Stuck(c)
    ensures Wakeups(WakeAll(c.sources, c.turn), c.turn) > 0
  {
    var awake := WakeAll(c.sources, c.turn);
    NoWakeupsAhead(awake, c.turn);
    assert !Available(awake[0]);
  }

  lemma RetrySpendsWakeup(c: Clock, c': Clock)
    requires Retries(c, c')
    ensures Wakeups(c'.sources, c'.turn) < Wakeups(c.sources, c.turn)
  {
    WakingKeepsWakeups(c.sources, c.turn);
    TimePasses(c'.sources, c.turn, c'.turn);
  }

  // However the waits lie, at most two advances per source pass before a source can be served; as
  // long as none can, the next advance moves the clock forward.
  lemma {:induction false} NoDeadlock(chain: seq<Clock>)
    requires chain != [] && chain[0].sources != []
    requires forall i :: 0 <= i < |chain| - 1 ==> Retries(chain[i], chain[i + 1])
    ensures var last := chain[|chain| - 1];
      && |last.sources| == |chain[0].sources|
      && |chain| - 1 + Wakeups(last.sources, last.turn) <= 2 * |chain[0].sources|
      && (|chain| > 1 ==> chain[0].turn < last.turn)
      && (Stuck(last) ==> |chain| - 1 < 2 * |chain[0].sources|
                          && Wakeups(WakeAll(last.sources, last.turn), last.turn) > 0)
  {
    var n := |chain| - 1;
    if n == 0 {
      WakeupsBound(chain[0].sources, chain[0].turn);
    } else {
      NoDeadlock(chain[..n]);
      RetrySpendsWakeup(chain[n - 1], chain[n]);
    }
    if Stuck(chain[n]) {
      StuckHasWakeup(chain[n]);
      WakingKeepsWakeups(chain[n].sources, chain[n].turn);
    }
  }

  predicate HasWakeup(s: Source, turn: int) { FutureCooldown(s, turn) || FutureRefresh(s, turn) }

  // A stuck scheduler can always be advanced: `advance_to_wakeup` returns true.
  lemma StuckCanAdvance(c: Clock)
    requires c.sources != [] && Stuck(c)
    ensures exists i :: 0 <= i < |c.sources| && HasWakeup(WakeAll(c.sources, c.turn)[i], c.turn)
  {
    StuckHasWakeup(c);
    NoWakeupsAhead(WakeAll(c.sources, c.turn), c.turn);
  }
}
