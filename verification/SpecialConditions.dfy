// The check that a cover letter meets an employer's special conditions: every condition has its
// own span of the letter, and spans that must open or close the letter really do.

module SpecialConditions {
  import opened Records

  datatype Position = Beginning | Middle | End | Anywhere

  datatype Condition = Condition(id: string, literal: Option<string>, position: Position)

  datatype Fulfilled = Fulfilled(id: string, span: string)

  datatype Interval = Interval(start: nat, end: nat)

  // A condition together with the place of its span.
  datatype Placed = Placed(condition: Condition, span: string, at: Interval)

  // Whitespace and words are what the language's string methods say they are.
  type Space = char -> bool
  type Words = string -> nat

  // ---- text ----

  predicate OccursAt(text: string, span: string, i: nat) { i + |span| <= |text| && text[i..i + |span|] == span }

  predicate FirstOccurrence(text: string, span: string, i: nat) {
    OccursAt(text, span, i) && forall j :: 0 <= j < i ==> !OccursAt(text, span, j)
  }

  method Find(text: string, span: string) returns (found: Option<nat>)
    ensures found.Some? ==> FirstOccurrence(text, span, found.value)
    ensures found.None? ==> forall i: nat :: !OccursAt(text, span, i)
  {
    for i := 0 to |text| + 1
      invariant forall j :: 0 <= j < i ==> !OccursAt(text, span, j)
    {
      if OccursAt(text, span, i) { return Some(i); }
    }
    return None;
  }

  // Some character of the stretch is not whitespace.
  predicate Inked(text: string, space: Space, start: nat, end: nat) {
    exists i :: start <= i < end && i < |text| && !space(text[i])
  }

  method HasInk(text: string, space: Space, start: nat, end: nat) returns (ink: bool)
    requires end <= |text|
    ensures ink <==> Inked(text, space, start, end)
  {
    var i := start;
    while i < end
      invariant start <= i && (start <= end ==> i <= end)
      invariant forall j :: start <= j < i && j < |text| ==> space(text[j])
    {
      if !space(text[i]) { return true; }
      i := i + 1;
    }
    return false;
  }

  // ---- intervals ----

  predicate Covers(intervals: seq<Interval>, i: int) {
    exists k :: 0 <= k < |intervals| && intervals[k].start <= i < intervals[k].end
  }

  // Every character of the stretch that is not whitespace lies in one of the intervals.
  ghost predicate Covered(text: string, space: Space, start: nat, end: nat, intervals: seq<Interval>) {
    forall i :: start <= i < end && i < |text| && !space(text[i]) ==> Covers(intervals, i)
  }

  ghost predicate Sorted(intervals: seq<Interval>) {
    forall j, k :: 0 <= j < k < |intervals| ==> intervals[j].start <= intervals[k].start
  }

  predicate Before(a: Interval, b: Interval) { a.start < b.start || (a.start == b.start && a.end <= b.end) }

  method SortIntervals(intervals: seq<Interval>) returns (sorted: seq<Interval>)
    ensures Sorted(sorted) && forall x :: x in sorted <==> x in intervals
  {
    sorted := [];
    for i := 0 to |intervals|
      invariant Sorted(sorted) && forall x :: x in sorted <==> x in intervals[..i]
    {
      var n := 0;
      while n < |sorted| && Before(sorted[n], intervals[i])
        invariant 0 <= n <= |sorted|
        invariant forall k :: 0 <= k < n ==> sorted[k].start <= intervals[i].start
      {
        n := n + 1;
      }
      InsertSorts(sorted, n, intervals[i]);
      sorted := sorted[..n] + [intervals[i]] + sorted[n..];
    }
  }

  lemma InsertSorts(sorted: seq<Interval>, n: nat, x: Interval)
    requires Sorted(sorted) && n <= |sorted|
    requires forall k :: 0 <= k < n ==> sorted[k].start <= x.start
    requires n < |sorted| ==> x.start <= sorted[n].start
    ensures Sorted(sorted[..n] + [x] + sorted[n..])
    ensures forall y :: y in sorted[..n] + [x] + sorted[n..] <==> y in sorted || y == x
  {
    forall y
      ensures y in sorted[..n] + [x] + sorted[n..] <==> y in sorted || y == x
    {
      assert sorted == sorted[..n] + sorted[n..];
    }
  }

  lemma SameCover(a: seq<Interval>, b: seq<Interval>)
    requires forall x :: x in a <==> x in b
    ensures forall i :: Covers(a, i) <==> Covers(b, i)
  {
    forall i
      ensures Covers(a, i) <==> Covers(b, i)
    {
      if k :| 0 <= k < |a| && a[k].start <= i < a[k].end { assert a[k] in b; }
      if k :| 0 <= k < |b| && b[k].start <= i < b[k].end { assert b[k] in a; }
    }
  }

  // Whether something besides whitespace is left outside the intervals.
  method Uncovered(text: string, space: Space, start: nat, end: nat, intervals: seq<Interval>) returns (left: bool)
    requires start <= end <= |text| && forall k :: 0 <= k < |intervals| ==> intervals[k].end <= |text|
    ensures left <==> !Covered(text, space, start, end, intervals)
  {
    var sorted := SortIntervals(intervals);
    SameCover(intervals, sorted);
    assert forall x :: x in sorted ==> x.end <= |text|;
    var cursor := start;
    for k := 0 to |sorted|
      invariant start <= cursor <= |text|
      invariant Covered(text, space, start, if cursor < end then cursor else end, sorted)
      invariant forall j :: 0 <= j < k ==>
        sorted[j].end <= cursor || sorted[j].end <= start || sorted[j].start >= end
    {
      var interval := sorted[k];
      assert interval in sorted;
      if !(interval.end <= start || interval.start >= end) {
        if interval.start > cursor {
          var ink := HasInk(text, space, cursor, interval.start);
          if ink {
            LeftBeforeInterval(text, space, start, end, sorted, k, cursor);
            return true;
          }
        }
        cursor := if cursor > interval.end then cursor else interval.end;
      }
    }
    left := HasInk(text, space, cursor, end);
  }

  lemma LeftBeforeInterval(text: string, space: Space, start: nat, end: nat, sorted: seq<Interval>, k: nat, cursor: nat)
    requires Sorted(sorted) && k < |sorted| && start <= cursor < sorted[k].start < end <= |text|
    requires Inked(text, space, cursor, sorted[k].start)
    requires forall j :: 0 <= j < k ==> sorted[j].end <= cursor || sorted[j].end <= start || sorted[j].start >= end
    ensures !Covered(text, space, start, end, sorted)
  {
    var i :| cursor <= i < sorted[k].start && i < |text| && !space(text[i]);
    assert !Covers(sorted, i);
  }

  // ---- what a letter must satisfy ----

  ghost predicate UniqueIds(conditions: seq<Condition>) {
    forall j, k :: 0 <= j < k < |conditions| ==> conditions[j].id != conditions[k].id
  }

  // A claim stands for the condition with its id, at the first place where its span occurs.
  predicate Places(text: string, conditions: seq<Condition>, claim: Fulfilled, p: Placed) {
    && p.condition in conditions && p.condition.id == claim.id && p.span == claim.span
    && FirstOccurrence(text, claim.span, p.at.start) && p.at.end == p.at.start + |claim.span|
  }

  ghost predicate IsPlacement(
    text: string, conditions: seq<Condition>, fulfilled: seq<Fulfilled>, placed: seq<Placed>) {
    |placed| == |fulfilled| && forall k :: 0 <= k < |placed| ==> Places(text, conditions, fulfilled[k], placed[k])
  }

  predicate Apart(a: Interval, b: Interval) { a.end <= b.start || b.end <= a.start }

  predicate Literal(p: Placed) {
    p.condition.literal.Some? && p.condition.literal.value != "" ==> p.span == p.condition.literal.value
  }

  // No id twice, no two spans overlapping, every literal condition met to the letter.
  ghost predicate Compatible(placed: seq<Placed>) {
    && (forall j, k :: 0 <= j < k < |placed| ==>
      placed[j].condition.id != placed[k].condition.id && Apart(placed[j].at, placed[k].at))
    && (forall k :: 0 <= k < |placed| ==> Literal(placed[k]))
  }

  function Group(placed: seq<Placed>, position: Position): seq<Interval> {
    if placed == [] then []
    else
      var last := placed[|placed| - 1];
      Group(placed[..|placed| - 1], position) + (if last.condition.position == position then [last.at] else [])
  }

  // Before an opening span nothing stands but other opening spans; after a closing span nothing
  // but other closing spans; a middle span has text on both sides.
  ghost predicate WellPlaced(text: string, space: Space, placed: seq<Placed>, p: Placed) {
    match p.condition.position
    case Beginning => Covered(text, space, 0, p.at.start, Group(placed, Beginning))
    case End => Covered(text, space, p.at.end, |text|, Group(placed, End))
    case Middle => Inked(text, space, 0, p.at.start) && Inked(text, space, p.at.end, |text|)
    case Anywhere => true
  }

  predicate Seen(placed: seq<Placed>, id: string) { exists k :: 0 <= k < |placed| && placed[k].condition.id == id }

  ghost predicate Satisfied(text: string, space: Space, conditions: seq<Condition>, placed: seq<Placed>) {
    && Compatible(placed)
    && (forall k :: 0 <= k < |placed| ==> WellPlaced(text, space, placed, placed[k]))
    && (forall c :: 0 <= c < |conditions| ==> Seen(placed, conditions[c].id))
  }

  ghost predicate Accepts(text: string, space: Space, conditions: seq<Condition>, fulfilled: seq<Fulfilled>) {
    exists placed :: IsPlacement(text, conditions, fulfilled, placed) && Satisfied(text, space, conditions, placed)
  }

  function ExemptWords(placed: seq<Placed>, words: Words): nat {
    if placed == [] then 0 else ExemptWords(placed[..|placed| - 1], words) + words(placed[|placed| - 1].span)
  }

  lemma PlacesOnce(text: string, conditions: seq<Condition>, claim: Fulfilled, p: Placed, q: Placed)
    requires UniqueIds(conditions) && Places(text, conditions, claim, p) && Places(text, conditions, claim, q)
    ensures p == q
  {
    var j :| 0 <= j < |conditions| && conditions[j] == p.condition;
    var k :| 0 <= k < |conditions| && conditions[k] == q.condition;
  }

  // The claims determine the placement.
  lemma PlacementIsUnique(
    text: string, conditions: seq<Condition>, fulfilled: seq<Fulfilled>, n: nat, prefix: seq<Placed>,
    placed: seq<Placed>)
    requires UniqueIds(conditions) && n <= |fulfilled|
    requires IsPlacement(text, conditions, fulfilled[..n], prefix) && IsPlacement(text, conditions, fulfilled, placed)
    ensures prefix == placed[..n]
  {
    forall k | 0 <= k < n
      ensures prefix[k] == placed[k]
    {
      PlacesOnce(text, conditions, fulfilled[k], prefix[k], placed[k]);
    }
  }

  // ---- the check ----

  method FindCondition(conditions: seq<Condition>, id: string) returns (found: Option<Condition>)
    ensures found.Some? ==> found.value in conditions && found.value.id == id
    ensures found.None? ==> forall c :: c in conditions ==> c.id != id
  {
    for i := 0 to |conditions|
      invariant forall j :: 0 <= j < i ==> conditions[j].id != id
    {
      if conditions[i].id == id { return Some(conditions[i]); }
    }
    return None;
  }

  predicate Overlaps(placed: seq<Placed>, at: Interval) { exists k :: 0 <= k < |placed| && !Apart(placed[k].at, at) }

  // Places the claims one after the other, until one does not fit.
  method PlaceAll(
    text: string, conditions: seq<Condition>, fulfilled: seq<Fulfilled>) returns (result: Option<seq<Placed>>)
    requires UniqueIds(conditions) && forall k :: 0 <= k < |fulfilled| ==> fulfilled[k].span != ""
    ensures result.Some? ==> IsPlacement(text, conditions, fulfilled, result.value) && Compatible(result.value)
    ensures result.None? ==> forall placed :: IsPlacement(text, conditions, fulfilled, placed) ==> !Compatible(placed)
  {
    var placed: seq<Placed> := [];
    for k := 0 to |fulfilled|
      invariant IsPlacement(text, conditions, fulfilled[..k], placed) && Compatible(placed)
    {
      var claim := fulfilled[k];
      forall all | IsPlacement(text, conditions, fulfilled, all)
        ensures placed == all[..k] && Places(text, conditions, claim, all[k])
      {
        PlacementIsUnique(text, conditions, fulfilled, k, placed, all);
      }
      var condition := FindCondition(conditions, claim.id);
      if condition.None? || Seen(placed, claim.id) { return None; }
      var start := Find(text, claim.span);
      if start.None? { return None; }
      var next := Placed(condition.value, claim.span, Interval(start.value, start.value + |claim.span|));
      forall all | IsPlacement(text, conditions, fulfilled, all)
        ensures all[k] == next
      {
        PlacesOnce(text, conditions, claim, all[k], next);
      }
      if Overlaps(placed, next.at) { return None; }
      if !Literal(next) { return None; }
      assert fulfilled[..k + 1] == fulfilled[..k] + [claim];
      placed := placed + [next];
    }
    assert fulfilled[..|fulfilled|] == fulfilled;
    return Some(placed);
  }

  lemma {:induction false} GroupFits(text: string, placed: seq<Placed>, position: Position)
    requires forall k :: 0 <= k < |placed| ==> placed[k].at.end <= |text|
    ensures forall k :: 0 <= k < |Group(placed, position)| ==> Group(placed, position)[k].end <= |text|
  {
    if placed != [] { GroupFits(text, placed[..|placed| - 1], position); }
  }

  method IntervalsOf(placed: seq<Placed>, position: Position) returns (intervals: seq<Interval>)
    ensures intervals == Group(placed, position)
  {
    intervals := [];
    for k := 0 to |placed|
      invariant intervals == Group(placed[..k], position)
    {
      assert placed[..k + 1][..k] == placed[..k];
      if placed[k].condition.position == position { intervals := intervals + [placed[k].at]; }
    }
    assert placed[..|placed|] == placed;
  }

  method CheckPosition(
    text: string, space: Space, placed: seq<Placed>, p: Placed, beginning: seq<Interval>, ending: seq<Interval>)
    returns (ok: bool)
    requires p.at.start <= p.at.end <= |text| && forall k :: 0 <= k < |placed| ==> placed[k].at.end <= |text|
    requires beginning == Group(placed, Beginning) && ending == Group(placed, End)
    ensures ok <==> WellPlaced(text, space, placed, p)
  {
    GroupFits(text, placed, Beginning);
    GroupFits(text, placed, End);
    if p.condition.position == Beginning {
      var left := Uncovered(text, space, 0, p.at.start, beginning);
      if left { return false; }
    }
    if p.condition.position == End {
      var left := Uncovered(text, space, p.at.end, |text|, ending);
      if left { return false; }
    }
    if p.condition.position == Middle {
      var before := HasInk(text, space, 0, p.at.start);
      var after := HasInk(text, space, p.at.end, |text|);
      if !before || !after { return false; }
    }
    return true;
  }

  method CheckPositions(
    text: string, space: Space, words: Words, placed: seq<Placed>) returns (ok: bool, exemptWords: nat)
    requires forall k :: 0 <= k < |placed| ==> placed[k].at.start <= placed[k].at.end <= |text|
    ensures ok <==> forall k :: 0 <= k < |placed| ==> WellPlaced(text, space, placed, placed[k])
    ensures exemptWords == if ok then ExemptWords(placed, words) else 0
  {
    hide WellPlaced;
    var beginning := IntervalsOf(placed, Beginning);
    var ending := IntervalsOf(placed, End);
    exemptWords := 0;
    for k := 0 to |placed|
      invariant forall j :: 0 <= j < k ==> WellPlaced(text, space, placed, placed[j])
      invariant exemptWords == ExemptWords(placed[..k], words)
    {
      var fits := CheckPosition(text, space, placed, placed[k], beginning, ending);
      if !fits { return false, 0; }
      assert placed[..k + 1][..k] == placed[..k];
      exemptWords := exemptWords + words(placed[k].span);
    }
    assert placed[..|placed|] == placed;
    return true, exemptWords;
  }

  // Sound and complete: accepted exactly when the claims can be placed as the conditions ask.
  method ValidateSpecialConditions(
    text: string, space: Space, words: Words, conditions: seq<Condition>, fulfilled: seq<Fulfilled>)
    returns (valid: bool, exemptWords: nat)
    requires UniqueIds(conditions) && forall k :: 0 <= k < |fulfilled| ==> fulfilled[k].span != ""
    ensures valid <==> Accepts(text, space, conditions, fulfilled)
    ensures valid ==>
      exists placed :: IsPlacement(text, conditions, fulfilled, placed) && exemptWords == ExemptWords(placed, words)
    ensures !valid ==> exemptWords == 0
  {
    hide Compatible, WellPlaced, UniqueIds;
    var result := PlaceAll(text, conditions, fulfilled);
    if result.None? { return false, 0; }
    var placed := result.value;
    forall all | IsPlacement(text, conditions, fulfilled, all)
      ensures all == placed
    {
      assert fulfilled[..|fulfilled|] == fulfilled;
      PlacementIsUnique(text, conditions, fulfilled, |fulfilled|, placed, all);
    }
    var positioned;
    positioned, exemptWords := CheckPositions(text, space, words, placed);
    if !positioned { return false, 0; }
    for c := 0 to |conditions|
      invariant forall b :: 0 <= b < c ==> Seen(placed, conditions[b].id)
    {
      if !Seen(placed, conditions[c].id) { return false, 0; }
    }
    return true, exemptWords;
  }
}
