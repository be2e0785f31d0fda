// The evaluator's gate between "apply" and "skip": what the analyst's and the independent
// verifier's raw answers must look like for a vacancy to be recommended.

module ApplyGate {
  import opened Records

  datatype Flag = Flag(id: string, required: bool, salary: bool, quoted: bool)

  datatype Policy = Policy(version: int, greens: seq<Flag>, reds: seq<Flag>)

  // One row of the analyst's answer; `complete` if it set every field itself.
  datatype Row = Row(id: string, matched: bool, confidence: real, evidence: seq<string>, complete: bool)

  // One row of the verifier's answer.
  datatype Verdict = Verdict(id: string, matched: bool, confidence: real, evidence: seq<string>, missing: seq<string>)

  datatype Match = Match(id: string, matched: bool, confidence: real, evidence: seq<string>)

  // How quotes relate to the vacancy: sharing enough of its words, or literally part of it.
  datatype Text = Text(grounded: string -> bool, exact: string -> bool)

  const POLICY_CONTRACT_VERSION := 2
  const FLAG_CONFIDENCE := 0.70
  const VERIFIER_CONFIDENCE := 0.90

  // ---- what the raw answers say ----

  predicate Flagged(flags: seq<Flag>, id: string) { exists i :: 0 <= i < |flags| && flags[i].id == id }

  predicate Known(policy: Policy, id: string) { Flagged(policy.greens, id) || Flagged(policy.reds, id) }

  function RequiredAmong(flags: seq<Flag>): seq<Flag> {
    if flags == [] then []
    else
      var last := flags[|flags| - 1];
      RequiredAmong(flags[..|flags| - 1]) + (if last.required && !last.salary then [last] else [])
  }

  function RequiredFlags(policy: Policy): seq<Flag> {
    if policy.version >= POLICY_CONTRACT_VERSION then RequiredAmong(policy.greens) else []
  }

  predicate Repeated(flags: seq<Flag>, id: string) {
    exists i, j :: 0 <= i < j < |flags| && flags[i].id == id && flags[j].id == id
  }

  predicate NoRepeats(flags: seq<Flag>) {
    forall i, j :: 0 <= i < j < |flags| ==> flags[i].id != flags[j].id
  }

  // The only row for an id.
  predicate Only(rows: seq<Row>, id: string, i: nat) {
    i < |rows| && rows[i].id == id && forall j :: 0 <= j < |rows| && j != i ==> rows[j].id != id
  }

  predicate AnyQuote(
    evidence: seq<string>, test: string -> bool) { exists i :: 0 <= i < |evidence| && test(evidence[i]) }

  predicate AllQuotes(
    evidence: seq<string>, test: string -> bool) { forall i :: 0 <= i < |evidence| ==> test(evidence[i]) }

  // The red flag was reliably looked for and not found.
  ghost predicate Cleared(rows: seq<Row>, id: string) {
    exists i: nat :: Only(rows, id, i) && ClearingRow(rows[i])
  }

  predicate ClearingRow(row: Row) { row.complete && row.confidence >= FLAG_CONFIDENCE && !row.matched }

  ghost predicate RedsCleared(policy: Policy, rows: seq<Row>) {
    policy.reds != [] ==>
      && (forall i :: 0 <= i < |rows| ==> Known(policy, rows[i].id))
      && (forall f :: 0 <= f < |policy.reds| ==> Cleared(rows, policy.reds[f].id))
  }

  // The first row for an id is the one the evaluator reads.
  function FirstRow(rows: seq<Row>, id: string): (found: Option<nat>)
    ensures found.Some? ==>
      found.value < |rows| && rows[found.value].id == id && forall j :: 0 <= j < found.value ==> rows[j].id != id
    ensures found.None? ==> forall j :: 0 <= j < |rows| ==> rows[j].id != id
  {
    if rows == [] then None
    else
      var last := |rows| - 1;
      var found := FirstRow(rows[..last], id);
      if found.Some? then found else if rows[last].id == id then Some(last) else None
  }

  // The analyst matched the required flag with grounded and literal evidence.
  predicate AnalystConfirms(rows: seq<Row>, text: Text, flag: Flag) {
    var found := FirstRow(rows, flag.id);
    flag.quoted && found.Some? && StrongRow(rows[found.value], text) && AnyQuote(rows[found.value].evidence, text.exact)
  }

  // The evaluator keeps a match only with enough confidence and some grounded quote.
  predicate StrongRow(row: Row, text: Text) {
    row.matched && row.confidence >= FLAG_CONFIDENCE && AnyQuote(row.evidence, text.grounded)
  }

  predicate OnlyVerdict(answer: seq<Verdict>, id: string, i: nat) {
    i < |answer| && answer[i].id == id && forall j :: 0 <= j < |answer| && j != i ==> answer[j].id != id
  }

  predicate ConfirmingVerdict(verdict: Verdict, text: Text) {
    && verdict.matched && verdict.confidence >= VERIFIER_CONFIDENCE && verdict.missing == []
    && verdict.evidence != [] && AllQuotes(verdict.evidence, text.exact)
  }

  // The verifier returned exactly one row for the id, and that row confirms it literally.
  ghost predicate VerifierConfirms(answer: seq<Verdict>, text: Text, id: string) {
    exists i: nat :: OnlyVerdict(answer, id, i) && ConfirmingVerdict(answer[i], text)
  }

  ghost predicate RequiredConfirmed(policy: Policy, rows: seq<Row>, answer: seq<Verdict>, text: Text) {
    var required := RequiredFlags(policy);
    required != [] ==>
      && NoRepeats(required)
      && (forall f :: 0 <= f < |required| ==> AnalystConfirms(rows, text, required[f]))
      && (forall f :: 0 <= f < |required| ==> VerifierConfirms(answer, text, required[f].id))
      && (forall i :: 0 <= i < |answer| ==> Flagged(required, answer[i].id))
  }

  // When the second model is asked at all.
  predicate AsksVerifier(policy: Policy, rows: seq<Row>, text: Text) {
    var required := RequiredFlags(policy);
    && required != [] && NoRepeats(required)
    && forall f :: 0 <= f < |required| ==> AnalystConfirms(rows, text, required[f])
  }

  // ---- the evaluation ----

  function Copies(rows: seq<Row>, id: string): nat {
    if rows == [] then 0
    else
      var last := if rows[|rows| - 1].id == id then 1 else 0;
      Copies(rows[..|rows| - 1], id) + last
  }

  lemma {:induction false} CopiesCount(rows: seq<Row>, id: string)
    ensures Copies(rows, id) == 0 <==> forall i :: 0 <= i < |rows| ==> rows[i].id != id
    ensures Copies(rows, id) == 1 <==> exists i: nat :: Only(rows, id, i)
  {
    if rows != [] {
      var last := |rows| - 1;
      var front := rows[..last];
      CopiesCount(front, id);
      assert forall i :: 0 <= i < last ==> front[i] == rows[i];
      if Copies(rows, id) == 1 {
        if rows[last].id == id {
          assert Only(rows, id, last);
        } else {
          var i: nat :| Only(front, id, i);
          assert Only(rows, id, i);
        }
      }
      if i: nat :| Only(rows, id, i) {
        if i < last { assert Only(front, id, i); }
      }
    }
  }

  method CountRows(rows: seq<Row>, id: string) returns (n: nat)
    ensures n == Copies(rows, id)
  {
    n := 0;
    for i := 0 to |rows|
      invariant n == Copies(rows[..i], id)
    {
      assert rows[..i + 1][..i] == rows[..i];
      if rows[i].id == id { n := n + 1; }
    }
    assert rows[..|rows|] == rows;
  }

  predicate SafeRow(row: Row, text: Text) {
    row.complete && row.confidence >= FLAG_CONFIDENCE && (row.matched ==> AnyQuote(row.evidence, text.grounded))
  }

  ghost predicate Reliable(rows: seq<Row>, text: Text, id: string) {
    exists i: nat :: Only(rows, id, i) && SafeRow(rows[i], text)
  }

  // The red-flag rows can be relied on, whatever they say.
  ghost predicate RedsReliable(policy: Policy, rows: seq<Row>, text: Text) {
    policy.reds != [] ==>
      && (forall i :: 0 <= i < |rows| ==> Known(policy, rows[i].id))
      && (forall f :: 0 <= f < |policy.reds| ==> Reliable(rows, text, policy.reds[f].id))
  }

  method RedFlagSafetyIssue(policy: Policy, rows: seq<Row>, text: Text) returns (issue: bool)
    ensures issue <==> !RedsReliable(policy, rows, text)
  {
    if policy.reds == [] { return false; }
    for i := 0 to |rows|
      invariant forall j :: 0 <= j < i ==> Known(policy, rows[j].id)
    {
      if !Known(policy, rows[i].id) { return true; }
    }
    for f := 0 to |policy.reds|
      invariant forall g :: 0 <= g < f ==> Reliable(rows, text, policy.reds[g].id)
    {
      var id := policy.reds[f].id;
      var n := CountRows(rows, id);
      CopiesCount(rows, id);
      if n != 1 { return true; }
      var found := FirstRow(rows, id);
      OnlyIsFirst(rows, id);
      if !SafeRow(rows[found.value], text) { return true; }
    }
    return false;
  }

  lemma OnlyIsFirst(rows: seq<Row>, id: string)
    requires exists i: nat :: Only(rows, id, i)
    ensures FirstRow(rows, id).Some? && Only(rows, id, FirstRow(rows, id).value)
    ensures forall i: nat :: Only(rows, id, i) ==> i == FirstRow(rows, id).value
  {
  }

  // ---- matches ----

  function Grounded(evidence: seq<string>, text: Text): seq<string> {
    if evidence == [] then []
    else
      var rest := Grounded(evidence[..|evidence| - 1], text);
      if text.grounded(evidence[|evidence| - 1]) then rest + [evidence[|evidence| - 1]] else rest
  }

  lemma {:induction false} GroundedKeeps(evidence: seq<string>, text: Text)
    ensures Grounded(evidence, text) != [] <==> AnyQuote(evidence, text.grounded)
  {
    if evidence != [] {
      var last := |evidence| - 1;
      GroundedKeeps(evidence[..last], text);
      assert forall i :: 0 <= i < last ==> evidence[..last][i] == evidence[i];
    }
  }

  // What the evaluator makes of the analyst's first row for an id; an id without a row is unmatched.
  function PrimaryMatch(rows: seq<Row>, text: Text, id: string): Match {
    var found := FirstRow(rows, id);
    if found.None? then Match(id, false, 0.0, [])
    else
      var row := rows[found.value];
      var evidence := Grounded(row.evidence, text);
      Match(id, row.matched && row.confidence >= FLAG_CONFIDENCE && evidence != [], row.confidence, evidence)
  }

  function Denied(m: Match): Match { m.(matched := false) }

  // The match after the required flags were verified.
  ghost function FinalMatch(policy: Policy, rows: seq<Row>, answer: seq<Verdict>, text: Text, m: Match): Match {
    var required := RequiredFlags(policy);
    if !Flagged(required, m.id) then m
    else if !NoRepeats(required) then (if Repeated(required, m.id) then Denied(m) else m)
    else if !AsksVerifier(policy, rows, text) then m
    else if VerifierConfirms(answer, text, m.id) && (forall i :: 0 <= i < |answer| ==> Flagged(required, answer[i].id))
    then m.(evidence := VerifiedEvidence(answer, text, m.id))
    else Denied(m)
  }

  // The quotes of the one confirming row, each once.
  ghost function VerifiedEvidence(answer: seq<Verdict>, text: Text, id: string): (evidence: seq<string>)
    requires VerifierConfirms(answer, text, id)
    ensures evidence != []
  {
    var i: nat :| OnlyVerdict(answer, id, i) && ConfirmingVerdict(answer[i], text);
    WithoutRepeats(answer[i].evidence)
  }

  function WithoutRepeats(items: seq<string>): (kept: seq<string>)
    ensures kept == [] <==> items == []
  {
    if items == [] then []
    else
      var rest := WithoutRepeats(items[..|items| - 1]);
      if items[|items| - 1] in rest then rest else rest + [items[|items| - 1]]
  }

  predicate Listed(matches: seq<Match>, id: string) { exists k :: 0 <= k < |matches| && matches[k].id == id }

  // One match for every flag id of the policy, each what the analyst's first row says.
  ghost predicate PrimaryMatches(policy: Policy, rows: seq<Row>, text: Text, matches: seq<Match>) {
    && (forall k :: 0 <= k < |matches| ==>
         Known(policy, matches[k].id) && matches[k] == PrimaryMatch(rows, text, matches[k].id))
    && (forall id :: Known(policy, id) ==> Listed(matches, id))
  }

  lemma MoreListed(matches: seq<Match>, m: Match)
    ensures forall id :: Listed(matches + [m], id) <==> Listed(matches, id) || id == m.id
  {
    forall id
      ensures Listed(matches + [m], id) <==> Listed(matches, id) || id == m.id
    {
      if Listed(matches, id) {
        var k :| 0 <= k < |matches| && matches[k].id == id;
        assert (matches + [m])[k].id == id;
      }
      assert (matches + [m])[|matches|] == m;
    }
  }

  method GroundedQuotes(evidence: seq<string>, text: Text) returns (kept: seq<string>)
    ensures kept == Grounded(evidence, text)
  {
    kept := [];
    for i := 0 to |evidence|
      invariant kept == Grounded(evidence[..i], text)
    {
      assert evidence[..i + 1][..i] == evidence[..i];
      if text.grounded(evidence[i]) { kept := kept + [evidence[i]]; }
    }
    assert evidence[..|evidence|] == evidence;
  }

  lemma {:induction false} FirstRowAt(rows: seq<Row>, id: string, i: nat)
    requires i < |rows| && rows[i].id == id && forall j :: 0 <= j < i ==> rows[j].id != id
    ensures FirstRow(rows, id) == Some(i)
  {
  }

  method BuildMatches(policy: Policy, rows: seq<Row>, text: Text) returns (matches: seq<Match>)
    ensures PrimaryMatches(policy, rows, text, matches)
  {
    matches := [];
    for i := 0 to |rows|
      invariant forall k :: 0 <= k < |matches| ==>
        Known(policy, matches[k].id) && matches[k] == PrimaryMatch(rows, text, matches[k].id)
      invariant forall id :: Listed(matches, id) <==> Known(policy, id) && exists j :: 0 <= j < i && rows[j].id == id
    {
      var row := rows[i];
      if Known(policy, row.id) && !Listed(matches, row.id) {
        FirstRowAt(rows, row.id, i);
        var evidence := GroundedQuotes(row.evidence, text);
        var m := Match(row.id, row.matched && row.confidence >= FLAG_CONFIDENCE && evidence != [], row.confidence,
          evidence);
        MoreListed(matches, m);
        matches := matches + [m];
      }
    }
    var flags := policy.greens + policy.reds;
    assert forall id :: Known(policy, id) <==> Flagged(flags, id) by { FlaggedInSum(policy.greens, policy.reds); }
    for f := 0 to |flags|
      invariant forall k :: 0 <= k < |matches| ==>
        Known(policy, matches[k].id) && matches[k] == PrimaryMatch(rows, text, matches[k].id)
      invariant forall id :: Known(policy, id) && FirstRow(rows, id).Some? ==> Listed(matches, id)
      invariant forall g :: 0 <= g < f ==> Listed(matches, flags[g].id)
    {
      if !Listed(matches, flags[f].id) {
        assert Flagged(flags, flags[f].id);
        var m := Match(flags[f].id, false, 0.0, []);
        MoreListed(matches, m);
        matches := matches + [m];
      }
    }
  }

  lemma FlaggedInSum(a: seq<Flag>, b: seq<Flag>)
    ensures forall id :: Flagged(a + b, id) <==> Flagged(a, id) || Flagged(b, id)
  {
    forall id
      ensures Flagged(a + b, id) <==> Flagged(a, id) || Flagged(b, id)
    {
      if i :| 0 <= i < |a| && a[i].id == id { assert (a + b)[i].id == id; }
      if i :| 0 <= i < |b| && b[i].id == id { assert (a + b)[|a| + i].id == id; }
    }
  }

  // ---- the required flags ----

  // The gate's test of one required flag against the current matches.
  predicate Passes(matches: seq<Match>, rows: seq<Row>, text: Text, flag: Flag) {
    && flag.quoted
    && (exists k :: 0 <= k < |matches| && matches[k].id == flag.id && Solid(matches[k]))
    && ExactRow(rows, text, flag.id)
  }

  predicate Solid(m: Match) { m.matched && m.confidence >= FLAG_CONFIDENCE && m.evidence != [] }

  predicate ExactRow(rows: seq<Row>, text: Text, id: string) {
    var found := FirstRow(rows, id);
    found.Some? && AnyQuote(rows[found.value].evidence, text.exact)
  }

  lemma PrimaryPasses(policy: Policy, matches: seq<Match>, rows: seq<Row>, text: Text, flag: Flag)
    requires PrimaryMatches(policy, rows, text, matches) && Known(policy, flag.id)
    ensures Passes(matches, rows, text, flag) <==> AnalystConfirms(rows, text, flag)
  {
    var found := FirstRow(rows, flag.id);
    if found.Some? { GroundedKeeps(rows[found.value].evidence, text); }
    assert Listed(matches, flag.id);
  }

  lemma {:induction false} RequiredAreGreen(flags: seq<Flag>)
    ensures forall f :: 0 <= f < |RequiredAmong(flags)| ==> Flagged(flags, RequiredAmong(flags)[f].id)
  {
    if flags != [] {
      var front := flags[..|flags| - 1];
      RequiredAreGreen(front);
      forall f | 0 <= f < |RequiredAmong(flags)|
        ensures Flagged(flags, RequiredAmong(flags)[f].id)
      {
        if f < |RequiredAmong(front)| {
          var id := RequiredAmong(front)[f].id;
          assert Flagged(front, id);
          var i :| 0 <= i < |front| && front[i].id == id;
          assert flags[i].id == id;
        } else {
          assert flags[|flags| - 1].id == RequiredAmong(flags)[f].id;
        }
      }
    }
  }

  // The evidence of the verifier's only row for the id, if that row confirms it.
  method Verified(answer: seq<Verdict>, text: Text, id: string) returns (evidence: Option<seq<string>>)
    ensures evidence.Some? <==> VerifierConfirms(answer, text, id)
    ensures evidence.Some? ==> evidence.value == VerifiedEvidence(answer, text, id)
  {
    var candidate: Option<nat> := None;
    for j := 0 to |answer|
      invariant candidate.None? ==> forall k :: 0 <= k < j ==> answer[k].id != id
      invariant candidate.Some? ==> candidate.value < j && answer[candidate.value].id == id
      invariant candidate.Some? ==> forall k :: 0 <= k < j && k != candidate.value ==> answer[k].id != id
    {
      if answer[j].id == id {
        if candidate.Some? { return None; }
        candidate := Some(j);
      }
    }
    if candidate.None? || !ConfirmingVerdict(answer[candidate.value], text) { return None; }
    assert OnlyVerdict(answer, id, candidate.value);
    return Some(WithoutRepeats(answer[candidate.value].evidence));
  }

  // Replaces each required match by the independent result.
  method ApplyVerdicts(
    policy: Policy, rows: seq<Row>, answer: seq<Verdict>, text: Text, matches: seq<Match>) returns (final: seq<Match>)
    requires AsksVerifier(policy, rows, text)
    ensures Views(policy, rows, answer, text, matches, final)
  {
    var required := RequiredFlags(policy);
    var unexpected := false;
    for i := 0 to |answer|
      invariant unexpected <==> exists j :: 0 <= j < i && !Flagged(required, answer[j].id)
    {
      if !Flagged(required, answer[i].id) { unexpected := true; }
    }
    final := matches;
    for k := 0 to |matches|
      invariant |final| == |matches|
      invariant forall j :: 0 <= j < |matches| ==>
        final[j] == if j < k then FinalMatch(policy, rows, answer, text, matches[j]) else matches[j]
    {
      var m := final[k];
      if Flagged(required, m.id) {
        var evidence := Verified(answer, text, m.id);
        if evidence.Some? && !unexpected {
          final := final[k := m.(evidence := evidence.value)];
        } else {
          final := final[k := Denied(m)];
        }
      }
    }
  }

  ghost predicate Views(
    policy: Policy, rows: seq<Row>, answer: seq<Verdict>, text: Text, matches: seq<Match>, final: seq<Match>) {
    |final| == |matches| && forall k :: 0 <= k < |matches| ==>
      final[k] == FinalMatch(policy, rows, answer, text, matches[k])
  }

  method CheckRequired(policy: Policy, rows: seq<Row>, answer: seq<Verdict>, text: Text, matches: seq<Match>)
    returns (asked: bool, final: seq<Match>)
    requires PrimaryMatches(policy, rows, text, matches)
    ensures asked <==> AsksVerifier(policy, rows, text)
    ensures Views(policy, rows, answer, text, matches, final)
  {
    var required := RequiredFlags(policy);
    RequiredAreGreen(policy.greens);
    asked, final := false, matches;
    if !NoRepeats(required) {
      for k := 0 to |matches|
        invariant |final| == |matches|
        invariant forall j :: 0 <= j < |matches| ==>
          final[j] == if j < k then FinalMatch(policy, rows, answer, text, matches[j]) else matches[j]
      {
        if Repeated(required, final[k].id) {
          RepeatedIsFlagged(required, final[k].id);
          final := final[k := Denied(final[k])];
        }
      }
    } else if required != [] {
      var passes := true;
      for f := 0 to |required|
        invariant passes <==> forall g :: 0 <= g < f ==> AnalystConfirms(rows, text, required[g])
      {
        PrimaryPasses(policy, matches, rows, text, required[f]);
        if !Passes(matches, rows, text, required[f]) { passes := false; }
      }
      if passes {
        asked := true;
        final := ApplyVerdicts(policy, rows, answer, text, matches);
      }
    }
  }

  lemma RepeatedIsFlagged(flags: seq<Flag>, id: string)
    requires Repeated(flags, id)
    ensures Flagged(flags, id)
  {
  }

  // ---- the decision ----

  method Evaluate(
    policy: Policy, hasPolicy: bool, rows: seq<Row>, answer: seq<Verdict>, text: Text, otherBlocker: seq<Match> -> bool)
    returns (apply: bool, asked: bool, matches: seq<Match>)
    requires !hasPolicy ==> policy == Policy(1, [], [])
    ensures asked <==> AsksVerifier(policy, rows, text)
    ensures FinalMatches(policy, rows, answer, text, matches)
    ensures apply <==>
      !otherBlocker(matches) && RedsCleared(policy, rows) && RequiredConfirmed(policy, rows, answer, text)
  {
    hide RedsReliable, RedsCleared, RequiredConfirmed, AsksVerifier, Views, PrimaryMatches, FinalMatches;
    hide AllPass, RedHit;
    var redSafetyIssue := false;
    if !hasPolicy { NoPolicyIsReliable(rows, text); }
    if hasPolicy { redSafetyIssue := RedFlagSafetyIssue(policy, rows, text); }
    var primary := BuildMatches(policy, rows, text);
    asked, matches := CheckRequired(policy, rows, answer, text, primary);
    var confirmed := EveryRequiredPasses(policy, rows, text, matches);
    var redHit := AnyRedHit(policy, matches);
    apply := !(otherBlocker(matches) || redHit || redSafetyIssue || !confirmed);
    GateIsExact(policy, rows, answer, text, primary, matches);
    EveryIdHasItsMatch(policy, rows, answer, text, primary, matches);
  }

  // One match for every flag id of the policy, as the analyst and then the verifier left it.
  ghost predicate FinalMatches(policy: Policy, rows: seq<Row>, answer: seq<Verdict>, text: Text, matches: seq<Match>) {
    && (forall k :: 0 <= k < |matches| ==> Known(policy, matches[k].id))
    && (forall k :: 0 <= k < |matches| ==>
      matches[k] == FinalMatch(policy, rows, answer, text, PrimaryMatch(rows, text, matches[k].id)))
    && (forall id :: Known(policy, id) ==> Listed(matches, id))
  }

  lemma EveryIdHasItsMatch(
    policy: Policy, rows: seq<Row>, answer: seq<Verdict>, text: Text, primary: seq<Match>, final: seq<Match>)
    requires PrimaryMatches(policy, rows, text, primary) && Views(policy, rows, answer, text, primary, final)
    ensures FinalMatches(policy, rows, answer, text, final)
  {
    FinalKeepsIds(policy, rows, answer, text, primary, final);
    hide FinalMatch, PrimaryMatch;
    forall id | Known(policy, id)
      ensures Listed(final, id)
    {
      assert Listed(primary, id);
      var k :| 0 <= k < |primary| && primary[k].id == id;
      assert final[k].id == id;
    }
  }

  lemma NoPolicyIsReliable(rows: seq<Row>, text: Text)
    ensures RedsReliable(Policy(1, [], []), rows, text)
  {
  }

  method EveryRequiredPasses(policy: Policy, rows: seq<Row>, text: Text, matches: seq<Match>) returns (all: bool)
    ensures all <==> AllPass(policy, rows, text, matches)
  {
    var required := RequiredFlags(policy);
    hide Passes;
    for f := 0 to |required|
      invariant forall g :: 0 <= g < f ==> Passes(matches, rows, text, required[g])
    {
      if !Passes(matches, rows, text, required[f]) { return false; }
    }
    return true;
  }

  method AnyRedHit(policy: Policy, matches: seq<Match>) returns (hit: bool)
    ensures hit <==> RedHit(policy, matches)
  {
    for k := 0 to |matches|
      invariant forall j :: 0 <= j < k ==> !(matches[j].matched && Flagged(policy.reds, matches[j].id))
    {
      if matches[k].matched && Flagged(policy.reds, matches[k].id) { return true; }
    }
    return false;
  }

  ghost predicate AllPass(policy: Policy, rows: seq<Row>, text: Text, matches: seq<Match>) {
    var required := RequiredFlags(policy);
    forall f :: 0 <= f < |required| ==> Passes(matches, rows, text, required[f])
  }

  ghost predicate RedHit(policy: Policy, matches: seq<Match>) {
    exists k :: 0 <= k < |matches| && matches[k].matched && Flagged(policy.reds, matches[k].id)
  }

  // The match for a flag after the required flags were checked.
  lemma FinalFor(
    policy: Policy, rows: seq<Row>, answer: seq<Verdict>, text: Text, primary: seq<Match>, final: seq<Match>,
    id: string)
    requires PrimaryMatches(policy, rows, text, primary) && Views(policy, rows, answer, text, primary, final)
    requires Known(policy, id)
    ensures Listed(final, id)
    ensures forall k :: 0 <= k < |final| && final[k].id == id ==>
      final[k] == FinalMatch(policy, rows, answer, text, PrimaryMatch(rows, text, id))
  {
    FinalKeepsIds(policy, rows, answer, text, primary, final);
    hide FinalMatch, PrimaryMatch;
    assert Listed(primary, id);
    var k :| 0 <= k < |primary| && primary[k].id == id;
    assert final[k].id == id;
  }

  lemma FinalKeepsIds(
    policy: Policy, rows: seq<Row>, answer: seq<Verdict>, text: Text, primary: seq<Match>, final: seq<Match>)
    requires Views(policy, rows, answer, text, primary, final)
    ensures |final| == |primary| && forall k :: 0 <= k < |final| ==> final[k].id == primary[k].id
  {
    hide RequiredFlags, NoRepeats, Repeated, Flagged, AsksVerifier, VerifierConfirms, VerifiedEvidence;
  }

  lemma PassesExactly(
    policy: Policy, rows: seq<Row>, answer: seq<Verdict>, text: Text, primary: seq<Match>, final: seq<Match>,
    flag: Flag)
    requires PrimaryMatches(policy, rows, text, primary) && Views(policy, rows, answer, text, primary, final)
    requires Known(policy, flag.id) && Flagged(RequiredFlags(policy), flag.id)
    ensures var required := RequiredFlags(policy);
      Passes(final, rows, text, flag) <==>
        && AnalystConfirms(rows, text, flag)
        && (!NoRepeats(required) ==> !Repeated(required, flag.id))
        && (AsksVerifier(policy, rows, text) ==>
          VerifierConfirms(answer, text, flag.id) && forall i :: 0 <= i < |answer| ==> Flagged(required, answer[i].id))
  {
    FinalFor(policy, rows, answer, text, primary, final, flag.id);
    PrimaryPasses(policy, primary, rows, text, flag);
    var found := FirstRow(rows, flag.id);
    if found.Some? { GroundedKeeps(rows[found.value].evidence, text); }
  }

  lemma SomeRepeat(flags: seq<Flag>)
    requires !NoRepeats(flags)
    ensures exists f :: 0 <= f < |flags| && Repeated(flags, flags[f].id)
  {
    var i, j :| 0 <= i < j < |flags| && flags[i].id == flags[j].id;
    assert Repeated(flags, flags[i].id);
  }

  lemma RequiredGateIsExact(
    policy: Policy, rows: seq<Row>, answer: seq<Verdict>, text: Text, primary: seq<Match>, final: seq<Match>)
    requires PrimaryMatches(policy, rows, text, primary) && Views(policy, rows, answer, text, primary, final)
    ensures AllPass(policy, rows, text, final) <==> RequiredConfirmed(policy, rows, answer, text)
  {
    var required := RequiredFlags(policy);
    RequiredAreGreen(policy.greens);
    forall f | 0 <= f < |required|
      ensures Passes(final, rows, text, required[f]) <==>
        && AnalystConfirms(rows, text, required[f])
        && (!NoRepeats(required) ==> !Repeated(required, required[f].id))
        && (AsksVerifier(policy, rows, text) ==>
          VerifierConfirms(answer, text, required[f].id) && forall i :: 0 <= i < |answer| ==>
            Flagged(required, answer[i].id))
    {
      assert Flagged(required, required[f].id);
      PassesExactly(policy, rows, answer, text, primary, final, required[f]);
    }
    hide Passes, AnalystConfirms, VerifierConfirms, Repeated, Views, PrimaryMatches;
    if !NoRepeats(required) { SomeRepeat(required); }
    if required != [] && Passes(final, rows, text, required[0]) {}
  }

  // A red flag was cleared exactly when its row can be relied on and its final match does not hit.
  lemma RedFlagIsExact(
    policy: Policy, rows: seq<Row>, answer: seq<Verdict>, text: Text, primary: seq<Match>, final: seq<Match>,
    id: string)
    requires PrimaryMatches(policy, rows, text, primary) && Views(policy, rows, answer, text, primary, final)
    requires Flagged(policy.reds, id) && AllPass(policy, rows, text, final)
    ensures Cleared(rows, id) <==>
      Reliable(rows, text, id) && forall k :: 0 <= k < |final| && final[k].id == id ==> !final[k].matched
  {
    FinalFor(policy, rows, answer, text, primary, final, id);
    RequiredGateIsExact(policy, rows, answer, text, primary, final);
    var found := FirstRow(rows, id);
    if found.Some? { GroundedKeeps(rows[found.value].evidence, text); }
    if Cleared(rows, id) || Reliable(rows, text, id) { OnlyIsFirst(rows, id); }
    var required := RequiredFlags(policy);
    if Flagged(required, id) {
      var f :| 0 <= f < |required| && required[f].id == id;
      assert Passes(final, rows, text, required[f]) && AnalystConfirms(rows, text, required[f]);
    }
  }

  lemma RedGateIsExact(
    policy: Policy, rows: seq<Row>, answer: seq<Verdict>, text: Text, primary: seq<Match>, final: seq<Match>)
    requires PrimaryMatches(policy, rows, text, primary) && Views(policy, rows, answer, text, primary, final)
    requires AllPass(policy, rows, text, final)
    ensures RedsReliable(policy, rows, text) && !RedHit(policy, final) <==> RedsCleared(policy, rows)
  {
    forall id | Flagged(policy.reds, id)
      ensures Cleared(rows, id) <==>
        Reliable(rows, text, id) && forall k :: 0 <= k < |final| && final[k].id == id ==> !final[k].matched
    {
      RedFlagIsExact(policy, rows, answer, text, primary, final, id);
    }
    assert forall f :: 0 <= f < |policy.reds| ==> Flagged(policy.reds, policy.reds[f].id);
    hide Cleared, Reliable, AllPass, PrimaryMatches, Views;
  }

  // The code's three tests together say exactly what the raw answers must look like.
  lemma GateIsExact(
    policy: Policy, rows: seq<Row>, answer: seq<Verdict>, text: Text, primary: seq<Match>, final: seq<Match>)
    requires PrimaryMatches(policy, rows, text, primary) && Views(policy, rows, answer, text, primary, final)
    ensures RedsReliable(policy, rows, text) && !RedHit(policy, final) && AllPass(policy, rows, text, final) <==>
      RedsCleared(policy, rows) && RequiredConfirmed(policy, rows, answer, text)
  {
    RequiredGateIsExact(policy, rows, answer, text, primary, final);
    if AllPass(policy, rows, text, final) {
      RedGateIsExact(policy, rows, answer, text, primary, final);
    }
  }

  // An id that is both a required wish and a red flag can never be recommended.
  lemma AmbiguousFlagBlocks(policy: Policy, rows: seq<Row>, answer: seq<Verdict>, text: Text, id: string)
    requires Flagged(RequiredFlags(policy), id) && Flagged(policy.reds, id)
    ensures !(RedsCleared(policy, rows) && RequiredConfirmed(policy, rows, answer, text))
  {
    var f :| 0 <= f < |RequiredFlags(policy)| && RequiredFlags(policy)[f].id == id;
    var r :| 0 <= r < |policy.reds| && policy.reds[r].id == id;
    if RedsCleared(policy, rows) {
      assert Cleared(rows, policy.reds[r].id);
      ClearedIsUnconfirmed(rows, text, RequiredFlags(policy)[f]);
    }
  }

  lemma ClearedIsUnconfirmed(rows: seq<Row>, text: Text, flag: Flag)
    requires Cleared(rows, flag.id)
    ensures !AnalystConfirms(rows, text, flag)
  {
    OnlyIsFirst(rows, flag.id);
  }
}
