// The bounded copy that neutralises instruction fragments in untrusted data. Running it on its
// own result changes nothing and costs no more. The broker then replaces credential-shaped
// content before it hashes the copy, the gateway does not: the last section says when the two
// hash the same text.

module Sanitizer {
  import opened Records

  datatype Key = Name(name: string) | Number(number: int) | OtherKey

  datatype Json =
    | Null
    | Scalar(number: int)          // booleans and integers
    | Float(finite: bool)
    | Str(text: string)
    | Arr(items: Items)
    | Obj(fields: Fields)
    | Typed(dumped: Json)          // a schema object, copied through its dump
    | Unsupported

  datatype Items = NoItems | Item(head: Json, tail: Items)

  datatype Fields = NoFields | Field(key: Key, value: Json, rest: Fields)

  datatype Span = Span(start: nat, end: nat)

  // What the instruction patterns say of a text or a key, and where a text has sentence boundaries.
  datatype Detector = Detector(flagged: string -> bool, hostile: string -> bool, boundaries: string -> seq<Span>)

  const MAX_DEPTH := 24
  const MAX_TEXT := 100_000
  const NODE_BUDGET := 10_000
  const CHAR_BUDGET := 1_000_000

  // In order, without overlap, inside the text.
  ghost predicate Ordered(spans: seq<Span>, start: nat, end: nat) {
    if spans == [] then start <= end
    else start <= spans[0].start <= spans[0].end <= end && Ordered(spans[1..], spans[0].end, end)
  }

  // A pattern's matches always come in order; anything else in the list is not a match.
  function InOrder(spans: seq<Span>, start: nat, end: nat): (matches: seq<Span>)
    requires start <= end
    ensures Ordered(matches, start, end)
  {
    if spans == [] || !(start <= spans[0].start <= spans[0].end <= end) then []
    else [spans[0]] + InOrder(spans[1..], spans[0].end, end)
  }

  function Matches(d: Detector, s: string): (matches: seq<Span>)
    ensures Ordered(matches, 0, |s|)
  {
    InOrder(d.boundaries(s), 0, |s|)
  }

  // No pattern matches the empty text.
  predicate Sound(d: Detector) { !d.flagged("") }

  // ---- one text ----

  function Harmless(d: Detector, s: string): string { if s != "" && !d.flagged(s) then s else "" }

  // The fragment before a boundary, with the boundary, if the fragment is harmless.
  function Piece(d: Detector, s: string, start: nat, span: Span): (piece: string)
    requires start <= span.start <= span.end <= |s|
    ensures |piece| <= span.end - start
  {
    var fragment := s[start..span.start];
    if fragment != "" && !d.flagged(fragment) then fragment + s[span.start..span.end] else ""
  }

  // The harmless fragments from `start` on, each with the boundary that follows it.
  ghost function KeptFrom(d: Detector, s: string, start: nat, spans: seq<Span>): (kept: string)
    requires Ordered(spans, start, |s|)
    ensures |kept| <= |s| - start
    decreases |spans|
  {
    if spans == [] then Harmless(d, s[start..])
    else Piece(d, s, start, spans[0]) + KeptFrom(d, s, spans[0].end, spans[1..])
  }

  ghost function Cleansed(d: Detector, s: string): (clean: string)
    requires Sound(d)
    ensures |clean| <= |s| && !d.flagged(clean)
  {
    if !d.flagged(s) then s else Harmless(d, KeptFrom(d, s, 0, Matches(d, s)))
  }

  method KeepPiece(d: Detector, s: string, start: nat, span: Span, kept: string) returns (more: string)
    requires start <= span.start <= span.end <= |s|
    ensures more == kept + Piece(d, s, start, span)
  {
    more := kept;
    var fragment := s[start..span.start];
    if fragment != "" && !d.flagged(fragment) {
      more := more + fragment;
      more := more + s[span.start..span.end];
    }
  }

  lemma KeptStep(d: Detector, s: string, start: nat, spans: seq<Span>, i: nat, kept: string)
    requires i < |spans| && Ordered(spans[i..], start, |s|)
    ensures start <= spans[i].start <= spans[i].end <= |s| && Ordered(spans[i + 1..], spans[i].end, |s|)
    ensures kept + KeptFrom(d, s, start, spans[i..])
      == (kept + Piece(d, s, start, spans[i])) + KeptFrom(d, s, spans[i].end, spans[i + 1..])
  {
    assert spans[i..][1..] == spans[i + 1..];
  }

  method SanitizeText(d: Detector, s: string) returns (result: string)
    requires Sound(d)
    ensures result == Cleansed(d, s)
  {
    if !d.flagged(s) { return s; }
    var spans := Matches(d, s);
    hide Ordered, KeptFrom, Piece, Matches;
    var kept, start: nat := "", 0;
    assert spans[0..] == spans;
    for i := 0 to |spans|
      invariant Ordered(spans[i..], start, |s|)
      invariant kept + KeptFrom(d, s, start, spans[i..]) == KeptFrom(d, s, 0, spans)
    {
      KeptStep(d, s, start, spans, i, kept);
      kept := KeepPiece(d, s, start, spans[i], kept);
      start := spans[i].end;
    }
    assert spans[|spans|..] == [];
    KeptTail(d, s, start);
    var tail := s[start..];
    assert kept + "" == kept;
    if tail != "" && !d.flagged(tail) { kept := kept + tail; }
    assert kept == KeptFrom(d, s, 0, Matches(d, s));
    result := if kept != "" && !d.flagged(kept) then kept else "";
  }

  lemma KeptTail(d: Detector, s: string, start: nat)
    requires Ordered([], start, |s|)
    ensures start <= |s| && KeptFrom(d, s, start, []) == Harmless(d, s[start..])
  {
  }

  // ---- what the copy costs, when it succeeds, and what it is ----

  function Nodes(v: Json): nat {
    match v
    case Arr(items) => 1 + NodesIn(items)
    case Obj(fields) => 1 + NodesUnder(fields)
    case Typed(dumped) => 1 + Nodes(dumped)
    case _ => 1
  }

  function NodesIn(items: Items): nat {
    match items
    case NoItems => 0
    case Item(head, tail) => Nodes(head) + NodesIn(tail)
  }

  function NodesUnder(fields: Fields): nat {
    match fields
    case NoFields => 0
    case Field(_, value, rest) => Nodes(value) + NodesUnder(rest)
  }

  function KeySize(key: Key): nat { if key.Name? then |key.name| else 0 }

  // A text is paid for twice: before and after cleaning. A key is paid for once, kept or not.
  ghost function Chars(d: Detector, v: Json): nat
    requires Sound(d)
  {
    match v
    case Str(text) => |text| + |Cleansed(d, text)|
    case Arr(items) => CharsIn(d, items)
    case Obj(fields) => CharsUnder(d, fields)
    case Typed(dumped) => Chars(d, dumped)
    case _ => 0
  }

  ghost function CharsIn(d: Detector, items: Items): nat
    requires Sound(d)
  {
    match items
    case NoItems => 0
    case Item(head, tail) => Chars(d, head) + CharsIn(d, tail)
  }

  ghost function CharsUnder(d: Detector, fields: Fields): nat
    requires Sound(d)
  {
    match fields
    case NoFields => 0
    case Field(key, value, rest) => KeySize(key) + Chars(d, value) + CharsUnder(d, rest)
  }

  predicate Acceptable(v: Json, depth: nat) {
    depth <= MAX_DEPTH &&
    match v
    case Str(text) => |text| <= MAX_TEXT
    case Float(finite) => finite
    case Arr(items) => AcceptableItems(items, depth + 1)
    case Obj(fields) => AcceptableFields(fields, depth + 1)
    case Typed(dumped) => Acceptable(dumped, depth + 1)
    case Unsupported => false
    case _ => true
  }

  predicate AcceptableItems(items: Items, depth: nat) {
    match items
    case NoItems => true
    case Item(head, tail) => Acceptable(head, depth) && AcceptableItems(tail, depth)
  }

  predicate AcceptableFields(fields: Fields, depth: nat) {
    match fields
    case NoFields => true
    case Field(key, value, rest) =>
      !key.OtherKey? && KeySize(key) <= MAX_TEXT && Acceptable(value, depth) && AcceptableFields(rest, depth)
  }

  ghost function Cleaned(d: Detector, v: Json): Json
    requires Sound(d)
  {
    match v
    case Str(text) => Str(Cleansed(d, text))
    case Arr(items) => Arr(CleanedItems(d, items))
    case Obj(fields) => Obj(CleanedFields(d, fields, {}))
    case Typed(dumped) => Cleaned(d, dumped)
    case _ => v
  }

  ghost function CleanedItems(d: Detector, items: Items): Items
    requires Sound(d)
  {
    match items
    case NoItems => NoItems
    case Item(head, tail) => Item(Cleaned(d, head), CleanedItems(d, tail))
  }

  predicate Drops(d: Detector, key: Key, used: set<Key>) { (key.Name? && d.hostile(key.name)) || key in used }

  // Fields under a hostile key, or under a key already used, are dropped.
  ghost function CleanedFields(d: Detector, fields: Fields, used: set<Key>): Fields
    requires Sound(d)
  {
    match fields
    case NoFields => NoFields
    case Field(key, value, rest) =>
      if Drops(d, key, used) then CleanedFields(d, rest, used)
      else Field(key, Cleaned(d, value), CleanedFields(d, rest, used + {key}))
  }

  // ---- the copy itself ----

  class Budget {
    var nodes: int
    var chars: int

    constructor (nodes: int, chars: int)
      ensures this.nodes == nodes && this.chars == chars
    {
      this.nodes, this.chars := nodes, chars;
    }
  }

  method SanitizeCopy(d: Detector, v: Json, depth: nat, budget: Budget) returns (outcome: Result<Json, string>)
    requires Sound(d) && budget.nodes >= 0 && budget.chars >= 0
    modifies budget
    ensures outcome.Ok? <==> Acceptable(v, depth) && Nodes(v) <= old(budget.nodes) && Chars(d, v) <= old(budget.chars)
    ensures outcome.Ok? ==> outcome.value == Cleaned(d, v)
    ensures outcome.Ok? ==>
      budget.nodes == old(budget.nodes) - Nodes(v) && budget.chars == old(budget.chars) - Chars(d, v)
    decreases v
  {
    hide Cleansed;
    budget.nodes := budget.nodes - 1;
    if budget.nodes < 0 { return Err("input_too_complex"); }
    if depth > MAX_DEPTH { return Err("input_too_deep"); }
    match v
    case Str(text) =>
      budget.chars := budget.chars - |text|;
      if |text| > MAX_TEXT || budget.chars < 0 { return Err("input_too_large"); }
      var result := SanitizeText(d, text);
      budget.chars := budget.chars - |result|;
      if budget.chars < 0 { return Err("input_too_large"); }
      return Ok(Str(result));
    case Float(finite) =>
      if !finite { return Err("nonfinite_number"); }
      return Ok(v);
    case Typed(dumped) =>
      outcome := SanitizeCopy(d, dumped, depth + 1, budget);
    case Arr(items) =>
      var copies := SanitizeItems(d, items, depth + 1, budget);
      match copies {
        case Ok(clean) => return Ok(Arr(clean));
        case Err(reason) => return Err(reason);
      }
    case Obj(fields) =>
      var copies := SanitizeFields(d, fields, {}, depth + 1, budget);
      match copies {
        case Ok(clean) => return Ok(Obj(clean));
        case Err(reason) => return Err(reason);
      }
    case Unsupported =>
      return Err("unsupported_input");
    case _ =>
      return Ok(v);
  }

  method SanitizeItems(d: Detector, items: Items, depth: nat, budget: Budget) returns (outcome: Result<Items, string>)
    requires Sound(d) && budget.nodes >= 0 && budget.chars >= 0
    modifies budget
    ensures outcome.Ok? <==>
      AcceptableItems(items, depth) && NodesIn(items) <= old(budget.nodes) && CharsIn(d, items) <= old(budget.chars)
    ensures outcome.Ok? ==> outcome.value == CleanedItems(d, items)
    ensures outcome.Ok? ==>
      budget.nodes == old(budget.nodes) - NodesIn(items) && budget.chars == old(budget.chars) - CharsIn(d, items)
    decreases items
  {
    match items
    case NoItems =>
      return Ok(NoItems);
    case Item(head, tail) =>
      var first := SanitizeCopy(d, head, depth, budget);
      if first.Err? { return Err(first.error); }
      var others := SanitizeItems(d, tail, depth, budget);
      if others.Err? { return Err(others.error); }
      return Ok(Item(first.value, others.value));
  }

  method SanitizeFields(
    d: Detector, fields: Fields, used: set<Key>, depth: nat, budget: Budget) returns (outcome: Result<Fields, string>)
    requires Sound(d) && budget.nodes >= 0 && budget.chars >= 0
    modifies budget
    ensures outcome.Ok? <==>
      AcceptableFields(fields, depth) && NodesUnder(fields) <= old(budget.nodes)
      && CharsUnder(d, fields) <= old(budget.chars)
    ensures outcome.Ok? ==> outcome.value == CleanedFields(d, fields, used)
    ensures outcome.Ok? ==>
      budget.nodes == old(budget.nodes) - NodesUnder(fields)
      && budget.chars == old(budget.chars) - CharsUnder(d, fields)
    decreases fields
  {
    match fields
    case NoFields =>
      return Ok(NoFields);
    case Field(key, value, rest) =>
      if key.Name? {
        budget.chars := budget.chars - |key.name|;
        if |key.name| > MAX_TEXT || budget.chars < 0 { return Err("input_too_large"); }
      } else if key.OtherKey? {
        return Err("unsupported_input");
      }
      var clean := SanitizeCopy(d, value, depth, budget);
      if clean.Err? { return Err(clean.error); }
      if Drops(d, key, used) {
        outcome := SanitizeFields(d, rest, used, depth, budget);
      } else {
        var others := SanitizeFields(d, rest, used + {key}, depth, budget);
        if others.Err? { return Err(others.error); }
        return Ok(Field(key, clean.value, others.value));
      }
  }

  // ---- running it again ----

  // No text in the copy is flagged, no key is hostile, and no schema object is left in it.
  ghost predicate Clean(d: Detector, v: Json) {
    match v
    case Str(text) => !d.flagged(text)
    case Arr(items) => CleanItems(d, items)
    case Obj(fields) => CleanFields(d, fields, {})
    case Typed(_) => false
    case _ => true
  }

  ghost predicate CleanItems(d: Detector, items: Items) {
    match items
    case NoItems => true
    case Item(head, tail) => Clean(d, head) && CleanItems(d, tail)
  }

  ghost predicate CleanFields(d: Detector, fields: Fields, used: set<Key>) {
    match fields
    case NoFields => true
    case Field(key, value, rest) => !Drops(d, key, used) && Clean(d, value) && CleanFields(d, rest, used + {key})
  }

  lemma {:induction false} CleaningCleans(d: Detector, v: Json)
    requires Sound(d)
    ensures Clean(d, Cleaned(d, v))
  {
    match v
    case Arr(items) => CleaningCleansItems(d, items);
    case Obj(fields) => CleaningCleansFields(d, fields, {});
    case Typed(dumped) => CleaningCleans(d, dumped);
    case _ =>
  }

  lemma {:induction false} CleaningCleansItems(d: Detector, items: Items)
    requires Sound(d)
    ensures CleanItems(d, CleanedItems(d, items))
  {
    match items
    case NoItems =>
    case Item(head, tail) =>
      CleaningCleans(d, head);
      CleaningCleansItems(d, tail);
  }

  lemma {:induction false} CleaningCleansFields(d: Detector, fields: Fields, used: set<Key>)
    requires Sound(d)
    ensures CleanFields(d, CleanedFields(d, fields, used), used)
  {
    match fields
    case NoFields =>
    case Field(key, value, rest) =>
      CleaningCleans(d, value);
      CleaningCleansFields(d, rest, if Drops(d, key, used) then used else used + {key});
  }

  // A clean value is its own copy.
  lemma {:induction false} CleanIsFixed(d: Detector, v: Json)
    requires Sound(d) && Clean(d, v)
    ensures Cleaned(d, v) == v
  {
    match v
    case Arr(items) => CleanItemsAreFixed(d, items);
    case Obj(fields) => CleanFieldsAreFixed(d, fields, {});
    case _ =>
  }

  lemma {:induction false} CleanItemsAreFixed(d: Detector, items: Items)
    requires Sound(d) && CleanItems(d, items)
    ensures CleanedItems(d, items) == items
  {
    match items
    case NoItems =>
    case Item(head, tail) =>
      CleanIsFixed(d, head);
      CleanItemsAreFixed(d, tail);
  }

  lemma {:induction false} CleanFieldsAreFixed(d: Detector, fields: Fields, used: set<Key>)
    requires Sound(d) && CleanFields(d, fields, used)
    ensures CleanedFields(d, fields, used) == fields
  {
    match fields
    case NoFields =>
    case Field(key, value, rest) =>
      CleanIsFixed(d, value);
      CleanFieldsAreFixed(d, rest, used + {key});
  }

  // The copy is acceptable wherever the original was, at no greater depth, and costs no more.
  lemma {:induction false} CopyCostsNoMore(d: Detector, v: Json, depth: nat, depth': nat)
    requires Sound(d) && Acceptable(v, depth) && depth' <= depth
    ensures Acceptable(Cleaned(d, v), depth')
    ensures Nodes(Cleaned(d, v)) <= Nodes(v) && Chars(d, Cleaned(d, v)) <= Chars(d, v)
  {
    match v
    case Arr(items) => CopiedItemsCostNoMore(d, items, depth + 1, depth' + 1);
    case Obj(fields) => CopiedFieldsCostNoMore(d, fields, {}, depth + 1, depth' + 1);
    case Typed(dumped) => CopyCostsNoMore(d, dumped, depth + 1, depth');
    case _ =>
  }

  lemma {:induction false} CopiedItemsCostNoMore(d: Detector, items: Items, depth: nat, depth': nat)
    requires Sound(d) && AcceptableItems(items, depth) && depth' <= depth
    ensures AcceptableItems(CleanedItems(d, items), depth')
    ensures NodesIn(CleanedItems(d, items)) <= NodesIn(items) && CharsIn(d, CleanedItems(d, items)) <= CharsIn(d, items)
  {
    match items
    case NoItems =>
    case Item(head, tail) =>
      CopyCostsNoMore(d, head, depth, depth');
      CopiedItemsCostNoMore(d, tail, depth, depth');
  }

  lemma {:induction false} CopiedFieldsCostNoMore(d: Detector, fields: Fields, used: set<Key>, depth: nat, depth': nat)
    requires Sound(d) && AcceptableFields(fields, depth) && depth' <= depth
    ensures var copy := CleanedFields(d, fields, used);
      AcceptableFields(copy, depth') && NodesUnder(copy) <= NodesUnder(fields)
      && CharsUnder(d, copy) <= CharsUnder(d, fields)
  {
    match fields
    case NoFields =>
    case Field(key, value, rest) =>
      CopyCostsNoMore(d, value, depth, depth');
      CopiedFieldsCostNoMore(d, rest, if Drops(d, key, used) then used else used + {key}, depth, depth');
  }

  // `sanitize_untrusted_input` succeeds.
  ghost predicate Accepts(d: Detector, v: Json)
    requires Sound(d)
  {
    Acceptable(v, 0) && Nodes(v) <= NODE_BUDGET && Chars(d, v) <= CHAR_BUDGET
  }

  // Whatever was accepted once is accepted again, unchanged and at no greater cost, and holds
  // nothing the detector flags.
  lemma SanitizingIsIdempotent(d: Detector, v: Json)
    requires Sound(d) && Accepts(d, v)
    ensures var w := Cleaned(d, v);
      && Accepts(d, w) && Cleaned(d, w) == w && Clean(d, w)
      && Nodes(w) <= Nodes(v) && Chars(d, w) <= Chars(d, v)
  {
    CopyCostsNoMore(d, v, 0, 0);
    CleaningCleans(d, v);
    CleanIsFixed(d, Cleaned(d, v));
  }

  method SanitizeUntrustedInput(d: Detector, v: Json) returns (outcome: Result<Json, string>)
    requires Sound(d)
    ensures outcome.Ok? <==> Accepts(d, v)
    ensures outcome.Ok? ==> outcome.value == Cleaned(d, v)
  {
    var budget := new Budget(NODE_BUDGET, CHAR_BUDGET);
    outcome := SanitizeCopy(d, v, 0, budget);
  }

  // ---- what is hashed ----

  // What the credential patterns say of a field's name, what they make of a text, and how a
  // number is spelled as a key.
  datatype Redactor = Redactor(secret: string -> bool, redact: string -> string, spell: int -> string)

  const REDACTED := "[REDACTED]"

  function KeyText(
    r: Redactor, key: Key): string { if key.Number? then r.spell(key.number) else if key.Name? then key.name else "" }

  // What a JSON dump writes of a value: every key becomes a text.
  function Dumped(r: Redactor, v: Json): Json {
    match v
    case Arr(items) => Arr(DumpedItems(r, items))
    case Obj(fields) => Obj(DumpedFields(r, fields))
    case Typed(dumped) => Dumped(r, dumped)
    case _ => v
  }

  function DumpedItems(r: Redactor, items: Items): Items {
    match items
    case NoItems => NoItems
    case Item(head, tail) => Item(Dumped(r, head), DumpedItems(r, tail))
  }

  function DumpedFields(r: Redactor, fields: Fields): Fields {
    match fields
    case NoFields => NoFields
    case Field(key, value, rest) => Field(Name(KeyText(r, key)), Dumped(r, value), DumpedFields(r, rest))
  }

  // The same with credentials replaced: the whole value of a field with a secret name, and the
  // matching parts of any other text.
  function StorageSafe(r: Redactor, v: Json): Json {
    match v
    case Str(text) => Str(r.redact(text))
    case Arr(items) => Arr(SafeItems(r, items))
    case Obj(fields) => Obj(SafeFields(r, fields))
    case Typed(dumped) => StorageSafe(r, dumped)
    case _ => v
  }

  function SafeItems(r: Redactor, items: Items): Items {
    match items
    case NoItems => NoItems
    case Item(head, tail) => Item(StorageSafe(r, head), SafeItems(r, tail))
  }

  function SafeFields(r: Redactor, fields: Fields): Fields {
    match fields
    case NoFields => NoFields
    case Field(key, value, rest) =>
      Field(
        Name(KeyText(r, key)),
        if r.secret(KeyText(r, key)) then Str(REDACTED) else StorageSafe(r, value),
        SafeFields(r, rest))
  }

  // There is nothing to replace: no text the patterns change, no secret field but a replaced one.
  predicate Unredacted(r: Redactor, v: Json) {
    match v
    case Str(text) => r.redact(text) == text
    case Arr(items) => UnredactedItems(r, items)
    case Obj(fields) => UnredactedFields(r, fields)
    case Typed(dumped) => Unredacted(r, dumped)
    case _ => true
  }

  predicate UnredactedItems(r: Redactor, items: Items) {
    match items
    case NoItems => true
    case Item(head, tail) => Unredacted(r, head) && UnredactedItems(r, tail)
  }

  predicate UnredactedFields(r: Redactor, fields: Fields) {
    match fields
    case NoFields => true
    case Field(key, value, rest) =>
      && (if r.secret(KeyText(r, key)) then Dumped(r, value) == Str(REDACTED) else Unredacted(r, value))
      && UnredactedFields(r, rest)
  }

  lemma {:induction false} SafeIsDumpedExactly(r: Redactor, v: Json)
    ensures StorageSafe(r, v) == Dumped(r, v) <==> Unredacted(r, v)
  {
    match v
    case Arr(items) => SafeItemsExactly(r, items);
    case Obj(fields) => SafeFieldsExactly(r, fields);
    case Typed(dumped) => SafeIsDumpedExactly(r, dumped);
    case _ =>
  }

  lemma {:induction false} SafeItemsExactly(r: Redactor, items: Items)
    ensures SafeItems(r, items) == DumpedItems(r, items) <==> UnredactedItems(r, items)
  {
    match items
    case NoItems =>
    case Item(head, tail) =>
      SafeIsDumpedExactly(r, head);
      SafeItemsExactly(r, tail);
  }

  lemma {:induction false} SafeFieldsExactly(r: Redactor, fields: Fields)
    ensures SafeFields(r, fields) == DumpedFields(r, fields) <==> UnredactedFields(r, fields)
  {
    match fields
    case NoFields =>
    case Field(_, value, rest) =>
      SafeIsDumpedExactly(r, value);
      SafeFieldsExactly(r, rest);
  }

  // What the gateway hashes of a payload, and what the broker hashes of the copy it is handed.
  ghost function GivenText(d: Detector, r: Redactor, v: Json): Json
    requires Sound(d)
  {
    Dumped(r, Cleaned(d, v))
  }

  ghost function StoredText(d: Detector, r: Redactor, v: Json): Json
    requires Sound(d)
  {
    StorageSafe(r, Cleaned(d, Cleaned(d, v)))
  }

  // The gateway hashes its own sanitised copy and hands that copy to the broker, which sanitises
  // it again and replaces credentials before hashing. Both accept the same payloads, and both
  // hash the same text exactly if the copy holds nothing to replace.
  method HashInputs(
    d: Detector, r: Redactor, v: Json) returns (given: Result<Json, string>, stored: Result<Json, string>)
    requires Sound(d)
    ensures given.Ok? <==> Accepts(d, v)
    ensures stored.Ok? <==> Accepts(d, v)
    ensures given.Ok? ==> given.value == GivenText(d, r, v) && stored.value == StoredText(d, r, v)
    ensures given.Ok? ==> (stored == given <==> Unredacted(r, Cleaned(d, v)))
  {
    var first := SanitizeUntrustedInput(d, v);
    if first.Err? { return first, first; }
    SanitizingIsIdempotent(d, v);
    var second := SanitizeUntrustedInput(d, first.value);
    SafeIsDumpedExactly(r, first.value);
    given, stored := Ok(Dumped(r, first.value)), Ok(StorageSafe(r, second.value));
  }

  function Payload(text: string): Json { Obj(Field(Name("x"), Str(text), NoFields)) }

  // Two payloads that differ only inside a credential are two calls to the gateway and have one
  // key with the broker.
  lemma TwoCallsOneKey(d: Detector, r: Redactor, a: string, b: string)
    requires Sound(d) && !d.flagged(a) && !d.flagged(b) && !d.hostile("x") && !r.secret("x")
    requires a != b && r.redact(a) == r.redact(b) && |a| <= MAX_TEXT && |b| <= MAX_TEXT
    ensures Accepts(d, Payload(a)) && Accepts(d, Payload(b))
    ensures GivenText(d, r, Payload(a)) != GivenText(d, r, Payload(b))
    ensures StoredText(d, r, Payload(a)) == StoredText(d, r, Payload(b))
  {
    PayloadTexts(d, r, a);
    PayloadTexts(d, r, b);
    assert Payload(a).fields.value.text == a && Payload(b).fields.value.text == b;
    PayloadIsAccepted(d, a);
    PayloadIsAccepted(d, b);
  }

  lemma PayloadTexts(d: Detector, r: Redactor, s: string)
    requires Sound(d) && !d.flagged(s) && !d.hostile("x") && !r.secret("x")
    ensures GivenText(d, r, Payload(s)) == Payload(s) && StoredText(d, r, Payload(s)) == Payload(r.redact(s))
  {
    var fields := Field(Name("x"), Str(s), NoFields);
    assert CleanFields(d, NoFields, {Name("x")}) && Clean(d, Str(s)) && CleanFields(d, fields, {});
    CleanIsFixed(d, Payload(s));
    assert DumpedFields(r, NoFields) == NoFields && Dumped(r, Str(s)) == Str(s) && DumpedFields(r, fields) == fields;
    assert SafeFields(r, NoFields) == NoFields && StorageSafe(r, Str(s)) == Str(r.redact(s));
    assert SafeFields(r, fields) == Field(Name("x"), Str(r.redact(s)), NoFields);
  }

  lemma PayloadIsAccepted(d: Detector, s: string)
    requires Sound(d) && !d.flagged(s) && |s| <= MAX_TEXT
    ensures Accepts(d, Payload(s))
  {
    assert NodesUnder(NoFields) == 0 && CharsUnder(d, NoFields) == 0 && AcceptableFields(NoFields, 1);
    assert Cleansed(d, s) == s;
    assert Nodes(Str(s)) == 1 && Chars(d, Str(s)) == 2 * |s|;
    assert CharsUnder(d, Field(Name("x"), Str(s), NoFields)) == 1 + 2 * |s|;
    assert NodesUnder(Field(Name("x"), Str(s), NoFields)) == 1;
  }
}
