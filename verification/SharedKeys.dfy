// Two runs in which the provider is called more often than the budget says: two calls that share
// a key, and one call resubmitted under a second key.

module SharedKeys {
  import opened Records
  import opened Totals
  import opened RequestRows
  import opened BrokerGateway
  import opened ModelProtocol
  import opened ModelInvariants
  import opened ModelTheorems
  import opened CallBudgets

  // ---- sums over one or two rows ----

  lemma TotalOne(a: Id, x: Row, w: Weight)
    ensures Total(map[a := x], w) == w(x)
  {
    assert map[][a := x] == map[a := x];
    TotalZero(map[], w);
    TotalInsert(map[], a, x, w);
  }

  lemma TotalPair(a: Id, x: Row, b: Id, y: Row, w: Weight)
    requires a != b
    ensures Total(map[a := x, b := y], w) == w(x) + w(y)
  {
    TotalOne(a, x, w);
    assert map[a := x][b := y] == map[a := x, b := y];
    TotalInsert(map[a := x], b, y, w);
  }

  // ---- the two calls ----

  // Two vacancies evaluated ahead, before either has an id, whose inputs differ only in what looks
  // like a credential.
  const CALL_A := Call(1, "hh", "v", "evaluation", "analyst", "m1", "token: aaa")
  const CALL_B := Call(1, "hh", "w", "evaluation", "analyst", "m1", "token: bbb")
  const KEY := OpKey(1, "hh", None, "evaluation", "analyst", "m1", "token:[REDACTED]", "Answer")
  const KEY_WITH_ID := KEY.(vacancy := Some("12"))

  const EXECUTIONS: Executions := map[1 := Execution("hh", SessionRunning, 0, false)]

  const START := Model(map[], map[], map[], EXECUTIONS, map[], {}, {}, map[], 0)

  function Begun(m: Model, w: WorkerId, op: OpId, key: OpKey, token: Id): Model {
    Move(m, w, Holding(op, key, token)).(
      ops := m.ops[op := Op(Some(token), Submitting, m.now)],
      issued := m.issued + {token}, tokens := m.tokens + {token})
  }

  function Fresh(key: OpKey, call: Call, generation: int, budget: int): Row {
    NewRow(SubmitRequest(key, call, generation, budget), None, budget, 0)
  }

  lemma BlankFacts()
    ensures !Blank("hh") && !Blank("evaluation") && !Blank("analyst")
  {
    assert "hh"[0] == 'h' && "evaluation"[0] == 'e' && "analyst"[0] == 'a';
    assert "hh"[0] in "hh" && "evaluation"[0] in "evaluation" && "analyst"[0] in "analyst";
  }

  // A submission of a table that holds at most one row, which is not yet claimed.
  lemma FirstSubmission(key: OpKey, call: Call, budget: int)
    requires key in {KEY, KEY_WITH_ID} && budget >= 1
    ensures Submission(map[], map[], SubmitRequest(key, call, 0, budget), 0) == Ok(Fresh(key, call, 0, budget))
  {
    BlankFacts();
    TotalZero(map[], DurableOf(key));
    TotalZero(map[], CountLiveOf(1));
    TotalZero(map[], CountLive());
  }

  lemma SecondSubmission(a: Id, x: Row, key: OpKey, call: Call, generation: int, budget: int)
    requires key in {KEY, KEY_WITH_ID} && budget >= 1 && generation >= 0
    requires x.attempt <= 1 && (if x.key == key then budget >= 2 else true)
    ensures Submission(map[a := x], map[], SubmitRequest(key, call, generation, budget), 0)
         == Ok(Fresh(key, call, generation, if x.key == key then budget - 1 else budget))
  {
    BlankFacts();
    TotalOne(a, x, DurableOf(key));
    TotalOne(a, x, CountLiveOf(1));
    TotalOne(a, x, CountLive());
  }

  // ---- single steps, on models told by what they hold ----

  function Extend(run: Run, step: Step, m: Model): Run { Run(run.states + [m], run.steps + [step]) }

  ghost predicate RunTo(run: Run, budget: int, m: Model) {
    IsRun(run, budget) && run.states[|run.steps|] == m
  }

  lemma Extends(run: Run, budget: int, m: Model, step: Step, m': Model)
    requires RunTo(run, budget, m) && Next(m, step, m', budget)
    ensures RunTo(Extend(run, step, m'), budget, m') && |Extend(run, step, m').steps| == |run.steps| + 1
  {
    hide Next;
  }

  lemma RunStarts(m: Model, budget: int)
    requires Init(m)
    ensures RunTo(Run([m], []), budget, m)
  {
    hide Init, Next;
  }

  ghost predicate Stands(
    m: Model, rows: Rows, issued: set<Id>, ops: set<OpId>, workers: set<WorkerId>, generation: int, now: int) {
    && m.rows == rows && m.issued == issued && m.ops.Keys == ops && m.workers.Keys == workers && m.cache == map[]
    && m.executions == map[1 := Execution("hh", SessionRunning, generation, false)] && m.now == now
  }

  ghost predicate Claimant(m: Model, w: WorkerId, op: OpId, key: OpKey, token: Id) {
    w in m.workers && m.workers[w] == Holding(op, key, token) && HoldsClaim(m.ops, op, token)
  }

  lemma Begins(
    m: Model, rows: Rows, issued: set<Id>, ops: set<OpId>, workers: set<WorkerId>, generation: int,
    w: WorkerId, op: OpId, key: OpKey, token: Id, budget: int)
    requires Stands(m, rows, issued, ops, workers, generation, 0)
    requires w !in workers && op !in ops && token !in issued && op.generation == generation >= 0
    requires op.call in {CALL_A, CALL_B} && key in {KEY, KEY_WITH_ID}
    ensures Next(m, Begin(w, op, key, token), Begun(m, w, op, key, token), budget)
    ensures Stands(Begun(m, w, op, key, token), rows, issued + {token}, ops + {op}, workers + {w}, generation, 0)
    ensures Claimant(Begun(m, w, op, key, token), w, op, key, token)
  {
  }

  lemma Submits(
    m: Model, rows: Rows, issued: set<Id>, ops: set<OpId>, workers: set<WorkerId>, generation: int,
    w: WorkerId, op: OpId, key: OpKey, token: Id, id: Id, row: Row, budget: int)
    requires Stands(m, rows, issued, ops, workers, generation, 0) && Claimant(m, w, op, key, token)
    requires id !in issued && op.generation == generation && op.call in {CALL_A, CALL_B}
    requires Submission(rows, map[], SubmitRequest(key, op.call, generation, budget), 0) == Ok(row)
    ensures Next(m, Submit(w, id), Submitted(m, w, id, op, token, row), budget)
    ensures Stands(Submitted(m, w, id, op, token, row), rows[id := row], issued + {id}, ops, workers, generation, 0)
  {
    hide Submission;
    assert m.ops[op := Op(Some(id), Mirrors(row.status), m.now)].Keys == m.ops.Keys;
    assert m.workers[w := Polling(op, id)].Keys == m.workers.Keys;
  }

  lemma TickIsStep(m: Model, a: Id, x: Row, budget: int)
    requires Total(m.rows, CountRunning()) < GLOBAL_RUNNING_LIMIT && Runnable(m.rows, a, m.now)
    requires ExpireRows(m.rows, m.now) == m.rows && m.rows[a] == x
    ensures Next(m, Tick(9, 180, Some(a)), m.(rows := m.rows[a := ClaimRow(x, 9, m.now, 180)]), budget)
  {
    hide ExpireRows, Runnable, Total, ClaimRow;
    var m' := m.(rows := m.rows[a := ClaimRow(x, 9, m.now, 180)]);
    assert NextTick(m, 9, 180, Some(a), m');
    hide NextTick;
  }

  // With one row, or two of which one at most is running, an eligible row can be claimed.
  lemma Claims(m: Model, a: Id, x: Row, b: Id, y: Row, budget: int)
    requires a != b && m.rows == map[a := x, b := y] && Eligible(x, m.now) && (y.Waiting() ==> y.deadlineAt > m.now)
    ensures Next(m, Tick(9, 180, Some(a)), m.(rows := map[a := ClaimRow(x, 9, m.now, 180), b := y]), budget)
  {
    hide Next, Runnable, Total, ClaimRow, ExpireRows;
    MayClaim(m.rows, a, x, b, y, m.now);
    UpdatePair(a, x, b, y, ClaimRow(x, 9, m.now, 180));
    TickIsStep(m, a, x, budget);
  }

  lemma UpdatePair(a: Id, x: Row, b: Id, y: Row, x': Row)
    requires a != b
    ensures map[a := x, b := y][a := x'] == map[a := x', b := y]
  {
  }

  lemma MayClaim(rows: Rows, a: Id, x: Row, b: Id, y: Row, now: int)
    requires a != b && rows == map[a := x, b := y] && Eligible(x, now) && (y.Waiting() ==> y.deadlineAt > now)
    ensures Total(rows, CountRunning()) < GLOBAL_RUNNING_LIMIT && Runnable(rows, a, now)
    ensures ExpireRows(rows, now) == rows
  {
    assert ExpireRows(rows, now) == rows;
    TotalPair(a, x, b, y, CountRunning());
    TotalPair(a, x, b, y, CountRunningOf(x.key.session));
  }

  lemma ClaimsOnly(m: Model, a: Id, x: Row, budget: int)
    requires m.rows == map[a := x] && Eligible(x, m.now)
    ensures Next(m, Tick(9, 180, Some(a)), m.(rows := map[a := ClaimRow(x, 9, m.now, 180)]), budget)
  {
    hide Next;
    assert ExpireRows(m.rows, m.now) == m.rows;
    assert map[a := x][a := ClaimRow(x, 9, m.now, 180)] == map[a := ClaimRow(x, 9, m.now, 180)];
    TotalOne(a, x, CountRunning());
    TotalOne(a, x, CountRunningOf(x.key.session));
    TickIsStep(m, a, x, budget);
  }

  lemma Swapped(a: Id, x: Row, b: Id, y: Row)
    requires a != b
    ensures map[a := x, b := y] == map[b := y, a := x]
  {
  }

  // ---- two calls, one key, a budget of two ----

  const OP_A := OpId(CALL_A, 0)
  const OP_B := OpId(CALL_B, 0)

  const X0 := Fresh(KEY, CALL_A, 0, 2)
  const X1 := ClaimRow(X0, 9, 0, 180)
  const X2 := FailOrRetryRow(X1, 9, 0, 5, "provider_unavailable", false)
  const X3 := ClaimRow(X2, 9, 5, 180)
  const Y0 := Fresh(KEY, CALL_B, 0, 1)
  const Y1 := ClaimRow(Y0, 9, 0, 180)

  function A1(): Model { Begun(START, 1, OP_A, KEY, 1) }
  function A2(): Model { Submitted(A1(), 1, 2, OP_A, 1, X0) }
  function A3(): Model { Begun(A2(), 2, OP_B, KEY, 3) }
  function A4(): Model { Submitted(A3(), 2, 4, OP_B, 3, Y0) }
  function A5(): Model { A4().(rows := map[2 := X1, 4 := Y0]) }
  function A6(): Model { A4().(rows := map[2 := X2, 4 := Y0]) }
  function A7(): Model { A4().(rows := map[4 := Y1, 2 := X2]) }
  function A8(): Model { A7().(now := 5) }
  function A9(): Model { A8().(rows := map[2 := X3, 4 := Y1]) }

  function Sharing4(): Run {
    var run := Run([START], []);
    var run1 := Extend(run, Begin(1, OP_A, KEY, 1), A1());
    var run2 := Extend(run1, Submit(1, 2), A2());
    var run3 := Extend(run2, Begin(2, OP_B, KEY, 3), A3());
    Extend(run3, Submit(2, 4), A4())
  }

  function Sharing(): Run {
    var run5 := Extend(Sharing4(), Tick(9, 180, Some(2)), A5());
    var run6 := Extend(run5, Fail(9, 2, 5, "provider_unavailable", false), A6());
    var run7 := Extend(run6, Tick(9, 180, Some(4)), A7());
    var run8 := Extend(run7, Elapse(5), A8());
    Extend(run8, Tick(9, 180, Some(2)), A9())
  }

  lemma FirstIsSubmitted()
    ensures Next(START, Begin(1, OP_A, KEY, 1), A1(), 2) && Next(A1(), Submit(1, 2), A2(), 2)
    ensures Stands(A2(), map[2 := X0], {1, 2}, {OP_A}, {1}, 0, 0)
  {
    assert Stands(START, map[], {}, {}, {}, 0, 0);
    FirstSubmission(KEY, CALL_A, 2);
    hide Next, Begun, Submitted, Stands, Claimant, Submission, Fresh;
    Begins(START, map[], {}, {}, {}, 0, 1, OP_A, KEY, 1, 2);
    Submits(A1(), map[], {1}, {OP_A}, {1}, 0, 1, OP_A, KEY, 1, 2, X0, 2);
    assert map[][2 := X0] == map[2 := X0];
  }

  lemma SecondIsBegun()
    ensures Next(A2(), Begin(2, OP_B, KEY, 3), A3(), 2)
    ensures Stands(A3(), map[2 := X0], {1, 2, 3}, {OP_A, OP_B}, {1, 2}, 0, 0) && Claimant(A3(), 2, OP_B, KEY, 3)
  {
    FirstIsSubmitted();
    hide Next, A2, Begun, Stands, Claimant, Fresh;
    Begins(A2(), map[2 := X0], {1, 2}, {OP_A}, {1}, 0, 2, OP_B, KEY, 3, 2);
    assert {1, 2} + {3} == {1, 2, 3} && {1} + {2} == {1, 2} && {OP_A} + {OP_B} == {OP_A, OP_B};
  }

  lemma SecondIsSubmitted()
    ensures Next(A3(), Submit(2, 4), A4(), 2)
    ensures A4().rows == map[2 := X0, 4 := Y0] && A4().now == 0
  {
    SecondIsBegun();
    SecondSubmission(2, X0, KEY, CALL_B, 0, 2);
    hide Next, A3, Submitted, Stands, Claimant, Submission, Fresh;
    Submits(A3(), map[2 := X0], {1, 2, 3}, {OP_A, OP_B}, {1, 2}, 0, 2, OP_B, KEY, 3, 4, Y0, 2);
    StandsGives(A4(), map[2 := X0][4 := Y0], {1, 2, 3} + {4}, {OP_A, OP_B}, {1, 2}, 0, 0);
    assert map[2 := X0][4 := Y0] == map[2 := X0, 4 := Y0];
  }

  lemma StandsGives(
    m: Model, rows: Rows, issued: set<Id>, ops: set<OpId>, workers: set<WorkerId>, generation: int, now: int)
    requires Stands(m, rows, issued, ops, workers, generation, now)
    ensures m.rows == rows && m.now == now
  {
  }

  lemma Fails(m: Model, a: Id, x: Row, b: Id, y: Row, budget: int)
    requires a != b && m.rows == map[a := x, b := y]
    ensures
      var x' := FailOrRetryRow(x, 9, m.now, 5, "provider_unavailable", false);
      Next(m, Fail(9, a, 5, "provider_unavailable", false), m.(rows := map[a := x', b := y]), budget)
  {
    hide FailOrRetryRow;
    UpdatePair(a, x, b, y, FailOrRetryRow(x, 9, m.now, 5, "provider_unavailable", false));
  }

  lemma RowFacts()
    ensures Eligible(X0, 0) && Eligible(Y0, 0) && Eligible(X2, 5)
    ensures Y0.deadlineAt > 0 && X2.deadlineAt > 5 && !Y1.Waiting()
    ensures X3.attempt == 2 && Y1.attempt == 1 && X3.key == KEY == Y1.key
  {
    assert Backoff(5, 1) == 5;
  }

  lemma BothAreClaimed()
    ensures Next(A4(), Tick(9, 180, Some(2)), A5(), 2)
    ensures Next(A5(), Fail(9, 2, 5, "provider_unavailable", false), A6(), 2)
    ensures Next(A6(), Tick(9, 180, Some(4)), A7(), 2) && Next(A8(), Tick(9, 180, Some(2)), A9(), 2)
  {
    SecondIsSubmitted();
    RowFacts();
    hide Next, A4, Fresh, ClaimRow, FailOrRetryRow, Eligible;
    Claims(A4(), 2, X0, 4, Y0, 2);
    Fails(A5(), 2, X1, 4, Y0, 2);
    Swapped(4, Y0, 2, X2);
    Claims(A6(), 4, Y0, 2, X2, 2);
    Swapped(4, Y1, 2, X2);
    Claims(A8(), 2, X2, 4, Y1, 2);
  }

  lemma TimePasses()
    ensures Next(A7(), Elapse(5), A8(), 2)
  {
    SecondIsSubmitted();
    hide A4;
  }

  lemma Sharing4IsRun()
    ensures RunTo(Sharing4(), 2, A4()) && |Sharing4().steps| == 4
  {
    FirstIsSubmitted();
    SecondIsBegun();
    SecondIsSubmitted();
    RunStarts(START, 2);
    hide Next, RunTo, Extend, A1, A2, A3, A4, Stands;
    var run := Run([START], []);
    Extends(run, 2, START, Begin(1, OP_A, KEY, 1), A1());
    var run1 := Extend(run, Begin(1, OP_A, KEY, 1), A1());
    Extends(run1, 2, A1(), Submit(1, 2), A2());
    var run2 := Extend(run1, Submit(1, 2), A2());
    Extends(run2, 2, A2(), Begin(2, OP_B, KEY, 3), A3());
    Extends(Extend(run2, Begin(2, OP_B, KEY, 3), A3()), 2, A3(), Submit(2, 4), A4());
  }

  lemma SharingIsRun()
    ensures RunTo(Sharing(), 2, A9()) && |Sharing().steps| == 9
  {
    Sharing4IsRun();
    BothAreClaimed();
    TimePasses();
    hide Next, RunTo, Extend, Sharing4, A4, A5, A6, A7, A8, A9;
    Extends(Sharing4(), 2, A4(), Tick(9, 180, Some(2)), A5());
    var run5 := Extend(Sharing4(), Tick(9, 180, Some(2)), A5());
    Extends(run5, 2, A5(), Fail(9, 2, 5, "provider_unavailable", false), A6());
    var run6 := Extend(run5, Fail(9, 2, 5, "provider_unavailable", false), A6());
    Extends(run6, 2, A6(), Tick(9, 180, Some(4)), A7());
    var run7 := Extend(run6, Tick(9, 180, Some(4)), A7());
    Extends(run7, 2, A7(), Elapse(5), A8());
    Extends(Extend(run7, Elapse(5), A8()), 2, A8(), Tick(9, 180, Some(2)), A9());
  }

  // Three provider calls are made under a key whose budget is two.
  lemma SharedKeyExceedsBudget()
    ensures IsRun(Sharing(), 2) && ProviderClaims(Sharing(), Under(KEY), |Sharing().steps|) == 3
  {
    SharingIsRun();
    RowFacts();
    hide Next, IsRun, A8, Sharing;
    ClaimsAreAttempts(Sharing(), 2, Under(KEY), 9);
    TotalPair(2, X3, 4, Y1, AttemptsIn(Under(KEY)));
  }

  // ---- one call, two keys, a budget of one ----

  // The vacancy had no row yet when its job was evaluated first; after a takeover it has.
  const OP_LATER := OpId(CALL_A, 1)

  const Z0 := Fresh(KEY, CALL_A, 0, 1)
  const Z1 := ClaimRow(Z0, 9, 0, 180)
  const Z2 := CancelRow(Z1, 0)
  const W0 := Fresh(KEY_WITH_ID, CALL_A, 1, 1)
  const W1 := ClaimRow(W0, 9, 0, 180)

  function B1(): Model { Begun(START, 1, OP_A, KEY, 1) }
  function B2(): Model { Submitted(B1(), 1, 2, OP_A, 1, Z0) }
  function B3(): Model { B2().(rows := map[2 := Z1]) }
  function B4(): Model { Succession(B3(), 2, Z1) }
  function B5(): Model { Begun(B4(), 2, OP_LATER, KEY_WITH_ID, 3) }
  function B6(): Model { Submitted(B5(), 2, 4, OP_LATER, 3, W0) }
  function B7(): Model { B6().(rows := map[4 := W1, 2 := Z2]) }

  lemma FirstKeyIsUsed()
    ensures Next(START, Begin(1, OP_A, KEY, 1), B1(), 1) && Next(B1(), Submit(1, 2), B2(), 1)
    ensures Next(B2(), Tick(9, 180, Some(2)), B3(), 1)
    ensures Stands(B3(), map[2 := Z1], {1, 2}, {OP_A}, {1}, 0, 0)
  {
    assert Stands(START, map[], {}, {}, {}, 0, 0);
    FirstSubmission(KEY, CALL_A, 1);
    hide Next, Begun, Submitted, Stands, Claimant, Submission;
    Begins(START, map[], {}, {}, {}, 0, 1, OP_A, KEY, 1, 1);
    Submits(B1(), map[], {1}, {OP_A}, {1}, 0, 1, OP_A, KEY, 1, 2, Z0, 1);
    assert map[][2 := Z0] == map[2 := Z0];
    StandsGives(B2(), map[][2 := Z0], {1} + {2}, {OP_A}, {1}, 0, 0);
    ClaimsOnly(B2(), 2, Z0, 1);
    StandsWith(B2(), map[][2 := Z0], {1} + {2}, {OP_A}, {1}, 0, 0, map[2 := Z1]);
  }

  lemma StandsWith(
    m: Model, rows: Rows, issued: set<Id>, ops: set<OpId>, workers: set<WorkerId>, generation: int, now: int,
    rows': Rows)
    requires Stands(m, rows, issued, ops, workers, generation, now)
    ensures Stands(m.(rows := rows'), rows', issued, ops, workers, generation, now)
  {
  }

  function Succession(m: Model, a: Id, x: Row): Model {
    m.(executions := map[1 := Execution("hh", SessionRunning, 1, false)], rows := map[a := CancelRow(x, 0)],
       ops := RetireOps(m.ops, 1, "hh", 1, 0))
  }

  lemma TakesOver(m: Model, a: Id, x: Row, issued: set<Id>, ops: set<OpId>, workers: set<WorkerId>, budget: int)
    requires Stands(m, map[a := x], issued, ops, workers, 0, 0)
    requires x.key.session == 1 && x.key.site == "hh" && x.generation == 0
    ensures Next(m, Takeover(1, 0), Succession(m, a, x), budget)
    ensures Stands(Succession(m, a, x), map[a := CancelRow(x, 0)], issued, ops, workers, 1, 0)
  {
    hide CancelRow;
    assert CancelOlder(m.rows, 1, "hh", 1, 0) == map[a := CancelRow(x, 0)];
    assert RetireOps(m.ops, 1, "hh", 1, 0).Keys == m.ops.Keys;
    assert map[1 := Execution("hh", SessionRunning, 1, false)]
        == m.executions[1 := Execution("hh", SessionRunning, 1, false)];
  }

  lemma TakenOver()
    ensures Next(B3(), Takeover(1, 0), B4(), 1)
    ensures Stands(B4(), map[2 := Z2], {1, 2}, {OP_A}, {1}, 1, 0)
  {
    FirstKeyIsUsed();
    hide Next, B3, Stands, Succession;
    TakesOver(B3(), 2, Z1, {1, 2}, {OP_A}, {1}, 1);
  }

  // The second key has no history, so the second row holds the whole budget again.
  lemma SecondKeyIsUntouched()
    ensures Submission(map[2 := Z2], map[], SubmitRequest(KEY_WITH_ID, CALL_A, 1, 1), 0) == Ok(W0)
  {
    hide Submission;
    SecondSubmission(2, Z2, KEY_WITH_ID, CALL_A, 1, 1);
  }

  lemma SecondKeyIsBegun()
    ensures Next(B4(), Begin(2, OP_LATER, KEY_WITH_ID, 3), B5(), 1)
    ensures Stands(B5(), map[2 := Z2], {1, 2, 3}, {OP_A, OP_LATER}, {1, 2}, 1, 0)
    ensures Claimant(B5(), 2, OP_LATER, KEY_WITH_ID, 3)
  {
    TakenOver();
    hide Next, B4, Begun, Stands, Claimant, Fresh, CancelRow, ClaimRow;
    Begins(B4(), map[2 := Z2], {1, 2}, {OP_A}, {1}, 1, 2, OP_LATER, KEY_WITH_ID, 3, 1);
    assert {1, 2} + {3} == {1, 2, 3} && {1} + {2} == {1, 2} && {OP_A} + {OP_LATER} == {OP_A, OP_LATER};
  }

  lemma SecondKeyIsSubmitted()
    ensures Next(B5(), Submit(2, 4), B6(), 1)
    ensures B6().rows == map[4 := W0, 2 := Z2] && B6().now == 0
  {
    SecondKeyIsBegun();
    SecondKeyIsUntouched();
    hide Next, B5, Submitted, Stands, Claimant, Submission, Fresh, CancelRow, ClaimRow;
    Submits(B5(), map[2 := Z2], {1, 2, 3}, {OP_A, OP_LATER}, {1, 2}, 1, 2, OP_LATER, KEY_WITH_ID, 3, 4, W0, 1);
    StandsGives(B6(), map[2 := Z2][4 := W0], {1, 2, 3} + {4}, {OP_A, OP_LATER}, {1, 2}, 1, 0);
    assert map[2 := Z2][4 := W0] == map[4 := W0, 2 := Z2];
  }

  lemma SecondKeyIsUsed()
    ensures Next(B6(), Tick(9, 180, Some(4)), B7(), 1)
  {
    SecondKeyIsSubmitted();
    hide Next, B6;
    Claims(B6(), 4, W0, 2, Z2, 1);
  }

  function Renaming3(): Run {
    var run1 := Extend(Run([START], []), Begin(1, OP_A, KEY, 1), B1());
    var run2 := Extend(run1, Submit(1, 2), B2());
    Extend(run2, Tick(9, 180, Some(2)), B3())
  }

  function Renaming(): Run {
    var run4 := Extend(Renaming3(), Takeover(1, 0), B4());
    var run5 := Extend(run4, Begin(2, OP_LATER, KEY_WITH_ID, 3), B5());
    var run6 := Extend(run5, Submit(2, 4), B6());
    Extend(run6, Tick(9, 180, Some(4)), B7())
  }

  lemma Renaming3IsRun()
    ensures RunTo(Renaming3(), 1, B3()) && |Renaming3().steps| == 3
  {
    FirstKeyIsUsed();
    RunStarts(START, 1);
    hide Next, RunTo, Extend, Stands, B1, B2, B3;
    Extends(Run([START], []), 1, START, Begin(1, OP_A, KEY, 1), B1());
    var run1 := Extend(Run([START], []), Begin(1, OP_A, KEY, 1), B1());
    Extends(run1, 1, B1(), Submit(1, 2), B2());
    Extends(Extend(run1, Submit(1, 2), B2()), 1, B2(), Tick(9, 180, Some(2)), B3());
  }

  lemma RenamingIsRun()
    ensures RunTo(Renaming(), 1, B7()) && |Renaming().steps| == 7
  {
    Renaming3IsRun();
    TakenOver();
    SecondKeyIsBegun();
    SecondKeyIsSubmitted();
    SecondKeyIsUsed();
    hide Next, RunTo, Extend, Stands, Renaming3, B3, B4, B5, B6, B7;
    Extends(Renaming3(), 1, B3(), Takeover(1, 0), B4());
    var run4 := Extend(Renaming3(), Takeover(1, 0), B4());
    Extends(run4, 1, B4(), Begin(2, OP_LATER, KEY_WITH_ID, 3), B5());
    var run5 := Extend(run4, Begin(2, OP_LATER, KEY_WITH_ID, 3), B5());
    Extends(run5, 1, B5(), Submit(2, 4), B6());
    Extends(Extend(run5, Submit(2, 4), B6()), 1, B6(), Tick(9, 180, Some(4)), B7());
  }

  // Two provider calls are made for one call whose budget is one.
  lemma SecondKeyExceedsBudget()
    ensures IsRun(Renaming(), 1) && ProviderClaims(Renaming(), From(CALL_A), |Renaming().steps|) == 2
  {
    RenamingIsRun();
    hide Next, IsRun, B6, Renaming;
    ClaimsAreAttempts(Renaming(), 1, From(CALL_A), 7);
    TotalPair(4, W1, 2, Z2, AttemptsIn(From(CALL_A)));
  }
}
