// The attempt budget over whole runs. A gateway tells calls apart by the hash of the input it
// was given; the broker counts attempts by the hash of what it stores, after credential-shaped
// content was replaced. So two calls can share a key, and a call resubmitted under another
// vacancy id has two.

module CallBudgets {
  import opened Records
  import opened Totals
  import opened RequestRows
  import opened BrokerGateway
  import opened ModelProtocol
  import opened ModelInvariants
  import opened ModelTheorems

  // ---- one call under one key ----

  // Over any run, the provider is called at most `budget` times for one call under one key,
  // whatever mixture of retries, replaced requests, recoveries and takeovers it goes through.
  lemma ProviderCallsWithinBudget(run: Run, budget: int, key: OpKey, call: Call, n: nat)
    requires IsRun(run, budget) && budget >= 1 && n <= |run.steps|
    ensures ProviderClaims(run, By(key, call), n) <= budget
  {
    hide Next;
    ClaimsAreAttempts(run, budget, By(key, call), n);
    RunKeepsInv(run, budget, n);
    assert BudgetOk(run.states[n].rows, key, call, budget);
  }

  // The gateway's exhaustion test is the broker's: both read zero remaining attempts.
  lemma ExhaustionTestsAgree(run: Run, budget: int, i: nat, key: OpKey)
    requires IsRun(run, budget) && budget >= 1 && i < |run.states|
    requires Known(run.states[i].rows, key)
    ensures GatewayExhausted(run.states[i].rows, key)
       <==> Remaining(budget, Total(run.states[i].rows, DurableOf(key))) == 0
  {
    hide Next, RowsOk, Limits, CacheOk, LinksInv;
    RunKeepsInv(run, budget, i);
    var rows := run.states[i].rows;
    assert SharesOk(rows, key, budget);
    var first :| first in rows && rows[first].key == key && rows[first].maxAttempts == budget;
  }

  // ---- one call, whatever keys it was submitted under ----

  function KeysOf(rows: Rows, call: Call): set<OpKey> {
    set id | id in rows && rows[id].caller == call :: rows[id].key
  }

  function FromWithin(call: Call, keys: set<OpKey>): Scope { (k: OpKey, c: Call) => c == call && k in keys }

  lemma {:induction false} TotalSum(rows: Rows, w: Weight, v: Weight, u: Weight)
    requires forall id :: id in rows ==> w(rows[id]) == v(rows[id]) + u(rows[id])
    ensures Total(rows, w) == Total(rows, v) + Total(rows, u)
    decreases |rows|
  {
    if rows != map[] {
      var id :| id in rows;
      Smaller(rows, id);
      TotalSplit(rows, id, w);
      TotalSplit(rows, id, v);
      TotalSplit(rows, id, u);
      TotalSum(rows - {id}, w, v, u);
    }
  }

  lemma OneKeyMore(rows: Rows, call: Call, keys: set<OpKey>, key: OpKey)
    requires key in keys
    ensures Total(rows, AttemptsIn(FromWithin(call, keys)))
         == Total(rows, AttemptsIn(FromWithin(call, keys - {key}))) + Total(rows, AttemptsBy(key, call))
  {
    TotalSum(rows, AttemptsIn(FromWithin(call, keys)), AttemptsIn(FromWithin(call, keys - {key})),
      AttemptsBy(key, call));
  }

  lemma {:induction false} KeysSpendTheirShare(rows: Rows, call: Call, keys: set<OpKey>, budget: int)
    requires forall key :: key in keys ==> Total(rows, AttemptsBy(key, call)) <= budget
    ensures Total(rows, AttemptsIn(FromWithin(call, keys))) <= budget * |keys|
    decreases |keys|
  {
    if keys == {} {
      TotalZero(rows, AttemptsIn(FromWithin(call, keys)));
    } else {
      hide FromWithin, AttemptsIn, AttemptsBy, Total;
      var key :| key in keys;
      var others := keys - {key};
      KeysSpendTheirShare(rows, call, others, budget);
      OneKeyMore(rows, call, keys, key);
      assert |others| + 1 == |keys|;
      assert budget * (|others| + 1) == budget * |others| + budget;
    }
  }

  // A call spends at most one budget for each key it was submitted under.
  lemma CallSpendsOneBudgetPerKey(run: Run, budget: int, call: Call, n: nat)
    requires IsRun(run, budget) && budget >= 1 && n <= |run.steps|
    ensures ProviderClaims(run, From(call), n) <= budget * |KeysOf(run.states[n].rows, call)|
  {
    hide Next;
    var rows := run.states[n].rows;
    RunKeepsInv(run, budget, n);
    forall key
      ensures Total(rows, AttemptsBy(key, call)) <= budget
    {
      assert BudgetOk(rows, key, call, budget);
    }
    KeysSpendTheirShare(rows, call, KeysOf(rows, call), budget);
    ClaimsAreAttempts(run, budget, From(call), n);
    TotalBetween(rows, AttemptsIn(From(call)), AttemptsIn(FromWithin(call, KeysOf(rows, call))));
  }

  // ---- what may still be spent ----

  // What the rows in scope have spent, or in a live row may still spend.
  function ReserveIn(scope: Scope): Weight {
    (r: Row) => if !scope(r.key, r.caller) then 0 else if r.Live() then r.maxAttempts else r.attempt
  }

  // What a row that could ever be claimed was given.
  function GrantOf(key: OpKey): Weight {
    (r: Row) => if r.key != key || (r.Terminal() && r.attempt == 0) then 0 else r.maxAttempts
  }

  function CountOf(key: OpKey): Weight { (r: Row) => if r.key == key then 1 else 0 }

  lemma StepKeepsKeys(m: Model, step: Step, m': Model, budget: int)
    requires Inv(m, budget) && Next(m, step, m', budget) && !step.Submit?
    ensures m'.rows.Keys == m.rows.Keys
  {
    hide Inv, Next, Keeps;
    if step.Tick? && step.pick.Some? {
      TickKeepsKeys(m, step, m', budget);
    } else {
      OtherStepsAreQuiet(m, step, m', budget);
    }
  }

  lemma TickKeepsKeys(m: Model, step: Step, m': Model, budget: int)
    requires Next(m, step, m', budget) && step.Tick?
    ensures m'.rows.Keys == m.rows.Keys
  {
  }

  lemma OtherStepsProgress(m: Model, step: Step, m': Model, budget: int)
    requires Inv(m, budget) && Inv(m', budget) && Next(m, step, m', budget) && !step.Submit?
    ensures RowsProgress(m.rows, m'.rows) && m'.rows.Keys == m.rows.Keys && RowsOk(m'.rows, m'.now)
  {
    hide Inv, Next, RowsProgress, RowsOk;
    StepProgresses(m, step, m', budget);
    StepKeepsKeys(m, step, m', budget);
    InvGivesRows(m', budget);
  }

  lemma ProgressSpendsReserve(rows: Rows, rows': Rows, now: int, scope: Scope)
    requires RowsProgress(rows, rows') && rows'.Keys == rows.Keys && RowsOk(rows', now)
    ensures Total(rows', ReserveIn(scope)) <= Total(rows, ReserveIn(scope))
  {
    hide RowOk, Potential;
    forall id | id in rows
      ensures ReserveIn(scope)(rows'[id]) <= ReserveIn(scope)(rows[id])
    {
      assert Progresses(rows[id], rows'[id]) && RowOk(rows'[id]);
      RowStaysWithinLimit(rows'[id]);
    }
    TotalMonotone(rows, rows', ReserveIn(scope));
  }

  lemma RowStaysWithinLimit(row: Row)
    requires RowOk(row)
    ensures 0 <= row.attempt <= row.maxAttempts
  {
  }

  lemma ProgressSpendsGrants(rows: Rows, rows': Rows, now: int, key: OpKey)
    requires RowsProgress(rows, rows') && rows'.Keys == rows.Keys && RowsOk(rows', now)
    ensures Total(rows', GrantOf(key)) <= Total(rows, GrantOf(key))
    ensures Total(rows', CountOf(key)) == Total(rows, CountOf(key))
  {
    hide RowOk, Potential;
    forall id | id in rows
      ensures GrantOf(key)(rows'[id]) <= GrantOf(key)(rows[id]) && CountOf(key)(rows'[id]) == CountOf(key)(rows[id])
    {
      assert Progresses(rows[id], rows'[id]) && RowOk(rows'[id]);
      RowStaysWithinLimit(rows'[id]);
    }
    TotalMonotone(rows, rows', GrantOf(key));
    TotalEqual(rows, rows', CountOf(key));
  }

  lemma SubmitterIsAlone(m: Model, op: OpId, token: Id, budget: int)
    requires Inv(m, budget) && HoldsClaim(m.ops, op, token) && !Fenced(m.executions, op.call.session, op.generation)
    ensures forall x :: x in m.rows && m.rows[x].caller == op.call ==> !m.rows[x].Live()
  {
    hide Limits, CacheOk, LinksInv, Budgets;
    InvGivesLinks(m, budget);
    HolderHasNoLiveRequest(m, op, token);
  }

  // A submission inserts at most one row. That row holds what the history of its key leaves, and
  // its call has no other live row, under whatever key.
  lemma SubmitInserts(m: Model, w: WorkerId, id: Id, budget: int, m': Model)
    requires Inv(m, budget) && budget >= 1 && NextSubmit(m, w, id, budget, m')
    ensures m'.rows == m.rows
      || (id !in m.rows && id in m'.rows && m'.rows == m.rows[id := m'.rows[id]]
          && HoldsRemaining(m.rows, m'.rows[id], budget)
          && forall x :: x in m.rows && m.rows[x].caller == m'.rows[id].caller ==> !m.rows[x].Live())
  {
    hide Inv, Fenced, Submission, HoldsRemaining, WorkerOk, HoldsClaim, RowOk, RowsOk, Limits, CacheOk, SlotOf;
    InvGivesRows(m, budget);
    WorkerFacts(m, w, budget);
    var op, key := m.workers[w].op, m.workers[w].key;
    WorkerHolds(m.rows, m.ops.Keys, m.tokens, op, key, m.workers[w].token);
    if m'.rows != m.rows {
      SubmittedRow(m.rows, m.cache, op, key, budget, m.now, m'.rows[id]);
      SubmitterIsAlone(m, op, m.workers[w].token, budget);
      assert OpOf(m'.rows[id]) == op;
    }
  }

  // The step admits a live row in scope.
  predicate Admits(m: Model, step: Step, m': Model, scope: Scope) {
    && step.Submit? && step.id !in m.rows && step.id in m'.rows
    && scope(m'.rows[step.id].key, m'.rows[step.id].caller) && m'.rows[step.id].Live()
  }

  lemma StepMovesReserve(m: Model, step: Step, m': Model, budget: int, scope: Scope)
    requires Inv(m, budget) && Inv(m', budget) && budget >= 1 && Next(m, step, m', budget)
    ensures Admits(m, step, m', scope) ==>
      Total(m'.rows, ReserveIn(scope))
        == Total(m.rows, ReserveIn(scope)) + budget - Total(m.rows, DurableOf(m'.rows[step.id].key))
    ensures !Admits(m, step, m', scope) ==> Total(m'.rows, ReserveIn(scope)) <= Total(m.rows, ReserveIn(scope))
  {
    if step.Submit? {
      hide Inv, NextSubmit;
      SubmitInserts(m, step.w, step.id, budget, m');
      if m'.rows != m.rows {
        TotalInsert(m.rows, step.id, m'.rows[step.id], ReserveIn(scope));
      }
    } else {
      hide Inv, Next, RowsProgress, RowsOk;
      OtherStepsProgress(m, step, m', budget);
      ProgressSpendsReserve(m.rows, m'.rows, m'.now, scope);
    }
  }

  ghost predicate WithinBudget(m: Model, scope: Scope, budget: int) { Total(m.rows, ReserveIn(scope)) <= budget }

  ghost predicate AdmitsAt(run: Run, scope: Scope, i: nat)
    requires i < |run.steps| && |run.states| == |run.steps| + 1
  {
    Admits(run.states[i], run.steps[i], run.states[i + 1], scope)
  }

  // The key under which step i admits a row.
  function AdmittedKey(run: Run, scope: Scope, i: nat): OpKey
    requires i < |run.steps| && |run.states| == |run.steps| + 1 && AdmitsAt(run, scope, i)
  {
    run.states[i + 1].rows[run.steps[i].id].key
  }

  // What the rows in scope have spent, or may still spend, was counted under the key of the new row.
  ghost predicate CoveredAt(run: Run, scope: Scope, i: nat)
    requires i < |run.steps| && |run.states| == |run.steps| + 1 && AdmitsAt(run, scope, i)
  {
    Total(run.states[i].rows, ReserveIn(scope)) <= Total(run.states[i].rows, DurableOf(AdmittedKey(run, scope, i)))
  }

  lemma RunMovesReserve(run: Run, budget: int, scope: Scope, i: nat)
    requires IsRun(run, budget) && budget >= 1 && i < |run.steps|
    ensures AdmitsAt(run, scope, i) ==> (WithinBudget(run.states[i + 1], scope, budget) <==> CoveredAt(run, scope, i))
    ensures !AdmitsAt(run, scope, i) && WithinBudget(run.states[i], scope, budget) ==>
      WithinBudget(run.states[i + 1], scope, budget)
  {
    hide Next, Inv;
    RunKeepsInv(run, budget, i);
    RunKeepsInv(run, budget, i + 1);
    StepMovesReserve(run.states[i], run.steps[i], run.states[i + 1], budget, scope);
  }

  lemma BudgetHoldsExactly(run: Run, budget: int, scope: Scope, n: nat)
    requires IsRun(run, budget) && budget >= 1 && n <= |run.steps|
    ensures (forall i :: 0 <= i <= n ==> WithinBudget(run.states[i], scope, budget))
       <==> (forall i :: 0 <= i < n && AdmitsAt(run, scope, i) ==> CoveredAt(run, scope, i))
  {
    hide Next, AdmitsAt, WithinBudget, CoveredAt;
    forall i | 0 <= i < n && AdmitsAt(run, scope, i)
      ensures WithinBudget(run.states[i + 1], scope, budget) <==> CoveredAt(run, scope, i)
    {
      RunMovesReserve(run, budget, scope, i);
    }
    if forall i :: 0 <= i < n && AdmitsAt(run, scope, i) ==> CoveredAt(run, scope, i) {
      forall i | 0 <= i <= n
        ensures WithinBudget(run.states[i], scope, budget)
      {
        CoveredAdmissionsKeepReserve(run, budget, scope, i);
      }
    } else {
      var i :| 0 <= i < n && AdmitsAt(run, scope, i) && !CoveredAt(run, scope, i);
      assert !WithinBudget(run.states[i + 1], scope, budget);
    }
  }

  lemma {:induction false} CoveredAdmissionsKeepReserve(run: Run, budget: int, scope: Scope, n: nat)
    requires IsRun(run, budget) && budget >= 1 && n <= |run.steps|
    requires forall i :: 0 <= i < n && AdmitsAt(run, scope, i) ==> CoveredAt(run, scope, i)
    ensures WithinBudget(run.states[n], scope, budget)
  {
    hide Next, AdmitsAt, CoveredAt;
    if n == 0 {
      TotalZero(run.states[0].rows, ReserveIn(scope));
    } else {
      hide WithinBudget;
      CoveredAdmissionsKeepReserve(run, budget, scope, n - 1);
      RunMovesReserve(run, budget, scope, n - 1);
    }
  }

  // Whatever is reserved bounds what was called.
  lemma ClaimsWithinReserve(run: Run, budget: int, scope: Scope, n: nat)
    requires IsRun(run, budget) && budget >= 1 && n <= |run.steps|
    ensures ProviderClaims(run, scope, n) <= Total(run.states[n].rows, ReserveIn(scope))
  {
    hide Next, Limits, CacheOk, LinksInv, Budgets;
    ClaimsAreAttempts(run, budget, scope, n);
    RunKeepsInv(run, budget, n);
    TotalBetween(run.states[n].rows, AttemptsIn(scope), ReserveIn(scope));
  }

  // ---- when one budget is kept ----

  // The broker keeps to the budget of a key exactly if, at every admission under it, what its rows
  // have spent or may still spend was counted for them.
  lemma KeyBudgetHoldsExactly(run: Run, budget: int, key: OpKey, n: nat)
    requires IsRun(run, budget) && budget >= 1 && n <= |run.steps|
    ensures (forall i :: 0 <= i <= n ==> WithinBudget(run.states[i], Under(key), budget))
       <==> (forall i :: 0 <= i < n && AdmitsAt(run, Under(key), i) ==>
              Total(run.states[i].rows, ReserveIn(Under(key))) <= Total(run.states[i].rows, DurableOf(key)))
  {
    hide Next, WithinBudget;
    BudgetHoldsExactly(run, budget, Under(key), n);
    forall i | 0 <= i < n && AdmitsAt(run, Under(key), i)
      ensures AdmittedKey(run, Under(key), i) == key
    {
    }
    hide AdmitsAt;
  }

  // One call keeps to one budget, under whatever keys it is submitted, exactly if every row
  // admitted for it finds its earlier attempts counted under the row's key.
  lemma CallBudgetHoldsExactly(run: Run, budget: int, call: Call, n: nat)
    requires IsRun(run, budget) && budget >= 1 && n <= |run.steps|
    ensures (forall i :: 0 <= i <= n ==> WithinBudget(run.states[i], From(call), budget))
       <==> (forall i :: 0 <= i < n && AdmitsAt(run, From(call), i) ==>
              Total(run.states[i].rows, AttemptsIn(From(call)))
                <= Total(run.states[i].rows, DurableOf(AdmittedKey(run, From(call), i))))
  {
    hide Next, WithinBudget, AdmitsAt, Inv;
    BudgetHoldsExactly(run, budget, From(call), n);
    forall i | 0 <= i < n && AdmitsAt(run, From(call), i)
      ensures Total(run.states[i].rows, ReserveIn(From(call))) == Total(run.states[i].rows, AttemptsIn(From(call)))
    {
      AdmissionReservesNothing(run, budget, call, i);
    }
  }

  // When a row of a call is admitted, nothing of the call is live, so it reserves just what it spent.
  lemma AdmissionReservesNothing(run: Run, budget: int, call: Call, i: nat)
    requires IsRun(run, budget) && budget >= 1 && i < |run.steps| && AdmitsAt(run, From(call), i)
    ensures Total(run.states[i].rows, ReserveIn(From(call))) == Total(run.states[i].rows, AttemptsIn(From(call)))
  {
    hide Inv, NextSubmit;
    var m, step := run.states[i], run.steps[i];
    RunKeepsInv(run, budget, i);
    assert Next(m, step, run.states[i + 1], budget);
    SubmitInserts(m, step.w, step.id, budget, run.states[i + 1]);
    hide Next, IsRun;
    TotalBetween(m.rows, ReserveIn(From(call)), AttemptsIn(From(call)));
    TotalBetween(m.rows, AttemptsIn(From(call)), ReserveIn(From(call)));
  }

  // A call that was only ever submitted under one key meets the condition, and keeps to one budget.
  lemma OneKeyIsCovered(rows: Rows, call: Call, key: OpKey)
    requires forall id :: id in rows && rows[id].caller == call ==> rows[id].key == key
    ensures Total(rows, AttemptsIn(From(call))) <= Total(rows, DurableOf(key))
  {
    TotalBetween(rows, AttemptsIn(From(call)), DurableOf(key));
  }

  // A key that only one call ever used keeps to the budget.
  lemma UnsharedKeyWithinBudget(run: Run, budget: int, key: OpKey, call: Call, n: nat)
    requires IsRun(run, budget) && budget >= 1 && n <= |run.steps|
    requires forall id :: id in run.states[n].rows && run.states[n].rows[id].key == key ==>
      run.states[n].rows[id].caller == call
    ensures ProviderClaims(run, Under(key), n) <= budget
  {
    hide Next;
    ClaimsAreAttempts(run, budget, Under(key), n);
    ClaimsAreAttempts(run, budget, By(key, call), n);
    ProviderCallsWithinBudget(run, budget, key, call, n);
    TotalBetween(run.states[n].rows, AttemptsIn(Under(key)), AttemptsBy(key, call));
  }

  // Nothing live is under the key, so an admission is covered.
  lemma IdleKeyIsCovered(rows: Rows, key: OpKey)
    requires forall id :: id in rows && rows[id].key == key ==> !rows[id].Live()
    ensures Total(rows, ReserveIn(Under(key))) <= Total(rows, DurableOf(key))
  {
    TotalBetween(rows, ReserveIn(Under(key)), DurableOf(key));
  }

  // ---- the bound that no sharing can break ----

  // budget + (budget - 1) + ..., n terms.
  function Staircase(budget: int, n: nat): int {
    if n == 0 then 0 else Staircase(budget, n - 1) + budget - (n - 1)
  }

  lemma {:induction false} StaircaseClimbs(budget: int, n: nat, k: nat)
    requires n <= k <= budget
    ensures Staircase(budget, n) <= Staircase(budget, k)
    decreases k
  {
    if n < k { StaircaseClimbs(budget, n, k - 1); }
  }

  lemma {:induction false} StaircaseSum(budget: int, n: nat)
    ensures 2 * Staircase(budget, n) == n * (2 * budget - n + 1)
  {
    if n > 0 { StaircaseSum(budget, n - 1); }
  }

  function AtMost(n: int, budget: int): (r: nat)
    requires budget >= 0
  {
    if n < 0 then 0 else if n < budget then n else budget
  }

  ghost predicate GrantsOk(rows: Rows, key: OpKey, budget: int)
    requires budget >= 1
  {
    Total(rows, GrantOf(key)) <= Staircase(budget, AtMost(Total(rows, CountOf(key)), budget))
  }

  lemma CountsArePaid(rows: Rows, key: OpKey)
    ensures 0 <= Total(rows, CountOf(key)) <= Total(rows, DurableOf(key))
  {
    TotalNonNegative(rows, CountOf(key));
    TotalBetween(rows, CountOf(key), DurableOf(key));
  }

  // Each row already there costs the next one at least one attempt.
  lemma InsertKeepsGrants(rows: Rows, id: Id, row: Row, key: OpKey, budget: int)
    requires budget >= 1 && GrantsOk(rows, key, budget) && id !in rows && HoldsRemaining(rows, row, budget)
    ensures GrantsOk(rows[id := row], key, budget)
  {
    TotalInsert(rows, id, row, GrantOf(key));
    TotalInsert(rows, id, row, CountOf(key));
    CountsArePaid(rows, key);
    var n := Total(rows, CountOf(key));
    if row.key == key {
      StaircaseClimbs(budget, AtMost(n, budget), AtMost(n + 1, budget));
    }
  }

  lemma {:induction false} RunKeepsGrants(run: Run, budget: int, key: OpKey, n: nat)
    requires IsRun(run, budget) && budget >= 1 && n <= |run.steps|
    ensures GrantsOk(run.states[n].rows, key, budget)
  {
    hide Next, Inv, NextSubmit;
    if n == 0 {
      TotalZero(run.states[0].rows, GrantOf(key));
      TotalZero(run.states[0].rows, CountOf(key));
    } else {
      RunKeepsGrants(run, budget, key, n - 1);
      RunKeepsInv(run, budget, n - 1);
      RunKeepsInv(run, budget, n);
      StepKeepsGrants(run.states[n - 1], run.steps[n - 1], run.states[n], budget, key);
    }
  }

  lemma StepKeepsGrants(m: Model, step: Step, m': Model, budget: int, key: OpKey)
    requires Inv(m, budget) && Inv(m', budget) && budget >= 1 && Next(m, step, m', budget)
    requires GrantsOk(m.rows, key, budget)
    ensures GrantsOk(m'.rows, key, budget)
  {
    if step.Submit? {
      hide Inv, NextSubmit, GrantsOk, HoldsRemaining;
      SubmitInserts(m, step.w, step.id, budget, m');
      if m'.rows != m.rows {
        InsertKeepsGrants(m.rows, step.id, m'.rows[step.id], key, budget);
      }
    } else {
      hide Inv, Next, RowsProgress, RowsOk;
      OtherStepsProgress(m, step, m', budget);
      ProgressSpendsGrants(m.rows, m'.rows, m'.now, key);
    }
  }

  lemma AttemptsWithinGrants(rows: Rows, now: int, key: OpKey)
    requires RowsOk(rows, now)
    ensures Total(rows, AttemptsIn(Under(key))) <= Total(rows, GrantOf(key))
  {
    TotalBetween(rows, AttemptsIn(Under(key)), GrantOf(key));
  }

  // However many calls share a key, the provider is called for it at most
  // budget + (budget - 1) + ... + 1 times.
  lemma SharedKeyIsBounded(run: Run, budget: int, key: OpKey, n: nat)
    requires IsRun(run, budget) && budget >= 1 && n <= |run.steps|
    ensures 2 * ProviderClaims(run, Under(key), n) <= budget * (budget + 1)
  {
    hide Next, Inv, RowsOk;
    var rows := run.states[n].rows;
    ClaimsAreAttempts(run, budget, Under(key), n);
    RunKeepsInv(run, budget, n);
    InvGivesRows(run.states[n], budget);
    AttemptsWithinGrants(rows, run.states[n].now, key);
    RunKeepsGrants(run, budget, key, n);
    StaircaseClimbs(budget, AtMost(Total(rows, CountOf(key)), budget), budget);
    StaircaseSum(budget, budget);
  }
}
