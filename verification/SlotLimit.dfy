// The ten evaluation slots of a site. The limit holds over a whole history exactly when no
// session that was over comes back with more parked rows than there are free slots.

module SlotLimit {
  import opened Records
  import opened ModelProtocol
  import opened Pipeline
  import opened Backlog
  import opened Takeover
  import opened PipelineInvariants
  import opened QueueBound
  import opened SystemProtocol
  import opened SystemTheorems

  ghost predicate WithinLimit(s: System) {
    forall site :: ActiveAtSite(s.tables.items, site, s.model.executions) <= EVALUATION_QUEUE_LIMIT
  }

  predicate Revives(executions: Executions, step: Step) {
    && step.SetStatus? && Over(executions, step.session) && step.status !in TERMINAL_SESSION
  }

  // A session may come back if its parked rows fit into the free slots of its site.
  predicate RevivalFits(s: System, action: Action) {
    action.Protocol? && Revives(s.model.executions, action.step) ==>
      var e := s.model.executions[action.step.session];
      ActiveAtSite(s.tables.items, e.adapter, s.model.executions)
        + ParkedAtSite(s.tables.items, e.adapter, action.step.session, e.generation) <= EVALUATION_QUEUE_LIMIT
  }

  lemma {:induction false} NoneParkedElsewhere(
    items: Items, executions: Executions, session: Session, generation: int, site: string)
    requires ItemsOk(items, executions) && session in executions && site != executions[session].adapter
    ensures ParkedAtSite(items, site, session, generation) == 0
  {
    if items != [] {
      assert ItemOk(items[|items| - 1], executions);
      NoneParkedElsewhere(items[..|items| - 1], executions, session, generation, site);
    }
  }

  lemma StatusLimit(s: System, step: Step, s': System, budget: int)
    requires NextSystem(s, Protocol(step), s', budget) && step.SetStatus?
    requires ItemsOk(s.tables.items, s.model.executions) && WithinLimit(s)
    ensures WithinLimit(s') <==> RevivalFits(s, Protocol(step))
  {
    hide Occupies, Parked;
    var executions := s.model.executions;
    var e := executions[step.session];
    forall site
      ensures var before := ActiveAtSite(s.tables.items, site, executions);
        var after := ActiveAtSite(s'.tables.items, site, s'.model.executions);
        (after > before ==> Revives(executions, step) && site == e.adapter)
        && (Revives(executions, step) && site == e.adapter ==>
          after == before + ParkedAtSite(s.tables.items, site, step.session, e.generation))
    {
      RevivalTakesParkedSlots(s.tables.items, site, executions, step.session, step.status, step.cancel);
      if site != e.adapter { NoneParkedElsewhere(s.tables.items, executions, step.session, e.generation, site); }
    }
  }

  lemma EnqueueLimit(s: System, place: Place, refs: seq<JobRef>, expected: Option<int>, site: string)
    requires TablesOk(s.tables, s.model.executions) && FromWorker(s.model.executions, place, refs)
    requires ActiveAtSite(s.tables.items, site, s.model.executions) <= EVALUATION_QUEUE_LIMIT
    ensures ActiveAtSite(
        AfterQueueing(s.tables, s.model.executions, place, refs, expected, s.model.now).items, site, s.model.executions)
      <= EVALUATION_QUEUE_LIMIT
  {
    var executions := s.model.executions;
    EnqueueKeepsTables(s.tables, executions, place, refs, expected, s.model.now);
    if WorkingGeneration(executions, place.session, expected).Some? {
      var g := WorkingGeneration(executions, place.session, expected).value;
      var checkpoint := CheckpointAt(s.tables.checkpoints, CheckpointId(place, g));
      hide EnqueueRefs, AfterQueueing, WaitingRefs;
      EnqueueFillsFreeSlots(s.tables.items, checkpoint, place, g, refs, s.tables.vacancies, executions, s.model.now,
        site);
    }
  }

  lemma ActionLimit(s: System, action: Action, s': System, budget: int)
    requires NextSystem(s, action, s', budget) && SystemOk(s) && WithinLimit(s)
    ensures WithinLimit(s') <==> RevivalFits(s, action)
  {
    if action.Protocol? && action.step.SetStatus? {
      StatusLimit(s, action.step, s', budget);
    } else {
      forall site
        ensures ActiveAtSite(s'.tables.items, site, s'.model.executions) <= EVALUATION_QUEUE_LIMIT
      {
        OtherActionsKeepLimit(s, action, s', budget, site);
      }
    }
  }

  lemma OtherActionsKeepLimit(s: System, action: Action, s': System, budget: int, site: string)
    requires NextSystem(s, action, s', budget) && SystemOk(s)
    requires !(action.Protocol? && action.step.SetStatus?)
    requires ActiveAtSite(s.tables.items, site, s.model.executions) <= EVALUATION_QUEUE_LIMIT
    ensures ActiveAtSite(s'.tables.items, site, s'.model.executions) <= EVALUATION_QUEUE_LIMIT
  {
    hide TablesOk, PendingOk, AfterQueueing, AfterLocating, AfterAdoption, ItemsProceed, Occupies;
    var executions := s.model.executions;
    match action
    case Protocol(step) =>
      OtherStepsKeepExecutions(s.model, step, s'.model, budget);
    case Enqueue(place, refs, expected) =>
      EnqueueLimit(s, place, refs, expected, site);
    case Locate(home) =>
      LocateChangesNothing(s, home, s', budget);
    case Advance(place, id, stage, expected) =>
      AdvanceProceeds(s.tables, executions, place, id, stage, expected);
      ProceedingOccupiesNoMore(s.tables.items, s'.tables.items, site, executions);
    case CancelSession(session, expected) =>
      OtherStepsKeepExecutions(s.model, ProtocolStep(s, action), s'.model, budget);
      CancelProceeds(s.tables, executions, session, expected);
      ProceedingOccupiesNoMore(s.tables.items, s'.tables.items, site, executions);
    case StoreVacancy(id, vacancy) =>
    case TakeOver(session, cached) =>
      AdoptionOccupiesNoMore(s.tables, executions, session, NextGeneration(executions[session], cached), site);
  }

  // The limit holds in every state of a history if and only if every revival in it fits.
  lemma {:induction false} LimitHoldsExactly(h: History, budget: int, n: nat)
    requires IsHistory(h, budget) && n < |h.states|
    ensures (forall i :: 0 <= i <= n ==> WithinLimit(h.states[i]))
      <==> (forall i :: 0 <= i < n ==> RevivalFits(h.states[i], h.actions[i]))
  {
    hide NextSystem, SystemOk, WithinLimit, RevivalFits;
    if n == 0 {
      EmptyQueueIsWithinLimit(h.states[0]);
    } else {
      LimitHoldsExactly(h, budget, n - 1);
      HistoryKeepsTables(h, budget, n - 1);
      if WithinLimit(h.states[n - 1]) {
        ActionLimit(h.states[n - 1], h.actions[n - 1], h.states[n], budget);
      }
    }
  }

  lemma EmptyQueueIsWithinLimit(s: System)
    requires SystemInit(s)
    ensures WithinLimit(s)
  {
  }

  // ---- a history that overfills a site ----

  function TwoSessions(first: SessionStatus, second: SessionStatus): Executions {
    map[1 := Execution("hh", first, 0, false), 2 := Execution("hh", second, 0, false)]
  }

  lemma {:induction false} StoringNewRefs(refs: seq<JobRef>)
    requires Distinct(refs)
    ensures PutAll([], refs) == refs && Unqueued(refs, {}) == refs
  {
    if refs != [] {
      var last := |refs| - 1;
      StoringNewRefs(refs[..last]);
      Snoc(refs);
      PutKeepsOrder(refs[..last], refs[last]);
      PutKeeps(refs[..last], refs[last]);
      assert refs == refs[..last] + [refs[last]];
      PutNew(refs[..last], refs[last]);
    }
  }

  lemma {:induction false} PutNew(refs: seq<JobRef>, ref: JobRef)
    requires Distinct(refs) && ref.externalId !in Ids(refs)
    ensures Put(refs, ref) == refs + [ref]
  {
    if refs != [] {
      Cons(refs);
      PutNew(refs[1..], ref);
    }
  }

  lemma {:induction false} ParkedStay(items: Items, more: Items, site: string, session: Session, generation: int)
    ensures ParkedAtSite(items + more, site, session, generation) >= ParkedAtSite(items, site, session, generation)
  {
    if more == [] {
      assert items + more == items;
    } else {
      var last := |more| - 1;
      assert (items + more)[..|items + more| - 1] == items + more[..last];
      ParkedStay(items, more[..last], site, session, generation);
    }
  }

  // A place with nothing queued and an empty backlog queues new references while slots are free.
  lemma FreshEnqueue(items: Items, place: Place, refs: seq<JobRef>, executions: Executions)
    requires forall i :: 0 <= i < |items| ==> PlaceOf(items[i]) != place
    requires Distinct(refs) && |refs| <= EVALUATION_QUEUE_LIMIT - ActiveAtSite(items, place.site, executions)
    ensures EnqueueRefs(items, Checkpoint([], map[], 0, 0), place, 0, refs, map[], executions, 0).items
      == items + NewItems(place, 0, refs, 0)
  {
    hide Distinct, Occupies;
    StoringNewRefs(refs);
    assert ReconcileItems(items, place, 0, map[]) == items;
    assert QueuedIds(items, place, 0) == {};
    assert PutAll([], []) == [];
  }

  function Blank(executions: Executions): Model {
    Model(map[], map[], map[], executions, map[], {}, {}, map[], 0)
  }

  lemma FreshAfterQueueing(t: Tables, executions: Executions, place: Place, refs: seq<JobRef>)
    requires TablesOk(t, executions) && FromWorker(executions, place, refs)
    requires WorkingGeneration(executions, place.session, None) == Some(0)
    requires CheckpointId(place, 0) !in t.checkpoints && t.vacancies == map[]
    requires forall i :: 0 <= i < |t.items| ==> PlaceOf(t.items[i]) != place
    requires Distinct(refs) && |refs| <= EVALUATION_QUEUE_LIMIT - ActiveAtSite(t.items, place.site, executions)
    ensures var t' := AfterQueueing(t, executions, place, refs, None, 0);
      && t'.items == t.items + NewItems(place, 0, refs, 0)
      && t'.checkpoints.Keys == t.checkpoints.Keys + {CheckpointId(place, 0)} && t'.vacancies == map[]
  {
    hide TablesOk, Distinct, EnqueueRefs, FailUnlocated, Occupies;
    EnqueueKeepsTables(t, executions, place, refs, None, 0);
    FreshEnqueue(t.items, place, refs, executions);
  }

  lemma FirstEnqueue(t: Tables, executions: Executions, refs: seq<JobRef>)
    requires executions == TwoSessions(SessionRunning, Created) && t == Tables([], map[], map[])
    requires |refs| == 1 && HaveLinks(refs)
    ensures var t' := AfterQueueing(t, executions, Place(1, "hh"), refs, None, 0);
      && |t'.items| == 1 && Parked(t'.items[0], "hh", 1, 0)
      && t'.checkpoints.Keys == {CheckpointId(Place(1, "hh"), 0)} && t'.vacancies == map[]
  {
    EmptyTablesOk(System(Blank(executions), t, map[]));
    assert Distinct(refs);
    hide TablesOk, Distinct, AfterQueueing, HaveLinks;
    FreshAfterQueueing(t, executions, Place(1, "hh"), refs);
  }

  lemma SecondEnqueue(t: Tables, executions: Executions, refs: seq<JobRef>)
    requires executions == TwoSessions(SessionFailed, SessionRunning) && TablesOk(t, executions)
    requires |t.items| == 1 && Parked(t.items[0], "hh", 1, 0)
    requires t.checkpoints.Keys == {CheckpointId(Place(1, "hh"), 0)} && t.vacancies == map[]
    requires |refs| == EVALUATION_QUEUE_LIMIT && HaveLinks(refs) && Distinct(refs)
    ensures var t' := AfterQueueing(t, executions, Place(2, "hh"), refs, None, 0);
      && ParkedAtSite(t'.items, "hh", 1, 0) >= 1
      && ActiveAtSite(t'.items, "hh", executions) == EVALUATION_QUEUE_LIMIT
  {
    var place := Place(2, "hh");
    assert ActiveAtSite(t.items[..0], "hh", executions) == 0;
    assert ParkedAtSite(t.items, "hh", 1, 0) == 1;
    hide TablesOk, Distinct, AfterQueueing, HaveLinks;
    FreshAfterQueueing(t, executions, place, refs);
    NewItemsOccupy(place, 0, refs, 0, "hh", executions);
    ActiveInSum(t.items, NewItems(place, 0, refs, 0), "hh", executions);
    ParkedStay(t.items, NewItems(place, 0, refs, 0), "hh", 1, 0);
  }

  type Held = map<CheckpointId, Pending>

  lemma StatusAction(
    executions: Executions, t: Tables, held: Held, session: Session, status: SessionStatus, budget: int)
    requires session in executions
    ensures NextSystem(
      System(Blank(executions), t, held), Protocol(SetStatus(session, status, false)),
      System(Blank(WithStatus(executions, session, status, false)), t, held), budget)
  {
  }

  lemma EnqueueAction(executions: Executions, t: Tables, held: Held, place: Place, refs: seq<JobRef>, budget: int)
    requires FromWorker(executions, place, refs)
    ensures var t' := AfterQueueing(t, executions, place, refs, None, 0);
      NextSystem(
        System(Blank(executions), t, held), Enqueue(place, refs, None),
        System(Blank(executions), t', AfterHolding(held, t', executions, place, refs, None)), budget)
  {
    hide AfterQueueing, AfterHolding, FromWorker;
  }

  lemma HistoryOfSix(s: seq<System>, a: seq<Action>, budget: int)
    requires |s| == 7 && |a| == 6 && SystemInit(s[0])
    requires NextSystem(s[0], a[0], s[1], budget) && NextSystem(s[1], a[1], s[2], budget)
    requires NextSystem(s[2], a[2], s[3], budget) && NextSystem(s[3], a[3], s[4], budget)
    requires NextSystem(s[4], a[4], s[5], budget) && NextSystem(s[5], a[5], s[6], budget)
    ensures IsHistory(History(s, a), budget)
  {
    hide NextSystem, SystemInit;
  }

  // The states of the counterexample: the worker of a session dies with one vacancy queued, which
  // marks the session failed and leaves the row; another session of the site starts, fills the ten
  // slots and is paused; then the login check brings the first session back.
  function Overfilling(one: seq<JobRef>, ten: seq<JobRef>): History {
    var first, second := Place(1, "hh"), Place(2, "hh");
    var e0, e2 := TwoSessions(SessionRunning, Created), TwoSessions(SessionFailed, Created);
    var e3, e5 := TwoSessions(SessionFailed, SessionRunning), TwoSessions(SessionFailed, Paused);
    var t0 := Tables([], map[], map[]);
    var t1 := AfterQueueing(t0, e0, first, one, None, 0);
    var t2 := AfterQueueing(t1, e3, second, ten, None, 0);
    var p1 := AfterHolding(map[], t1, e0, first, one, None);
    var p2 := AfterHolding(p1, t2, e3, second, ten, None);
    History(
      [System(Blank(e0), t0, map[]), System(Blank(e0), t1, p1), System(Blank(e2), t1, p1), System(Blank(e3), t1, p1),
       System(Blank(e3), t2, p2), System(Blank(e5), t2, p2), System(Blank(TwoSessions(Preparing, Paused)), t2, p2)],
      [Enqueue(first, one, None), Protocol(SetStatus(1, SessionFailed, false)),
       Protocol(SetStatus(2, SessionRunning, false)),
       Enqueue(second, ten, None), Protocol(SetStatus(2, Paused, false)), Protocol(SetStatus(1, Preparing, false))])
  }

  lemma StatusesChange()
    ensures WithStatus(TwoSessions(SessionRunning, Created), 1, SessionFailed, false) ==
      TwoSessions(SessionFailed, Created)
    ensures WithStatus(TwoSessions(SessionFailed, Created), 2, SessionRunning, false) ==
      TwoSessions(SessionFailed, SessionRunning)
    ensures WithStatus(TwoSessions(SessionFailed, SessionRunning), 2, Paused, false) ==
      TwoSessions(SessionFailed, Paused)
    ensures WithStatus(TwoSessions(SessionFailed, Paused), 1, Preparing, false) == TwoSessions(Preparing, Paused)
  {
  }

  lemma OverfillingIsHistory(one: seq<JobRef>, ten: seq<JobRef>, budget: int)
    requires HaveLinks(one) && HaveLinks(ten)
    ensures IsHistory(Overfilling(one, ten), budget)
  {
    var h := Overfilling(one, ten);
    StatusesChange();
    hide NextSystem, AfterQueueing, AfterHolding, HaveLinks, IsHistory, WithStatus;
    EnqueueAction(TwoSessions(SessionRunning, Created), h.states[0].tables, h.states[0].pending, Place(1, "hh"), one,
      budget);
    StatusAction(TwoSessions(SessionRunning, Created), h.states[1].tables, h.states[1].pending, 1, SessionFailed,
      budget);
    StatusAction(TwoSessions(SessionFailed, Created), h.states[2].tables, h.states[2].pending, 2, SessionRunning,
      budget);
    EnqueueAction(TwoSessions(SessionFailed, SessionRunning), h.states[3].tables, h.states[3].pending, Place(2, "hh"),
      ten, budget);
    StatusAction(TwoSessions(SessionFailed, SessionRunning), h.states[4].tables, h.states[4].pending, 2, Paused,
      budget);
    StatusAction(TwoSessions(SessionFailed, Paused), h.states[5].tables, h.states[5].pending, 1, Preparing, budget);
    HistoryOfSix(h.states, h.actions, budget);
  }

  // After it, eleven vacancies hold slots.
  lemma RevivalCanOverfill(one: seq<JobRef>, ten: seq<JobRef>, budget: int)
    requires |one| == 1 && HaveLinks(one)
    requires |ten| == EVALUATION_QUEUE_LIMIT && HaveLinks(ten) && Distinct(ten)
    ensures IsHistory(Overfilling(one, ten), budget) && !WithinLimit(Overfilling(one, ten).states[6])
  {
    hide AfterQueueing, Distinct, HaveLinks, ActiveAtSite, ParkedAtSite, TablesOk, PendingOk, IsHistory;
    hide NextSystem, WithStatus;
    var h := Overfilling(one, ten);
    OverfillingIsHistory(one, ten, budget);
    FirstEnqueue(h.states[0].tables, TwoSessions(SessionRunning, Created), one);
    HistoryKeepsTables(h, budget, 3);
    SecondEnqueue(h.states[3].tables, TwoSessions(SessionFailed, SessionRunning), ten);
    StatusesChange();
    var items := h.states[4].tables.items;
    RevivalTakesParkedSlots(items, "hh", TwoSessions(SessionFailed, SessionRunning), 2, Paused, false);
    RevivalTakesParkedSlots(items, "hh", TwoSessions(SessionFailed, Paused), 1, Preparing, false);
    assert ActiveAtSite(h.states[6].tables.items, "hh", TwoSessions(Preparing, Paused)) > EVALUATION_QUEUE_LIMIT;
  }
}
