// A cancelled session: the durable fence it puts up holds until its status is set anew.

module Cancellation {
  import opened Records
  import opened RequestRows
  import opened BrokerGateway
  import opened ModelProtocol
  import opened ModelTheorems
  import opened Pipeline
  import opened PipelineInvariants
  import opened SystemProtocol
  import opened SystemTheorems

  // `request_cancel`: the flag always, the status unless the session has already ended.
  function RequestCancel(e: Execution): Execution {
    e.(cancelRequested := true,
       status := if e.status in {Stopped, SessionCompleted, SessionFailed} then e.status else Stopping)
  }

  // The status step that carries a cancellation out.
  function CancelStep(executions: Executions, session: Session): Step
    requires session in executions
  {
    SetStatus(session, RequestCancel(executions[session]).status, true)
  }

  // `cancellation_fence`
  predicate CancellationFence(executions: Executions, session: Session, generation: Option<int>) {
    || session !in executions
    || executions[session].status in TERMINAL_SESSION
    || executions[session].cancelRequested
    || (generation.Some? && executions[session].generation != generation.value)
  }

  predicate FencedOff(executions: Executions, session: Session) {
    session in executions && executions[session].cancelRequested && executions[session].status in TERMINAL_SESSION
  }

  predicate SetsStatusOf(action: Action, session: Session) {
    action.Protocol? && action.step.SetStatus? && action.step.session == session
  }

  lemma CancelFencesOff(s: System, session: Session, s': System, budget: int)
    requires session in s.model.executions
    requires NextSystem(s, Protocol(CancelStep(s.model.executions, session)), s', budget)
    ensures FencedOff(s'.model.executions, session)
    ensures forall generation :: CancellationFence(s'.model.executions, session, generation)
    ensures s'.model.executions[session] == RequestCancel(s.model.executions[session])
  {
  }

  // One action behind the fence: the execution row stays as it is, and neither a request row nor a
  // pipeline row of the session appears or advances.
  ghost predicate HeldBack(s: System, action: Action, s': System, session: Session)
    requires session in s.model.executions
  {
    && session in s'.model.executions && s'.model.executions[session] == s.model.executions[session]
    && !(action.TakeOver? && action.session == session)
    && ((action.Enqueue? || action.Advance?) && action.place.session == session ==> s' == s)
    && (action.Protocol? && action.step.Submit? && SubmitsFor(s.model, action.step.w, session) ==>
      s'.model.rows == s.model.rows)
  }

  predicate SubmitsFor(m: Model, w: WorkerId, session: Session) {
    w in m.workers && m.workers[w].Holding? && m.workers[w].op.call.session == session
  }

  lemma FenceHoldsBack(s: System, action: Action, s': System, budget: int, session: Session)
    requires NextSystem(s, action, s', budget) && FencedOff(s.model.executions, session)
    requires !SetsStatusOf(action, session)
    ensures HeldBack(s, action, s', session)
  {
    hide AfterQueueing, AfterAdvance, AfterCancel, AfterAdoption;
    ExecutionStays(s, action, s', budget, session);
    if (action.Enqueue? || action.Advance?) && action.place.session == session {
      NothingIsWorked(s, action, s', budget);
    }
    if action.Protocol? && action.step.Submit? && SubmitsFor(s.model, action.step.w, session) {
      hide NextSystem;
      ActionIsProtocolStep(s, action, s', budget);
      LateWorkerCannotSubmit(s.model, action.step.w, action.step.id, s'.model, budget);
    }
  }

  lemma NothingIsWorked(s: System, action: Action, s': System, budget: int)
    requires NextSystem(s, action, s', budget) && (action.Enqueue? || action.Advance?)
    requires FencedOff(s.model.executions, action.place.session)
    ensures s' == s
  {
    hide EnqueueRefs, FailUnlocated;
    assert WorkingGeneration(s.model.executions, action.place.session, action.expected) == None;
  }

  lemma StepKeepsExecution(m: Model, step: Step, m': Model, budget: int, session: Session)
    requires Next(m, step, m', budget) && FencedOff(m.executions, session)
    requires !(step.SetStatus? && step.session == session)
    ensures session in m'.executions && m'.executions[session] == m.executions[session]
    ensures !(step.Takeover? && step.session == session)
  {
    if !step.SetStatus? && !step.Takeover? {
      hide Next;
      OtherStepsKeepExecutions(m, step, m', budget);
    } else {
      hide CancelOlder, RetireOps;
    }
  }

  lemma ExecutionStays(s: System, action: Action, s': System, budget: int, session: Session)
    requires NextSystem(s, action, s', budget) && FencedOff(s.model.executions, session)
    requires !SetsStatusOf(action, session)
    ensures session in s'.model.executions && s'.model.executions[session] == s.model.executions[session]
    ensures !(action.TakeOver? && action.session == session)
  {
    hide Next, NextSystem;
    ActionIsProtocolStep(s, action, s', budget);
    StepKeepsExecution(s.model, ProtocolStep(s, action), s'.model, budget, session);
  }

  // From a cancellation on, until its status is set anew, a session stays fenced: no takeover, no
  // request, no queued or advanced vacancy.
  lemma {:induction false} CancelledSessionIsHeldBack(h: History, budget: int, i: nat, j: nat, session: Session)
    requires IsHistory(h, budget) && i <= j < |h.actions|
    requires FencedOff(h.states[i].model.executions, session)
    requires forall n :: i <= n <= j ==> !SetsStatusOf(h.actions[n], session)
    ensures FencedOff(h.states[j].model.executions, session)
    ensures HeldBack(h.states[j], h.actions[j], h.states[j + 1], session)
    ensures h.actions[j].Locate? ==> h.states[j + 1].tables == h.states[j].tables
  {
    hide NextSystem;
    if i < j {
      CancelledSessionIsHeldBack(h, budget, i, j - 1, session);
    }
    FenceHoldsBack(h.states[j], h.actions[j], h.states[j + 1], budget, session);
    if h.actions[j].Locate? { SecondCommitChangesNothing(h, budget, j); }
  }
}
