/** What each turn of a worker does to the durable record, whatever the writes,
    the flush and the store make of it on the way: what it changes, and that
    it changes nothing else. */
module RunTurns {
  import opened Records
  import opened MemStore
  import opened Transitions
  import opened RunMachine

  /** The record but for one operation and the fields a turn may set. */
  ghost predicate OnlyOp(s: RunRecord, n: RunRecord, op: OpId) {
    n.steps == s.WithOp(op.step, op.h, n.OpOf(op.step, op.h)).steps
  }

  /** Who the Run is, its input and its cancel request: no turn touches them. */
  ghost predicate Untouched(s: RunRecord, n: RunRecord) {
    && n.runId == s.runId && n.pipeline == s.pipeline && n.resource == s.resource && n.annotations == s.annotations
    && n.createdAt == s.createdAt && n.cancel == s.cancel
  }

  ghost predicate SameErrors(s: RunRecord, n: RunRecord) {
    n.lastError == s.lastError && n.lastReason == s.lastReason && n.lastErrorAt == s.lastErrorAt
  }

  ghost predicate NoErrors(n: RunRecord) {
    n.lastError == [] && n.lastReason == [] && n.lastErrorAt == Zero
  }

  /** A reservation: the operation is unresolved with one more attempt, the
      Run is started and waits for nothing; a wake is handed over in place of
      its park. */
  lemma ReserveMeans(m: Machine, t: Turn, u: Transition)
    requires Ready(m, t, u) && t.TReserve?
    ensures (var s, n, op := m.store, AfterTurn(m, t, u), OpId(t.step, HalfOf(m.store.phase)); var r := n.store;
             && Untouched(s, r) && SameErrors(s, r) && OnlyOp(s, r, op)
             && r.OpOf(op.step, op.h) == s.OpOf(op.step, op.h).(status := OpUnresolved, attempts := s.OpOf(op.step, op.h).attempts + 1)
             && r.phase == s.phase && r.failure == s.failure && r.outcome.None? && r.output == s.output && r.input == s.input
             && r.nextAttemptAt == Zero && r.updatedAt == t.now && r.startedAt == (if s.startedAt.Zero? then t.now else s.startedAt)
             && r.awaiting == None && r.awaited == (if s.awaiting.Some? then t.wake else s.awaited)
             && n.inflight == Some(t.step) && n.worker == Attempting(r.(cancel := m.worker.rec.cancel), op)
             && n.handed == m.handed + [Handed(op, r.OpOf(op.step, op.h).attempts)] && n.log == m.log)
  {
    hide Decided, Carried, Registered, IsFlush, ApplyRecord, ApplyOutcome;
    NotTerminal(m);
    TurnStore(m, t, u);
    TouchedNamed(m, t);
  }

  /** A success: the operation has its state, and nothing is left of the wait
      before it. */
  lemma SucceedMeans(m: Machine, t: Turn, u: Transition)
    requires Ready(m, t, u) && t.TSucceed?
    ensures (var s, n, op := m.store, AfterTurn(m, t, u), m.worker.op; var r, o := n.store, n.store.OpOf(op.step, op.h);
             && Untouched(s, r) && NoErrors(r) && OnlyOp(s, r, op)
             && o == s.OpOf(op.step, op.h).(status := OpSucceeded, state := if op.h.Fwd? then t.state else s.OpOf(op.step, op.h).state, order := o.order)
             && r.phase == s.phase && r.failure == s.failure && r.outcome.None? && r.output == s.output && r.input == s.input
             && r.nextAttemptAt == s.nextAttemptAt && r.updatedAt == t.now && r.startedAt == s.startedAt
             && r.awaiting == s.awaiting && r.awaited == None
             && n.inflight == None && n.worker == Holding(r.(cancel := m.worker.rec.cancel)) && n.handed == m.handed
             && n.log == m.log + [Resolution(op, true, o.order)])
  {
    hide Decided, Carried, Registered, IsFlush, ApplyRecord, ApplyOutcome, OrderAfter;
    NotTerminal(m);
    TurnStore(m, t, u);
  }

  /** A permanent failure: the operation failed as the handler said; forward it
      is the Run's Failure too, and the Run turns to unwind. */
  lemma FailMeans(m: Machine, t: Turn, u: Transition)
    requires Ready(m, t, u) && t.TFail?
    ensures (var s, n, op := m.store, AfterTurn(m, t, u), m.worker.op; var r, o := n.store, n.store.OpOf(op.step, op.h);
             var f := Failure(op.step, if op.h.Unw? then PhaseUnwind else PhaseForward, s.OpOf(op.step, op.h).attempts,
                              t.why.message, t.now, t.why.kind, t.why.reason);
             && Untouched(s, r) && NoErrors(r) && OnlyOp(s, r, op)
             && o == s.OpOf(op.step, op.h).(status := OpFailed, failure := Some(f), order := o.order)
             && (if op.h.Fwd? then r.phase == PhaseUnwind && r.failure == Some(f) else r.phase == s.phase && r.failure == s.failure)
             && r.outcome.None? && r.output == s.output && r.input == s.input
             && r.nextAttemptAt == s.nextAttemptAt && r.updatedAt == t.now && r.startedAt == s.startedAt
             && r.awaiting == s.awaiting && r.awaited == None
             && n.inflight == None && n.worker == Holding(r.(cancel := m.worker.rec.cancel)) && n.handed == m.handed
             && n.log == m.log + [Resolution(op, false, o.order)])
  {
    hide Decided, Carried, Registered, IsFlush, ApplyRecord, ApplyOutcome, OrderAfter;
    NotTerminal(m);
    TurnStore(m, t, u);
  }

  /** An ordinary error: the operation stays unresolved, its next attempt due
      when the engine says, the error recorded; the worker lets go. */
  lemma RetryMeans(m: Machine, t: Turn, u: Transition)
    requires Ready(m, t, u) && t.TRetry?
    ensures (var s, n, op := m.store, AfterTurn(m, t, u), m.worker.op; var r := n.store;
             && Untouched(s, r) && r.steps == s.steps && r.OpOf(op.step, op.h).status == OpUnresolved
             && r.lastError == t.error && r.lastReason == t.reason && r.lastErrorAt == t.now && r.nextAttemptAt == t.next
             && r.phase == s.phase && r.failure == s.failure && r.outcome.None? && r.output == s.output && r.input == s.input
             && r.updatedAt == t.now && r.startedAt == s.startedAt && r.awaiting == s.awaiting && r.awaited == s.awaited
             && n.inflight == Some(op.step) && n.worker == Idle && n.handed == m.handed && n.log == m.log)
  {
    hide Decided, Registered, IsFlush, ApplyRecord, ApplyOutcome;
    NotTerminal(m);
    TurnStore(m, t, u);
  }

  /** A park: the operation stays unresolved, and the Run waits as asked. */
  lemma ParkMeans(m: Machine, t: Turn, u: Transition)
    requires Ready(m, t, u) && t.TPark?
    ensures (var s, n, op := m.store, AfterTurn(m, t, u), m.worker.op; var r := n.store;
             && Untouched(s, r) && SameErrors(s, r) && r.steps == s.steps && r.OpOf(op.step, op.h).status == OpUnresolved
             && r.awaiting == Some(t.park) && r.awaited == None
             && r.phase == s.phase && r.failure == s.failure && r.outcome.None? && r.output == s.output && r.input == s.input
             && r.nextAttemptAt == s.nextAttemptAt && r.updatedAt == t.now && r.startedAt == s.startedAt
             && n.inflight == Some(op.step) && n.worker == Holding(r.(cancel := m.worker.rec.cancel)) && n.handed == m.handed && n.log == m.log)
  {
    hide Decided, Registered, IsFlush, ApplyRecord, ApplyOutcome;
    NotTerminal(m);
    TurnStore(m, t, u);
  }

  /** A cancellation, of a cut attempt or a dormant operation: the operation
      failed as canceled, with the attempts it had; the Run turns to unwind and
      waits for nothing. */
  lemma CancelMeans(m: Machine, t: Turn, u: Transition)
    requires Ready(m, t, u) && (t.TCut? || t.TCancel?)
    ensures (var s, n, op := m.store, AfterTurn(m, t, u), if t.TCut? then m.worker.op else OpId(t.step, Fwd);
             var r, o := n.store, n.store.OpOf(op.step, op.h);
             var f := Failure(op.step, PhaseForward, s.OpOf(op.step, op.h).attempts, t.message, t.now, KindCanceled, t.reason);
             && op.h.Fwd? && Untouched(s, r) && NoErrors(r) && OnlyOp(s, r, op)
             && o == s.OpOf(op.step, op.h).(status := OpFailed, failure := Some(f), order := o.order)
             && r.phase == PhaseUnwind && r.failure == Some(f)
             && r.outcome.None? && r.output == s.output && r.input == s.input
             && r.nextAttemptAt == Zero && r.updatedAt == t.now && r.startedAt == s.startedAt && r.awaiting == None && r.awaited == None
             && n.inflight == None && n.worker == Holding(r.(cancel := m.worker.rec.cancel)) && n.handed == m.handed
             && n.log == m.log + [Resolution(op, false, o.order)])
  {
    hide Decided, Carried, Registered, IsFlush, ApplyRecord, ApplyOutcome, OrderAfter;
    NotTerminal(m);
    TurnStore(m, t, u);
  }

  /** A completion: the reducer's output and the outcome its phase decides, and
      of the operations the failed unwinds. */
  lemma CompleteMeans(m: Machine, t: Turn, u: Transition)
    requires Ready(m, t, u) && t.TComplete?
    ensures (var s, n := m.store, AfterTurn(m, t, u); var r := n.store;
             && Untouched(s, r) && NoErrors(r) && r.input == []
             && r.output == t.output && r.outcome == Some(if s.phase.PhaseForward? then OutcomeSuccess else OutcomeFailure)
             && r.phase == PhaseDone && r.failure == s.failure && r.updatedAt == t.now && r.startedAt == s.startedAt
             && r.nextAttemptAt == Zero && r.awaiting == None && r.awaited == None
             && (forall step :: step in r.steps <==> step in s.steps && s.steps[step].unwind.status == OpFailed)
             && (forall step | step in r.steps :: r.steps[step] == StepRecord(NoOp, s.steps[step].unwind))
             && n.inflight == None && n.worker == Idle && n.handed == m.handed && n.log == m.log)
  {
    hide Decided, Carried, Registered, IsFlush, ApplyRecord, ApplyOutcome;
    NotTerminal(m);
    TurnStore(m, t, u);
  }
}
