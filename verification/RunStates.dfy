/** The blobs a Run's worker commits are immutable: an operation is written at
    most once in a transition, and a state the store holds is never replaced
    by another. */
module RunStates {
  import opened Bytes
  import opened Records
  import opened MemStore
  import opened StageRefinement
  import opened Ledger
  import opened Saga
  import opened Transitions
  import opened RunMachine

  /** Only a forward operation that succeeded has a state. */
  ghost predicate StatesLate(m: Machine) {
    !m.store.Terminal() ==> forall op: OpId ::
      m.store.OpOf(op.step, op.h).state != [] ==> op.h.Fwd? && m.store.OpOf(op.step, op.h).status == OpSucceeded
  }

  ghost predicate WritesOnce(r: RunRecord, ops: seq<OpWrite>) {
    && OneWriteEach(ops)
    && forall i | 0 <= i < |ops| && ops[i].half.Fwd? :: r.OpOf(ops[i].step, Fwd).state != [] ==> ops[i].op.state == r.OpOf(ops[i].step, Fwd).state
  }

  /** What is decided to run has not resolved. */
  lemma DecidedFresh(topo: Topology, r: RunRecord, step: Id)
    requires Decided(topo, r, RunOf(r.phase, step))
    ensures !Resolved(r.OpOf(step, HalfOf(r.phase)).status)
  {
    var f := FactsOf(r);
    assert StateOf(f.forward, step) == r.OpOf(step, Fwd).status && StateOf(f.unwind, step) == r.OpOf(step, Unw).status;
    if r.phase.PhaseUnwind? {
      var i: nat :| FirstUnwind(topo, f, i) && step == topo[i].id;
      assert !Resolved(StateOf(f.unwind, topo[i].id));
    } else if exists id :: Pinned(f.forward, id) {
      var id :| Pinned(f.forward, id) && RunForward(step) == (if InTopology(topo, id) then RunForward(id) else Invalid(PinnedAbsent(id)));
    } else {
      var i: nat :| FirstForward(topo, f.forward, i) && step == topo[i].id;
      assert !SomeFailed(f.forward);
    }
  }

  lemma TouchedFresh(m: Machine, t: Turn)
    requires Carried(m) && CanTurn(m.worker, t) && !t.TComplete?
    ensures (var op := Touched(m.worker, t).value; !Resolved(m.worker.rec.OpOf(op.step, op.h).status))
  {
    if t.TReserve? || t.TCancel? {
      DecidedFresh(t.topo, m.worker.rec, t.step);
    } else {
      TouchedNamed(m, t);
    }
  }

  /** A turn gives its operation a state only as it succeeds. */
  lemma TurnState(m: Machine, t: Turn)
    requires Carried(m) && CanTurn(m.worker, t) && !t.TComplete?
    ensures (var op := Touched(m.worker, t).value;
             Wrote(m.worker, t).rec.OpOf(op.step, op.h).state
             == if t.TSucceed? && op.h.Fwd? then t.state else m.worker.rec.OpOf(op.step, op.h).state)
  {
    hide Decided, OrderAfter, Carried, Registered, FailureFor;
    match t
    case TReserve(_, step, wake, now) =>
    case TSucceed(state, now) =>
    case TFail(why, now) =>
    case TRetry(next, error, reason, now) =>
    case TPark(park, now) =>
    case TCut(message, reason, now) =>
    case TCancel(_, step, message, reason, now) =>
  }

  lemma TurnKeepsStates(m: Machine, t: Turn, u: Transition)
    requires Ready(m, t, u) && StatesLate(m)
    ensures StatesLate(AfterTurn(m, t, u))
  {
    hide Wrote, ApplyRecord, ApplyOutcome, Decided, IsFlush;
    NotTerminal(m);
    TurnRecord(m, t, u);
    TurnOps(m, t);
    if !t.TComplete? {
      TouchedFresh(m, t);
      TurnState(m, t);
      var n, op := AfterTurn(m, t, u), Touched(m.worker, t).value;
      forall x: OpId | n.store.OpOf(x.step, x.h).state != []
        ensures x.h.Fwd? && n.store.OpOf(x.step, x.h).status == OpSucceeded
      {
        assert m.store.OpOf(x.step, x.h) == m.worker.rec.OpOf(x.step, x.h);
        assert x == op || x.step != op.step || x.h != op.h;
      }
    }
  }

  lemma ActKeepsStates(m: Machine, a: Action)
    requires Inv(m) && StatesLate(m) && Can(m, a)
    ensures StatesLate(Act(m, a))
  {
    hide Carried, InflightKnown, Linked, Counted, FailedOnce, Wrote, AfterTurn, CanTurn;
    if a.Apply? {
      TurnKeepsStates(m, a.turn, a.u);
    } else {
      forall op: OpId ensures Act(m, a).store.OpOf(op.step, op.h) == m.store.OpOf(op.step, op.h) {
      }
    }
  }

  lemma {:induction false} RunsKeepStates(m: Machine, acts: seq<Action>)
    requires JustCreated(m) && Possible(m, acts)
    ensures StatesLate(Reached(m, acts))
  {
    hide Can, Act, Inv;
    if acts != [] {
      var before := acts[..|acts| - 1];
      RunsKeepInv(m, before);
      RunsKeepStates(m, before);
      ActKeepsStates(Reached(m, before), acts[|acts| - 1]);
    }
  }

  /** The write that stands for an operation keeps the state it had. */
  lemma LastKeepsState(m: Machine, t: Turn, u: Transition, step: Id)
    requires Ready(m, t, u) && StatesLate(m) && LastWrite(u.ops, step, Fwd).Some?
    ensures m.store.OpOf(step, Fwd).state != [] ==> LastWrite(u.ops, step, Fwd).value.state == m.store.OpOf(step, Fwd).state
  {
    hide Wrote, Decided, ApplyRecord, ApplyOutcome, Registered;
    NotTerminal(m);
    TurnOps(m, t);
    TurnTells(m, t);
    if !t.TComplete? {
      TouchedFresh(m, t);
      TurnState(m, t);
      var op := Touched(m.worker, t).value;
      var w, k := Wrote(m.worker, t), m.worker.rec;
      assert m.store.OpOf(op.step, op.h).state == [];
      if OpId(step, Fwd) != op {
        assert w.rec.OpOf(step, Fwd) == k.OpOf(step, Fwd) == m.store.OpOf(step, Fwd);
        assert LastWrite(w.t.ops, step, Fwd).None?;
      }
    }
  }

  lemma OneTold(m: Machine, t: Turn)
    requires Carried(m) && CanTurn(m.worker, t)
    ensures OneWriteEach(Wrote(m.worker, t).t.ops)
  {
    hide Wrote, Decided, Registered;
    TurnTells(m, t);
  }

  /** Every transition of every run writes an operation at most once, and
      replaces no state. */
  lemma RunsWriteOnce(m: Machine, acts: seq<Action>, t: Turn, u: Transition)
    requires JustCreated(m) && Possible(m, acts) && Can(Reached(m, acts), Apply(t, u))
    ensures WritesOnce(Reached(m, acts).store, u.ops)
  {
    hide Wrote, Decided, CanTurn, JustCreated, Linked, Counted, FailedOnce, InflightKnown, OneWriteEach;
    RunsKeepInv(m, acts);
    RunsKeepStates(m, acts);
    var n := Reached(m, acts);
    OneTold(n, t);
    forall i | 0 <= i < |u.ops| && u.ops[i].half.Fwd?
      ensures n.store.OpOf(u.ops[i].step, Fwd).state != [] ==> u.ops[i].op.state == n.store.OpOf(u.ops[i].step, Fwd).state
    {
      WriteIsLast(u.ops, i);
      LastKeepsState(n, t, u, u.ops[i].step);
    }
  }
}
