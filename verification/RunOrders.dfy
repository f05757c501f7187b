/** Resolution orders over whole runs: they count up from one, so the unwind
    failures of a Run read back in the order they happened, before and after
    compaction. The counter is a uint32; the claims hold until it is used up. */
module RunOrders {
  import opened Bytes
  import opened Records
  import opened MemStore
  import opened Ledger
  import opened Saga
  import opened Transitions
  import opened RunMachine

  /** The steps whose unwind failed, as they failed. */
  function FailedSteps(log: seq<Resolution>): seq<Id> {
    if log == [] then []
    else
      var n := |log| - 1;
      FailedSteps(log[..n]) + (if log[n].op.h.Unw? && !log[n].ok then [log[n].op.step] else [])
  }

  /** The counter has not wrapped. */
  predicate CounterLeft(m: Machine) {
    |m.log| <= 0xFFFF_FFFF
  }

  ghost predicate OrdersExact(m: Machine) {
    && (forall i | 0 <= i < |m.log| :: m.log[i].order == i + 1)
    && (!m.store.Terminal() ==>
          && (forall i | 0 <= i < |m.log| :: m.store.OpOf(m.log[i].op.step, m.log[i].op.h).order == i + 1)
          && (forall op: OpId :: !Resolved(m.store.OpOf(op.step, op.h).status) ==> m.store.OpOf(op.step, op.h).order == 0)
          && (forall id :: m.store.OpOf(id, Unw).status == OpFailed ==> m.store.OpOf(id, Unw).failure.Some?))
    && ListsInOrder(FailedUnwinds(m.store.steps), FailedSteps(m.log))
    && DistinctOrders(FailedUnwinds(m.store.steps))
  }

  // ---- The next order is one past the number of resolutions

  /** A resolved operation is in the log. */
  lemma ResolvedLogged(m: Machine, op: OpId)
    requires Linked(m) && !m.store.Terminal() && Resolved(m.store.OpOf(op.step, op.h).status)
    ensures exists i :: 0 <= i < |m.log| && m.log[i].op == op && m.log[i].ok == (m.store.OpOf(op.step, op.h).status == OpSucceeded)
  {
    EvolutionSafe(m.events);
    var g := After(Fresh, m.events);
    assert StatusOf(g.facts, op) == m.store.OpOf(op.step, op.h).status;
    var d :| d in g.log && d.op == op;
    var i :| 0 <= i < |g.log| && g.log[i] == d;
    assert m.log[i].op == op;
  }

  lemma LoggedResolved(m: Machine, i: nat)
    requires Linked(m) && !m.store.Terminal() && i < |m.log|
    ensures m.store.OpOf(m.log[i].op.step, m.log[i].op.h).status == if m.log[i].ok then OpSucceeded else OpFailed
    ensures forall j | 0 <= j < |m.log| && j != i :: m.log[j].op != m.log[i].op
  {
    EvolutionSafe(m.events);
    var g := After(Fresh, m.events);
    assert g.log[i] in g.log;
    assert StatusOf(g.facts, m.log[i].op) == m.store.OpOf(m.log[i].op.step, m.log[i].op.h).status;
    forall j | 0 <= j < |m.log| && j != i ensures m.log[j].op != m.log[i].op {
      assert g.log[j].op != g.log[i].op;
    }
  }

  lemma MaxIsCount(m: Machine, r: RunRecord)
    requires Linked(m) && OrdersExact(m) && CounterLeft(m) && !m.store.Terminal()
    requires forall op: OpId :: r.OpOf(op.step, op.h).order == m.store.OpOf(op.step, op.h).order
    requires forall i | 0 <= i < |m.log| :: m.log[i].op.step in r.steps
    ensures MaxOrder(r.steps) == |m.log|
  {
    forall id, h | id in r.steps ensures r.steps[id].Get(h).order <= |m.log| {
      var op := OpId(id, h);
      assert r.OpOf(op.step, op.h).order == m.store.OpOf(op.step, op.h).order;
      if Resolved(m.store.OpOf(id, h).status) {
        ResolvedLogged(m, op);
      }
    }
    if |m.log| > 0 {
      var last := m.log[|m.log| - 1].op;
      assert r.OpOf(last.step, last.h).order == |m.log|;
      assert r.steps[last.step].Get(last.h).order == |m.log|;
    }
    MaxOrderUnique(r.steps, MaxOrder(r.steps), |m.log|);
  }

  /** The order a resolving turn writes. */
  lemma TurnOrder(m: Machine, t: Turn, u: Transition)
    requires Ready(m, t, u) && Linked(m) && OrdersExact(m) && |m.log| < 0xFFFF_FFFF && Verdict(t).Some?
    ensures (var op, w := Touched(m.worker, t).value, Wrote(m.worker, t);
             && w.rec.OpOf(op.step, op.h).order == |m.log| + 1
             && (Verdict(t) == Some(false) ==> w.rec.OpOf(op.step, op.h).failure.Some?))
  {
    hide Decided, ApplyRecord, ApplyOutcome, IsFlush, FailureFor, OrderAfter, Linked, OrdersExact;
    NotTerminal(m);
    TouchedNamed(m, t);
    var op, r := Touched(m.worker, t).value, m.worker.rec;
    var o := r.OpOf(op.step, op.h);
    match t
    case TSucceed(state, now) =>
      var p := o.(status := OpSucceeded);
      CountedOrder(m, op, if op.h.Fwd? then p.(state := state) else p);
    case TFail(why, now) =>
      CountedOrder(m, op, o.(status := OpFailed, failure := Some(FailureFor(r, op, why, now))));
    case TCut(message, reason, now) =>
      CountedOrder(m, op, o.(status := OpFailed, failure := Some(FailureFor(r, op, Why(message, KindCanceled, reason), now))));
    case TCancel(_, step, message, reason, now) =>
      CountedOrder(m, op, o.(status := OpFailed, failure := Some(FailureFor(r, op, Why(message, KindCanceled, reason), now))));
    case _ => assert false;
  }

  lemma CountedOrder(m: Machine, op: OpId, o: Operation)
    requires Carried(m) && !m.worker.Idle? && Linked(m) && OrdersExact(m) && |m.log| < 0xFFFF_FFFF
    requires o.order == m.worker.rec.OpOf(op.step, op.h).order
    ensures OrderAfter(m.worker.rec.WithOp(op.step, op.h, o).steps) == |m.log| + 1
  {
    hide Linked, OrdersExact, MaxOrder, IsMaxOrder;
    NotTerminal(m);
    var r := m.worker.rec.WithOp(op.step, op.h, o);
    forall x: OpId ensures r.OpOf(x.step, x.h).order == m.store.OpOf(x.step, x.h).order {
      assert x == op || x.step != op.step || x.h != op.h;
    }
    forall i | 0 <= i < |m.log| ensures m.log[i].op.step in r.steps {
      LoggedResolved(m, i);
    }
    MaxIsCount(m, r);
  }

  // ---- The failures listed

  ghost predicate FailedAt(log: seq<Resolution>, i: int, id: Id) {
    0 <= i < |log| && log[i].op == OpId(id, Unw) && !log[i].ok
  }

  ghost predicate FailedIn(log: seq<Resolution>, id: Id) {
    exists i :: FailedAt(log, i, id)
  }

  lemma {:induction false} FailedStepsAre(log: seq<Resolution>, found: map<Id, Ranked>)
    requires forall i, id :: FailedAt(log, i, id) ==> id in found && found[id].order == i + 1
    ensures forall id :: id in FailedSteps(log) <==> FailedIn(log, id)
    ensures forall id | id in FailedSteps(log) :: id in found && found[id].order <= |log|
    ensures forall a, b | 0 <= a < b < |FailedSteps(log)| :: found[FailedSteps(log)[a]].order < found[FailedSteps(log)[b]].order
  {
    if log != [] {
      var n := |log| - 1;
      forall i, id | FailedAt(log[..n], i, id) ensures FailedAt(log, i, id) {
      }
      FailedStepsAre(log[..n], found);
      var before := FailedSteps(log[..n]);
      assert log == log[..n] + [log[n]];
      forall id ensures id in FailedSteps(log) <==> FailedIn(log, id) {
        FailedStepIs(log[..n], log[n], id);
      }
      forall a | 0 <= a < |before| ensures found[before[a]].order <= n {
        assert before[a] in before;
      }
      if log[n].op.h.Unw? && !log[n].ok {
        assert log[n].op == OpId(log[n].op.step, Unw);
        assert FailedAt(log, n, log[n].op.step);
      }
    }
  }

  lemma FailedStepIs(init: seq<Resolution>, last: Resolution, id: Id)
    requires id in FailedSteps(init) <==> FailedIn(init, id)
    ensures id in FailedSteps(init + [last]) <==> FailedIn(init + [last], id)
  {
    hide FailedSteps;
    var log := init + [last];
    FailedStepsSnoc(init, last);
    if FailedIn(log, id) {
      var i :| FailedAt(log, i, id);
      assert i < |init| ==> FailedAt(init, i, id);
    }
    if FailedIn(init, id) {
      var i :| FailedAt(init, i, id);
      assert FailedAt(log, i, id);
    }
    assert last.op == OpId(last.op.step, last.op.h);
    if last.op == OpId(id, Unw) && !last.ok {
      assert FailedAt(log, |init|, id);
    }
  }

  lemma FailedStepsSnoc(init: seq<Resolution>, last: Resolution)
    ensures FailedSteps(init + [last]) == FailedSteps(init) + (if last.op.h.Unw? && !last.ok then [last.op.step] else [])
  {
    assert (init + [last])[..|init|] == init;
  }

  /** Listed from the operations of a nonterminal record. */
  lemma FailuresListed(m: Machine)
    requires Linked(m) && !m.store.Terminal()
    requires forall i | 0 <= i < |m.log| :: m.store.OpOf(m.log[i].op.step, m.log[i].op.h).order == i + 1
    requires forall id :: m.store.OpOf(id, Unw).status == OpFailed ==> m.store.OpOf(id, Unw).failure.Some?
    ensures ListsInOrder(FailedUnwinds(m.store.steps), FailedSteps(m.log)) && DistinctOrders(FailedUnwinds(m.store.steps))
  {
    hide Linked;
    var found := FailedUnwinds(m.store.steps);
    forall i, id | FailedAt(m.log, i, id) ensures id in found && found[id].order == i + 1 {
      LoggedResolved(m, i);
      assert m.store.OpOf(id, Unw).status == OpFailed;
    }
    forall id | id in found ensures exists i :: FailedAt(m.log, i, id) && found[id].order == i + 1 {
      assert m.store.OpOf(id, Unw).status == OpFailed;
      ResolvedLogged(m, OpId(id, Unw));
      var i :| 0 <= i < |m.log| && m.log[i].op == OpId(id, Unw) && !m.log[i].ok;
      assert FailedAt(m.log, i, id);
    }
    FailedStepsAre(m.log, found);
    forall a, b | a in found && b in found && a != b ensures found[a].order != found[b].order {
      var i :| FailedAt(m.log, i, a) && found[a].order == i + 1;
      var j :| FailedAt(m.log, j, b) && found[b].order == j + 1;
    }
  }

  // ---- Preservation

  lemma TurnOrdersKept(m: Machine, t: Turn, u: Transition)
    requires Ready(m, t, u) && Linked(m) && OrdersExact(m) && CounterLeft(AfterTurn(m, t, u)) && !t.TComplete?
    ensures (var n := AfterTurn(m, t, u);
             && (forall i | 0 <= i < |n.log| :: n.log[i].order == i + 1 && n.store.OpOf(n.log[i].op.step, n.log[i].op.h).order == i + 1)
             && (forall op: OpId :: !Resolved(n.store.OpOf(op.step, op.h).status) ==> n.store.OpOf(op.step, op.h).order == 0)
             && (forall id :: n.store.OpOf(id, Unw).status == OpFailed ==> n.store.OpOf(id, Unw).failure.Some?))
  {
    hide Wrote, ApplyRecord, ApplyOutcome, Decided, IsFlush, ListsInOrder, DistinctOrders, Linked;
    NotTerminal(m);
    TurnRecord(m, t, u);
    TurnOps(m, t);
    TouchedNamed(m, t);
    var n, op := AfterTurn(m, t, u), Touched(m.worker, t).value;
    if Verdict(t).Some? {
      TurnOrder(m, t, u);
    } else {
      TurnSameOrder(m, t);
    }
    TouchedOpen(m, t);
    forall x: OpId | x != op ensures n.store.OpOf(x.step, x.h) == m.store.OpOf(x.step, x.h) {
      assert x.step != op.step || x.h != op.h;
    }
    forall i | 0 <= i < |m.log| ensures m.log[i].op != op {
      LoggedResolved(m, i);
    }
    forall x: OpId | !Resolved(n.store.OpOf(x.step, x.h).status) ensures n.store.OpOf(x.step, x.h).order == 0 {
      assert x == op || n.store.OpOf(x.step, x.h) == m.store.OpOf(x.step, x.h);
    }
    forall id | n.store.OpOf(id, Unw).status == OpFailed ensures n.store.OpOf(id, Unw).failure.Some? {
      var x := OpId(id, Unw);
      assert x == op || n.store.OpOf(x.step, x.h) == m.store.OpOf(x.step, x.h);
    }
  }

  lemma TurnSameOrder(m: Machine, t: Turn)
    requires Carried(m) && CanTurn(m.worker, t) && Verdict(t).None? && !t.TComplete?
    ensures (var op := Touched(m.worker, t).value;
             Wrote(m.worker, t).rec.OpOf(op.step, op.h).order == m.worker.rec.OpOf(op.step, op.h).order)
  {
    hide Decided;
    NotTerminal(m);
    TouchedNamed(m, t);
  }

  /** What a turn touches has not resolved. */
  lemma TouchedOpen(m: Machine, t: Turn)
    requires Carried(m) && CanTurn(m.worker, t) && Linked(m) && !t.TComplete?
    ensures (var op := Touched(m.worker, t).value; !Resolved(m.store.OpOf(op.step, op.h).status))
  {
    NotTerminal(m);
    TouchedNamed(m, t);
    if t.TReserve? || t.TCancel? {
      TurnEnabled(m, t);
      EvolutionSafe(m.events);
      DecidedMayRun(t.topo, After(Fresh, m.events), t.step);
      var op := Touched(m.worker, t).value;
      assert StatusOf(After(Fresh, m.events).facts, op) == m.store.OpOf(op.step, op.h).status;
    }
  }

  lemma TurnKeepsOrders(m: Machine, t: Turn, u: Transition)
    requires Ready(m, t, u) && Linked(m) && (CounterLeft(m) ==> OrdersExact(m))
    ensures CounterLeft(AfterTurn(m, t, u)) ==> OrdersExact(AfterTurn(m, t, u))
  {
    hide Wrote, ApplyRecord, ApplyOutcome, Decided, IsFlush, ListsInOrder, DistinctOrders, Linked, Carried;
    var n := AfterTurn(m, t, u);
    if CounterLeft(n) {
      TurnRecord(m, t, u);
      TurnLinked(m, t, u);
      if t.TComplete? {
        CompletedLists(m, t, u);
      } else {
        TurnOrdersKept(m, t, u);
        FailuresListed(n);
      }
    }
  }

  lemma CompletedLists(m: Machine, t: Turn, u: Transition)
    requires Ready(m, t, u) && t.TComplete?
    ensures FailedUnwinds(AfterTurn(m, t, u).store.steps) == FailedUnwinds(m.store.steps)
    ensures AfterTurn(m, t, u).log == m.log
  {
    hide Wrote, ApplyRecord, ApplyOutcome, Decided, IsFlush;
    NotTerminal(m);
    TurnStore(m, t, u);
    TurnFields(m, t);
    TurnOps(m, t);
    CompactKeepsUnwindFailures(Wrote(m.worker, t).rec.(cancel := m.store.cancel));
  }

  /** Over every run, resolution orders count up from one and the failed
      unwinds list in the order they failed, compacted or not, until the
      counter is used up. */
  lemma {:induction false} RunsKeepOrders(m: Machine, acts: seq<Action>)
    requires JustCreated(m) && Possible(m, acts)
    ensures CounterLeft(Reached(m, acts)) ==> OrdersExact(Reached(m, acts))
  {
    if acts != [] {
      var before, a := acts[..|acts| - 1], acts[|acts| - 1];
      RunsKeepOrders(m, before);
      RunsKeepInv(m, before);
      if a.Apply? {
        TurnKeepsOrders(Reached(m, before), a.turn, a.u);
      } else {
        OtherKeepsOrders(Reached(m, before), a);
      }
    }
  }

  lemma OtherKeepsOrders(m: Machine, a: Action)
    requires Can(m, a) && !a.Apply? && (CounterLeft(m) ==> OrdersExact(m))
    ensures CounterLeft(Act(m, a)) ==> OrdersExact(Act(m, a))
  {
    var n := Act(m, a);
    assert n.log == m.log && n.store.steps == m.store.steps;
    forall id, h ensures n.store.OpOf(id, h) == m.store.OpOf(id, h) {
    }
  }

  /** So whatever order the steps are visited in, the failures a reader gets
      are the ones of the log, in its order. */
  lemma FailuresReadBack(m: Machine, acts: seq<Action>, ids: seq<Id>)
    requires JustCreated(m) && Possible(m, acts) && CounterLeft(Reached(m, acts))
    requires ListsInOrder(FailedUnwinds(Reached(m, acts).store.steps), ids)
    ensures ids == FailedSteps(Reached(m, acts).log)
  {
    RunsKeepOrders(m, acts);
    var n := Reached(m, acts);
    UnwindFailuresUnique(FailedUnwinds(n.store.steps), ids, FailedSteps(n.log));
  }
}
