/** The ledger's decisions over a whole Run: which operations run, in what
    order, under one topology and under topologies that change between any
    two events. */
module Saga {
  import opened Bytes
  import opened Records
  import opened Ledger

  /** A resolved operation, in resolution order. */
  datatype Done = Done(op: OpId, ok: bool)

  datatype Saga = Saga(facts: Facts, phase: Phase, running: Option<OpId>, log: seq<Done>)

  const Fresh := Saga(Facts(map[], map[]), PhaseForward, None, [])

  /** What the worker does with a decision. Each event carries the topology
      registered when it happens. */
  datatype LedgerEvent =
    | Reserve(topo: Topology, step: Id)   // an attempt is reserved and starts
    | Resolve(ok: bool)                   // the attempt resolves its operation
    | Abandon                             // it retries, parks, or the engine stops
    | Cancel(topo: Topology, step: Id)    // a pending cancel resolves a forward operation
    | Finish(topo: Topology)              // no work is left

  predicate Distinct(topo: Topology) {
    forall i, j | 0 <= i < j < |topo| :: topo[i].id != topo[j].id
  }

  function StatusOf(f: Facts, op: OpId): OpStatus {
    StateOf(if op.h.Fwd? then f.forward else f.unwind, op.step)
  }

  function SetStatus(f: Facts, op: OpId, st: OpStatus): Facts {
    if op.h.Fwd? then f.(forward := f.forward[op.step := st]) else f.(unwind := f.unwind[op.step := st])
  }

  ghost predicate Decides(topo: Topology, s: Saga, d: Decision) {
    match s.phase
    case PhaseForward => ForwardDecision(topo, s.facts, d)
    case PhaseUnwind => UnwindDecision(topo, s.facts, d)
    case PhaseDone => false
  }

  function RunOf(phase: Phase, step: Id): Decision {
    if phase.PhaseUnwind? then RunUnwind(step) else RunForward(step)
  }

  ghost predicate Enabled(s: Saga, e: LedgerEvent) {
    match e
    case Reserve(topo, step) => Distinct(topo) && s.running.None? && Decides(topo, s, RunOf(s.phase, step))
    case Resolve(_) => s.running.Some?
    case Abandon => s.running.Some?
    case Cancel(topo, step) => Distinct(topo) && s.running.None? && s.phase.PhaseForward? && Decides(topo, s, RunForward(step))
    case Finish(topo) => Distinct(topo) && s.running.None? && (Decides(topo, s, ForwardComplete) || Decides(topo, s, UnwindComplete))
  }

  /** The operation an event resolves, and how. */
  function Resolves(s: Saga, e: LedgerEvent): Option<Done> {
    match e
    case Resolve(ok) => if s.running.Some? then Some(Done(s.running.value, ok)) else None
    case Cancel(_, step) => Some(Done(OpId(step, Fwd), false))
    case _ => None
  }

  function Logged(s: Saga, d: Done): Saga {
    Saga(SetStatus(s.facts, d.op, if d.ok then OpSucceeded else OpFailed),
         if d.op.h.Fwd? && !d.ok then PhaseUnwind else s.phase, None, s.log + [d])
  }

  function Happens(s: Saga, e: LedgerEvent): Saga {
    match e
    case Reserve(_, step) =>
      var op := OpId(step, HalfOf(s.phase));
      s.(facts := SetStatus(s.facts, op, OpUnresolved), running := Some(op))
    case Abandon => s.(running := None)
    case Finish(_) => s.(phase := PhaseDone)
    case _ => if Resolves(s, e).Some? then Logged(s, Resolves(s, e).value) else s
  }

  function After(s: Saga, es: seq<LedgerEvent>): Saga {
    if es == [] then s else Happens(After(s, es[..|es| - 1]), es[|es| - 1])
  }

  ghost predicate Allowed(s: Saga, es: seq<LedgerEvent>) {
    es == [] || (Allowed(s, es[..|es| - 1]) && Enabled(After(s, es[..|es| - 1]), es[|es| - 1]))
  }

  // ---- Arbitrary redeploys

  /** Resolved operations are exactly the logged ones, each logged once. */
  ghost predicate Recorded(f: Facts, log: seq<Done>) {
    && (forall i, j | 0 <= i < j < |log| :: log[i].op != log[j].op)
    && (forall d | d in log :: StatusOf(f, d.op) == if d.ok then OpSucceeded else OpFailed)
    && (forall op :: Resolved(StatusOf(f, op)) ==> exists d :: d in log && d.op == op)
  }

  ghost predicate Safe(s: Saga) {
    && Recorded(s.facts, s.log)
    && !TwoUnresolved(s.facts.forward)
    && (s.phase.PhaseForward? ==> !SomeFailed(s.facts.forward) && forall id :: StateOf(s.facts.unwind, id) == OpNone)
    && (forall id :: StateOf(s.facts.unwind, id) != OpNone ==> StateOf(s.facts.forward, id) == OpSucceeded)
    && (s.phase.PhaseUnwind? ==> forall id :: StateOf(s.facts.forward, id) != OpUnresolved)
    && (s.running.Some? ==> StatusOf(s.facts, s.running.value) == OpUnresolved && s.running.value.h == HalfOf(s.phase) && !s.phase.PhaseDone?)
  }

  /** What a reservation may touch, under whatever topology is registered: an
      operation that has not resolved; during forward execution the one that
      is unresolved if any is; a retired step only when it had started; during
      unwind only a step that executed forward and declares unwind now. */
  ghost predicate MayRun(topo: Topology, s: Saga, step: Id) {
    && !Resolved(StatusOf(s.facts, OpId(step, HalfOf(s.phase))))
    && (exists i :: 0 <= i < |topo| && topo[i].id == step
          && (s.phase.PhaseForward? && topo[i].retired ==> StateOf(s.facts.forward, step) == OpUnresolved)
          && (s.phase.PhaseUnwind? ==> topo[i].unwind && StateOf(s.facts.forward, step) == OpSucceeded))
    && (s.phase.PhaseForward? ==> forall id :: Pinned(s.facts.forward, id) ==> id == step)
  }

  lemma DecidedMayRun(topo: Topology, s: Saga, step: Id)
    requires Safe(s) && !s.phase.PhaseDone? && Decides(topo, s, RunOf(s.phase, step))
    ensures MayRun(topo, s, step)
  {
    if s.phase.PhaseUnwind? {
      var i: nat :| FirstUnwind(topo, s.facts, i) && step == topo[i].id;
      assert !Resolved(StateOf(s.facts.unwind, topo[i].id));
    } else if exists id :: Pinned(s.facts.forward, id) {
      assert Pinned(s.facts.forward, step);
    } else {
      var i: nat :| FirstForward(topo, s.facts.forward, i) && step == topo[i].id;
      assert StateOf(s.facts.forward, topo[i].id) != OpSucceeded;
    }
  }

  lemma StatusAfter(f: Facts, op: OpId, st: OpStatus)
    ensures forall o :: StatusOf(SetStatus(f, op, st), o) == if o == op then st else StatusOf(f, o)
  {
  }

  lemma ReserveSafe(s: Saga, topo: Topology, step: Id)
    requires Safe(s) && Enabled(s, Reserve(topo, step))
    ensures Safe(Happens(s, Reserve(topo, step)))
  {
    DecidedMayRun(topo, s, step);
    var op, t := OpId(step, HalfOf(s.phase)), Happens(s, Reserve(topo, step));
    StatusAfter(s.facts, op, OpUnresolved);
    StillRecorded(s.facts, s.log, op, OpUnresolved);
    forall id ensures StateOf(t.facts.unwind, id) == StatusOf(t.facts, OpId(id, Unw)) && StateOf(t.facts.forward, id) == StatusOf(t.facts, OpId(id, Fwd)) {
    }
    if TwoUnresolved(t.facts.forward) {
      var a, b :| a in t.facts.forward && b in t.facts.forward && a != b && t.facts.forward[a] == OpUnresolved && t.facts.forward[b] == OpUnresolved;
      assert a != step ==> Pinned(s.facts.forward, a);
      assert b != step ==> Pinned(s.facts.forward, b);
      assert false;
    }
  }

  lemma StillRecorded(f: Facts, log: seq<Done>, op: OpId, st: OpStatus)
    requires Recorded(f, log) && !Resolved(StatusOf(f, op)) && !Resolved(st)
    ensures Recorded(SetStatus(f, op, st), log)
  {
    StatusAfter(f, op, st);
  }

  lemma NowRecorded(f: Facts, log: seq<Done>, d: Done)
    requires Recorded(f, log) && !Resolved(StatusOf(f, d.op))
    ensures Recorded(SetStatus(f, d.op, if d.ok then OpSucceeded else OpFailed), log + [d])
  {
    var g := SetStatus(f, d.op, if d.ok then OpSucceeded else OpFailed);
    StatusAfter(f, d.op, if d.ok then OpSucceeded else OpFailed);
    forall i | 0 <= i < |log| ensures log[i].op != d.op {
      assert log[i] in log;
    }
    forall op | Resolved(StatusOf(g, op)) ensures exists x :: x in log + [d] && x.op == op {
      if op == d.op {
        assert d in log + [d];
      } else {
        var x :| x in log && x.op == op;
        assert x in log + [d];
      }
    }
  }

  lemma ResolveSafe(s: Saga, d: Done)
    requires Safe(s) && !s.phase.PhaseDone? && d.op.h == HalfOf(s.phase) && !Resolved(StatusOf(s.facts, d.op))
    requires s.phase.PhaseForward? ==> forall id :: Pinned(s.facts.forward, id) ==> id == d.op.step
    requires s.phase.PhaseUnwind? ==> StateOf(s.facts.forward, d.op.step) == OpSucceeded
    ensures Safe(Logged(s, d))
  {
    var t := Logged(s, d);
    NowRecorded(s.facts, s.log, d);
    StatusAfter(s.facts, d.op, if d.ok then OpSucceeded else OpFailed);
    forall id ensures StateOf(t.facts.unwind, id) == StatusOf(t.facts, OpId(id, Unw)) && StateOf(t.facts.forward, id) == StatusOf(t.facts, OpId(id, Fwd))
      ensures StateOf(s.facts.forward, id) == OpUnresolved <==> Pinned(s.facts.forward, id)
    {
    }
  }

  lemma StepSafe(s: Saga, e: LedgerEvent)
    requires Safe(s) && Enabled(s, e)
    ensures Safe(Happens(s, e))
  {
    match e
    case Reserve(topo, step) => ReserveSafe(s, topo, step);
    case Resolve(ok) =>
      var op := s.running.value;
      assert op == OpId(op.step, op.h);
      if s.phase.PhaseForward? {
        assert Pinned(s.facts.forward, op.step);
      }
      ResolveSafe(s, Done(op, ok));
    case Cancel(topo, step) =>
      DecidedMayRun(topo, s, step);
      ResolveSafe(s, Done(OpId(step, Fwd), false));
    case _ =>
  }

  /** Whatever is deployed between events, every reachable ledger is safe. */
  lemma {:induction false} EvolutionSafe(es: seq<LedgerEvent>)
    requires Allowed(Fresh, es)
    ensures Safe(After(Fresh, es))
  {
    if es != [] {
      EvolutionSafe(es[..|es| - 1]);
      StepSafe(After(Fresh, es[..|es| - 1]), es[|es| - 1]);
    }
  }

  /** And so every reservation of a reachable ledger is one it may make. */
  lemma EvolutionMayRun(es: seq<LedgerEvent>, topo: Topology, step: Id)
    requires Allowed(Fresh, es) && Enabled(After(Fresh, es), Reserve(topo, step))
    ensures MayRun(topo, After(Fresh, es), step)
  {
    EvolutionSafe(es);
    DecidedMayRun(topo, After(Fresh, es), step);
  }

  /** A reachable ledger is refused in forward execution exactly when its
      unresolved step left the topology, in unwind exactly when two unwinds
      are unresolved. */
  lemma EvolutionInvalidIff(es: seq<LedgerEvent>, topo: Topology, d: Decision)
    requires Allowed(Fresh, es) && Decides(topo, After(Fresh, es), d)
    ensures d.Invalid? <==>
              if After(Fresh, es).phase.PhaseForward? then exists id :: Pinned(After(Fresh, es).facts.forward, id) && !InTopology(topo, id)
              else TwoUnresolved(After(Fresh, es).facts.unwind)
  {
    EvolutionSafe(es);
    var s := After(Fresh, es);
    if s.phase.PhaseForward? {
      ForwardInvalidIff(topo, s.facts, d);
    }
  }

  // ---- The frontiers

  ghost predicate Ran(s: Saga, id: Id) {
    Done(OpId(id, Fwd), true) in s.log
  }

  ghost predicate Unwound(s: Saga, id: Id) {
    exists ok :: Done(OpId(id, Unw), ok) in s.log
  }

  /** Some step at j or after it, where topo stands now, ran. */
  ghost predicate RanFrom(topo: Topology, s: Saga, j: int) {
    exists k :: 0 <= j <= k < |topo| && Ran(s, topo[k].id)
  }

  /** Some step at j or before it unwound, well or not. */
  ghost predicate UnwoundUpTo(topo: Topology, s: Saga, j: int) {
    exists k :: 0 <= k <= j && k < |topo| && Unwound(s, topo[k].id)
  }

  lemma LogSays(s: Saga, id: Id)
    requires Safe(s)
    ensures Ran(s, id) <==> StateOf(s.facts.forward, id) == OpSucceeded
    ensures Unwound(s, id) <==> Resolved(StateOf(s.facts.unwind, id))
  {
    var f, u := OpId(id, Fwd), OpId(id, Unw);
    assert StatusOf(s.facts, f) == StateOf(s.facts.forward, id) && StatusOf(s.facts, u) == StateOf(s.facts.unwind, id);
    if StateOf(s.facts.forward, id) == OpSucceeded {
      var d :| d in s.log && d.op == f;
      assert d == Done(f, d.ok) && d.ok;
    }
    if Resolved(StateOf(s.facts.unwind, id)) {
      var d :| d in s.log && d.op == u;
      assert d == Done(u, d.ok);
    }
    if ok :| Done(u, ok) in s.log {
      assert Resolved(StatusOf(s.facts, u));
    }
  }

  lemma FrontiersSay(topo: Topology, s: Saga, j: int)
    requires Safe(s)
    ensures 0 <= j ==> (SucceededFrom(topo, s.facts.forward, j) <==> RanFrom(topo, s, j))
    ensures ResolvedUpTo(topo, s.facts.unwind, j) <==> UnwoundUpTo(topo, s, j)
  {
    forall k | 0 <= k < |topo| ensures Ran(s, topo[k].id) <==> StateOf(s.facts.forward, topo[k].id) == OpSucceeded
      ensures Unwound(s, topo[k].id) <==> Resolved(StateOf(s.facts.unwind, topo[k].id))
    {
      LogSays(s, topo[k].id);
    }
    hide Ran, Unwound, Safe;
    if SucceededFrom(topo, s.facts.forward, j) && 0 <= j {
      var k :| j <= k < |topo| && 0 <= k && StateOf(s.facts.forward, topo[k].id) == OpSucceeded;
      assert Ran(s, topo[k].id);
    }
    if RanFrom(topo, s, j) {
      var k :| 0 <= j <= k < |topo| && Ran(s, topo[k].id);
      assert StateOf(s.facts.forward, topo[k].id) == OpSucceeded;
    }
    if ResolvedUpTo(topo, s.facts.unwind, j) {
      var k :| 0 <= k <= j && k < |topo| && Resolved(StateOf(s.facts.unwind, topo[k].id));
      assert Unwound(s, topo[k].id);
    }
    if UnwoundUpTo(topo, s, j) {
      var k :| 0 <= k <= j && k < |topo| && Unwound(s, topo[k].id);
      assert Resolved(StateOf(s.facts.unwind, topo[k].id));
    }
  }

  /** Under whatever topology is registered now: a step that never started runs
      only past every step that ran, and only once each step before it is
      retired or behind one that ran; a step unwinds only before every step
      that unwound, and only once each executed step after it that unwinds is
      past one that has. */
  lemma EvolutionKeepsFrontiers(es: seq<LedgerEvent>, topo: Topology, step: Id, i: nat)
    requires Allowed(Fresh, es) && Enabled(After(Fresh, es), Reserve(topo, step)) && i < |topo| && topo[i].id == step
    ensures (var s := After(Fresh, es);
             && (s.phase.PhaseForward? && StateOf(s.facts.forward, step) == OpNone ==>
                   && !RanFrom(topo, s, i)
                   && forall j | 0 <= j < i :: topo[j].retired || RanFrom(topo, s, j))
             && (s.phase.PhaseUnwind? ==>
                   && !UnwoundUpTo(topo, s, i)
                   && forall j | i < j < |topo| && topo[j].unwind && Ran(s, topo[j].id) :: UnwoundUpTo(topo, s, j)))
  {
    EvolutionSafe(es);
    var s := After(Fresh, es);
    forall j ensures 0 <= j ==> (SucceededFrom(topo, s.facts.forward, j) <==> RanFrom(topo, s, j))
      ensures ResolvedUpTo(topo, s.facts.unwind, j) <==> UnwoundUpTo(topo, s, j)
    {
      FrontiersSay(topo, s, j);
    }
    forall j: nat | j < |topo| ensures Ran(s, topo[j].id) <==> StateOf(s.facts.forward, topo[j].id) == OpSucceeded {
      LogSays(s, topo[j].id);
    }
    hide Safe, RanFrom, UnwoundUpTo, Ran, After, Allowed;
    if s.phase.PhaseUnwind? {
      var k: nat :| FirstUnwind(topo, s.facts, k) && step == topo[k].id;
      assert k == i;
    } else if s.phase.PhaseForward? && StateOf(s.facts.forward, step) == OpNone {
      NotPinned(topo, s, step);
      var k: nat :| FirstForward(topo, s.facts.forward, k) && step == topo[k].id;
      assert k == i;
      NoneFrom(topo, s.facts.forward, i);
    }
  }

  lemma NoneFrom(topo: Topology, m: States, i: nat)
    requires forall j | i <= j < |topo| :: StateOf(m, topo[j].id) != OpSucceeded
    ensures !SucceededFrom(topo, m, i)
  {
  }

  lemma NotPinned(topo: Topology, s: Saga, step: Id)
    requires s.phase.PhaseForward? && Decides(topo, s, RunForward(step)) && StateOf(s.facts.forward, step) == OpNone
    ensures !exists id :: Pinned(s.facts.forward, id)
    ensures exists i: nat :: FirstForward(topo, s.facts.forward, i) && step == topo[i].id
  {
    assert !Pinned(s.facts.forward, step);
  }

  lemma ForwardEnds(topo: Topology, s: Saga, j: int)
    requires Safe(s) && Decides(topo, s, ForwardComplete) && 0 <= j < |topo|
    ensures s.phase.PhaseForward? ==> topo[j].retired || RanFrom(topo, s, j)
  {
    FrontiersSay(topo, s, j);
    hide Safe, RanFrom, SucceededFrom, TwoUnresolved, SomeFailed, Pinned;
  }

  lemma UnwindEnds(topo: Topology, s: Saga, j: int)
    requires Safe(s) && Decides(topo, s, UnwindComplete) && 0 <= j < |topo|
    ensures s.phase.PhaseUnwind? && topo[j].unwind && Ran(s, topo[j].id) ==> UnwoundUpTo(topo, s, j)
  {
    FrontiersSay(topo, s, j);
    LogSays(s, topo[j].id);
    hide Safe, UnwoundUpTo, ResolvedUpTo, TwoUnresolved, Ran;
  }

  /** A Run ends only with nothing left: forward, each step is retired or
      behind one that ran; in unwind, each executed step that unwinds is past
      one that has. */
  lemma EvolutionEndsDone(es: seq<LedgerEvent>, topo: Topology)
    requires Allowed(Fresh, es) && Enabled(After(Fresh, es), Finish(topo))
    ensures (var s := After(Fresh, es);
             && (s.phase.PhaseForward? ==> forall j | 0 <= j < |topo| :: topo[j].retired || RanFrom(topo, s, j))
             && (s.phase.PhaseUnwind? ==> forall j | 0 <= j < |topo| && topo[j].unwind && Ran(s, topo[j].id) :: UnwoundUpTo(topo, s, j)))
  {
    EvolutionSafe(es);
    var s := After(Fresh, es);
    EndsBy(topo, s);
    hide Safe, RanFrom, UnwoundUpTo, Ran, After, Allowed, ForwardDecision, UnwindDecision;
    forall j | 0 <= j < |topo|
      ensures s.phase.PhaseForward? ==> topo[j].retired || RanFrom(topo, s, j)
      ensures s.phase.PhaseUnwind? && topo[j].unwind && Ran(s, topo[j].id) ==> UnwoundUpTo(topo, s, j)
    {
      if s.phase.PhaseForward? {
        ForwardEnds(topo, s, j);
      } else if s.phase.PhaseUnwind? {
        UnwindEnds(topo, s, j);
      }
    }
  }

  /** The decision that ends a Run is its phase's. */
  lemma EndsBy(topo: Topology, s: Saga)
    requires Decides(topo, s, ForwardComplete) || Decides(topo, s, UnwindComplete)
    ensures s.phase.PhaseForward? ==> Decides(topo, s, ForwardComplete)
    ensures s.phase.PhaseUnwind? ==> Decides(topo, s, UnwindComplete)
  {
  }

  // ---- A displaced unwind

  const StepA := Id([97])
  const StepB := Id([98])
  const StepC := Id([99])
  const Before := [Ledger.Step(StepA, true, false), Ledger.Step(StepB, true, false), Ledger.Step(StepC, false, false)]
  /** The next deployment no longer unwinds B. */
  const Later := [Ledger.Step(StepA, true, false), Ledger.Step(StepB, false, false), Ledger.Step(StepC, false, false)]

  const Displacing := [
    Reserve(Before, StepA), Resolve(true), Reserve(Before, StepB), Resolve(true), Cancel(Before, StepC),
    Reserve(Before, StepB), Abandon, Reserve(Later, StepA), Abandon]

  lemma Extend(es: seq<LedgerEvent>, e: LedgerEvent)
    requires Allowed(Fresh, es) && Enabled(After(Fresh, es), e)
    ensures Allowed(Fresh, es + [e]) && After(Fresh, es + [e]) == Happens(After(Fresh, es), e)
  {
    assert (es + [e])[..|es|] == es;
  }

  lemma ForwardFirst(topo: Topology, s: Saga, i: nat)
    requires !TwoUnresolved(s.facts.forward) && !SomeFailed(s.facts.forward) && s.phase.PhaseForward?
    requires (forall id :: !Pinned(s.facts.forward, id)) && FirstForward(topo, s.facts.forward, i)
    ensures Decides(topo, s, RunForward(topo[i].id))
  {
  }

  lemma UnwindFirst(topo: Topology, s: Saga, i: nat)
    requires !TwoUnresolved(s.facts.unwind) && s.phase.PhaseUnwind? && FirstUnwind(topo, s.facts, i)
    ensures Decides(topo, s, RunUnwind(topo[i].id))
  {
  }

  const CanceledAtC := [
    Reserve(Before, StepA), Resolve(true), Reserve(Before, StepB), Resolve(true), Cancel(Before, StepC)]

  lemma StartsA()
    ensures Decides(Before, Fresh, RunForward(StepA))
  {
    ForwardFirst(Before, Fresh, 0);
  }

  lemma StartsB(s: Saga)
    requires s.facts.forward == map[StepA := OpSucceeded] && s.phase.PhaseForward?
    ensures Decides(Before, s, RunForward(StepB))
  {
    assert StateOf(s.facts.forward, Before[0].id) == OpSucceeded;
    ForwardFirst(Before, s, 1);
  }

  lemma StartsC(s: Saga)
    requires s.facts.forward == map[StepA := OpSucceeded, StepB := OpSucceeded] && s.phase.PhaseForward?
    ensures Decides(Before, s, RunForward(StepC))
  {
    assert StateOf(s.facts.forward, Before[1].id) == OpSucceeded;
    ForwardFirst(Before, s, 2);
  }

  lemma CancelsAtC()
    ensures Allowed(Fresh, CanceledAtC)
    ensures (var s := After(Fresh, CanceledAtC);
             s.facts == Facts(map[StepA := OpSucceeded, StepB := OpSucceeded, StepC := OpFailed], map[])
             && s.phase.PhaseUnwind? && s.running.None?)
  {
    hide Decides;
    StartsA();
    Extend([], Reserve(Before, StepA));
    var e1 := [] + [Reserve(Before, StepA)];
    Extend(e1, Resolve(true));
    var e2 := e1 + [Resolve(true)];
    assert After(Fresh, e2).facts.forward == map[StepA := OpSucceeded];
    StartsB(After(Fresh, e2));
    Extend(e2, Reserve(Before, StepB));
    var e3 := e2 + [Reserve(Before, StepB)];
    Extend(e3, Resolve(true));
    var e4 := e3 + [Resolve(true)];
    assert After(Fresh, e4).facts.forward == map[StepA := OpSucceeded, StepB := OpSucceeded];
    StartsC(After(Fresh, e4));
    Extend(e4, Cancel(Before, StepC));
    assert e4 + [Cancel(Before, StepC)] == CanceledAtC;
  }

  lemma UnwindsB(s: Saga)
    requires s.facts == Facts(map[StepA := OpSucceeded, StepB := OpSucceeded, StepC := OpFailed], map[]) && s.phase.PhaseUnwind?
    ensures Decides(Before, s, RunUnwind(StepB))
  {
    UnwindFirst(Before, s, 1);
  }

  lemma UnwindsA(s: Saga)
    requires s.facts.forward == map[StepA := OpSucceeded, StepB := OpSucceeded, StepC := OpFailed] && s.phase.PhaseUnwind?
    requires s.facts.unwind == map[StepB := OpUnresolved]
    ensures Decides(Later, s, RunUnwind(StepA))
  {
    UnwindFirst(Later, s, 0);
  }

  lemma DisplacesB()
    ensures Allowed(Fresh, Displacing) && After(Fresh, Displacing).phase.PhaseUnwind?
    ensures After(Fresh, Displacing).facts.unwind == map[StepB := OpUnresolved, StepA := OpUnresolved]
  {
    hide Decides;
    CancelsAtC();
    var e5 := CanceledAtC;
    UnwindsB(After(Fresh, e5));
    Extend(e5, Reserve(Before, StepB));
    var e6 := e5 + [Reserve(Before, StepB)];
    Extend(e6, Abandon);
    var e7 := e6 + [Abandon];
    assert After(Fresh, e7).facts.unwind == map[StepB := OpUnresolved];
    UnwindsA(After(Fresh, e7));
    Extend(e7, Reserve(Later, StepA));
    var e8 := e7 + [Reserve(Later, StepA)];
    Extend(e8, Abandon);
    assert e8 + [Abandon] == Displacing;
  }

  /** An unwind displaced by a redeploy stays unresolved while another is
      reserved; asked again before the second resolves, the ledger refuses
      the Run whatever is deployed. */
  lemma DisplacedUnwindRefused(topo: Topology, d: Decision)
    requires UnwindDecision(topo, After(Fresh, Displacing).facts, d)
    ensures Allowed(Fresh, Displacing) && After(Fresh, Displacing).phase.PhaseUnwind? && d.Invalid?
  {
    DisplacesB();
    var u := After(Fresh, Displacing).facts.unwind;
    assert u[StepA] == OpUnresolved && u[StepB] == OpUnresolved;
  }
}
