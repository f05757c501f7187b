/** One Run as a machine: its durable record, and the worker that loads,
    reserves, resolves, parks, cancels and completes it, with crashes,
    redeploys and cancel requests at any moment. A failed apply is a crash:
    the record in memory is dropped and the transition landed or did not. */
module RunMachine {
  import opened Bytes
  import opened Records
  import opened MemStore
  import opened StageRefinement
  import opened Ledger
  import opened Saga
  import opened Transitions

  /** No worker, one that carries a record, or one inside an attempt. */
  datatype Worker = Idle | Holding(rec: RunRecord) | Attempting(rec: RunRecord, op: OpId)

  datatype Resolution = Resolution(op: OpId, ok: bool, order: Uint32)

  datatype Handed = Handed(op: OpId, attempt: nat)

  /** The durable record and the store's in-flight entry for it, the worker,
      and what has happened so far. */
  datatype Machine = Machine(
    store: RunRecord, inflight: Option<Id>, worker: Worker,
    log: seq<Resolution>, handed: seq<Handed>, failures: seq<Failure>, events: seq<LedgerEvent>)

  /** A turn of the worker that writes. Each decision is taken under the
      topology registered at that moment. */
  datatype Turn =
    | TReserve(topo: Topology, step: Id, wake: Option<Wake>, now: Time)
    | TSucceed(state: Blob, now: Time)
    | TFail(why: Why, now: Time)
    | TRetry(next: Time, error: Blob, reason: Blob, now: Time)
    | TPark(park: Await, now: Time)
    | TCut(message: Blob, reason: Blob, now: Time)
    | TCancel(topo: Topology, step: Id, message: Blob, reason: Blob, now: Time)
    | TComplete(topo: Topology, output: Blob, now: Time)

  datatype Action = Apply(turn: Turn, u: Transition) | Load | Crash | Ask(req: CancelRequest)

  /** Registration refuses unnamed and duplicate steps. */
  predicate Registered(topo: Topology) {
    Distinct(topo) && forall i | 0 <= i < |topo| :: topo[i].id != NoId
  }

  /** factsOf. */
  function FactsOf(r: RunRecord): Facts {
    Facts(map id | id in r.steps :: r.steps[id].forward.status, map id | id in r.steps :: r.steps[id].unwind.status)
  }

  ghost predicate Decided(topo: Topology, r: RunRecord, d: Decision) {
    match r.phase
    case PhaseForward => ForwardDecision(topo, FactsOf(r), d)
    case PhaseUnwind => UnwindDecision(topo, FactsOf(r), d)
    case PhaseDone => false
  }

  function Now(t: Turn): Time {
    t.now
  }

  /** When processRun reaches a turn. */
  ghost predicate CanTurn(k: Worker, t: Turn) {
    match t
    case TReserve(topo, step, wake, _) =>
      && k.Holding? && Registered(topo) && Decided(topo, k.rec, RunOf(k.rec.phase, step))
      && (k.rec.phase.PhaseForward? ==> k.rec.cancel.None?)
      && (if k.rec.awaiting.Some? then wake.Some? && wake.value.targets == k.rec.awaiting.value.targets else wake.None?)
    case TCancel(topo, step, _, _, _) =>
      k.Holding? && Registered(topo) && k.rec.phase.PhaseForward? && k.rec.cancel.Some? && Decided(topo, k.rec, RunForward(step))
    case TComplete(topo, _, _) =>
      k.Holding? && Registered(topo) && (Decided(topo, k.rec, ForwardComplete) || Decided(topo, k.rec, UnwindComplete))
    case TCut(_, _, _) => k.Attempting? && k.op.h.Fwd?
    case _ => k.Attempting?
  }

  function Touched(k: Worker, t: Turn): Option<OpId>
    requires !k.Idle?
    requires !t.TReserve? && !t.TCancel? && !t.TComplete? ==> k.Attempting?
  {
    match t
    case TReserve(_, step, _, _) => Some(OpId(step, HalfOf(k.rec.phase)))
    case TCancel(_, step, _, _, _) => Some(OpId(step, Fwd))
    case TComplete(_, _, _) => None
    case _ => Some(k.op)
  }

  ghost function Wrote(k: Worker, t: Turn): Write
    requires CanTurn(k, t)
  {
    var w := match t
      case TReserve(_, _, wake, now) => Reserved(k.rec, Touched(k, t).value, wake, now)
      case TSucceed(state, now) => Succeeded(k.rec, k.op, state)
      case TFail(why, now) => Failed(k.rec, k.op, why, now)
      case TRetry(next, error, reason, now) => Retried(k.rec, k.op, next, error, reason, now)
      case TPark(park, now) => Parked(k.rec, k.op, park)
      case TCut(message, reason, now) => Canceled(k.rec, k.op.step, message, reason, now)
      case TCancel(_, step, message, reason, now) => Canceled(k.rec, step, message, reason, now)
      case TComplete(_, output, now) => Completed(k.rec, if k.rec.phase.PhaseForward? then OutcomeSuccess else OutcomeFailure, output);
    Stamp(w, Now(t))
  }

  /** How a turn resolves its operation, if it does. */
  function Verdict(t: Turn): Option<bool> {
    match t
    case TSucceed(_, _) => Some(true)
    case TFail(_, _) => Some(false)
    case TCut(_, _, _) => Some(false)
    case TCancel(_, _, _, _, _) => Some(false)
    case _ => None
  }

  function EventOf(t: Turn): LedgerEvent {
    match t
    case TReserve(topo, step, _, _) => Reserve(topo, step)
    case TCancel(topo, step, _, _, _) => Cancel(topo, step)
    case TComplete(topo, _, _) => Finish(topo)
    case TSucceed(_, _) => Resolve(true)
    case TFail(_, _) => Resolve(false)
    case TCut(_, _, _) => Resolve(false)
    case _ => Abandon
  }

  function WorkerAfter(k: Worker, t: Turn, rec: RunRecord): Worker
    requires !k.Idle?
    requires !t.TReserve? && !t.TCancel? && !t.TComplete? ==> k.Attempting?
  {
    match t
    case TReserve(_, _, _, _) => Attempting(rec, Touched(k, t).value)
    case TRetry(_, _, _, _) => Idle
    case TComplete(_, _, _) => Idle
    case _ => Holding(rec)
  }

  ghost function AfterTurn(m: Machine, t: Turn, u: Transition): Machine
    requires CanTurn(m.worker, t)
  {
    var w := Wrote(m.worker, t);
    var op := Touched(m.worker, t);
    Machine(
      ApplyOutcome(ApplyRecord(m.store, u), u),
      if u.outcome.None? && u.cursor.step != NoId then Some(u.cursor.step) else None,
      WorkerAfter(m.worker, t, w.rec),
      if Verdict(t).Some? then m.log + [Resolution(op.value, Verdict(t).value, w.rec.OpOf(op.value.step, op.value.h).order)] else m.log,
      if t.TReserve? then m.handed + [Handed(op.value, w.rec.OpOf(op.value.step, op.value.h).attempts)] else m.handed,
      if u.failure.Some? then m.failures + [u.failure.value] else m.failures,
      m.events + [EventOf(t)])
  }

  ghost predicate Can(m: Machine, a: Action) {
    match a
    case Apply(t, u) => CanTurn(m.worker, t) && var w := Wrote(m.worker, t); IsFlush(w.rec, w.t, u)
    case Load => !m.worker.Attempting? && !m.store.Terminal()
    case Crash => true
    case Ask(_) => true
  }

  ghost function Act(m: Machine, a: Action): Machine
    requires Can(m, a)
  {
    match a
    case Apply(t, u) => AfterTurn(m, t, u)
    case Load => m.(worker := Holding(m.store))
    case Crash => m.(worker := Idle, events := if m.worker.Attempting? then m.events + [Abandon] else m.events)
    case Ask(req) => if m.store.Terminal() || m.store.cancel.Some? then m else m.(store := m.store.(cancel := Some(req)))
  }

  /** A Run as it is created (engine/pipeline.go:77-86). */
  ghost predicate JustCreated(m: Machine) {
    && m.store.phase.PhaseForward? && m.store.steps == map[] && m.store.failure.None? && m.store.outcome.None?
    && m.inflight.None? && m.worker.Idle? && m.log == [] && m.handed == [] && m.failures == [] && m.events == []
  }

  // ---- Invariants

  ghost predicate Mirrored(s: RunRecord, r: RunRecord) {
    !s.Terminal() && s == r.(cancel := s.cancel) && (r.cancel.Some? ==> s.cancel == r.cancel)
  }

  /** The carried record is the store's, except for a cancel not yet read. */
  ghost predicate Carried(m: Machine) {
    && (!m.worker.Idle? ==> Mirrored(m.store, m.worker.rec))
    && (m.worker.Attempting? ==>
          && m.worker.op.step != NoId && m.worker.op.h == HalfOf(m.store.phase)
          && m.store.OpOf(m.worker.op.step, m.worker.op.h).status == OpUnresolved)
  }

  /** What the store has in flight is unresolved in the record. */
  ghost predicate InflightKnown(m: Machine) {
    m.inflight.Some? ==>
      && !m.store.Terminal() && m.inflight.value != NoId
      && m.store.OpOf(m.inflight.value, HalfOf(m.store.phase)).status == OpUnresolved
  }

  /** The ledger's history of this Run. */
  ghost predicate Linked(m: Machine) {
    var g := After(Fresh, m.events);
    && Allowed(Fresh, m.events)
    && (!m.store.Terminal() ==> forall op: OpId :: StatusOf(g.facts, op) == m.store.OpOf(op.step, op.h).status)
    && g.phase == m.store.phase
    && g.running == (if m.worker.Attempting? then Some(m.worker.op) else None)
    && |g.log| == |m.log|
    && forall i | 0 <= i < |g.log| :: g.log[i] == Done(m.log[i].op, m.log[i].ok)
  }

  /** Attempt numbers of one operation strictly increase, and the durable
      record has already counted every one handed out. */
  ghost predicate Counted(m: Machine) {
    && (forall i, j | 0 <= i < j < |m.handed| :: m.handed[i].op == m.handed[j].op ==> m.handed[i].attempt < m.handed[j].attempt)
    && (!m.store.Terminal() ==> forall x | x in m.handed :: x.attempt <= m.store.OpOf(x.op.step, x.op.h).attempts)
  }

  /** The Failure is written at most once, and is there exactly from the
      start of unwind; the outcome says whether it is. */
  ghost predicate FailedOnce(m: Machine) {
    && |m.failures| <= 1
    && m.store.failure == (if m.failures == [] then None else Some(m.failures[0]))
    && (m.store.phase.PhaseDone? <==> m.store.Terminal())
    && (!m.store.Terminal() ==> (m.store.failure.Some? <==> m.store.phase.PhaseUnwind?))
    && (m.store.Terminal() ==> (m.store.failure.Some? <==> m.store.outcome.value.OutcomeFailure?))
  }

  ghost predicate Inv(m: Machine) {
    Carried(m) && InflightKnown(m) && Linked(m) && Counted(m) && FailedOnce(m)
  }

  // ---- The decision on the carried record is the ledger's

  ghost predicate SameStates(a: States, b: States) {
    forall id :: StateOf(a, id) == StateOf(b, id)
  }

  lemma SameScans(a: States, b: States)
    requires SameStates(a, b)
    ensures TwoUnresolved(a) ==> TwoUnresolved(b)
    ensures SomeFailed(a) ==> SomeFailed(b)
    ensures forall id :: Pinned(a, id) <==> Pinned(b, id)
  {
    forall id ensures (id in a && a[id] != OpNone) <==> (id in b && b[id] != OpNone) {
      assert StateOf(a, id) == StateOf(b, id);
    }
    if TwoUnresolved(a) {
      var x, y :| x in a && y in a && x != y && a[x] == OpUnresolved && a[y] == OpUnresolved;
      assert StateOf(b, x) == OpUnresolved && StateOf(b, y) == OpUnresolved;
    }
    if SomeFailed(a) {
      var x :| x in a && a[x] == OpFailed;
      assert StateOf(b, x) == OpFailed;
    }
    forall id ensures Pinned(a, id) <==> Pinned(b, id) {
      assert StateOf(a, id) == StateOf(b, id);
    }
  }

  /** The violation reported is the same. */
  lemma SameLeast(a: States, b: States, r: Reason)
    requires SameStates(a, b)
    ensures LeastViolation(a, r) ==> LeastViolation(b, r)
    ensures LeastPair(a, r) ==> LeastPair(b, r)
  {
    hide Less;
    forall x
      ensures x in a && x !in b ==> a[x] == OpNone
      ensures x in b && x !in a ==> b[x] == OpNone
      ensures x in a && x in b ==> a[x] == b[x]
    {
      assert StateOf(a, x) == StateOf(b, x);
    }
    if LeastViolation(a, r) && r.ForwardFailed? {
      forall x, y | x in b && y in b && b[x] == OpUnresolved && b[y] == OpUnresolved && Less(x.name, r.step.name) && Less(y.name, r.step.name)
        ensures x == y
      {
        assert a[x] == OpUnresolved && a[y] == OpUnresolved;
      }
    }
  }

  lemma SameForward(topo: Topology, f: Facts, g: Facts, d: Decision)
    requires SameStates(f.forward, g.forward) && ForwardDecision(topo, f, d)
    ensures ForwardDecision(topo, g, d)
  {
    hide LeastViolation, TwoUnresolved, SomeFailed;
    SameScans(f.forward, g.forward);
    SameScans(g.forward, f.forward);
    if TwoUnresolved(f.forward) || SomeFailed(f.forward) {
      SameLeast(f.forward, g.forward, d.reason);
    } else if exists id :: Pinned(f.forward, id) {
      var id :| Pinned(f.forward, id) && d == (if InTopology(topo, id) then RunForward(id) else Invalid(PinnedAbsent(id)));
      assert Pinned(g.forward, id);
    } else if d.RunForward? {
      var i: nat :| FirstForward(topo, f.forward, i) && d.step == topo[i].id;
      forall j | 0 <= j < i ensures topo[j].retired || SucceededFrom(topo, g.forward, j) {
        SameSucceeded(topo, f.forward, g.forward, j);
      }
      assert FirstForward(topo, g.forward, i);
    } else {
      forall i | 0 <= i < |topo| ensures topo[i].retired || SucceededFrom(topo, g.forward, i) {
        SameSucceeded(topo, f.forward, g.forward, i);
      }
    }
  }

  lemma SameSucceeded(topo: Topology, a: States, b: States, j: int)
    requires SameStates(a, b)
    ensures SucceededFrom(topo, a, j) ==> SucceededFrom(topo, b, j)
  {
    if SucceededFrom(topo, a, j) {
      var k :| j <= k < |topo| && 0 <= k && StateOf(a, topo[k].id) == OpSucceeded;
      assert StateOf(b, topo[k].id) == OpSucceeded;
    }
  }

  lemma SameUnwind(topo: Topology, f: Facts, g: Facts, d: Decision)
    requires SameStates(f.forward, g.forward) && SameStates(f.unwind, g.unwind) && UnwindDecision(topo, f, d)
    ensures UnwindDecision(topo, g, d)
  {
    hide LeastPair, TwoUnresolved;
    SameScans(f.unwind, g.unwind);
    SameScans(g.unwind, f.unwind);
    if d.Invalid? {
      SameLeast(f.unwind, g.unwind, d.reason);
    }
    forall j ensures ResolvedUpTo(topo, f.unwind, j) <==> ResolvedUpTo(topo, g.unwind, j) {
      SameResolved(topo, f.unwind, g.unwind, j);
      SameResolved(topo, g.unwind, f.unwind, j);
    }
    forall j: nat | j < |topo| ensures Eligible(topo, f, j) <==> Eligible(topo, g, j) {
    }
    if d.RunUnwind? {
      var i: nat :| FirstUnwind(topo, f, i) && d.step == topo[i].id;
      assert FirstUnwind(topo, g, i);
    }
  }

  lemma SameResolved(topo: Topology, a: States, b: States, j: int)
    requires SameStates(a, b)
    ensures ResolvedUpTo(topo, a, j) ==> ResolvedUpTo(topo, b, j)
  {
    if ResolvedUpTo(topo, a, j) {
      var k :| 0 <= k <= j && k < |topo| && Resolved(StateOf(a, topo[k].id));
      assert StateOf(b, topo[k].id) == StateOf(a, topo[k].id);
    }
  }

  lemma LinkedStates(m: Machine, r: RunRecord)
    requires Linked(m) && Mirrored(m.store, r)
    ensures SameStates(FactsOf(r).forward, After(Fresh, m.events).facts.forward)
    ensures SameStates(FactsOf(r).unwind, After(Fresh, m.events).facts.unwind)
  {
    var g := After(Fresh, m.events);
    forall id ensures StateOf(FactsOf(r).forward, id) == StateOf(g.facts.forward, id) && StateOf(FactsOf(r).unwind, id) == StateOf(g.facts.unwind, id) {
      assert StatusOf(g.facts, OpId(id, Fwd)) == m.store.OpOf(id, Fwd).status;
      assert StatusOf(g.facts, OpId(id, Unw)) == m.store.OpOf(id, Unw).status;
    }
  }

  /** What is decided on the carried record is decided on the ledger's
      history, refusals included. */
  lemma LinkedDecision(m: Machine, r: RunRecord, topo: Topology, d: Decision)
    requires Linked(m) && Mirrored(m.store, r) && Decided(topo, r, d)
    ensures Decides(topo, After(Fresh, m.events), d)
  {
    var g := After(Fresh, m.events);
    LinkedStates(m, r);
    if r.phase.PhaseForward? {
      SameForward(topo, FactsOf(r), g.facts, d);
    } else {
      SameUnwind(topo, FactsOf(r), g.facts, d);
    }
  }

  /** A step that is run is named. */
  lemma RunNamed(topo: Topology, r: RunRecord, step: Id)
    requires Registered(topo) && Decided(topo, r, RunOf(r.phase, step))
    ensures step != NoId
  {
    if r.phase.PhaseUnwind? {
      var i: nat :| FirstUnwind(topo, FactsOf(r), i) && step == topo[i].id;
    } else if exists id :: Pinned(FactsOf(r).forward, id) {
      var id :| Pinned(FactsOf(r).forward, id) && RunForward(step) == (if InTopology(topo, id) then RunForward(id) else Invalid(PinnedAbsent(id)));
      var i :| 0 <= i < |topo| && topo[i].id == step;
    } else {
      var i: nat :| FirstForward(topo, FactsOf(r).forward, i) && step == topo[i].id;
    }
  }

  // ---- One turn

  ghost predicate Ready(m: Machine, t: Turn, u: Transition) {
    Carried(m) && CanTurn(m.worker, t) && IsFlush(Wrote(m.worker, t).rec, Wrote(m.worker, t).t, u)
  }

  /** The operation a turn touches: named, of the current phase, unresolved
      when its attempt runs. */
  lemma TouchedNamed(m: Machine, t: Turn)
    requires Carried(m) && CanTurn(m.worker, t) && !t.TComplete?
    ensures (var op := Touched(m.worker, t).value;
             op.step != NoId && op.h == HalfOf(m.worker.rec.phase)
             && (!t.TReserve? && !t.TCancel? ==> m.worker.rec.OpOf(op.step, op.h).status == OpUnresolved))
  {
    if t.TReserve? || t.TCancel? {
      RunNamed(t.topo, m.worker.rec, t.step);
    }
  }

  /** Every turn's transition tells all it changed. */
  lemma TurnTells(m: Machine, t: Turn)
    requires Carried(m) && CanTurn(m.worker, t)
    ensures Tells(m.worker.rec, Wrote(m.worker, t), Touched(m.worker, t))
  {
    hide Tells, Carried, ForwardDecision, UnwindDecision, Reserved, Succeeded, Failed, Canceled, Retried, Parked, Completed;
    var k := m.worker;
    NotTerminal(m);
    if !t.TComplete? {
      TouchedNamed(m, t);
    }
    match t
    case TReserve(_, step, wake, now) => ReservedTells(k.rec, Touched(k, t).value, wake, now);
    case TSucceed(state, now) => SucceededTells(k.rec, k.op, state, now);
    case TFail(why, now) => FailedTells(k.rec, k.op, why, now);
    case TRetry(next, error, reason, now) => RetriedTells(k.rec, k.op, next, error, reason, now);
    case TPark(park, now) => ParkedTells(k.rec, k.op, park, now);
    case TCut(message, reason, now) => CanceledTells(k.rec, k.op.step, message, reason, now);
    case TCancel(_, step, message, reason, now) => CanceledTells(k.rec, step, message, reason, now);
    case TComplete(_, output, now) => CompletedTells(k.rec, if k.rec.phase.PhaseForward? then OutcomeSuccess else OutcomeFailure, output, now);
  }

  lemma NotTerminal(m: Machine)
    requires Carried(m) && !m.worker.Idle?
    ensures !m.worker.rec.Terminal() && !m.store.Terminal() && m.store == m.worker.rec.(cancel := m.store.cancel)
  {
  }

  lemma TurnStore(m: Machine, t: Turn, u: Transition)
    requires Ready(m, t, u)
    ensures (var w := Wrote(m.worker, t);
             AfterTurn(m, t, u).store == if w.t.outcome.Some? then Compact(w.rec.(cancel := m.store.cancel)) else w.rec.(cancel := m.store.cancel))
    ensures u.(ops := []) == Wrote(m.worker, t).t.(ops := [])
  {
    hide Wrote, Tells, ApplyRecord, ApplyOutcome, Decided, Compact, Carried;
    NotTerminal(m);
    TurnTells(m, t);
    var w := Wrote(m.worker, t);
    ApplyMirrors(m.store, m.worker.rec, w, u, Touched(m.worker, t));
    assert u.(ops := w.t.ops) == w.t;
  }

  /** What a turn leaves in the record: one operation's status changes. */
  lemma TurnFields(m: Machine, t: Turn)
    requires Carried(m) && CanTurn(m.worker, t)
    ensures (var k, w := m.worker, Wrote(m.worker, t);
             && w.rec.cancel == k.rec.cancel
             && w.t.outcome == w.rec.outcome
             && (w.rec.outcome.Some? <==> t.TComplete?)
             && (t.TComplete? ==> w.rec.outcome.value == (if k.rec.phase.PhaseForward? then OutcomeSuccess else OutcomeFailure))
             && w.rec.phase == (if t.TComplete? then PhaseDone
                                else if Verdict(t) == Some(false) && Touched(k, t).value.h.Fwd? then PhaseUnwind else k.rec.phase)
             && (w.t.failure.Some? <==> Verdict(t) == Some(false) && Touched(k, t).value.h.Fwd?)
             && w.rec.failure == (if w.t.failure.Some? then w.t.failure else k.rec.failure)
             && w.t.cursor.step == (if t.TReserve? || t.TRetry? || t.TPark? then Touched(k, t).value.step else NoId))
  {
    hide Decided, OrderAfter, Carried, Registered, FailureFor;
    var k := m.worker;
    NotTerminal(m);
    match t
    case TReserve(_, step, wake, now) =>
    case TSucceed(state, now) =>
    case TFail(why, now) =>
    case TRetry(next, error, reason, now) =>
    case TPark(park, now) =>
    case TCut(message, reason, now) =>
    case TCancel(_, step, message, reason, now) =>
    case TComplete(_, output, now) =>
  }

  function StatusSet(t: Turn): OpStatus {
    match Verdict(t)
    case Some(ok) => if ok then OpSucceeded else OpFailed
    case None => OpUnresolved
  }

  lemma TurnOps(m: Machine, t: Turn)
    requires Carried(m) && CanTurn(m.worker, t)
    ensures (var k, w := m.worker, Wrote(m.worker, t);
             && (t.TComplete? ==> w.rec.steps == k.rec.steps)
             && (!t.TComplete? ==>
                   var op := Touched(k, t).value;
                   && w.rec.steps == k.rec.WithOp(op.step, op.h, w.rec.OpOf(op.step, op.h)).steps
                   && w.rec.OpOf(op.step, op.h).status == StatusSet(t)
                   && w.rec.OpOf(op.step, op.h).attempts == k.rec.OpOf(op.step, op.h).attempts + (if t.TReserve? then 1 else 0)))
  {
    hide Decided, OrderAfter, Carried, Registered, FailureFor;
    TurnTells(m, t);
    if !t.TComplete? {
      TouchedNamed(m, t);
    }
    match t
    case TReserve(_, step, wake, now) =>
    case TSucceed(state, now) =>
    case TFail(why, now) =>
    case TRetry(next, error, reason, now) =>
    case TPark(park, now) =>
    case TCut(message, reason, now) =>
    case TCancel(_, step, message, reason, now) =>
    case TComplete(_, output, now) =>
  }

  /** The record after a turn, on the store's side. */
  lemma TurnRecord(m: Machine, t: Turn, u: Transition)
    requires Ready(m, t, u)
    ensures (var n, w := AfterTurn(m, t, u), Wrote(m.worker, t);
             && (n.store.Terminal() <==> t.TComplete?)
             && n.store.phase == w.rec.phase && n.store.failure == w.rec.failure && n.store.outcome == w.rec.outcome
             && (!t.TComplete? ==> n.store == w.rec.(cancel := m.store.cancel))
             && n.inflight == (if t.TReserve? || t.TRetry? || t.TPark? then Some(Touched(m.worker, t).value.step) else None)
             && n.failures == (if w.t.failure.Some? then m.failures + [w.t.failure.value] else m.failures))
  {
    hide Wrote, ApplyRecord, ApplyOutcome, Decided, Carried, Displaced;
    NotTerminal(m);
    TurnStore(m, t, u);
    TurnFields(m, t);
    if !t.TComplete? {
      TouchedNamed(m, t);
    }
    assert u.cursor == u.(ops := []).cursor && u.failure == u.(ops := []).failure && u.outcome == u.(ops := []).outcome;
  }

  lemma TurnCarried(m: Machine, t: Turn, u: Transition)
    requires Ready(m, t, u)
    ensures Carried(AfterTurn(m, t, u)) && InflightKnown(AfterTurn(m, t, u))
  {
    hide Wrote, ApplyRecord, ApplyOutcome, Decided, IsFlush;
    TurnRecord(m, t, u);
    TurnFields(m, t);
    TurnOps(m, t);
    if !t.TComplete? {
      TouchedNamed(m, t);
    }
  }

  /** Every transition the worker commits keeps the delta contract, so the
      store's refinement applies to it. */
  lemma TurnKeepsContract(m: Machine, t: Turn, u: Transition)
    requires Ready(m, t, u) && InflightKnown(m) && FailedOnce(m)
    ensures KeepsContract(m.store, m.inflight, u)
  {
    hide Wrote, ApplyRecord, ApplyOutcome, Decided, IsFlush, Tells, Covered;
    NotTerminal(m);
    TurnStore(m, t, u);
    TurnFields(m, t);
    TurnTells(m, t);
    assert u.cursor == u.(ops := []).cursor && u.failure == u.(ops := []).failure && u.outcome == u.(ops := []).outcome;
    var w := Wrote(m.worker, t);
    if !t.TComplete? {
      TouchedNamed(m, t);
      if m.inflight.Some? {
        FlightCovered(m, t, w, u);
      }
    }
  }

  lemma FlightCovered(m: Machine, t: Turn, w: Write, u: Transition)
    requires Ready(m, t, u) && InflightKnown(m) && m.inflight.Some? && w == Wrote(m.worker, t)
    ensures Covered(u, m.inflight.value, HalfOf(m.store.phase))
  {
    hide Wrote, ApplyRecord, ApplyOutcome, Decided, IsFlush, Tells, Covered;
    NotTerminal(m);
    TurnFields(m, t);
    TurnTells(m, t);
    if !t.TComplete? {
      TouchedNamed(m, t);
    }
    if w.t.cursor.step != NoId {
      CursorPhase(w, m.worker.rec, Touched(m.worker, t));
    }
    FlushCovers(w, u, m.worker.rec, Touched(m.worker, t), m.inflight.value, HalfOf(m.store.phase));
  }

  lemma CursorPhase(w: Write, held: RunRecord, op: Option<OpId>)
    requires Tells(held, w, op)
    ensures w.t.cursor.phase == w.rec.phase
  {
    assert w.rec.(steps := map[]).phase == w.rec.phase;
  }

  lemma TurnLinked(m: Machine, t: Turn, u: Transition)
    requires Ready(m, t, u) && Linked(m)
    ensures Linked(AfterTurn(m, t, u))
  {
    hide Wrote, ApplyRecord, ApplyOutcome, CanTurn, Happens, Enabled, Carried, StatusOf, IsFlush;
    TurnRecord(m, t, u);
    TurnEnabled(m, t);
    Extend(m.events, EventOf(t));
    TurnPhase(m, t, u);
    TurnLogged(m, t, u);
    if !t.TComplete? {
      TurnStatuses(m, t, u);
    }
  }

  lemma TurnPhase(m: Machine, t: Turn, u: Transition)
    requires Ready(m, t, u) && Linked(m)
    ensures (var g, n := Happens(After(Fresh, m.events), EventOf(t)), AfterTurn(m, t, u);
             g.phase == n.store.phase && g.running == (if n.worker.Attempting? then Some(n.worker.op) else None))
    ensures AfterTurn(m, t, u).events == m.events + [EventOf(t)]
  {
    hide Wrote, ApplyRecord, ApplyOutcome, Decided, IsFlush, SetStatus;
    NotTerminal(m);
    TurnRecord(m, t, u);
    TurnFields(m, t);
  }

  lemma TurnLogged(m: Machine, t: Turn, u: Transition)
    requires Ready(m, t, u) && Linked(m)
    ensures (var g, n := Happens(After(Fresh, m.events), EventOf(t)), AfterTurn(m, t, u);
             |g.log| == |n.log| && forall i | 0 <= i < |g.log| :: g.log[i] == Done(n.log[i].op, n.log[i].ok))
  {
    hide Wrote, ApplyRecord, ApplyOutcome, Decided, IsFlush, SetStatus;
    NotTerminal(m);
  }

  lemma TurnEnabled(m: Machine, t: Turn)
    requires Carried(m) && CanTurn(m.worker, t) && Linked(m)
    ensures Enabled(After(Fresh, m.events), EventOf(t))
  {
    hide Decides, Decided;
    NotTerminal(m);
    if t.TReserve? {
      LinkedDecision(m, m.worker.rec, t.topo, RunOf(m.worker.rec.phase, t.step));
    } else if t.TCancel? {
      LinkedDecision(m, m.worker.rec, t.topo, RunForward(t.step));
    } else if t.TComplete? {
      if Decided(t.topo, m.worker.rec, ForwardComplete) {
        LinkedDecision(m, m.worker.rec, t.topo, ForwardComplete);
      } else {
        LinkedDecision(m, m.worker.rec, t.topo, UnwindComplete);
      }
    }
  }

  lemma TurnStatuses(m: Machine, t: Turn, u: Transition)
    requires Ready(m, t, u) && Linked(m) && !t.TComplete?
    ensures forall op: OpId :: StatusOf(Happens(After(Fresh, m.events), EventOf(t)).facts, op) == AfterTurn(m, t, u).store.OpOf(op.step, op.h).status
  {
    hide Wrote, ApplyRecord, ApplyOutcome, Decided, IsFlush, Registered, Enabled, StateOf;
    NotTerminal(m);
    TurnRecord(m, t, u);
    TurnOps(m, t);
    TouchedNamed(m, t);
    var g, touched := After(Fresh, m.events), Touched(m.worker, t).value;
    StatusAfter(g.facts, touched, StatusSet(t));
    forall op: OpId ensures StatusOf(Happens(g, EventOf(t)).facts, op) == AfterTurn(m, t, u).store.OpOf(op.step, op.h).status {
      assert op == touched || op.step != touched.step || op.h != touched.h;
    }
  }

  lemma TurnCounted(m: Machine, t: Turn, u: Transition)
    requires Ready(m, t, u) && Counted(m)
    ensures Counted(AfterTurn(m, t, u))
  {
    hide Wrote, ApplyRecord, ApplyOutcome, Decided, IsFlush;
    NotTerminal(m);
    TurnRecord(m, t, u);
    TurnOps(m, t);
    var n := AfterTurn(m, t, u);
    if t.TReserve? {
      var op := Touched(m.worker, t).value;
      assert n.handed == m.handed + [Handed(op, n.store.OpOf(op.step, op.h).attempts)];
      forall i | 0 <= i < |m.handed| && m.handed[i].op == op ensures m.handed[i].attempt < n.store.OpOf(op.step, op.h).attempts {
        assert m.handed[i] in m.handed;
      }
    }
    if !t.TComplete? {
      var op := Touched(m.worker, t).value;
      forall x: OpId ensures m.store.OpOf(x.step, x.h).attempts <= n.store.OpOf(x.step, x.h).attempts {
        assert x == op || x.step != op.step || x.h != op.h;
      }
      forall x | x in n.handed ensures x.attempt <= n.store.OpOf(x.op.step, x.op.h).attempts {
        assert x in m.handed || x == n.handed[|m.handed|];
      }
    }
  }

  lemma TurnFailedOnce(m: Machine, t: Turn, u: Transition)
    requires Ready(m, t, u) && FailedOnce(m)
    ensures FailedOnce(AfterTurn(m, t, u))
  {
    hide Wrote, ApplyRecord, ApplyOutcome, Decided, IsFlush;
    NotTerminal(m);
    TurnRecord(m, t, u);
    TurnFields(m, t);
    if !t.TComplete? {
      TouchedNamed(m, t);
    }
    if t.TComplete? {
      CompletesPhase(m, t);
    }
  }

  lemma CompletesPhase(m: Machine, t: Turn)
    requires Carried(m) && CanTurn(m.worker, t) && t.TComplete?
    ensures !m.worker.rec.phase.PhaseDone?
  {
  }

  lemma OtherAction(m: Machine, a: Action)
    requires Inv(m) && Can(m, a) && !a.Apply?
    ensures Inv(Act(m, a))
  {
    match a
    case Load =>
    case Crash =>
      if m.worker.Attempting? {
        Extend(m.events, Abandon);
      }
    case Ask(req) =>
      if !m.store.Terminal() && m.store.cancel.None? {
        var n := Act(m, a);
        forall op: OpId ensures n.store.OpOf(op.step, op.h) == m.store.OpOf(op.step, op.h) {
        }
      }
    case _ => assert false;
  }

  lemma ActKeepsInv(m: Machine, a: Action)
    requires Inv(m) && Can(m, a)
    ensures Inv(Act(m, a))
  {
    if a.Apply? {
      hide Carried, InflightKnown, Linked, Counted, FailedOnce, Wrote, AfterTurn, CanTurn;
      TurnCarried(m, a.turn, a.u);
      TurnLinked(m, a.turn, a.u);
      TurnCounted(m, a.turn, a.u);
      TurnFailedOnce(m, a.turn, a.u);
    } else {
      OtherAction(m, a);
    }
  }

  /** The store takes the transition: the Run is there and not terminal. */
  lemma AppliedRun(m: Machine, t: Turn, u: Transition)
    requires Ready(m, t, u)
    ensures AfterTurn(m, t, u).store == ApplyOutcome(ApplyRecord(m.store, u), u) && !m.store.Terminal()
    ensures AfterTurn(m, t, u).inflight == if u.outcome.None? && u.cursor.step != NoId then Some(u.cursor.step) else None
    ensures AfterTurn(m, t, u).worker.Idle? || AfterTurn(m, t, u).worker.rec == Wrote(m.worker, t).rec
  {
    NotTerminal(m);
  }

  // ---- Whole runs

  ghost predicate Possible(m: Machine, acts: seq<Action>)
    decreases |acts|, 0
  {
    acts == [] || (Possible(m, acts[..|acts| - 1]) && Can(Reached(m, acts[..|acts| - 1]), acts[|acts| - 1]))
  }

  ghost function Reached(m: Machine, acts: seq<Action>): Machine
    requires Possible(m, acts)
    decreases |acts|, 1
  {
    if acts == [] then m else Act(Reached(m, acts[..|acts| - 1]), acts[|acts| - 1])
  }

  ghost function Then(m: Machine, acts: seq<Action>, a: Action): (next: seq<Action>)
    requires Possible(m, acts) && Can(Reached(m, acts), a)
    ensures next == acts + [a] && Possible(m, next) && Reached(m, next) == Act(Reached(m, acts), a)
  {
    assert (acts + [a])[..|acts|] == acts;
    acts + [a]
  }

  lemma {:induction false} Chain(m: Machine, a: seq<Action>, b: seq<Action>)
    requires Possible(m, a) && Possible(Reached(m, a), b)
    ensures Possible(m, a + b) && Reached(m, a + b) == Reached(Reached(m, a), b)
    decreases |b|
  {
    hide Can, Act;
    if b == [] {
      assert a + b == a;
    } else {
      var n := |b| - 1;
      Chain(m, a, b[..n]);
      assert (a + b)[..|a + b| - 1] == a + b[..n];
    }
  }

  /** Every run, with crashes, redeploys and cancel requests anywhere, keeps
      the invariants: the carried record is the store's but for an unread
      cancel; every resolution is one the ledger's evolution theorem speaks
      of; attempt numbers strictly increase; the Failure is written once and
      decides the outcome. */
  lemma {:induction false} RunsKeepInv(m: Machine, acts: seq<Action>)
    requires JustCreated(m) && Possible(m, acts)
    ensures Inv(Reached(m, acts))
  {
    if acts == [] {
      assert StatusOf(Fresh.facts, OpId(NoId, Fwd)) == OpNone;
    } else {
      RunsKeepInv(m, acts[..|acts| - 1]);
      ActKeepsInv(Reached(m, acts[..|acts| - 1]), acts[|acts| - 1]);
    }
  }

  /** In any run, no operation resolves twice and only steps that executed
      forward unwind. */
  lemma RunsResolveOnce(m: Machine, acts: seq<Action>)
    requires JustCreated(m) && Possible(m, acts)
    ensures (var n := Reached(m, acts);
             && (forall i, j | 0 <= i < j < |n.log| :: n.log[i].op != n.log[j].op)
             && (forall i | 0 <= i < |n.log| && n.log[i].op.h.Unw? ::
                   exists j :: 0 <= j < |n.log| && n.log[j].op == OpId(n.log[i].op.step, Fwd) && n.log[j].ok))
  {
    RunsKeepInv(m, acts);
    var n := Reached(m, acts);
    var g := After(Fresh, n.events);
    EvolutionSafe(n.events);
    forall i, j | 0 <= i < j < |n.log| ensures n.log[i].op != n.log[j].op {
      assert g.log[i].op != g.log[j].op;
    }
    forall i | 0 <= i < |n.log| && n.log[i].op.h.Unw?
      ensures exists j :: 0 <= j < |n.log| && n.log[j].op == OpId(n.log[i].op.step, Fwd) && n.log[j].ok
    {
      UnwoundRan(g, i);
      var j :| 0 <= j < |g.log| && g.log[j] == Done(OpId(g.log[i].op.step, Fwd), true);
    }
  }

  lemma UnwoundRan(g: Saga, i: nat)
    requires Safe(g) && i < |g.log| && g.log[i].op.h.Unw?
    ensures exists j :: 0 <= j < |g.log| && g.log[j] == Done(OpId(g.log[i].op.step, Fwd), true)
  {
    var step := g.log[i].op.step;
    assert g.log[i] in g.log;
    assert StateOf(g.facts.unwind, step) != OpNone;
    assert StatusOf(g.facts, OpId(step, Fwd)) == OpSucceeded;
    var d :| d in g.log && d.op == OpId(step, Fwd);
    assert d.ok;
  }

  /** A retired step is reserved forward only when it had started; while a
      forward operation is unresolved no other is reserved. */
  lemma RunsReserveSafely(m: Machine, acts: seq<Action>, t: Turn)
    requires JustCreated(m) && Possible(m, acts) && t.TReserve? && CanTurn(Reached(m, acts).worker, t)
    ensures (var n := Reached(m, acts);
             MayRun(t.topo, After(Fresh, n.events), t.step)
             && !Resolved(n.store.OpOf(t.step, HalfOf(n.store.phase)).status))
  {
    RunsKeepInv(m, acts);
    var n := Reached(m, acts);
    TurnEnabled(n, t);
    EvolutionMayRun(n.events, t.topo, t.step);
    assert StatusOf(After(Fresh, n.events).facts, OpId(t.step, HalfOf(n.store.phase))) == n.store.OpOf(t.step, HalfOf(n.store.phase)).status;
  }

  /** Every transition of every run keeps the delta contract. */
  lemma RunsKeepContract(m: Machine, acts: seq<Action>, t: Turn, u: Transition)
    requires JustCreated(m) && Possible(m, acts) && Can(Reached(m, acts), Apply(t, u))
    ensures KeepsContract(Reached(m, acts).store, Reached(m, acts).inflight, u)
  {
    RunsKeepInv(m, acts);
    TurnKeepsContract(Reached(m, acts), t, u);
  }

  /** In any run, while a worker carries a record a fresh read returns the same
      one, except for a cancel request it has not read. */
  lemma RunsCarryTheRecord(m: Machine, acts: seq<Action>)
    requires JustCreated(m) && Possible(m, acts) && !Reached(m, acts).worker.Idle?
    ensures (var n := Reached(m, acts);
             n.store.(cancel := n.worker.rec.cancel) == n.worker.rec && (n.worker.rec.cancel.Some? ==> n.store.cancel == n.worker.rec.cancel))
  {
    RunsKeepInv(m, acts);
  }

  /** Attempt numbers handed to one operation strictly increase, crashes or
      not. */
  lemma RunsCountAttempts(m: Machine, acts: seq<Action>, i: nat, j: nat)
    requires JustCreated(m) && Possible(m, acts) && i < j < |Reached(m, acts).handed|
    requires Reached(m, acts).handed[i].op == Reached(m, acts).handed[j].op
    ensures Reached(m, acts).handed[i].attempt < Reached(m, acts).handed[j].attempt
  {
    RunsKeepInv(m, acts);
  }

  /** The Failure is written at most once, is there exactly from the start of
      unwind, and decides the outcome. */
  lemma RunsFailOnce(m: Machine, acts: seq<Action>)
    requires JustCreated(m) && Possible(m, acts)
    ensures (var n := Reached(m, acts);
             && |n.failures| <= 1
             && (!n.store.Terminal() ==> (n.store.failure.Some? <==> n.store.phase.PhaseUnwind?))
             && (n.store.Terminal() ==> (n.store.failure.Some? <==> n.store.outcome == Some(OutcomeFailure))))
  {
    RunsKeepInv(m, acts);
  }
}
