/** The component view refines the reference store: operation by operation,
    then over every admissible sequence of operations. */
module StageRefinement {
  import opened Bytes
  import opened Records
  import opened Keys
  import opened MemStore
  import opened StageView

  // ---- One record: what a transition leaves in each operation

  /** The write that decides an operation: the last one for it. */
  function LastWrite(ops: seq<OpWrite>, step: Id, h: Half): Option<Operation> {
    if ops == [] then None
    else
      var w := ops[|ops| - 1];
      if w.step == step && w.half == h then Some(w.op) else LastWrite(ops[..|ops| - 1], step, h)
  }

  /** No operation is written twice. */
  predicate OneWriteEach(ops: seq<OpWrite>) {
    forall i, j | 0 <= i < j < |ops| :: ops[i].step != ops[j].step || ops[i].half != ops[j].half
  }

  lemma {:induction false} WriteIsLast(ops: seq<OpWrite>, i: nat)
    requires OneWriteEach(ops) && i < |ops|
    ensures LastWrite(ops, ops[i].step, ops[i].half) == Some(ops[i].op)
  {
    var n := |ops| - 1;
    if i < n {
      WriteIsLast(ops[..n], i);
    }
  }

  lemma {:induction false} LastIsWrite(ops: seq<OpWrite>, step: Id, h: Half)
    requires LastWrite(ops, step, h).Some?
    ensures exists i :: 0 <= i < |ops| && ops[i] == OpWrite(step, h, LastWrite(ops, step, h).value)
  {
    var n := |ops| - 1;
    if ops[n].step == step && ops[n].half == h {
      assert ops[n] == OpWrite(step, h, LastWrite(ops, step, h).value);
    } else {
      LastIsWrite(ops[..n], step, h);
      var i :| 0 <= i < n && ops[..n][i] == OpWrite(step, h, LastWrite(ops[..n], step, h).value);
      assert ops[i] == OpWrite(step, h, LastWrite(ops, step, h).value);
    }
  }

  function Written(ops: seq<OpWrite>): set<Id> {
    set i | 0 <= i < |ops| :: ops[i].step
  }

  lemma WrittenLast(ops: seq<OpWrite>)
    requires ops != []
    ensures Written(ops) == Written(ops[..|ops| - 1]) + {ops[|ops| - 1].step}
  {
    var n := |ops| - 1;
    forall x | x in Written(ops) ensures x in Written(ops[..n]) + {ops[n].step} {
      var i :| 0 <= i < |ops| && ops[i].step == x;
      assert i < n ==> ops[..n][i] == ops[i];
    }
    forall x | x in Written(ops[..n]) ensures x in Written(ops) {
      var i :| 0 <= i < n && ops[..n][i].step == x;
      assert ops[i].step == x;
    }
    assert ops[n].step in Written(ops);
  }

  lemma {:induction false} OpsRead(r: RunRecord, ops: seq<OpWrite>, step: Id, h: Half)
    ensures ApplyOps(r, ops).steps.Keys == r.steps.Keys + Written(ops)
    ensures ApplyOps(r, ops).OpOf(step, h) == if LastWrite(ops, step, h).Some? then LastWrite(ops, step, h).value else r.OpOf(step, h)
  {
    if ops != [] {
      OpsRead(r, ops[..|ops| - 1], step, h);
      WrittenLast(ops);
    }
  }

  lemma {:induction false} RowsRead(rows: map<OpId, Operation>, ops: seq<OpWrite>, step: Id, h: Half)
    ensures OpAt(PutOps(rows, ops), step, h) == if LastWrite(ops, step, h).Some? then LastWrite(ops, step, h).value else OpAt(rows, step, h)
    ensures OpId(step, h) in PutOps(rows, ops) <==> OpId(step, h) in rows || LastWrite(ops, step, h).Some?
  {
    if ops != [] {
      RowsRead(rows, ops[..|ops| - 1], step, h);
    }
  }

  lemma {:induction false} WrittenSome(ops: seq<OpWrite>, step: Id)
    ensures step in Written(ops) <==> LastWrite(ops, step, Fwd).Some? || LastWrite(ops, step, Unw).Some?
  {
    if ops != [] {
      WrittenSome(ops[..|ops| - 1], step);
      WrittenLast(ops);
    }
  }

  predicate InFlight(c: Cursor, step: Id, h: Half) {
    c.step != NoId && c.step == step && HalfOf(c.phase) == h
  }

  lemma CursorRead(r: RunRecord, c: Cursor, step: Id, h: Half)
    ensures ApplyCursor(r, c).steps.Keys == r.steps.Keys + (if c.step == NoId then {} else {c.step})
    ensures ApplyCursor(r, c).OpOf(step, h) == if InFlight(c, step, h) then Overlaid(r.OpOf(step, h), c.attempts) else r.OpOf(step, h)
  {
  }

  lemma BaseRead(s: Stored, step: Id, h: Half)
    ensures step in Base(s).steps <==> OpId(step, Fwd) in s.ops || OpId(step, Unw) in s.ops
    ensures Base(s).OpOf(step, h) == OpAt(s.ops, step, h)
  {
    StepsOfDomain(s.ops, step);
  }

  // ---- Transitions of a nonterminal Run

  /** The component an ordinary transition leaves. */
  function Next(s: Stored, t: Transition): Stored {
    s.(failure := if t.failure.Some? then t.failure else s.failure, cursor := t.cursor, ops := PutOps(s.ops, t.ops))
  }

  /** The delta contract: the operation that was in flight is either in
      flight again or written. */
  predicate Covered(t: Transition, step: Id, h: Half) {
    InFlight(t.cursor, step, h) || LastWrite(t.ops, step, h).Some?
  }

  /** The rows already say what the cursor overlaid. */
  predicate RowCurrent(s: Stored) {
    OpAt(s.ops, s.cursor.step, HalfOf(s.cursor.phase)) == Assemble(s).OpOf(s.cursor.step, HalfOf(s.cursor.phase))
  }

  lemma ReferenceOp(r: RunRecord, t: Transition, step: Id, h: Half)
    ensures (var was := if LastWrite(t.ops, step, h).Some? then LastWrite(t.ops, step, h).value else r.OpOf(step, h);
             ApplyRecord(r, t).OpOf(step, h) == if InFlight(t.cursor, step, h) then Overlaid(was, t.cursor.attempts) else was)
    ensures ApplyRecord(r, t).steps.Keys == r.steps.Keys + Written(t.ops) + (if t.cursor.step == NoId then {} else {t.cursor.step})
  {
    OpsRead(r, t.ops, step, h);
    CursorRead(ApplyOps(r, t.ops), t.cursor, step, h);
  }

  lemma AssembledOp(s: Stored, step: Id, h: Half)
    ensures Assemble(s).OpOf(step, h) ==
            if InFlight(s.cursor, step, h) then Overlaid(OpAt(s.ops, step, h), s.cursor.attempts) else OpAt(s.ops, step, h)
    ensures step in Assemble(s).steps <==>
            OpId(step, Fwd) in s.ops || OpId(step, Unw) in s.ops || s.cursor.step == step != NoId
  {
    BaseRead(s, step, h);
    CursorRead(Base(s), s.cursor, step, h);
  }

  lemma NextOp(s: Stored, t: Transition, step: Id, h: Half)
    ensures (var was := if LastWrite(t.ops, step, h).Some? then LastWrite(t.ops, step, h).value else OpAt(s.ops, step, h);
             Assemble(Next(s, t)).OpOf(step, h) == if InFlight(t.cursor, step, h) then Overlaid(was, t.cursor.attempts) else was)
    ensures step in Assemble(Next(s, t)).steps <==>
            OpId(step, Fwd) in s.ops || OpId(step, Unw) in s.ops || step in Written(t.ops) || t.cursor.step == step != NoId
  {
    AssembledOp(Next(s, t), step, h);
    RowsRead(s.ops, t.ops, step, h);
    RowsRead(s.ops, t.ops, step, Fwd);
    RowsRead(s.ops, t.ops, step, Unw);
    WrittenSome(t.ops, step);
  }

  lemma OneOp(s: Stored, t: Transition, step: Id, h: Half)
    ensures (ApplyRecord(Assemble(s), t).OpOf(step, h) == Assemble(Next(s, t)).OpOf(step, h))
            <==> (InFlight(s.cursor, step, h) ==> Covered(t, step, h) || RowCurrent(s))
  {
    ReferenceOp(Assemble(s), t, step, h);
    AssembledOp(s, step, h);
    NextOp(s, t, step, h);
  }

  lemma SameSteps(s: Stored, t: Transition, x: Id)
    requires s.cursor.step == NoId || Covered(t, s.cursor.step, HalfOf(s.cursor.phase)) || RowCurrent(s)
    ensures x in ApplyRecord(Assemble(s), t).steps <==> x in Assemble(Next(s, t)).steps
  {
    ReferenceOp(Assemble(s), t, x, Fwd);
    AssembledOp(s, x, HalfOf(s.cursor.phase));
    NextOp(s, t, x, Fwd);
    WrittenSome(t.ops, x);
  }

  /** The assembled record follows the reference record exactly when the
      delta contract is kept, or the row already told the same story. */
  lemma TransitionAgreesExactly(s: Stored, t: Transition)
    ensures ApplyRecord(Assemble(s), t) == Assemble(Next(s, t))
            <==> s.cursor.step == NoId || Covered(t, s.cursor.step, HalfOf(s.cursor.phase)) || RowCurrent(s)
  {
    var a, b, step, h := ApplyRecord(Assemble(s), t), Assemble(Next(s, t)), s.cursor.step, HalfOf(s.cursor.phase);
    OneOp(s, t, step, h);
    if step == NoId || Covered(t, step, h) || RowCurrent(s) {
      forall x ensures x in a.steps <==> x in b.steps {
        SameSteps(s, t, x);
      }
      forall x, k | x in a.steps ensures a.steps[x].Get(k) == b.steps[x].Get(k) {
        OneOp(s, t, x, k);
      }
      StepsEqual(a.steps, b.steps);
      SameButSteps(s, t);
    }
  }

  lemma SameButSteps(s: Stored, t: Transition)
    ensures ApplyRecord(Assemble(s), t).(steps := map[]) == Assemble(Next(s, t)).(steps := map[])
  {
    var r := Assemble(s);
    ApplyOpsKeeps(r, t.ops);
    CursorKeeps(ApplyOps(r, t.ops), t.cursor);
    CursorKeeps(Base(s), s.cursor);
    CursorKeeps(Base(Next(s, t)), t.cursor);
    assert CursorFields(r, t.cursor).(steps := map[]) == CursorFields(Base(s), t.cursor).(steps := map[]);
  }

  lemma CursorKeeps(r: RunRecord, c: Cursor)
    ensures ApplyCursor(r, c).(steps := map[]) == CursorFields(r, c).(steps := map[])
  {
  }

  // ---- The terminality commit

  /** The terminal records of both stores agree exactly when the committing
      transition does not put in flight a failed unwind of a step whose
      forward operation did not succeed; an idle cursor never does. */
  lemma CommitAgreesExactly(r: RunRecord, t: Transition)
    requires t.outcome.Some?
    ensures (Commit(r, t) == ApplyOutcome(ApplyRecord(r, t), t)) <==>
            var sr := ApplyOps(r, t.ops).StepOf(t.cursor.step);
            !(t.cursor.step != NoId && t.cursor.phase.PhaseUnwind? && sr.unwind.status == OpFailed && sr.forward.status != OpSucceeded)
  {
    var a := if t.failure.Some? then r.(failure := t.failure) else r;
    ApplyOpsKeeps(a, t.ops);
    ApplyOpsKeeps(r, t.ops);
    OpsSameSteps(a, r, t.ops);
    var b := ApplyOps(r, t.ops);
    var step := t.cursor.step;
    var x, y := Commit(r, t), ApplyOutcome(ApplyRecord(r, t), t);
    assert x.(steps := map[]) == y.(steps := map[]);
    if step != NoId {
      var sr := b.StepOf(step);
      var h := if t.cursor.phase.PhaseUnwind? && sr.forward.status == OpSucceeded then Unw else Fwd;
      var mine := sr.With(h, sr.Get(h).(status := OpUnresolved));
      var his := sr.With(HalfOf(t.cursor.phase), Overlaid(sr.Get(HalfOf(t.cursor.phase)), t.cursor.attempts));
      assert x.steps == KeptSteps(b.steps[step := mine]);
      assert y.steps == KeptSteps(b.steps[step := his]);
      KeptStepsDiffer(b.steps, step, mine, his);
    }
  }

  lemma KeptStepsDiffer(steps: map<Id, StepRecord>, step: Id, a: StepRecord, b: StepRecord)
    ensures KeptSteps(steps[step := a]) == KeptSteps(steps[step := b]) <==>
            FailedUnwind(a) == FailedUnwind(b) && (FailedUnwind(a) ==> a.unwind == b.unwind)
  {
    var x, y := KeptSteps(steps[step := a]), KeptSteps(steps[step := b]);
    assert step in x <==> FailedUnwind(a);
    assert step in y <==> FailedUnwind(b);
    assert forall id | id != step :: id in x <==> id in y;
  }

  lemma {:induction false} OpsSameSteps(a: RunRecord, b: RunRecord, ops: seq<OpWrite>)
    requires a.steps == b.steps
    ensures ApplyOps(a, ops).steps == ApplyOps(b, ops).steps
  {
    if ops != [] {
      OpsSameSteps(a, b, ops[..|ops| - 1]);
    }
  }

  // ---- Each operation

  lemma SameRun(v: View, m: MemState, id: Id)
    requires Refines(v, m)
    ensures id in m.runs <==> id in v.done || id in v.stored
    ensures id in v.done ==> m.runs[id] == v.done[id]
    ensures id in v.stored && id !in v.done ==> m.runs[id] == Assemble(v.stored[id])
  {
    assert ReadRun(v, id) == GetRun(m, id);
  }

  lemma StoredRunning(s: Stored)
    ensures !Assemble(s).Terminal() && Assemble(s).pipeline == s.pipeline && Assemble(s).resource == s.resource
    ensures Assemble(s).failure == s.failure && Assemble(s).cancel == s.cancel && Assemble(s).phase == s.cursor.phase
    ensures Assemble(s).output == [] && Assemble(s).runId == s.runId
  {
    CursorKeeps(Base(s), s.cursor);
  }

  function WithInflight(inflight: map<Id, Id>, id: Id, c: Cursor): map<Id, Id> {
    if c.step == NoId then inflight - {id} else inflight[id := c.step]
  }

  /** Rewriting the components of one nonterminal Run on both sides. */
  lemma PutRefines(v: View, m: MemState, slots: map<Bytes, Id>, id: Id, s: Stored, r: RunRecord)
    requires Refines(v, m) && id !in v.done && r == Assemble(s) && !r.Terminal()
    ensures Refines(View(v.stored[id := s], v.done, slots, v.staged),
                    MemState(m.runs[id := r], slots, WithInflight(m.inflight, id, s.cursor)))
  {
    hide Assemble;
    var w := View(v.stored[id := s], v.done, slots, v.staged);
    forall x ensures ReadRun(w, x) == if x == id then Ok(r) else GetRun(m, x) {
      SameRun(v, m, x);
    }
  }

  /** Giving one Run its terminal record on both sides. */
  lemma EndRefines(v: View, m: MemState, slots: map<Bytes, Id>, staged: set<Id>, id: Id, r: RunRecord)
    requires Refines(v, m) && r.Terminal()
    ensures Refines(View(v.stored, v.done[id := r], slots, staged), MemState(m.runs[id := r], slots, m.inflight - {id}))
  {
    var w := View(v.stored, v.done[id := r], slots, staged);
    forall x ensures ReadRun(w, x) == if x == id then Ok(r) else GetRun(m, x) {
      SameRun(v, m, x);
    }
  }

  lemma InflightKept(v: View, m: MemState, id: Id)
    requires Refines(v, m) && id in v.stored && id !in v.done
    ensures WithInflight(m.inflight, id, v.stored[id].cursor) == m.inflight
  {
    assert Lookup(m.inflight, id) == CursorStep(v.stored[id].cursor);
  }

  lemma CreateRefines(v: View, m: MemState, rec: RunRecord, excluding: seq<Id>)
    requires Refines(v, m) && rec.runId !in m.runs && SeedOk(rec)
    ensures Refines(CreateRun(v, rec, excluding).0, DoCreate(m, rec, excluding).0)
    ensures CreateRun(v, rec, excluding).1 == DoCreate(m, rec, excluding).1
  {
    var b := FirstOccupant(v.slots, [rec.pipeline] + excluding, rec.resource);
    if b.Some? {
      SameRun(v, m, b.value);
    } else {
      var slots := v.slots[SlotKey(rec.pipeline, rec.resource) := rec.runId];
      SameRun(v, m, rec.runId);
      assert m.inflight - {rec.runId} == m.inflight;
      if rec.Terminal() {
        EndRefines(v, m, slots, v.staged, rec.runId, Compact(rec));
      } else {
        SeedReads(rec);
        PutRefines(v, m, slots, rec.runId, Seed(rec), rec);
      }
    }
  }

  /** What the engine owes the store for a transition: the failure is written
      once, the operation that was in flight is covered, and a terminal
      transition is idle. */
  predicate KeepsContract(r: RunRecord, inflight: Option<Id>, t: Transition) {
    if t.outcome.Some? then t.cursor.step == NoId
    else
      && (t.failure.Some? ==> r.failure.None?)
      && (inflight.Some? ==> Covered(t, inflight.value, HalfOf(r.phase)))
  }

  lemma ApplyRefines(v: View, m: MemState, id: Id, t: Transition)
    requires Inv(v) && Refines(v, m)
    requires id in m.runs && !m.runs[id].Terminal() ==> KeepsContract(m.runs[id], Lookup(m.inflight, id), t)
    ensures Refines(ApplyTransition(v, id, t).0, DoApply(m, id, t).0)
    ensures ApplyTransition(v, id, t).1 == DoApply(m, id, t).1
  {
    SameRun(v, m, id);
    if id in v.stored && id !in v.done {
      var s := v.stored[id];
      StoredRunning(s);
      if t.outcome.Some? {
        CommitAgreesExactly(Assemble(s), t);
        CommitIdentity(Assemble(s), t);
        EndRefines(v, m, ReleaseSlot(v.slots, SlotKey(s.pipeline, s.resource), id), v.staged + {id}, id, Commit(Assemble(s), t));
      } else {
        assert Lookup(m.inflight, id) == CursorStep(s.cursor);
        TransitionAgreesExactly(s, t);
        StoredRunning(Next(s, t));
        PutRefines(v, m, v.slots, id, Next(s, t), ApplyRecord(m.runs[id], t));
      }
    }
  }

  lemma CommitIdentity(r: RunRecord, t: Transition)
    ensures Commit(r, t).pipeline == r.pipeline && Commit(r, t).resource == r.resource
  {
    ApplyOpsKeeps(if t.failure.Some? then r.(failure := t.failure) else r, t.ops);
  }

  lemma CancelRefines(v: View, m: MemState, id: Id, req: CancelRequest)
    requires Inv(v) && Refines(v, m)
    ensures Refines(RequestCancel(v, id, req).0, DoCancel(m, id, req).0)
    ensures RequestCancel(v, id, req).1 == DoCancel(m, id, req).1
  {
    SameRun(v, m, id);
    if id in v.stored && id !in v.done {
      var s := v.stored[id];
      StoredRunning(s);
      CancelAssembles(s, req);
      InflightKept(v, m, id);
      PutRefines(v, m, v.slots, id, s.(cancel := Some(req)), m.runs[id].(cancel := Some(req)));
    }
  }

  lemma CancelAssembles(s: Stored, req: CancelRequest)
    ensures Assemble(s.(cancel := Some(req))) == Assemble(s).(cancel := Some(req))
  {
    var t := s.(cancel := Some(req));
    assert Base(t) == Base(s).(cancel := Some(req));
  }

  /** The head bbolt reads from the first rows is the reference projection. */
  lemma HeadRefines(v: View, m: MemState, id: Id)
    requires Inv(v) && Refines(v, m)
    ensures ReadHead(v, id) == GetRunHead(m, id)
  {
    SameRun(v, m, id);
    if id in v.stored && id !in v.done {
      HeadAssembles(v.stored[id]);
    }
  }

  lemma HeadAssembles(s: Stored)
    ensures HeadRows(s) == Head(Assemble(s), CursorStep(s.cursor))
  {
    StoredRunning(s);
    CursorKeeps(Base(s), s.cursor);
    CursorKeeps(Base(s).(input := [], steps := map[]), s.cursor);
    var step, h := s.cursor.step, HalfOf(s.cursor.phase);
    var a, b := HeadRows(s), Head(Assemble(s), CursorStep(s.cursor));
    assert a.(steps := map[]) == b.(steps := map[]);
    if step != NoId {
      CursorRead(Base(s), s.cursor, step, h);
      assert a.steps == map[step := NoStep.With(h, Overlaid(NoOp, s.cursor.attempts))];
      assert b.steps == map[step := NoStep.With(h, Overlaid(NoOp, Assemble(s).OpOf(step, h).attempts))];
    }
  }

  function LiveHeads(v: View): map<Id, RunRecord> {
    map id | id in v.stored && id !in v.done :: HeadRows(v.stored[id])
  }

  /** The nonterminal Runs found through the slots are the reference ones. */
  lemma ListRefines(v: View, m: MemState)
    requires Inv(v) && Refines(v, m)
    ensures LiveHeads(v) == Nonterminal(m.runs, m.inflight)
  {
    hide Assemble, HeadRows, Head;
    var a, b := LiveHeads(v), Nonterminal(m.runs, m.inflight);
    forall id ensures id in a <==> id in b {
      SameRun(v, m, id);
      if id in v.stored && id !in v.done {
        StoredRunning(v.stored[id]);
      }
    }
    forall id | id in a ensures a[id] == b[id] {
      SameRun(v, m, id);
      HeadAssembles(v.stored[id]);
    }
  }

  /** The commit times are ones the expiry index orders as times against
      the cutoff. */
  ghost predicate TimesSound(v: View, before: Time) {
    forall id | id in v.done :: ExpiryOrderSound(v.done[id].updatedAt, before)
  }

  /** The expiry walk reaches exactly the expired Runs just when the index
      orders every commit time soundly against the cutoff. */
  lemma ReachableExactly(v: View, m: MemState, before: Time)
    requires Inv(v) && Refines(v, m)
    ensures Reachable(v, before) == Expired(m.runs, before) <==> TimesSound(v, before)
  {
    var a, b := Reachable(v, before), Expired(m.runs, before);
    forall id ensures id in v.done ==> ((id in a <==> id in b) <==> ExpiryOrderSound(v.done[id].updatedAt, before))
      ensures id !in v.done ==> id !in a && id !in b
    {
      SameRun(v, m, id);
      if id in v.done {
        ExpiryOrder(v.done[id].updatedAt, before);
      } else if id in v.stored {
        StoredRunning(v.stored[id]);
      }
    }
  }

  /** A commit at the epoch against a zero cutoff is sound; a zero commit
      time against an epoch cutoff is not: the index cannot tell the two
      apart, the reference can. */
  lemma ExpiryConfusesEpoch()
    ensures Zero.Before(At(0)) && !Less(ExpiryPrefix(Zero), ExpiryPrefix(At(0)))
    ensures At(-1).Before(At(0)) && !Less(ExpiryPrefix(At(-1)), ExpiryPrefix(At(0)))
  {
    ExpiryOrder(Zero, At(0));
    ExpiryOrder(At(-1), At(0));
  }

  lemma ReapRefines(v: View, m: MemState, victims: set<Id>, before: Time, limit: int)
    requires Inv(v) && Refines(v, m) && TimesSound(v, before) && TakesOldest(v, victims, before, limit)
    ensures ReapAllowed(m.runs, victims, before, limit)
    ensures Refines(Reap(v, victims), m.(runs := m.runs - victims))
  {
    ReachableExactly(v, m, before);
    var w := Reap(v, victims);
    forall x ensures ReadRun(w, x) == if x in victims then Error(ErrRunNotFound) else GetRun(m, x) {
      SameRun(v, m, x);
    }
  }

  lemma DrainRefines(v: View, m: MemState, ids: set<Id>)
    requires Inv(v) && Refines(v, m) && ids <= v.staged
    ensures Refines(Drain(v, ids), m)
  {
    forall x ensures ReadRun(Drain(v, ids), x) == GetRun(m, x) {
      DrainInvisible(v, ids, x);
    }
  }

  // ---- Every sequence of operations

  datatype Event =
    | ECreate(rec: RunRecord, excluding: seq<Id>)
    | EApply(id: Id, t: Transition)
    | ECancel(id: Id, req: CancelRequest)
    | EReap(victims: set<Id>, before: Time, limit: int)
    | EDrain(ids: set<Id>)

  datatype Answer = ACreate(c: CreateResult) | AApply(u: Result<()>) | ACancel(b: Result<bool>) | AReap(n: int) | ANothing

  function StepView(v: View, e: Event): (View, Answer) {
    match e
    case ECreate(rec, ex) => var (w, r) := CreateRun(v, rec, ex); (w, ACreate(r))
    case EApply(id, t) => var (w, r) := ApplyTransition(v, id, t); (w, AApply(r))
    case ECancel(id, req) => var (w, r) := RequestCancel(v, id, req); (w, ACancel(r))
    case EReap(victims, _, _) => (Reap(v, victims), AReap(|victims|))
    case EDrain(ids) => (Drain(v, ids), ANothing)
  }

  function StepMem(m: MemState, e: Event): (MemState, Answer) {
    match e
    case ECreate(rec, ex) => var (n, r) := DoCreate(m, rec, ex); (n, ACreate(r))
    case EApply(id, t) => var (n, r) := DoApply(m, id, t); (n, AApply(r))
    case ECancel(id, req) => var (n, r) := DoCancel(m, id, req); (n, ACancel(r))
    case EReap(victims, _, _) => (m.(runs := m.runs - victims), AReap(|victims|))
    case EDrain(_) => (m, ANothing)
  }

  /** What the callers owe, stated on the reference store, and the choices
      bbolt makes on its own: which Runs a reap or a drain takes. */
  ghost predicate Admissible(v: View, m: MemState, e: Event) {
    match e
    case ECreate(rec, _) => rec.runId !in m.runs && !rec.Terminal() && SeedOk(rec)
    case EApply(id, t) => id in m.runs && !m.runs[id].Terminal() ==> KeepsContract(m.runs[id], Lookup(m.inflight, id), t)
    case ECancel(_, _) => true
    case EReap(victims, before, limit) => TakesOldest(v, victims, before, limit) && TimesSound(v, before)
    case EDrain(ids) => ids <= v.staged
  }

  ghost predicate AllAdmissible(v: View, m: MemState, es: seq<Event>)
    decreases es
  {
    es == [] || (Admissible(v, m, es[0]) && AllAdmissible(StepView(v, es[0]).0, StepMem(m, es[0]).0, es[1..]))
  }

  ghost predicate Coupled(v: View, m: MemState) {
    Inv(v) && SlotsExact(v) && Refines(v, m)
  }

  lemma StepRefines(v: View, m: MemState, e: Event)
    requires Coupled(v, m) && Admissible(v, m, e)
    ensures Coupled(StepView(v, e).0, StepMem(m, e).0)
    ensures StepView(v, e).1 == StepMem(m, e).1
    ensures e.EReap? ==> ReapAllowed(m.runs, e.victims, e.before, e.limit)
  {
    match e
    case ECreate(rec, ex) =>
      SameRun(v, m, rec.runId);
      CreateRefines(v, m, rec, ex);
      CreateKeepsInv(v, rec, ex);
      CreateKeepsSlots(v, rec, ex);
    case EApply(id, t) =>
      ApplyRefines(v, m, id, t);
      ApplyKeepsInv(v, id, t);
      ApplyKeepsSlots(v, id, t);
    case ECancel(id, req) =>
      CancelRefines(v, m, id, req);
      CancelKeeps(v, id, req);
    case EReap(victims, before, limit) =>
      ReapRefines(v, m, victims, before, limit);
      ReapKeepsInv(v, victims);
    case EDrain(ids) =>
      DrainRefines(v, m, ids);
      DrainInvisible(v, ids, NoId);
  }

  lemma CancelKeeps(v: View, id: Id, req: CancelRequest)
    requires Inv(v) && SlotsExact(v)
    ensures Inv(RequestCancel(v, id, req).0) && SlotsExact(RequestCancel(v, id, req).0)
  {
    var w := RequestCancel(v, id, req).0;
    if w != v {
      LivePut(v, v.slots, id, w.stored[id]);
      assert Live(v)[id := SlotOf(w.stored[id])] == Live(v);
    }
  }

  ghost function RunView(v: View, es: seq<Event>): (View, seq<Answer>)
    decreases es
  {
    if es == [] then (v, [])
    else
      var (w, a) := StepView(v, es[0]);
      var (x, rest) := RunView(w, es[1..]);
      (x, [a] + rest)
  }

  ghost function RunMem(m: MemState, es: seq<Event>): (MemState, seq<Answer>)
    decreases es
  {
    if es == [] then (m, [])
    else
      var (n, a) := StepMem(m, es[0]);
      var (x, rest) := RunMem(n, es[1..]);
      (x, [a] + rest)
  }

  /** The refinement over whole histories: every answer is the reference
      store's, and at the end so is every read and every listing. */
  lemma {:induction false} StoreRefines(v: View, m: MemState, es: seq<Event>)
    requires Coupled(v, m) && AllAdmissible(v, m, es)
    ensures RunView(v, es).1 == RunMem(m, es).1
    ensures Coupled(RunView(v, es).0, RunMem(m, es).0)
    decreases es
  {
    if es != [] {
      StepRefines(v, m, es[0]);
      StoreRefines(StepView(v, es[0]).0, StepMem(m, es[0]).0, es[1..]);
    }
  }

  /** From two empty stores, whatever the admissible history: the same
      answers, the same Runs, the same heads, the same occupied slots, each
      held by exactly one nonterminal Run. */
  lemma HistoriesAgree(es: seq<Event>, id: Id)
    requires AllAdmissible(EmptyView, EmptyState, es)
    ensures (var v, m := RunView(EmptyView, es), RunMem(EmptyState, es);
             && v.1 == m.1
             && ReadRun(v.0, id) == GetRun(m.0, id)
             && ReadHead(v.0, id) == GetRunHead(m.0, id)
             && LiveHeads(v.0) == Nonterminal(m.0.runs, m.0.inflight)
             && v.0.slots == m.0.slots && SlotsExact(v.0))
  {
    assert Coupled(EmptyView, EmptyState);
    StoreRefines(EmptyView, EmptyState, es);
    var v, m := RunView(EmptyView, es).0, RunMem(EmptyState, es).0;
    HeadRefines(v, m, id);
    ListRefines(v, m);
  }

  /** At any moment of any admissible history, what the nonterminal stage holds
      is a Run in its slot, or a Run staged for deletion behind its terminal
      row. */
  lemma StagesOwned(es: seq<Event>, id: Id)
    requires AllAdmissible(EmptyView, EmptyState, es) && id in RunView(EmptyView, es).0.stored
    ensures (var v := RunView(EmptyView, es).0;
             if id in v.done then id in v.staged
             else SlotOf(v.stored[id]) in v.slots && v.slots[SlotOf(v.stored[id])] == id)
  {
    assert Coupled(EmptyView, EmptyState);
    StoreRefines(EmptyView, EmptyState, es);
    var v := RunView(EmptyView, es).0;
    assert id !in v.done ==> id in Live(v) && Live(v)[id] == SlotOf(v.stored[id]);
  }
}
