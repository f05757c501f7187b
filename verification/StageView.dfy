/** The bbolt store one level above its bytes: per Run, the components its
    rows spell out (meta, input, cancel, failure, operation rows, cursor), the
    terminal record, and the slot and staged indexes. The byte level
    (BboltStore) implements these functions; here they are proved to refine
    the reference store's record map. */
module StageView {
  import opened Bytes
  import opened Records
  import opened Keys
  import opened MemStore

  datatype Stored = Stored(
    runId: Id, pipeline: Id, resource: Id, annotations: map<Blob, Blob>, createdAt: Time,
    input: Blob, cancel: Option<CancelRequest>, failure: Option<Failure>,
    ops: map<OpId, Operation>, cursor: Cursor)

  datatype View = View(stored: map<Id, Stored>, done: map<Id, RunRecord>, slots: map<Bytes, Id>, staged: set<Id>)

  const EmptyView := View(map[], map[], map[], {})

  // ---- Reading

  function OpAt(ops: map<OpId, Operation>, step: Id, h: Half): Operation {
    if OpId(step, h) in ops then ops[OpId(step, h)] else NoOp
  }

  function StepsOf(ops: map<OpId, Operation>): map<Id, StepRecord> {
    map step | step in (set k | k in ops :: k.step) :: StepRecord(OpAt(ops, step, Fwd), OpAt(ops, step, Unw))
  }

  /** The rows alone, before the cursor is overlaid. */
  function Base(s: Stored): RunRecord {
    RunRecord(s.runId, s.pipeline, s.resource, s.annotations, s.input, PhaseForward, StepsOf(s.ops),
              s.failure, [], None, Zero, None, None, [], [], Zero, s.cancel, s.createdAt, Zero, Zero)
  }

  /** getNonterminal: the rows, then overlayCursor. */
  function Assemble(s: Stored): RunRecord {
    ApplyCursor(Base(s), s.cursor)
  }

  /** getHead of a nonterminal Run: meta, cancel and failure rows, then
      overlayCursor. */
  function HeadRows(s: Stored): RunRecord {
    ApplyCursor(Base(s).(input := [], steps := map[]), s.cursor)
  }

  /** The terminal row is authoritative wherever both stages exist. */
  function ReadRun(v: View, id: Id): Result<RunRecord> {
    if id in v.done then Ok(v.done[id])
    else if id in v.stored then Ok(Assemble(v.stored[id]))
    else Error(ErrRunNotFound)
  }

  function ReadHead(v: View, id: Id): Result<RunRecord> {
    if id in v.done then Ok(v.done[id].(output := []))
    else if id in v.stored then Ok(HeadRows(v.stored[id]))
    else Error(ErrRunNotFound)
  }

  // ---- Writing

  function Halves(steps: map<Id, StepRecord>, h: Half): set<OpId> {
    set id | id in steps :: OpId(id, h)
  }

  lemma HalvesIn(steps: map<Id, StepRecord>, k: OpId)
    ensures k in Halves(steps, Fwd) + Halves(steps, Unw) <==> k.step in steps
  {
    assert k == OpId(k.step, if k.h.Fwd? then Fwd else Unw);
  }

  /** The rows putRun writes for a seeded record: one per started operation. */
  function SeedOps(steps: map<Id, StepRecord>): map<OpId, Operation> {
    map k | k in Halves(steps, Fwd) + Halves(steps, Unw) && steps[k.step].Get(k.h).status != OpNone
      :: steps[k.step].Get(k.h)
  }

  /** The cursor putRun writes: no operation in flight. */
  function SeedCursor(r: RunRecord): Cursor {
    Cursor(r.phase, NoId, 0, r.awaiting, r.awaited, r.nextAttemptAt, r.lastError, r.lastReason, r.lastErrorAt,
           r.updatedAt, r.startedAt)
  }

  function Seed(r: RunRecord): Stored {
    Stored(r.runId, r.pipeline, r.resource, r.annotations, r.createdAt, r.input, r.cancel, r.failure,
           SeedOps(r.steps), SeedCursor(r))
  }

  function PutRun(v: View, rec: RunRecord): View {
    if rec.Terminal() then v.(done := v.done[rec.runId := Compact(rec)])
    else v.(stored := v.stored[rec.runId := Seed(rec)])
  }

  function CreateRun(v: View, rec: RunRecord, excluding: seq<Id>): (View, CreateResult) {
    var blocker := FirstOccupant(v.slots, [rec.pipeline] + excluding, rec.resource);
    if blocker.Some? then
      (v, if ReadRun(v, blocker.value).Ok? then Occupied(ReadRun(v, blocker.value).value) else Broken)
    else
      (PutRun(v, rec).(slots := v.slots[SlotKey(rec.pipeline, rec.resource) := rec.runId]), Created)
  }

  function PutOps(ops: map<OpId, Operation>, writes: seq<OpWrite>): map<OpId, Operation> {
    if writes == [] then ops
    else
      var n := |writes| - 1;
      PutOps(ops, writes[..n])[OpId(writes[n].step, writes[n].half) := writes[n].op]
  }

  /** The terminality commit: the record is assembled, the transition laid
      over it, and the result compacted. */
  function Commit(r: RunRecord, t: Transition): RunRecord {
    var a := if t.failure.Some? then r.(failure := t.failure) else r;
    var b := ApplyOps(a, t.ops);
    var c :=
      if t.cursor.step == NoId then b
      else
        var sr := b.StepOf(t.cursor.step);
        var h := if t.cursor.phase.PhaseUnwind? && sr.forward.status == OpSucceeded then Unw else Fwd;
        b.WithOp(t.cursor.step, h, sr.Get(h).(status := OpUnresolved));
    Compact(c.(phase := t.cursor.phase, updatedAt := t.cursor.updatedAt, startedAt := t.cursor.startedAt,
               outcome := t.outcome, output := t.output))
  }

  function ApplyTransition(v: View, id: Id, t: Transition): (View, Result<()>) {
    if id in v.done then (v, Error(ErrRunTerminal))
    else if id !in v.stored then (v, Error(ErrRunNotFound))
    else
      var s := v.stored[id];
      if t.outcome.Some? then
        (View(v.stored, v.done[id := Commit(Assemble(s), t)],
              ReleaseSlot(v.slots, SlotKey(s.pipeline, s.resource), id), v.staged + {id}),
         Ok(()))
      else if t.failure.Some? && s.failure.Some? then (v, Error(ErrAlreadyWritten))
      else
        (v.(stored := v.stored[id := s.(failure := if t.failure.Some? then t.failure else s.failure,
                                        cursor := t.cursor, ops := PutOps(s.ops, t.ops))]),
         Ok(()))
  }

  function RequestCancel(v: View, id: Id, req: CancelRequest): (View, Result<bool>) {
    if id in v.done then (v, Error(ErrRunTerminal))
    else if id !in v.stored then (v, Error(ErrRunNotFound))
    else if v.stored[id].cancel.Some? then (v, Ok(false))
    else (v.(stored := v.stored[id := v.stored[id].(cancel := Some(req))]), Ok(true))
  }

  /** Deleting the nonterminal stage of staged Runs. */
  function Drain(v: View, ids: set<Id>): View {
    v.(stored := v.stored - ids, staged := v.staged - ids)
  }

  function Reap(v: View, victims: set<Id>): View {
    v.(stored := v.stored - victims, done := v.done - victims, staged := v.staged - victims)
  }

  /** What the expiry walk can reach: the rows whose encoded commit time is
      below the encoded cutoff. */
  function Reachable(v: View, before: Time): set<Id> {
    set id | id in v.done && Less(ExpiryPrefix(v.done[id].updatedAt), ExpiryPrefix(before))
  }

  /** The walk takes the oldest first and stops at the limit. */
  ghost predicate TakesOldest(v: View, victims: set<Id>, before: Time, limit: int) {
    && victims <= Reachable(v, before)
    && |victims| == AtMost(|Reachable(v, before)|, limit)
    && forall a, b | a in victims && b in Reachable(v, before) && b !in victims ::
         Less(ExpiryKey(v.done[a].updatedAt, a), ExpiryKey(v.done[b].updatedAt, b))
  }

  // ---- Invariants

  /** Records sit under their own id, terminal ones are compact, and a stage
      that outlives its Run's terminality is staged for deletion. */
  ghost predicate Inv(v: View) {
    && (forall id | id in v.stored :: v.stored[id].runId == id)
    && (forall id | id in v.done :: v.done[id].runId == id && v.done[id].Terminal() && Compact(v.done[id]) == v.done[id])
    && v.staged <= v.done.Keys
    && v.stored.Keys * v.done.Keys <= v.staged
  }

  function SlotOf(s: Stored): Bytes {
    SlotKey(s.pipeline, s.resource)
  }

  /** The nonterminal Runs and the slot each is admitted under. */
  ghost function Live(v: View): map<Id, Bytes> {
    map id | id in v.stored && id !in v.done :: SlotOf(v.stored[id])
  }

  ghost predicate Inverse(slots: map<Bytes, Id>, live: map<Id, Bytes>) {
    && (forall k | k in slots :: slots[k] in live && live[slots[k]] == k)
    && (forall id | id in live :: live[id] in slots && slots[live[id]] == id)
  }

  /** The slots hold exactly the nonterminal Runs, each under its own key. */
  ghost predicate SlotsExact(v: View) {
    Inverse(v.slots, Live(v))
  }

  lemma ApplyOpsKeeps(r: RunRecord, ops: seq<OpWrite>)
    ensures ApplyOps(r, ops) == r.(steps := ApplyOps(r, ops).steps)
  {
  }

  lemma CreateKeepsInv(v: View, rec: RunRecord, excluding: seq<Id>)
    requires Inv(v) && rec.runId !in v.stored && rec.runId !in v.done
    ensures Inv(CreateRun(v, rec, excluding).0)
  {
    if rec.Terminal() {
      CompactKeepsUnwindFailures(rec);
    }
  }

  lemma CreateKeepsSlots(v: View, rec: RunRecord, excluding: seq<Id>)
    requires SlotsExact(v) && rec.runId !in v.stored && rec.runId !in v.done && !rec.Terminal()
    ensures SlotsExact(CreateRun(v, rec, excluding).0)
  {
    var w, key := CreateRun(v, rec, excluding).0, SlotKey(rec.pipeline, rec.resource);
    if FirstOccupant(v.slots, [rec.pipeline] + excluding, rec.resource).None? {
      assert key !in v.slots;
      InverseAdd(v.slots, Live(v), key, rec.runId);
      LivePut(v, w.slots, rec.runId, Seed(rec));
    }
  }

  lemma LivePut(v: View, slots: map<Bytes, Id>, id: Id, s: Stored)
    requires id !in v.done
    ensures Live(View(v.stored[id := s], v.done, slots, v.staged)) == Live(v)[id := SlotOf(s)]
  {
  }

  lemma LiveEnd(v: View, slots: map<Bytes, Id>, id: Id, r: RunRecord)
    ensures Live(View(v.stored, v.done[id := r], slots, v.staged + {id})) == Live(v) - {id}
  {
  }

  lemma InverseAdd(slots: map<Bytes, Id>, live: map<Id, Bytes>, key: Bytes, id: Id)
    requires Inverse(slots, live) && key !in slots && id !in live
    ensures Inverse(slots[key := id], live[id := key])
  {
  }

  lemma InverseRemove(slots: map<Bytes, Id>, live: map<Id, Bytes>, id: Id)
    requires Inverse(slots, live) && id in live
    ensures Inverse(ReleaseSlot(slots, live[id], id), live - {id})
  {
  }

  lemma ApplyKeepsInv(v: View, id: Id, t: Transition)
    requires Inv(v)
    ensures Inv(ApplyTransition(v, id, t).0)
  {
    if id in v.stored && id !in v.done && t.outcome.Some? {
      CommitCompact(Assemble(v.stored[id]), t);
    }
  }

  lemma ApplyKeepsSlots(v: View, id: Id, t: Transition)
    requires SlotsExact(v)
    ensures SlotsExact(ApplyTransition(v, id, t).0)
  {
    var w := ApplyTransition(v, id, t).0;
    if id in v.stored && id !in v.done && t.outcome.Some? {
      InverseRemove(v.slots, Live(v), id);
      LiveEnd(v, w.slots, id, w.done[id]);
    } else if w != v {
      LivePut(v, v.slots, id, w.stored[id]);
      assert Live(v)[id := SlotOf(w.stored[id])] == Live(v);
    }
  }

  lemma CommitCompact(r: RunRecord, t: Transition)
    ensures Compact(Commit(r, t)) == Commit(r, t)
    ensures Commit(r, t).runId == r.runId && Commit(r, t).outcome == t.outcome
  {
    ApplyOpsKeeps(if t.failure.Some? then r.(failure := t.failure) else r, t.ops);
    var c := Commit(r, t);
    assert KeptSteps(c.steps) == c.steps;
  }

  lemma ReapKeepsInv(v: View, victims: set<Id>)
    requires Inv(v) && victims <= v.done.Keys
    ensures Inv(Reap(v, victims))
    ensures SlotsExact(v) ==> SlotsExact(Reap(v, victims))
  {
    assert Live(Reap(v, victims)) == Live(v);
  }

  /** Drains at any moment change no read, and an idle store drains to
      nothing but live Runs. */
  lemma DrainInvisible(v: View, ids: set<Id>, id: Id)
    requires Inv(v) && ids <= v.staged
    ensures ReadRun(Drain(v, ids), id) == ReadRun(v, id)
    ensures ReadHead(Drain(v, ids), id) == ReadHead(v, id)
    ensures Inv(Drain(v, ids))
    ensures SlotsExact(v) ==> SlotsExact(Drain(v, ids))
    ensures ids == v.staged ==> Drain(v, ids).stored.Keys !! Drain(v, ids).done.Keys
  {
    assert Live(Drain(v, ids)) == Live(v);
  }

  // ---- Refinement

  function CursorStep(c: Cursor): Option<Id> {
    if c.step == NoId then None else Some(c.step)
  }

  /** The two stores hold the same Runs. */
  ghost predicate Refines(v: View, m: MemState) {
    && (forall id :: ReadRun(v, id) == GetRun(m, id))
    && v.slots == m.slots
    && (forall id | id in m.inflight :: id in m.runs && !m.runs[id].Terminal())
    && (forall id | id in v.stored && id !in v.done :: Lookup(m.inflight, id) == CursorStep(v.stored[id].cursor))
  }

  /** A seed that both stores keep whole: no output before an outcome, every
      step entry names a started operation, and an operation not started
      carries nothing. */
  ghost predicate SeedOk(r: RunRecord) {
    !r.Terminal() ==>
      && r.output == []
      && forall id | id in r.steps ::
           && (r.steps[id].forward.status != OpNone || r.steps[id].unwind.status != OpNone)
           && (forall h :: r.steps[id].Get(h).status == OpNone ==> r.steps[id].Get(h) == NoOp)
  }

  lemma SeedOpsIn(steps: map<Id, StepRecord>, k: OpId)
    ensures k in SeedOps(steps) <==> k.step in steps && steps[k.step].Get(k.h).status != OpNone
    ensures k in SeedOps(steps) ==> SeedOps(steps)[k] == steps[k.step].Get(k.h)
  {
    HalvesIn(steps, k);
  }

  lemma SeedOpsRead(r: RunRecord)
    requires !r.Terminal() && SeedOk(r)
    ensures StepsOf(SeedOps(r.steps)) == r.steps
  {
    forall id ensures id in StepsOf(SeedOps(r.steps)) <==> id in r.steps
      ensures id in r.steps ==> id in StepsOf(SeedOps(r.steps)) && StepsOf(SeedOps(r.steps))[id] == r.steps[id]
    {
      SeedStepRead(r, id);
    }
  }

  lemma SeedStepRead(r: RunRecord, id: Id)
    requires !r.Terminal() && SeedOk(r)
    ensures id in StepsOf(SeedOps(r.steps)) <==> id in r.steps
    ensures id in r.steps ==> id in StepsOf(SeedOps(r.steps)) && StepsOf(SeedOps(r.steps))[id] == r.steps[id]
  {
    var ops := SeedOps(r.steps);
    SeedOpsIn(r.steps, OpId(id, Fwd));
    SeedOpsIn(r.steps, OpId(id, Unw));
    StepsOfDomain(ops, id);
    if id in r.steps {
      assert OpAt(ops, id, Fwd) == r.steps[id].Get(Fwd) && OpAt(ops, id, Unw) == r.steps[id].Get(Unw);
    }
  }

  lemma StepsOfDomain(ops: map<OpId, Operation>, step: Id)
    ensures step in StepsOf(ops) <==> OpId(step, Fwd) in ops || OpId(step, Unw) in ops
  {
    if step in StepsOf(ops) {
      var k :| k in ops && k.step == step;
      assert k == OpId(step, k.h) && (k.h.Fwd? || k.h.Unw?);
    }
    assert OpId(step, Fwd) in ops ==> OpId(step, Fwd).step in StepsOf(ops);
    assert OpId(step, Unw) in ops ==> OpId(step, Unw).step in StepsOf(ops);
  }

  lemma SeedReads(r: RunRecord)
    requires !r.Terminal() && SeedOk(r)
    ensures Assemble(Seed(r)) == r
  {
    SeedOpsRead(r);
  }
}
