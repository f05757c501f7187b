/** What the store's operations mean to their caller, told of the answers and
    of later reads, and laws over whole histories of both stores. */
module StoreLaws {
  import opened Bytes
  import opened Records
  import opened Keys
  import opened MemStore
  import opened StageView
  import opened StageRefinement

  // ---- Transitions

  /** An operation after a transition: its last write, or as it was; in
      flight when the cursor says so. */
  function OpAfter(r: RunRecord, t: Transition, step: Id, h: Half): Operation {
    var was := if LastWrite(t.ops, step, h).Some? then LastWrite(t.ops, step, h).value else r.OpOf(step, h);
    if InFlight(t.cursor, step, h) then was.(status := OpUnresolved, attempts := t.cursor.attempts) else was
  }

  /** No transition changes who a Run is, or its request to cancel. */
  ghost predicate SameRunAs(r: RunRecord, s: RunRecord) {
    && r.runId == s.runId && r.pipeline == s.pipeline && r.resource == s.resource
    && r.annotations == s.annotations && r.createdAt == s.createdAt && r.cancel == s.cancel
  }

  ghost predicate FailureAfter(r: RunRecord, s: RunRecord, t: Transition) {
    r.failure == if t.failure.Some? then t.failure else s.failure
  }

  /** An ordinary transition: the cursor's fields are the record's, the writes
      its operations, and all else is as it was. */
  lemma TransitionMeans(m: MemState, id: Id, t: Transition, step: Id, h: Half)
    requires id in m.runs && !m.runs[id].Terminal() && t.outcome.None?
    ensures (var (n, answer) := DoApply(m, id, t); var r, s, c := GetRun(n, id), m.runs[id], t.cursor;
             && answer == Ok(()) && r.Ok?
             && SameRunAs(r.value, s) && FailureAfter(r.value, s, t)
             && r.value.input == s.input && r.value.output == s.output && r.value.outcome == None
             && r.value.phase == c.phase && r.value.updatedAt == c.updatedAt && r.value.startedAt == c.startedAt
             && r.value.nextAttemptAt == c.nextAttemptAt && r.value.awaiting == c.awaiting && r.value.awaited == c.awaited
             && r.value.lastError == c.lastError && r.value.lastReason == c.lastReason && r.value.lastErrorAt == c.lastErrorAt
             && r.value.OpOf(step, h) == OpAfter(s, t, step, h)
             && Lookup(n.inflight, id) == (if c.step == NoId then None else Some(c.step)) && n.slots == m.slots)
  {
    ApplyOpsKeeps(m.runs[id], t.ops);
    ReferenceOp(m.runs[id], t, step, h);
  }

  /** A committed Run keeps its identity, its times and its result, and of its
      operations only the failed unwinds; it gives up its slot. */
  lemma CommitMeans(m: MemState, id: Id, t: Transition, step: Id)
    requires id in m.runs && !m.runs[id].Terminal() && t.outcome.Some?
    ensures (var (n, answer) := DoApply(m, id, t); var r, s, c := GetRun(n, id), m.runs[id], t.cursor;
             && answer == Ok(()) && r.Ok?
             && SameRunAs(r.value, s) && FailureAfter(r.value, s, t)
             && r.value.phase == c.phase && r.value.updatedAt == c.updatedAt && r.value.startedAt == c.startedAt
             && r.value.outcome == t.outcome && r.value.output == t.output && r.value.input == []
             && r.value.nextAttemptAt == Zero && r.value.awaiting == None && r.value.awaited == None
             && r.value.lastError == [] && r.value.lastReason == [] && r.value.lastErrorAt == Zero
             && (step in r.value.steps <==> OpAfter(s, t, step, Unw).status == OpFailed)
             && (step in r.value.steps ==> r.value.steps[step] == StepRecord(NoOp, OpAfter(s, t, step, Unw)))
             && Lookup(n.inflight, id) == None
             && (forall k :: k in n.slots <==> k in m.slots && !(k == SlotKey(s.pipeline, s.resource) && m.slots[k] == id))
             && (forall k | k in n.slots :: n.slots[k] == m.slots[k]))
  {
    ApplyOpsKeeps(m.runs[id], t.ops);
    ReferenceOp(m.runs[id], t, step, Unw);
    var a := ApplyRecord(m.runs[id], t);
    assert a.OpOf(step, Unw) == OpAfter(m.runs[id], t, step, Unw);
  }

  /** Other Runs are untouched, and an error changes nothing. */
  lemma TransitionElsewhere(m: MemState, id: Id, t: Transition, x: Id)
    requires x != id
    ensures GetRun(DoApply(m, id, t).0, x) == GetRun(m, x)
    ensures Lookup(DoApply(m, id, t).0.inflight, x) == Lookup(m.inflight, x)
    ensures DoApply(m, id, t).1.Error? <==> id !in m.runs || m.runs[id].Terminal()
    ensures DoApply(m, id, t).1.Error? ==> DoApply(m, id, t).0 == m
    ensures DoApply(m, id, t).1.Error? ==> DoApply(m, id, t).1.error == if id in m.runs then ErrRunTerminal else ErrRunNotFound
  {
  }

  /** A head is its Run's record without blobs, and of its operations only the
      one in flight; of a terminal Run, without the output alone. */
  lemma HeadMeans(m: MemState, id: Id)
    requires id in m.runs
    ensures (var r, h := m.runs[id], GetRunHead(m, id);
             && h.Ok? && h.value.(input := r.input, output := r.output, steps := r.steps) == r
             && h.value.input == [] && h.value.output == []
             && (r.Terminal() ==> h.value.steps == r.steps)
             && (!r.Terminal() ==> h.value.steps.Keys == if id in m.inflight then {m.inflight[id]} else {})
             && (!r.Terminal() && id in m.inflight ==>
                   h.value.OpOf(m.inflight[id], HalfOf(r.phase)) == NoOp.(status := OpUnresolved, attempts := r.OpOf(m.inflight[id], HalfOf(r.phase)).attempts)))
  {
  }

  // ---- Creation

  /** The pipelines whose slot would block, the Run's own first. */
  function Blocking(rec: RunRecord, excluding: seq<Id>): seq<Id> {
    [rec.pipeline] + excluding
  }

  lemma {:induction false} FirstOccupantIs(slots: map<Bytes, Id>, pipelines: seq<Id>, resource: Id)
    ensures FirstOccupant(slots, pipelines, resource).None? <==> forall p | p in pipelines :: SlotKey(p, resource) !in slots
    ensures FirstOccupant(slots, pipelines, resource).Some? ==>
              exists i :: 0 <= i < |pipelines| && Blocks(slots, pipelines, resource, i, FirstOccupant(slots, pipelines, resource).value)
  {
    if pipelines != [] {
      FirstOccupantIs(slots, pipelines[1..], resource);
      assert pipelines == [pipelines[0]] + pipelines[1..];
      if SlotKey(pipelines[0], resource) in slots {
        assert Blocks(slots, pipelines, resource, 0, slots[SlotKey(pipelines[0], resource)]);
      } else if FirstOccupant(slots, pipelines, resource).Some? {
        var id := FirstOccupant(slots, pipelines, resource).value;
        var i :| 0 <= i < |pipelines[1..]| && Blocks(slots, pipelines[1..], resource, i, id);
        forall j | 0 <= j < i + 1 ensures SlotKey(pipelines[j], resource) !in slots {
          assert j > 0 ==> pipelines[j] == pipelines[1..][j - 1];
        }
        assert Blocks(slots, pipelines, resource, i + 1, id);
      }
    }
  }

  /** id holds the first occupied slot of the list. */
  ghost predicate Blocks(slots: map<Bytes, Id>, pipelines: seq<Id>, resource: Id, i: int, id: Id) {
    && 0 <= i < |pipelines| && SlotKey(pipelines[i], resource) in slots && slots[SlotKey(pipelines[i], resource)] == id
    && forall j | 0 <= j < i :: SlotKey(pipelines[j], resource) !in slots
  }

  /** A Run is created exactly when neither its own slot nor one it excludes is
      occupied; it then reads back as it was given, in its slot. Otherwise
      nothing changes and the first occupant, its own slot's before any
      other's, is reported. */
  lemma CreateMeans(m: MemState, rec: RunRecord, excluding: seq<Id>)
    requires !rec.Terminal()
    ensures (var (n, answer) := DoCreate(m, rec, excluding);
             && (answer.Created? <==> forall p | p in Blocking(rec, excluding) :: SlotKey(p, rec.resource) !in m.slots)
             && (answer.Created? ==>
                   && GetRun(n, rec.runId) == Ok(rec) && (forall x | x != rec.runId :: GetRun(n, x) == GetRun(m, x))
                   && n.slots == m.slots[SlotKey(rec.pipeline, rec.resource) := rec.runId] && n.inflight == m.inflight)
             && (!answer.Created? ==>
                   n == m && exists i, id :: Blocks(m.slots, Blocking(rec, excluding), rec.resource, i, id)
                                             && answer == if id in m.runs then Occupied(m.runs[id]) else Broken))
  {
    var all := Blocking(rec, excluding);
    FirstOccupantIs(m.slots, all, rec.resource);
    var b := FirstOccupant(m.slots, all, rec.resource);
    if b.Some? {
      var i :| 0 <= i < |all| && Blocks(m.slots, all, rec.resource, i, b.value);
    }
  }

  // ---- Cancel requests

  /** The first request is written; a later one is answered no and changes
      nothing; no request changes anything else. */
  lemma CancelMeans(m: MemState, id: Id, req: CancelRequest)
    ensures (var (n, answer) := DoCancel(m, id, req);
             && (answer == Ok(true) <==> id in m.runs && !m.runs[id].Terminal() && m.runs[id].cancel.None?)
             && (answer == Ok(true) ==> GetRun(n, id) == Ok(m.runs[id].(cancel := Some(req))))
             && (answer == Ok(false) ==> id in m.runs && m.runs[id].cancel.Some?)
             && (answer.Error? ==> answer.error == if id in m.runs then ErrRunTerminal else ErrRunNotFound)
             && (answer != Ok(true) ==> n == m)
             && (forall x | x != id :: GetRun(n, x) == GetRun(m, x)) && n.slots == m.slots && n.inflight == m.inflight)
  {
  }

  ghost predicate Reaped(es: seq<Event>, id: Id) {
    exists i :: 0 <= i < |es| && es[i].EReap? && id in es[i].victims
  }

  /** A request once accepted is what every later read shows, until the Run is
      reaped. */
  lemma {:induction false} FirstCancelStays(v: View, m: MemState, es: seq<Event>, id: Id)
    requires Coupled(v, m) && AllAdmissible(v, m, es) && id in m.runs && m.runs[id].cancel.Some? && !Reaped(es, id)
    ensures (var r := ReadRun(RunView(v, es).0, id); r.Ok? && r.value.cancel == m.runs[id].cancel)
    decreases |es|
  {
    hide Coupled, Inv, SlotsExact;
    if es == [] {
      assert Refines(v, m) by {
        CoupledRefines(v, m);
      }
      SameRun(v, m, id);
    } else {
      StepRefines(v, m, es[0]);
      CancelKept(v, m, es[0], id);
      forall i | 0 <= i < |es[1..]| && es[1..][i].EReap? ensures id !in es[1..][i].victims {
        assert es[1..][i] == es[i + 1];
      }
      FirstCancelStays(StepView(v, es[0]).0, StepMem(m, es[0]).0, es[1..], id);
    }
  }

  lemma CoupledRefines(v: View, m: MemState)
    requires Coupled(v, m)
    ensures Refines(v, m)
  {
  }

  lemma CancelKept(v: View, m: MemState, e: Event, id: Id)
    requires Admissible(v, m, e) && id in m.runs && m.runs[id].cancel.Some? && !(e.EReap? && id in e.victims)
    ensures (var n := StepMem(m, e).0; id in n.runs && n.runs[id].cancel == m.runs[id].cancel)
  {
    hide TakesOldest, TimesSound, KeepsContract, SeedOk, ApplyOps;
    match e
    case EApply(x, t) =>
      if x == id && !m.runs[id].Terminal() {
        if t.outcome.Some? {
          CommitMeans(m, id, t, NoId);
        } else {
          TransitionMeans(m, id, t, NoId, Fwd);
        }
      }
    case _ =>
  }

  // ---- Retention

  /** When each Run was committed, as its committing transition says. */
  function Dates(m: MemState, at: map<Id, Time>, e: Event): map<Id, Time> {
    if e.EApply? && e.t.outcome.Some? && e.id in m.runs && !m.runs[e.id].Terminal() then at[e.id := e.t.cursor.updatedAt] else at
  }

  ghost function Committed(m: MemState, at: map<Id, Time>, es: seq<Event>): map<Id, Time>
    decreases es
  {
    if es == [] then at else Committed(StepMem(m, es[0]).0, Dates(m, at, es[0]), es[1..])
  }

  ghost predicate Dated(m: MemState, at: map<Id, Time>) {
    forall id | id in m.runs && m.runs[id].Terminal() :: id in at && m.runs[id].updatedAt == at[id]
  }

  lemma DatedKept(v: View, m: MemState, at: map<Id, Time>, e: Event)
    requires Dated(m, at) && Admissible(v, m, e)
    ensures Dated(StepMem(m, e).0, Dates(m, at, e))
  {
    hide TakesOldest, TimesSound, KeepsContract, SeedOk, ApplyOps, Compact, ApplyCursor;
    match e
    case EApply(x, t) =>
      if x in m.runs && !m.runs[x].Terminal() {
        if t.outcome.Some? {
          CommitMeans(m, x, t, NoId);
        } else {
          TransitionMeans(m, x, t, NoId, Fwd);
        }
      }
    case _ =>
  }

  lemma {:induction false} HistoryDated(v: View, m: MemState, at: map<Id, Time>, es: seq<Event>)
    requires Coupled(v, m) && Dated(m, at) && AllAdmissible(v, m, es)
    ensures Dated(RunMem(m, es).0, Committed(m, at, es))
    decreases |es|
  {
    hide Coupled, Dated, Dates;
    if es != [] {
      StepRefines(v, m, es[0]);
      DatedKept(v, m, at, es[0]);
      HistoryDated(StepView(v, es[0]).0, StepMem(m, es[0]).0, Dates(m, at, es[0]), es[1..]);
    }
  }

  /** Retention, over every history of both stores: an ended Run shows the time
      its committing transition gave it, and a reap takes only Runs committed
      before its cutoff, as many as its limit allows of them. */
  lemma ReapsOnlyDue(es: seq<Event>, victims: set<Id>, before: Time, limit: int, id: Id)
    requires AllAdmissible(EmptyView, EmptyState, es)
    requires Admissible(RunView(EmptyView, es).0, RunMem(EmptyState, es).0, EReap(victims, before, limit))
    ensures (var v, at := RunView(EmptyView, es).0, Committed(EmptyState, map[], es); var r := ReadRun(v, id);
             && (r.Ok? && r.value.Terminal() ==> id in at && r.value.updatedAt == at[id])
             && (id in victims ==> r.Ok? && r.value.Terminal() && id in at && at[id].Before(before)))
    ensures (var m, at := RunMem(EmptyState, es).0, Committed(EmptyState, map[], es);
             |victims| == AtMost(|set x | x in m.runs && m.runs[x].Terminal() && x in at && at[x].Before(before)|, limit))
  {
    hide Dated, Committed, TakesOldest, TimesSound;
    var v, m, at := RunView(EmptyView, es).0, RunMem(EmptyState, es).0, Committed(EmptyState, map[], es);
    StartsCoupled();
    StoreRefines(EmptyView, EmptyState, es);
    HistoryDated(EmptyView, EmptyState, map[], es);
    StepRefines(v, m, EReap(victims, before, limit));
    CoupledRefines(v, m);
    SameRun(v, m, id);
    DatedIs(m, at, before);
  }

  lemma StartsCoupled()
    ensures Coupled(EmptyView, EmptyState) && Dated(EmptyState, map[])
  {
  }

  lemma DatedIs(m: MemState, at: map<Id, Time>, before: Time)
    requires Dated(m, at)
    ensures forall id | id in m.runs && m.runs[id].Terminal() :: id in at && m.runs[id].updatedAt == at[id]
    ensures Expired(m.runs, before) == set x | x in m.runs && m.runs[x].Terminal() && x in at && at[x].Before(before)
  {
  }
}
