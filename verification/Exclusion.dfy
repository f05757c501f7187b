/** Mutual exclusion between pipelines: the exclusion sets one deployment
    computes, and what admission under them keeps of the Runs in the store. */
module Exclusion {
  import opened Bytes
  import opened Records
  import opened Keys
  import opened MemStore
  import opened StageView

  /** The registered pipelines and the mutexes each declares. */
  type Mutexes = map<Id, seq<Blob>>

  predicate Shares(defs: Mutexes, p: Id, q: Id) {
    p in defs && q in defs && exists m :: m in defs[p] && m in defs[q]
  }

  predicate Excluded(defs: Mutexes, p: Id, q: Id) {
    p == q || Shares(defs, p, q)
  }

  // ---- resolveMutexes

  function HoldersOf(holders: map<Blob, seq<Id>>, m: Blob): seq<Id> {
    if m in holders then holders[m] else []
  }

  ghost predicate Holders(defs: Mutexes, done: set<Id>, holders: map<Blob, seq<Id>>) {
    forall m, p :: p in HoldersOf(holders, m) <==> p in done && p in defs && m in defs[p]
  }

  method Register(defs: Mutexes, holders: map<Blob, seq<Id>>, p: Id, ghost done: set<Id>) returns (h: map<Blob, seq<Id>>)
    requires Holders(defs, done, holders) && p in defs
    ensures Holders(defs, done + {p}, h)
  {
    h := holders;
    var i := 0;
    while i < |defs[p]|
      invariant i <= |defs[p]|
      invariant forall m, q :: q in HoldersOf(h, m) <==> q in HoldersOf(holders, m) || (q == p && m in defs[p][..i])
    {
      var m := defs[p][i];
      h := h[m := HoldersOf(h, m) + [p]];
      assert defs[p][..i + 1] == defs[p][..i] + [m];
      i := i + 1;
    }
    assert defs[p][..i] == defs[p];
  }

  ghost predicate SortedSet(defs: Mutexes, p: Id, ids: seq<Id>) {
    && (forall q :: q in ids <==> Excluded(defs, p, q))
    && (forall i, j | 0 <= i < j < |ids| :: Less(ids[i].name, ids[j].name))
  }

  function NamesOf(ids: seq<Id>): set<Bytes> {
    set i | 0 <= i < |ids| :: NameAt(ids, i)
  }

  function NameAt(ids: seq<Id>, i: int): Bytes
    requires 0 <= i < |ids|
  {
    ids[i].name
  }

  lemma NamesOfIn(ids: seq<Id>, b: Bytes)
    ensures b in NamesOf(ids) <==> 0 !in b && Id(b) in ids
  {
    if b in NamesOf(ids) {
      var i :| 0 <= i < |ids| && NameAt(ids, i) == b;
      assert ids[i] == Id(b);
    }
    if 0 !in b && Id(b) in ids {
      var i :| 0 <= i < |ids| && ids[i] == Id(b);
      assert NameAt(ids, i) == b;
    }
  }

  /** slices.Sort, then slices.Compact. */
  method SortCompact(ids: seq<Id>) returns (out: seq<Id>)
    ensures forall q :: q in out <==> q in ids
    ensures forall i, j | 0 <= i < j < |out| :: Less(out[i].name, out[j].name)
  {
    var names := Sorted(NamesOf(ids));
    out := [];
    var i := 0;
    while i < |names|
      invariant i <= |names| && |out| == i
      invariant forall j | 0 <= j < i :: out[j].name == names[j]
    {
      assert names[i] in names;
      NamesOfIn(ids, names[i]);
      out := out + [Id(names[i])];
      i := i + 1;
    }
    forall q ensures q in out <==> q in ids {
      NamesOfIn(ids, q.name);
      assert q.name in names <==> q in ids;
      if q.name in names {
        var j :| 0 <= j < |names| && names[j] == q.name;
        assert out[j] == q;
      }
      if q in out {
        var j :| 0 <= j < |out| && out[j] == q;
        assert names[j] == q.name;
      }
    }
  }

  method ResolveMutexes(defs: Mutexes) returns (excludes: map<Id, seq<Id>>)
    ensures excludes.Keys == defs.Keys
    ensures forall p | p in defs :: SortedSet(defs, p, excludes[p])
  {
    var holders: map<Blob, seq<Id>> := map[];
    var todo := defs.Keys;
    while todo != {}
      invariant todo <= defs.Keys && Holders(defs, defs.Keys - todo, holders)
      decreases todo
    {
      var p :| p in todo;
      holders := Register(defs, holders, p, defs.Keys - todo);
      assert defs.Keys - todo + {p} == defs.Keys - (todo - {p});
      todo := todo - {p};
    }
    excludes := map[];
    todo := defs.Keys;
    while todo != {}
      invariant todo <= defs.Keys && excludes.Keys == defs.Keys - todo
      invariant forall p | p in excludes :: SortedSet(defs, p, excludes[p])
      decreases todo
    {
      var p :| p in todo;
      todo := todo - {p};
      var set0 := [p];
      var i := 0;
      while i < |defs[p]|
        invariant i <= |defs[p]|
        invariant forall q :: q in set0 <==> q == p || (q in defs && exists m :: m in defs[p][..i] && m in defs[q])
      {
        var m := defs[p][i];
        assert defs[p][..i + 1] == defs[p][..i] + [m];
        set0 := set0 + HoldersOf(holders, m);
        i := i + 1;
      }
      assert defs[p][..i] == defs[p];
      var out := SortCompact(set0);
      excludes := excludes[p := out];
    }
  }

  /** Exclusion is symmetric. */
  lemma ExcludesSymmetric(defs: Mutexes, excludes: map<Id, seq<Id>>, p: Id, q: Id)
    requires excludes.Keys == defs.Keys && forall x | x in defs :: SortedSet(defs, x, excludes[x])
    requires p in defs && q in defs
    ensures q in excludes[p] <==> p in excludes[q]
  {
    SharesSymmetric(defs, p, q);
  }

  lemma SharesSymmetric(defs: Mutexes, p: Id, q: Id)
    ensures Shares(defs, p, q) <==> Shares(defs, q, p)
  {
  }

  // ---- Admission

  /** The nonterminal Runs and the slot each holds. */
  ghost function LiveRuns(m: MemState): map<Id, Bytes> {
    map id | id in m.runs && !m.runs[id].Terminal() :: SlotKey(m.runs[id].pipeline, m.runs[id].resource)
  }

  /** The slots index exactly the nonterminal Runs. */
  ghost predicate SlotsIndex(m: MemState) {
    Inverse(m.slots, LiveRuns(m))
  }

  ghost predicate Running(m: MemState, id: Id) {
    id in m.runs && !m.runs[id].Terminal()
  }

  /** Two Runs in flight on one resource that the deployment keeps apart. */
  ghost predicate Conflict(defs: Mutexes, m: MemState, a: Id, b: Id) {
    && a != b && Running(m, a) && Running(m, b)
    && m.runs[a].resource == m.runs[b].resource
    && Excluded(defs, m.runs[a].pipeline, m.runs[b].pipeline)
  }

  /** What the engine and its maintenance do to the store. */
  datatype Event =
    | Schedule(rec: RunRecord)
    | Advance(id: Id, t: Transition)
    | Cancel(id: Id, req: CancelRequest)
    | Retire(victims: set<Id>)

  ghost predicate Possible(defs: Mutexes, m: MemState, e: Event) {
    match e
    case Schedule(rec) => rec.pipeline in defs && rec.runId !in m.runs && !rec.Terminal()
    case Retire(victims) => forall id | id in victims :: id in m.runs && m.runs[id].Terminal()
    case _ => true
  }

  ghost function After(excludes: map<Id, seq<Id>>, m: MemState, e: Event): MemState {
    match e
    case Schedule(rec) => if rec.pipeline in excludes then DoCreate(m, rec, excludes[rec.pipeline]).0 else m
    case Advance(id, t) => DoApply(m, id, t).0
    case Cancel(id, req) => DoCancel(m, id, req).0
    case Retire(victims) => m.(runs := m.runs - victims)
  }

  ghost predicate Resolves(defs: Mutexes, excludes: map<Id, seq<Id>>) {
    excludes.Keys == defs.Keys && forall p | p in defs :: SortedSet(defs, p, excludes[p])
  }

  /** A vacant answer means every listed pipeline's slot is vacant. */
  lemma {:induction false} NoOccupant(slots: map<Bytes, Id>, pipelines: seq<Id>, resource: Id)
    requires FirstOccupant(slots, pipelines, resource).None?
    ensures forall p | p in pipelines :: SlotKey(p, resource) !in slots
  {
    if pipelines != [] {
      NoOccupant(slots, pipelines[1..], resource);
      assert pipelines == [pipelines[0]] + pipelines[1..];
    }
  }

  lemma CommitKeepsPlace(r: RunRecord, t: Transition)
    ensures (var n := ApplyOutcome(ApplyRecord(r, t), t);
             n.pipeline == r.pipeline && n.resource == r.resource && (n.Terminal() <==> r.Terminal() || t.outcome.Some?))
  {
    ApplyOpsKeeps(r, t.ops);
  }

  lemma ScheduleKeeps(defs: Mutexes, excludes: map<Id, seq<Id>>, m: MemState, rec: RunRecord)
    requires Resolves(defs, excludes) && SlotsIndex(m) && Possible(defs, m, Schedule(rec))
    ensures SlotsIndex(After(excludes, m, Schedule(rec)))
    ensures forall a, b :: Conflict(defs, After(excludes, m, Schedule(rec)), a, b) ==> Conflict(defs, m, a, b)
  {
    hide Inverse, SortedSet, FirstOccupant, Excluded;
    var n := After(excludes, m, Schedule(rec));
    var all := [rec.pipeline] + excludes[rec.pipeline];
    if FirstOccupant(m.slots, all, rec.resource).None? {
      NoOccupant(m.slots, all, rec.resource);
      assert rec.pipeline in all;
      NotLive(m, rec.runId);
      InverseAdd(m.slots, LiveRuns(m), SlotKey(rec.pipeline, rec.resource), rec.runId);
      assert LiveRuns(n) == LiveRuns(m)[rec.runId := SlotKey(rec.pipeline, rec.resource)];
      forall b ensures !Conflict(defs, n, rec.runId, b) && !Conflict(defs, n, b, rec.runId) {
        Apart(defs, excludes, m, rec, n, b);
      }
    }
  }

  lemma NotLive(m: MemState, id: Id)
    requires id !in m.runs
    ensures id !in LiveRuns(m)
  {
  }

  lemma Apart(defs: Mutexes, excludes: map<Id, seq<Id>>, m: MemState, rec: RunRecord, n: MemState, b: Id)
    requires Resolves(defs, excludes) && SlotsIndex(m) && rec.pipeline in defs
    requires forall p | p in [rec.pipeline] + excludes[rec.pipeline] :: SlotKey(p, rec.resource) !in m.slots
    requires n.runs == m.runs[rec.runId := rec]
    ensures !Conflict(defs, n, rec.runId, b) && !Conflict(defs, n, b, rec.runId)
  {
    if b != rec.runId && Running(m, b) && m.runs[b].resource == rec.resource {
      var q := m.runs[b].pipeline;
      assert LiveRuns(m)[b] in m.slots;
      assert q !in [rec.pipeline] + excludes[rec.pipeline];
      assert SortedSet(defs, rec.pipeline, excludes[rec.pipeline]);
      SharesSymmetric(defs, q, rec.pipeline);
    }
  }

  lemma AdvanceKeeps(defs: Mutexes, m: MemState, id: Id, t: Transition)
    requires SlotsIndex(m)
    ensures SlotsIndex(DoApply(m, id, t).0)
    ensures forall a, b :: Conflict(defs, DoApply(m, id, t).0, a, b) ==> Conflict(defs, m, a, b)
  {
    hide Inverse, ApplyRecord, ApplyOutcome, Excluded;
    var n := DoApply(m, id, t).0;
    if Running(m, id) {
      CommitKeepsPlace(m.runs[id], t);
      if t.outcome.Some? {
        InverseRemove(m.slots, LiveRuns(m), id);
        assert LiveRuns(n) == LiveRuns(m) - {id};
      } else {
        assert LiveRuns(n) == LiveRuns(m);
      }
    }
  }

  lemma CancelKeeps(defs: Mutexes, m: MemState, id: Id, req: CancelRequest)
    requires SlotsIndex(m)
    ensures SlotsIndex(DoCancel(m, id, req).0)
    ensures forall a, b :: Conflict(defs, DoCancel(m, id, req).0, a, b) ==> Conflict(defs, m, a, b)
  {
    hide Inverse, Excluded, SlotKey;
    var n := DoCancel(m, id, req).0;
    assert n.runs.Keys == m.runs.Keys && n.slots == m.slots;
    forall x | x in m.runs
      ensures n.runs[x].Terminal() == m.runs[x].Terminal() && n.runs[x].pipeline == m.runs[x].pipeline && n.runs[x].resource == m.runs[x].resource
    {
    }
    hide DoCancel;
    assert LiveRuns(n) == LiveRuns(m);
  }

  lemma RetireKeeps(defs: Mutexes, m: MemState, victims: set<Id>)
    requires SlotsIndex(m) && forall id | id in victims :: id in m.runs && m.runs[id].Terminal()
    ensures SlotsIndex(m.(runs := m.runs - victims))
    ensures forall a, b :: Conflict(defs, m.(runs := m.runs - victims), a, b) ==> Conflict(defs, m, a, b)
  {
    hide Inverse, Excluded;
    assert LiveRuns(m.(runs := m.runs - victims)) == LiveRuns(m);
  }

  /** One event: the slots stay exact, and no conflict appears. */
  lemma EventKeeps(defs: Mutexes, excludes: map<Id, seq<Id>>, m: MemState, e: Event)
    requires Resolves(defs, excludes) && SlotsIndex(m) && Possible(defs, m, e)
    ensures SlotsIndex(After(excludes, m, e))
    ensures forall a, b :: Conflict(defs, After(excludes, m, e), a, b) ==> Conflict(defs, m, a, b)
  {
    hide Inverse, Excluded, DoApply, DoCreate, FirstOccupant, SortedSet;
    match e
    case Schedule(rec) => ScheduleKeeps(defs, excludes, m, rec);
    case Advance(id, t) => AdvanceKeeps(defs, m, id, t);
    case Cancel(id, req) => CancelKeeps(defs, m, id, req);
    case Retire(victims) => RetireKeeps(defs, m, victims);
  }

  // ---- Deployments

  ghost predicate AllPossible(defs: Mutexes, excludes: map<Id, seq<Id>>, m: MemState, es: seq<Event>)
    decreases |es|
  {
    es == [] || (Possible(defs, m, es[0]) && AllPossible(defs, excludes, After(excludes, m, es[0]), es[1..]))
  }

  ghost function Ran(excludes: map<Id, seq<Id>>, m: MemState, es: seq<Event>): MemState
    decreases |es|
  {
    if es == [] then m else Ran(excludes, After(excludes, m, es[0]), es[1..])
  }

  /** Under one deployment the conflicting pairs only shrink, whatever an
      earlier deployment had let in. */
  lemma {:induction false} ConflictsShrink(defs: Mutexes, excludes: map<Id, seq<Id>>, m: MemState, es: seq<Event>)
    requires Resolves(defs, excludes) && SlotsIndex(m) && AllPossible(defs, excludes, m, es)
    ensures SlotsIndex(Ran(excludes, m, es))
    ensures forall a, b :: Conflict(defs, Ran(excludes, m, es), a, b) ==> Conflict(defs, m, a, b)
    decreases |es|
  {
    if es != [] {
      EventKeeps(defs, excludes, m, es[0]);
      ConflictsShrink(defs, excludes, After(excludes, m, es[0]), es[1..]);
    }
  }

  /** From an empty store no two Runs that exclude each other ever meet on a
      resource. */
  lemma NeverTogether(defs: Mutexes, excludes: map<Id, seq<Id>>, es: seq<Event>, a: Id, b: Id)
    requires Resolves(defs, excludes) && AllPossible(defs, excludes, EmptyState, es)
    ensures !Conflict(defs, Ran(excludes, EmptyState, es), a, b)
  {
    ConflictsShrink(defs, excludes, EmptyState, es);
  }

  /** A redeploy that adds a mutex may find two Runs together that it would
      not have admitted; they are let finish. */
  lemma RedeployMayConflict(a: RunRecord, b: RunRecord, mutex: Blob)
    requires a.pipeline != b.pipeline && a.resource == b.resource && a.runId != b.runId && !a.Terminal() && !b.Terminal()
    ensures (var apart: Mutexes := map[a.pipeline := [], b.pipeline := []];
             var shared: Mutexes := map[a.pipeline := [mutex], b.pipeline := [mutex]];
             var ex := map[a.pipeline := [a.pipeline], b.pipeline := [b.pipeline]];
             Resolves(apart, ex) && AllPossible(apart, ex, EmptyState, [Schedule(a), Schedule(b)])
             && Conflict(shared, Ran(ex, EmptyState, [Schedule(a), Schedule(b)]), a.runId, b.runId))
  {
    var apart: Mutexes := map[a.pipeline := [], b.pipeline := []];
    var shared: Mutexes := map[a.pipeline := [mutex], b.pipeline := [mutex]];
    var ex := map[a.pipeline := [a.pipeline], b.pipeline := [b.pipeline]];
    forall p | p in apart ensures SortedSet(apart, p, ex[p]) {
      LessIrreflexive(p.name);
    }
    var m := After(ex, EmptyState, Schedule(a));
    assert [Schedule(a), Schedule(b)][1..] == [Schedule(b)] && [Schedule(b)][1..] == [];
    SlotKeyInjective(a.pipeline, a.resource, b.pipeline, b.resource);
    Vacant(map[], a.pipeline, a.resource);
    Vacant(m.slots, b.pipeline, b.resource);
    var n := After(ex, m, Schedule(b));
    assert Ran(ex, EmptyState, [Schedule(a), Schedule(b)]) == Ran(ex, m, [Schedule(b)]) == Ran(ex, n, []) == n;
    assert n.runs == map[a.runId := a, b.runId := b];
    assert mutex in shared[a.pipeline] && mutex in shared[b.pipeline];
    assert AllPossible(apart, ex, n, []);
    assert AllPossible(apart, ex, m, [Schedule(b)]);
  }

  lemma Vacant(slots: map<Bytes, Id>, p: Id, r: Id)
    requires SlotKey(p, r) !in slots
    ensures FirstOccupant(slots, [p] + [p], r).None?
  {
    assert ([p] + [p])[1..] == [p] && [p][1..] == [];
    assert FirstOccupant(slots, [], r).None?;
    assert FirstOccupant(slots, [p], r).None?;
  }
}
