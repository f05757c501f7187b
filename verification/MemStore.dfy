/** store/mem: the in-memory store, the executable reference of the store
    contract. The functions say what each operation does to the three maps;
    the class does it in place. */
module MemStore {
  import opened Bytes
  import opened Records
  import opened Keys

  datatype Err = ErrRunNotFound | ErrRunTerminal | ErrAlreadyWritten

  datatype Result<+T> = Ok(value: T) | Error(error: Err)

  datatype CreateResult =
    | Created
    | Occupied(existing: RunRecord)
    | Broken  // the slot names a Run that is not there

  datatype MemState = MemState(runs: map<Id, RunRecord>, slots: map<Bytes, Id>, inflight: map<Id, Id>)

  const EmptyState := MemState(map[], map[], map[])

  // ---- One record

  function ApplyOps(r: RunRecord, ops: seq<OpWrite>): RunRecord {
    if ops == [] then r
    else
      var n := |ops| - 1;
      ApplyOps(r, ops[..n]).WithOp(ops[n].step, ops[n].half, ops[n].op)
  }

  /** The cursor's operation, unresolved with the cursor's attempts. */
  function Overlaid(op: Operation, attempts: nat): Operation {
    op.(status := OpUnresolved, attempts := attempts)
  }

  function CursorFields(r: RunRecord, c: Cursor): RunRecord {
    r.(phase := c.phase, nextAttemptAt := c.nextAttemptAt, lastError := c.lastError,
       lastReason := c.lastReason, lastErrorAt := c.lastErrorAt, awaiting := c.awaiting,
       awaited := c.awaited, updatedAt := c.updatedAt, startedAt := c.startedAt)
  }

  function ApplyCursor(r: RunRecord, c: Cursor): RunRecord {
    if c.step == NoId then CursorFields(r, c)
    else CursorFields(r, c).WithOp(c.step, HalfOf(c.phase), Overlaid(r.OpOf(c.step, HalfOf(c.phase)), c.attempts))
  }

  /** The record after a transition, before any terminal compaction. */
  function ApplyRecord(r: RunRecord, t: Transition): RunRecord {
    var s := ApplyCursor(ApplyOps(r, t.ops), t.cursor);
    if t.failure.Some? then s.(failure := t.failure) else s
  }

  function ApplyOutcome(r: RunRecord, t: Transition): RunRecord {
    if t.outcome.None? then r else Compact(r.(outcome := t.outcome, output := t.output))
  }

  /** What GetRunHead returns: no blobs, and for a nonterminal Run only the
      cursor's operation among the steps. */
  function Head(r: RunRecord, inflight: Option<Id>): RunRecord {
    var h := r.(input := [], output := []);
    if h.Terminal() then h
    else if inflight.None? then h.(steps := map[])
    else
      var half := HalfOf(r.phase);
      h.(steps := map[]).WithOp(inflight.value, half, Overlaid(NoOp, r.OpOf(inflight.value, half).attempts))
  }

  // ---- The store

  function Lookup<K, V>(m: map<K, V>, k: K): Option<V> {
    if k in m then Some(m[k]) else None
  }

  function FirstOccupant(slots: map<Bytes, Id>, pipelines: seq<Id>, resource: Id): Option<Id> {
    if pipelines == [] then None
    else if SlotKey(pipelines[0], resource) in slots then Some(slots[SlotKey(pipelines[0], resource)])
    else FirstOccupant(slots, pipelines[1..], resource)
  }

  function DoCreate(m: MemState, rec: RunRecord, excluding: seq<Id>): (MemState, CreateResult) {
    var blocker := FirstOccupant(m.slots, [rec.pipeline] + excluding, rec.resource);
    if blocker.Some? then
      (m, if blocker.value in m.runs then Occupied(m.runs[blocker.value]) else Broken)
    else
      (m.(runs := m.runs[rec.runId := if rec.Terminal() then Compact(rec) else rec],
          slots := m.slots[SlotKey(rec.pipeline, rec.resource) := rec.runId]),
       Created)
  }

  function ReleaseSlot(slots: map<Bytes, Id>, key: Bytes, id: Id): map<Bytes, Id> {
    if key in slots && slots[key] == id then slots - {key} else slots
  }

  function DoApply(m: MemState, id: Id, t: Transition): (MemState, Result<()>) {
    if id !in m.runs then (m, Error(ErrRunNotFound))
    else if m.runs[id].Terminal() then (m, Error(ErrRunTerminal))
    else
      var r := ApplyOutcome(ApplyRecord(m.runs[id], t), t);
      var inflight :=
        if t.outcome.None? && t.cursor.step != NoId then m.inflight[id := t.cursor.step] else m.inflight - {id};
      var slots := if t.outcome.None? then m.slots else ReleaseSlot(m.slots, SlotKey(r.pipeline, r.resource), id);
      (MemState(m.runs[id := r], slots, inflight), Ok(()))
  }

  function DoCancel(m: MemState, id: Id, req: CancelRequest): (MemState, Result<bool>) {
    if id !in m.runs then (m, Error(ErrRunNotFound))
    else if m.runs[id].Terminal() then (m, Error(ErrRunTerminal))
    else if m.runs[id].cancel.Some? then (m, Ok(false))
    else (m.(runs := m.runs[id := m.runs[id].(cancel := Some(req))]), Ok(true))
  }

  function GetRun(m: MemState, id: Id): Result<RunRecord> {
    if id in m.runs then Ok(m.runs[id]) else Error(ErrRunNotFound)
  }

  function GetRunHead(m: MemState, id: Id): Result<RunRecord> {
    if id in m.runs then Ok(Head(m.runs[id], Lookup(m.inflight, id))) else Error(ErrRunNotFound)
  }

  predicate IsExpired(r: RunRecord, before: Time) {
    r.Terminal() && r.updatedAt.Before(before)
  }

  function Expired(runs: map<Id, RunRecord>, before: Time): set<Id> {
    set id | id in runs && IsExpired(runs[id], before)
  }

  function AtMost(n: int, limit: int): int {
    if limit <= 0 then 0 else if n <= limit then n else limit
  }

  /** ReapTerminal's promise: as many expired terminal Runs as the limit
      allows, whichever they are, and nothing else. */
  ghost predicate ReapAllowed(runs: map<Id, RunRecord>, victims: set<Id>, before: Time, limit: int) {
    && victims <= Expired(runs, before)
    && |victims| == AtMost(|Expired(runs, before)|, limit)
  }

  function Nonterminal(runs: map<Id, RunRecord>, inflight: map<Id, Id>): map<Id, RunRecord> {
    map id | id in runs && !runs[id].Terminal() :: Head(runs[id], Lookup(inflight, id))
  }

  /** out lists every entry of heads once. */
  ghost predicate Lists(out: seq<RunRecord>, heads: map<Id, RunRecord>) {
    && (forall i, j | 0 <= i < j < |out| :: out[i].runId != out[j].runId)
    && (forall i | 0 <= i < |out| :: out[i].runId in heads && heads[out[i].runId] == out[i])
    && (forall id | id in heads :: heads[id] in out)
  }

  ghost predicate WellKeyed(m: MemState) {
    forall id | id in m.runs :: m.runs[id].runId == id
  }

  class Store {
    var runs: map<Id, RunRecord>
    var slots: map<Bytes, Id>
    var inflight: map<Id, Id>

    ghost function View(): MemState
      reads this
    {
      MemState(runs, slots, inflight)
    }

    constructor ()
      ensures View() == EmptyState
    {
      runs, slots, inflight := map[], map[], map[];
    }

    method CreateRun(rec: RunRecord, excluding: seq<Id>) returns (r: CreateResult)
      modifies this
      ensures (View(), r) == DoCreate(old(View()), rec, excluding)
    {
      var key := SlotKey(rec.pipeline, rec.resource);
      if key in slots {
        r := if slots[key] in runs then Occupied(runs[slots[key]]) else Broken;
        return;
      }
      assert ([rec.pipeline] + excluding)[1..] == excluding;
      var i := 0;
      while i < |excluding|
        invariant i <= |excluding|
        invariant View() == old(View())
        invariant FirstOccupant(slots, excluding, rec.resource) == FirstOccupant(slots, excluding[i..], rec.resource)
      {
        var k := SlotKey(excluding[i], rec.resource);
        if k in slots {
          r := if slots[k] in runs then Occupied(runs[slots[k]]) else Broken;
          return;
        }
        assert excluding[i..][1..] == excluding[i + 1..];
        i := i + 1;
      }
      runs := runs[rec.runId := if rec.Terminal() then Compact(rec) else rec];
      slots := slots[key := rec.runId];
      r := Created;
    }

    method ApplyTransition(id: Id, t: Transition) returns (r: Result<()>)
      modifies this
      ensures (View(), r) == DoApply(old(View()), id, t)
    {
      if id !in runs {
        return Error(ErrRunNotFound);
      }
      var rec := runs[id];
      if rec.Terminal() {
        return Error(ErrRunTerminal);
      }
      rec := WriteOps(rec, t.ops);
      var c := t.cursor;
      rec := rec.(phase := c.phase, nextAttemptAt := c.nextAttemptAt, lastError := c.lastError,
                  lastReason := c.lastReason, lastErrorAt := c.lastErrorAt, awaiting := c.awaiting,
                  awaited := c.awaited, updatedAt := c.updatedAt, startedAt := c.startedAt);
      inflight := inflight - {id};
      if c.step != NoId {
        var op := rec.OpOf(c.step, HalfOf(c.phase));
        rec := rec.WithOp(c.step, HalfOf(c.phase), op.(status := OpUnresolved, attempts := c.attempts));
        inflight := inflight[id := c.step];
        assert inflight == old(inflight)[id := c.step];
      }
      assert rec == ApplyCursor(ApplyOps(old(runs)[id], t.ops), c);
      if t.failure.Some? {
        rec := rec.(failure := t.failure);
      }
      if t.outcome.Some? {
        rec := rec.(outcome := t.outcome, output := t.output);
        var key := SlotKey(rec.pipeline, rec.resource);
        if key in slots && slots[key] == id {
          slots := slots - {key};
        }
        inflight := inflight - {id};
        assert inflight == old(inflight) - {id};
        rec := CompactTerminal(rec);
      }
      runs := runs[id := rec];
      r := Ok(());
    }

    method RequestCancel(id: Id, req: CancelRequest) returns (r: Result<bool>)
      modifies this
      ensures (View(), r) == DoCancel(old(View()), id, req)
    {
      if id !in runs {
        return Error(ErrRunNotFound);
      }
      if runs[id].Terminal() {
        return Error(ErrRunTerminal);
      }
      if runs[id].cancel.Some? {
        return Ok(false);
      }
      runs := runs[id := runs[id].(cancel := Some(req))];
      r := Ok(true);
    }

    method ReapTerminal(before: Time, limit: int) returns (deleted: int, ghost victims: set<Id>)
      modifies this
      ensures ReapAllowed(old(runs), victims, before, limit)
      ensures deleted == |victims|
      ensures View() == old(View()).(runs := old(runs) - victims)
    {
      runs, deleted, victims := DeleteExpired(runs, before, limit);
    }

    method ListNonterminal() returns (out: seq<RunRecord>)
      requires WellKeyed(View())
      ensures Lists(out, Nonterminal(runs, inflight))
    {
      out := Heads(runs, inflight);
    }
  }

  method WriteOps(r: RunRecord, ops: seq<OpWrite>) returns (rec: RunRecord)
    ensures rec == ApplyOps(r, ops)
  {
    rec := r;
    var i := 0;
    while i < |ops|
      invariant i <= |ops|
      invariant rec == ApplyOps(r, ops[..i])
    {
      assert ops[..i + 1][..i] == ops[..i];
      rec := rec.WithOp(ops[i].step, ops[i].half, ops[i].op);
      i := i + 1;
    }
    assert ops[..i] == ops;
  }

  /** ReapTerminal's loop; the runs are visited in whatever order the map
      gives them. */
  method DeleteExpired(runs: map<Id, RunRecord>, before: Time, limit: int)
    returns (left: map<Id, RunRecord>, deleted: int, ghost victims: set<Id>)
    ensures ReapAllowed(runs, victims, before, limit)
    ensures deleted == |victims|
    ensures left == runs - victims
  {
    hide Expired, IsExpired;
    ExpiredWithin(runs, before);
    deleted, victims, left := 0, {}, runs;
    ghost var all := Expired(runs, before);
    var todo := runs.Keys;
    while todo != {} && deleted < limit
      invariant todo <= runs.Keys
      invariant victims == all - todo
      invariant deleted == |victims| && (deleted <= limit || deleted == 0)
      invariant left == runs - victims
      decreases todo
    {
      var id :| id in todo;
      ExpiredIs(runs, before, id);
      ExpiredLeft(all, todo, id);
      todo := todo - {id};
      if IsExpired(runs[id], before) {
        MinusOne(runs, victims, id);
        left := left - {id};
        victims := victims + {id};
        deleted := deleted + 1;
      }
    }
    SubsetSize(victims, all);
    assert todo == {} ==> victims == all;
  }

  /** ListNonterminal's loop: the heads of all nonterminal Runs, in whatever
      order the map gives them. */
  method Heads(runs: map<Id, RunRecord>, inflight: map<Id, Id>) returns (out: seq<RunRecord>)
    requires forall id | id in runs :: runs[id].runId == id
    ensures Lists(out, Nonterminal(runs, inflight))
  {
    out := [];
    ghost var heads := Nonterminal(runs, inflight);
    ghost var listed: map<Id, RunRecord> := map[];
    var todo := runs.Keys;
    while todo != {}
      invariant todo <= runs.Keys
      invariant listed == heads - todo
      invariant Lists(out, listed)
      decreases todo
    {
      var id :| id in todo;
      assert todo - {id} + {id} == todo;
      todo := todo - {id};
      if !runs[id].Terminal() {
        var h := Head(runs[id], Lookup(inflight, id));
        ListsAdd(out, listed, id, h);
        out := out + [h];
        listed := listed[id := h];
      }
      MinusLess(heads, todo, id);
    }
    assert heads - {} == heads;
  }

  lemma ExpiredWithin(runs: map<Id, RunRecord>, before: Time)
    ensures Expired(runs, before) <= runs.Keys
  {
  }

  lemma ExpiredIs(runs: map<Id, RunRecord>, before: Time, id: Id)
    requires id in runs
    ensures id in Expired(runs, before) <==> IsExpired(runs[id], before)
  {
  }

  lemma ExpiredLeft(all: set<Id>, todo: set<Id>, id: Id)
    requires id in todo
    ensures all - (todo - {id}) == if id in all then all - todo + {id} else all - todo
    ensures id !in all - todo
  {
  }

  lemma MinusOne<K, V>(m: map<K, V>, s: set<K>, k: K)
    ensures m - s - {k} == m - (s + {k})
  {
  }

  lemma MinusLess<K, V>(m: map<K, V>, s: set<K>, k: K)
    requires k !in s
    ensures m - s == if k in m then (m - (s + {k}))[k := m[k]] else m - (s + {k})
  {
  }

  lemma ListsAdd(out: seq<RunRecord>, heads: map<Id, RunRecord>, id: Id, h: RunRecord)
    requires Lists(out, heads) && id !in heads && h.runId == id
    ensures Lists(out + [h], heads[id := h])
  {
    var l := out + [h];
    assert l[|out|] == h;
    assert forall x | x in out :: x in l;
  }

  lemma SubsetSize<T>(a: set<T>, b: set<T>)
    requires a <= b
    ensures |a| <= |b|
    ensures |a| == |b| ==> a == b
  {
    assert b == a + (b - a);
    assert |b| == |a| + |b - a|;
  }
}
