/** store/bbolt with its two blob caches: what the store writes through them
    keeps every cached blob equal to the file's, so a read is the same
    cached, evicted or cold. */
module CachedStore {
  import opened Bytes
  import opened Records
  import MemStore
  import opened StageView
  import opened StageRefinement
  import opened BlobCache
  import BboltStore

  // ---- Coherence

  /** The entry holds nothing but the Run's own blobs. */
  ghost predicate OwnBlobs(s: Stored, b: Blobs) {
    && (b.input == [] || b.input == s.input)
    && forall step | step in b.states && OpId(step, Fwd) in s.ops :: s.ops[OpId(step, Fwd)].state == b.states[step]
  }

  ghost predicate BlobsCoherent(v: View, entries: map<Id, Blobs>) {
    forall id | id in entries && id in v.stored && id !in v.done :: OwnBlobs(v.stored[id], entries[id])
  }

  ghost predicate OutputsCoherent(v: View, entries: map<Id, Blobs>) {
    forall id | id in entries && entries[id].output != [] :: id in v.done && entries[id].output == v.done[id].output
  }

  /** Fewer or the same entries. */
  ghost predicate Sub(a: map<Id, Blobs>, b: map<Id, Blobs>) {
    forall id | id in a :: id in b && a[id] == b[id]
  }

  lemma {:induction false} TrimSub(c: Cache)
    ensures Sub(Trim(c).entries, c.entries)
    decreases |c.order|
  {
    if c.size > c.limit && c.order != [] && c.order[|c.order| - 1] in c.entries {
      TrimSub(DropLast(c));
    }
  }

  /** What each write leaves in the index: at most the other entries and the
      Run's own, changed as asked. */
  lemma SetInputEntries(c: Cache, id: Id, input: Blob)
    ensures (var b := if id in c.entries then c.entries[id] else NoBlobs;
             var d := SetInput(c, id, input).entries;
             if input == [] || c.limit <= 0 then d == c.entries else Sub(d, c.entries[id := b.(input := input, size := b.size - |b.input| + |input|)]))
  {
    if input != [] && c.limit > 0 {
      var t := Touch(c, id);
      var b := t.entries[id];
      TrimSub(Put(t, id, b.(input := input, size := b.size - |b.input| + |input|)));
    }
  }

  lemma SetOutputEntries(c: Cache, id: Id, output: Blob)
    ensures (var b := if id in c.entries then c.entries[id] else NoBlobs;
             var d := SetOutput(c, id, output).entries;
             if output == [] || c.limit <= 0 then d == c.entries else Sub(d, c.entries[id := b.(output := output, size := b.size - |b.output| + |output|)]))
  {
    if output != [] && c.limit > 0 {
      var t := Touch(c, id);
      var b := t.entries[id];
      TrimSub(Put(t, id, b.(output := output, size := b.size - |b.output| + |output|)));
    }
  }

  lemma SetStateEntries(c: Cache, id: Id, step: Id, state: Blob)
    ensures (var d := SetState(c, id, step, state).entries;
             if c.limit <= 0 then d == c.entries
             else
               && (forall x | x in d && x != id :: x in c.entries && d[x] == c.entries[x])
               && (id in d ==>
                     var b := if id in c.entries then c.entries[id] else NoBlobs;
                     d[id].input == b.input && d[id].states == if state == [] then b.states - {step} else (b.states - {step})[step := state]))
  {
    if c.limit > 0 {
      var t := Touch(c, id);
      var e := t.entries[id];
      var b := WithoutState(e, step);
      assert b.states == e.states - {step};
      if state != [] {
        TrimSub(Put(t, id, b.(states := b.states[step := state], size := b.size + |state|)));
      }
    }
  }

  lemma FillEntries(c: Cache, id: Id, b: Blobs)
    ensures Sub(Fill(c, id, b).entries, if id in c.entries then c.entries else c.entries[id := b.(size := BytesOf(b))])
  {
    if BytesOf(b) != 0 && c.limit > 0 && id !in c.entries {
      TrimSub(PushFront(c, id, b.(size := BytesOf(b))));
    }
  }

  // ---- Reads

  /** getNonterminal with the Run's entry: its blobs stand in for the file's. */
  function Overlay(r: RunRecord, b: Blobs, max: nat): RunRecord {
    r.(input := if b.input != [] then b.input else r.input,
       steps := map id | id in r.steps ::
         if id in b.states && |r.steps[id].forward.state| > max then r.steps[id].(forward := r.steps[id].forward.(state := b.states[id])) else r.steps[id])
  }

  /** What a cold read fills the entry with. */
  function ReadBlobs(r: RunRecord, max: nat): Blobs {
    Blobs(r.input, map id | id in r.steps && |r.steps[id].forward.state| > max :: r.steps[id].forward.state, [], 0)
  }

  /** A cached state is the assembled record's. */
  lemma AssembledState(s: Stored, step: Id)
    ensures step in Assemble(s).steps && |Assemble(s).steps[step].forward.state| > 0 ==>
              OpId(step, Fwd) in s.ops && s.ops[OpId(step, Fwd)].state == Assemble(s).steps[step].forward.state
    ensures OpId(step, Fwd) in s.ops ==> step in Assemble(s).steps && Assemble(s).steps[step].forward.state == s.ops[OpId(step, Fwd)].state
  {
    AssembledOp(s, step, Fwd);
  }

  /** A read through a coherent entry is the file's record. */
  lemma CachedReadIsFile(s: Stored, b: Blobs, max: nat)
    requires OwnBlobs(s, b)
    ensures Overlay(Assemble(s), b, max) == Assemble(s)
  {
    var r := Assemble(s);
    assert r.input == s.input by {
      CursorKeeps(Base(s), s.cursor);
    }
    forall id | id in r.steps ensures Overlay(r, b, max).steps[id] == r.steps[id] {
      AssembledState(s, id);
    }
    assert Overlay(r, b, max).steps == r.steps;
  }

  lemma ReadBlobsOwn(s: Stored, max: nat, size: int)
    ensures OwnBlobs(s, ReadBlobs(Assemble(s), max).(size := size))
  {
    CursorKeeps(Base(s), s.cursor);
    var b := ReadBlobs(Assemble(s), max);
    forall step | step in b.states ensures OpId(step, Fwd) in s.ops && s.ops[OpId(step, Fwd)].state == b.states[step] {
      AssembledState(s, step);
    }
  }

  // ---- Writes

  /** A forward row written with a state beside it caches that state; one
      written without drops whatever the step had. */
  lemma StateWritten(s: Stored, entries: map<Id, Blobs>, c: Cache, id: Id, w: OpWrite, max: nat)
    requires id in c.entries ==> OwnBlobs(s, c.entries[id])
    requires c.limit <= 0 ==> c.entries == map[]
    requires entries == (if w.half.Fwd? then SetState(c, id, w.step, if |w.op.state| > max then w.op.state else []).entries else c.entries)
    ensures id in entries ==> OwnBlobs(s.(ops := s.ops[OpId(w.step, w.half) := w.op]), entries[id])
    ensures forall x | x in entries && x != id :: x in c.entries && entries[x] == c.entries[x]
  {
    SetStateEntries(c, id, w.step, if |w.op.state| > max then w.op.state else []);
  }

  /** A cache without a limit is empty. */
  lemma NoLimitEmpty(c: Cache)
    requires Sound(c)
    ensures c.limit <= 0 ==> c.entries == map[]
  {
    assert forall id | id in c.entries :: id in c.order;
  }

  /** What the loop over a transition's forward writes leaves cached. */
  function WritesCached(c: Cache, id: Id, ops: seq<OpWrite>, max: nat): Cache {
    if ops == [] then c
    else
      var n := |ops| - 1;
      var d := WritesCached(c, id, ops[..n], max);
      if ops[n].half.Fwd? then SetState(d, id, ops[n].step, if |ops[n].op.state| > max then ops[n].op.state else []) else d
  }

  /** What a created Run leaves cached: its input, then the states beside
      their rows, in the order the map yields the steps. */
  function SeedCached(c: Cache, rec: RunRecord, order: seq<Id>, max: nat): Cache
    requires forall step | step in order :: step in rec.steps
  {
    if order == [] then SetInput(c, rec.runId, rec.input)
    else
      var n := |order| - 1;
      var d, state := SeedCached(c, rec, order[..n], max), rec.steps[order[n]].forward.state;
      if |state| > max then SetState(d, rec.runId, order[n], state) else d
  }

  ghost predicate Enumerates(order: seq<Id>, keys: set<Id>) {
    && (forall id :: id in order <==> id in keys)
    && forall i, j | 0 <= i < j < |order| :: order[i] != order[j]
  }

  /** What a terminal read leaves of the outputs, and a live one of the
      blobs. */
  ghost function OutputRead(c: Cache, id: Id, output: Blob, max: nat): Cache {
    if |output| <= max then c
    else if Entry(c, id).output != [] then LookedUp(c, id)
    else Fill(LookedUp(c, id), id, NoBlobs.(output := output))
  }

  ghost function StageRead(c: Cache, id: Id, file: RunRecord, max: nat): Cache {
    if id in c.entries then LookedUp(c, id) else Fill(c, id, ReadBlobs(file, max))
  }

  ghost predicate Others(a: map<Id, Blobs>, b: map<Id, Blobs>, id: Id) {
    forall x | x in a && x != id :: x in b && a[x] == b[x]
  }

  /** The loop over a transition's writes. */
  method CacheWrites(blobs: LRU, id: Id, ops: seq<OpWrite>, max: nat, ghost s: Stored)
    requires Sound(blobs.View()) && (id in blobs.byId ==> OwnBlobs(s, blobs.byId[id]))
    modifies blobs
    ensures Sound(blobs.View()) && blobs.View() == WritesCached(old(blobs.View()), id, ops, max)
    ensures id in blobs.byId ==> OwnBlobs(s.(ops := PutOps(s.ops, ops)), blobs.byId[id])
    ensures Others(blobs.byId, old(blobs.byId), id)
  {
    hide Sound, SetState, OwnBlobs;
    var i := 0;
    while i < |ops|
      invariant i <= |ops| && Sound(blobs.View()) && blobs.View() == WritesCached(old(blobs.View()), id, ops[..i], max)
      invariant id in blobs.byId ==> OwnBlobs(s.(ops := PutOps(s.ops, ops[..i])), blobs.byId[id])
      invariant Others(blobs.byId, old(blobs.byId), id)
    {
      assert ops[..i + 1][..i] == ops[..i];
      ghost var c := blobs.View();
      NoLimitEmpty(c);
      var w := ops[i];
      if w.half.Fwd? {
        blobs.SetStateOf(id, w.step, if |w.op.state| > max then w.op.state else []);
      }
      StateWritten(s.(ops := PutOps(s.ops, ops[..i])), blobs.byId, c, id, w, max);
      i := i + 1;
    }
    assert ops[..i] == ops;
  }

  /** The loop over a seeded record's steps: its input, then the states kept
      beside their rows. */
  method CacheSeed(blobs: LRU, rec: RunRecord, max: nat) returns (ghost order: seq<Id>)
    requires Sound(blobs.View()) && rec.runId !in blobs.byId
    modifies blobs
    ensures Sound(blobs.View())
    ensures Enumerates(order, rec.steps.Keys) && blobs.View() == SeedCached(old(blobs.View()), rec, order, max)
    ensures rec.runId in blobs.byId ==> OwnBlobs(Seed(rec), blobs.byId[rec.runId])
    ensures Others(blobs.byId, old(blobs.byId), rec.runId)
  {
    hide Sound, SetState, SetInput, StateBytes;
    var id := rec.runId;
    SetInputEntries(blobs.View(), id, rec.input);
    blobs.SetInputOf(id, rec.input);
    var todo := rec.steps.Keys;
    order := [];
    while todo != {}
      invariant todo <= rec.steps.Keys && Sound(blobs.View())
      invariant Enumerates(order, rec.steps.Keys - todo) && blobs.View() == SeedCached(old(blobs.View()), rec, order, max)
      invariant id in blobs.byId ==> OwnBlobs(Seed(rec), blobs.byId[id])
      invariant Others(blobs.byId, old(blobs.byId), id)
      decreases todo
    {
      var step :| step in todo;
      assert (order + [step])[..|order|] == order;
      order := order + [step];
      todo := todo - {step};
      var state := rec.steps[step].forward.state;
      if |state| > max {
        SeedOpsIn(rec.steps, OpId(step, Fwd));
        assert rec.steps[step].Get(Fwd) == rec.steps[step].forward;
        SetStateEntries(blobs.View(), id, step, state);
        NoLimitEmpty(blobs.View());
        blobs.SetStateOf(id, step, state);
      }
    }
  }

  method DropVictims(outputs: LRU, victims: set<Id>)
    requires Sound(outputs.View())
    modifies outputs
    ensures Sound(outputs.View())
    ensures outputs.byId == old(outputs.byId) - victims
  {
    hide Sound;
    var todo := victims;
    while todo != {}
      invariant todo <= victims && Sound(outputs.View())
      invariant outputs.byId == old(outputs.byId) - (victims - todo)
      decreases todo
    {
      var id :| id in todo;
      todo := todo - {id};
      DropSound(outputs.View(), id);
      outputs.DropRun(id);
    }
  }

  // ---- The store

  class Store {
    const db: BboltStore.Store
    const blobs: LRU
    const outputs: LRU
    /** Every Run this store has seen. */
    ghost var used: set<Id>

    ghost predicate Valid()
      reads this, db, blobs, outputs
    {
      && db.Valid() && blobs != outputs
      && Sound(blobs.View()) && Sound(outputs.View())
      && BlobsCoherent(db.view, blobs.byId)
      && OutputsCoherent(db.view, outputs.byId)
      && db.view.stored.Keys + db.view.done.Keys + blobs.byId.Keys <= used
    }

    constructor (blobRowMax: nat, blobCache: int, outputCache: int)
      ensures Valid() && db.view == EmptyView && used == {}
    {
      db := new BboltStore.Store(blobRowMax);
      blobs := new LRU(blobCache);
      outputs := new LRU(outputCache);
      used := {};
    }

    /** Whatever the caches hold, the file's record. */
    method GetRun(id: Id) returns (r: MemStore.Result<RunRecord>)
      requires Valid()
      modifies blobs, outputs
      ensures Valid() && r == ReadRun(db.view, id)
      ensures outputs.View() == if r.Ok? && r.value.Terminal() then OutputRead(old(outputs.View()), id, r.value.output, db.blobRowMax) else old(outputs.View())
      ensures blobs.View() == if r.Ok? && !r.value.Terminal() then StageRead(old(blobs.View()), id, r.value, db.blobRowMax) else old(blobs.View())
    {
      hide Sound, BboltStore.BucketsRep, Touch, Fill, LookedUp;
      r := db.GetRun(id);
      if r.Error? {
        return;
      }
      var rec := r.value;
      if rec.Terminal() {
        r := ReadTerminal(id, rec);
      } else {
        r := ReadStage(id, rec);
      }
    }

    method ReadTerminal(id: Id, file: RunRecord) returns (r: MemStore.Result<RunRecord>)
      requires Valid() && ReadRun(db.view, id) == MemStore.Ok(file) && file.Terminal()
      modifies outputs
      ensures Valid() && r == MemStore.Ok(file)
      ensures outputs.View() == OutputRead(old(outputs.View()), id, file.output, db.blobRowMax)
    {
      hide Sound, BboltStore.BucketsRep, Touch, Fill, LookedUp;
      StageTerminal(db.view, id);
      var rec := file;
      if |file.output| > db.blobRowMax {
        LookedUpSound(outputs.View(), id);
        var e := outputs.Lookup(id);
        if e.Some? && e.value.output != [] {
          rec := rec.(output := e.value.output);
        } else {
          FillEntries(outputs.View(), id, NoBlobs.(output := file.output));
          outputs.FillWith(id, NoBlobs.(output := file.output));
        }
      }
      r := MemStore.Ok(rec);
    }

    method ReadStage(id: Id, file: RunRecord) returns (r: MemStore.Result<RunRecord>)
      requires Valid() && ReadRun(db.view, id) == MemStore.Ok(file) && !file.Terminal()
      modifies blobs
      ensures Valid() && r == MemStore.Ok(file)
      ensures blobs.View() == StageRead(old(blobs.View()), id, file, db.blobRowMax)
    {
      hide Sound, BboltStore.BucketsRep, Touch, Fill, LookedUp;
      StageTerminal(db.view, id);
      ghost var s := db.view.stored[id];
      LookedUpSound(blobs.View(), id);
      var e := blobs.Lookup(id);
      if e.Some? {
        CachedReadIsFile(s, e.value, db.blobRowMax);
        r := MemStore.Ok(Overlay(file, e.value, db.blobRowMax));
      } else {
        var b := ReadBlobs(file, db.blobRowMax);
        ReadBlobsOwn(s, db.blobRowMax, BytesOf(b));
        FillEntries(blobs.View(), id, b);
        blobs.FillWith(id, b);
        r := MemStore.Ok(file);
      }
    }

    method CreateRun(rec: RunRecord, excluding: seq<Id>)
      returns (r: MemStore.CreateResult, ghost drained: set<Id>, ghost order: seq<Id>)
      requires Valid() && rec.runId !in used
      modifies this, db, blobs
      ensures Valid() && drained <= old(db.view).staged
      ensures (db.view, r) == StageView.CreateRun(Drain(old(db.view), drained), rec, excluding)
      ensures r.Created? ==> Enumerates(order, rec.steps.Keys) && blobs.View() == SeedCached(old(blobs.View()), rec, order, db.blobRowMax)
      ensures !r.Created? ==> blobs.View() == old(blobs.View())
    {
      hide Sound, BboltStore.BucketsRep, OwnBlobs, Inv, BlobsCoherent, OutputsCoherent;
      ghost var v := db.view;
      r, drained := db.CreateRun(rec, excluding);
      ghost var e := blobs.byId;
      order := [];
      if r.Created? {
        order := CacheSeed(blobs, rec, db.blobRowMax);
      }
      DrainCoherent(v, drained, e, outputs.byId);
      CreateCoherent(Drain(v, drained), rec, excluding, e, blobs.byId, outputs.byId);
      used := used + {rec.runId};
    }

    method ApplyTransition(id: Id, t: Transition) returns (r: MemStore.Result<()>, ghost drained: set<Id>)
      requires Valid()
      modifies db, blobs, outputs
      ensures Valid() && drained <= old(db.view).staged
      ensures r == StageView.ApplyTransition(Drain(old(db.view), drained), id, t).1
      ensures db.view == if r.Ok? then StageView.ApplyTransition(Drain(old(db.view), drained), id, t).0 else old(db.view)
      ensures blobs.View() == if r.Error? then old(blobs.View()) else if t.outcome.Some? then Drop(old(blobs.View()), id)
                              else WritesCached(old(blobs.View()), id, t.ops, db.blobRowMax)
      ensures outputs.View() == if r.Ok? && t.outcome.Some? && |t.output| > db.blobRowMax then SetOutput(old(outputs.View()), id, t.output)
                                else old(outputs.View())
    {
      hide Sound, BboltStore.BucketsRep, OwnBlobs, Commit, Inv, StageView.ApplyTransition, BlobsCoherent, OutputsCoherent, SetOutput;
      ghost var v := db.view;
      r, drained := db.ApplyTransition(id, t);
      if r.Error? {
        return;
      }
      ghost var e, o := blobs.byId, outputs.byId;
      DrainCoherent(v, drained, e, o);
      AppliedTo(v, drained, id, t, e, o);
      if t.outcome.Some? {
        blobs.DropRun(id);
        SetOutputEntries(outputs.View(), id, t.output);
        if |t.output| > db.blobRowMax {
          outputs.SetOutputOf(id, t.output);
        }
        CommitCoherent(Drain(v, drained), id, t, e, blobs.byId, o, outputs.byId);
        return;
      }
      CacheWrites(blobs, id, t.ops, db.blobRowMax, v.stored[id]);
      WriteCoherent(Drain(v, drained), id, t, e, blobs.byId, o);
    }

    method ReapTerminal(before: Time, limit: int) returns (deleted: nat, victims: set<Id>)
      requires Valid()
      modifies db, outputs
      ensures Valid()
      ensures TakesOldest(old(db.view), victims, before, limit) && deleted == |victims|
      ensures db.view == Reap(old(db.view), victims) && outputs.byId == old(outputs.byId) - victims
    {
      hide Sound, BboltStore.BucketsRep, OwnBlobs, Reachable;
      deleted, victims := db.ReapTerminal(before, limit);
      DropVictims(outputs, victims);
    }

    method RequestCancel(id: Id, req: CancelRequest) returns (r: MemStore.Result<bool>)
      requires Valid()
      modifies db
      ensures Valid() && (db.view, r) == StageView.RequestCancel(old(db.view), id, req)
    {
      hide Sound, BboltStore.BucketsRep, Inv, BlobsCoherent, OutputsCoherent;
      CancelCoherent(db.view, id, req, blobs.byId, outputs.byId);
      r := db.RequestCancel(id, req);
    }
  }

  lemma AppliedTo(v: View, ids: set<Id>, id: Id, t: Transition, blobs: map<Id, Blobs>, outputs: map<Id, Blobs>)
    requires BlobsCoherent(v, blobs) && OutputsCoherent(v, outputs)
    requires StageView.ApplyTransition(Drain(v, ids), id, t).1.Ok?
    ensures id in v.stored && id in Drain(v, ids).stored && Drain(v, ids).stored[id] == v.stored[id]
    ensures id in blobs ==> OwnBlobs(v.stored[id], blobs[id])
    ensures id in outputs ==> outputs[id].output == []
  {
  }

  lemma CancelCoherent(v: View, id: Id, req: CancelRequest, blobs: map<Id, Blobs>, outputs: map<Id, Blobs>)
    requires BlobsCoherent(v, blobs) && OutputsCoherent(v, outputs)
    ensures (var w := StageView.RequestCancel(v, id, req).0;
             && BlobsCoherent(w, blobs) && OutputsCoherent(w, outputs)
             && w.stored.Keys == v.stored.Keys && w.done == v.done)
  {
  }

  lemma DrainCoherent(v: View, ids: set<Id>, blobs: map<Id, Blobs>, outputs: map<Id, Blobs>)
    requires BlobsCoherent(v, blobs) && OutputsCoherent(v, outputs)
    ensures BlobsCoherent(Drain(v, ids), blobs) && OutputsCoherent(Drain(v, ids), outputs)
    ensures Drain(v, ids).stored.Keys <= v.stored.Keys && Drain(v, ids).done == v.done
  {
  }

  lemma CreateCoherent(v: View, rec: RunRecord, excluding: seq<Id>, before: map<Id, Blobs>, after: map<Id, Blobs>, outputs: map<Id, Blobs>)
    requires BlobsCoherent(v, before) && OutputsCoherent(v, outputs) && rec.runId !in v.done
    requires if StageView.CreateRun(v, rec, excluding).1.Created?
             then Others(after, before, rec.runId) && (rec.runId in after ==> OwnBlobs(Seed(rec), after[rec.runId]))
             else after == before
    ensures (var w := StageView.CreateRun(v, rec, excluding).0;
             && BlobsCoherent(w, after) && OutputsCoherent(w, outputs)
             && w.stored.Keys <= v.stored.Keys + {rec.runId} && w.done.Keys <= v.done.Keys + {rec.runId})
  {
    hide OwnBlobs, MemStore.FirstOccupant, Seed;
  }

  lemma WriteCoherent(v: View, id: Id, t: Transition, before: map<Id, Blobs>, after: map<Id, Blobs>, outputs: map<Id, Blobs>)
    requires BlobsCoherent(v, before) && OutputsCoherent(v, outputs)
    requires t.outcome.None? && StageView.ApplyTransition(v, id, t).1.Ok?
    requires Others(after, before, id) && (id in after ==> OwnBlobs(v.stored[id].(ops := PutOps(v.stored[id].ops, t.ops)), after[id]))
    ensures (var w := StageView.ApplyTransition(v, id, t).0;
             && BlobsCoherent(w, after) && OutputsCoherent(w, outputs)
             && w.stored.Keys == v.stored.Keys && w.done == v.done)
  {
    var w := StageView.ApplyTransition(v, id, t).0;
    SameOps(after, v.stored[id].(ops := PutOps(v.stored[id].ops, t.ops)), w.stored[id], id);
  }

  lemma CommitCoherent(v: View, id: Id, t: Transition, before: map<Id, Blobs>, after: map<Id, Blobs>, o0: map<Id, Blobs>, o1: map<Id, Blobs>)
    requires BlobsCoherent(v, before) && OutputsCoherent(v, o0)
    requires t.outcome.Some? && StageView.ApplyTransition(v, id, t).1.Ok?
    requires Sub(after, before) && id !in after
    requires Others(o1, o0, id) && (id in o1 ==> o1[id].output == [] || o1[id].output == t.output)
    ensures (var w := StageView.ApplyTransition(v, id, t).0;
             && BlobsCoherent(w, after) && OutputsCoherent(w, o1)
             && w.stored.Keys == v.stored.Keys && w.done.Keys == v.done.Keys + {id})
  {
    hide OwnBlobs;
  }

  lemma StageTerminal(v: View, id: Id)
    requires Inv(v) && ReadRun(v, id).Ok?
    ensures ReadRun(v, id).value.Terminal() <==> id in v.done
    ensures !ReadRun(v, id).value.Terminal() ==> id in v.stored && ReadRun(v, id).value == Assemble(v.stored[id])
  {
    if id in v.stored {
      StoredRunning(v.stored[id]);
    }
  }

  lemma SameOps(entries: map<Id, Blobs>, a: Stored, b: Stored, id: Id)
    requires a.ops == b.ops && a.input == b.input && (id in entries ==> OwnBlobs(a, entries[id]))
    ensures id in entries ==> OwnBlobs(b, entries[id])
  {
  }
}
