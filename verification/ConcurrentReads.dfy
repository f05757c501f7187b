/** Readers over the two blob caches while other transactions commit: a read
    holds a snapshot of the file, looks each blob up on its own and fills the
    cache when it is done; a write updates the caches only after its commit,
    one locked section at a time; a reap drops outputs before its commit.
    Every such step interleaves with every other. */
module ConcurrentReads {
  import opened Bytes
  import opened Records
  import opened StageView
  import opened StageRefinement
  import opened BlobCache
  import Mem = MemStore
  import CachedStore

  /** An update a committed write still owes the caches. */
  datatype CacheOp = PutInput(id: Id, input: Blob) | PutState(id: Id, step: Id, state: Blob) | PutOutput(id: Id, output: Blob) | DropBlobs(id: Id)

  /** How far a read has come. fill is what it read from the file for a Run
      that was not cached. */
  datatype Stage =
    | Opened
    | Missed
    | Walking(input: Blob, states: map<Id, Blob>, fill: Option<Blobs>)
    | Returned(r: Mem.Result<RunRecord>)

  datatype Reader = Reader(snap: View, id: Id, stage: Stage)

  /** ever: the blobs each Run has ever had, kept for the proof. */
  datatype World = World(
    file: View, blobs: Cache, outputs: Cache, max: nat,
    calls: map<nat, seq<CacheOp>>, readers: map<nat, Reader>, ever: map<Id, Blobs>)

  datatype Event =
    // transactions
    | Create(c: nat, rec: RunRecord, excluding: seq<Id>, drained: set<Id>, order: seq<Id>)
    | Apply(c: nat, id: Id, t: Transition, drained: set<Id>)
    | Cancel(id: Id, req: CancelRequest)
    | DrainSome(ids: set<Id>)
    | Reap(victims: set<Id>)
    // the caches
    | Update(c: nat)
    | Forget(id: Id)              // inside a reap, committed later or not at all
    // one read
    | Open(r: nat, id: Id)
    | Look(r: nat)
    | Take(r: nat, step: Id)
    | FillOutput(r: nat)
    | End(r: nat)
    | Restart

  // ---- Blobs of the rows

  function StateAt(s: Stored, step: Id): Blob {
    OpAt(s.ops, step, Fwd).state
  }

  function StatesOf(s: Stored): map<Id, Blob> {
    map step | step in (set k | k in s.ops :: k.step) && StateAt(s, step) != [] :: StateAt(s, step)
  }

  /** The states kept beside their rows. */
  predicate Beside(s: Stored, step: Id, max: nat) {
    OpId(step, Fwd) in s.ops && |s.ops[OpId(step, Fwd)].state| > max
  }

  /** The blobs are immutable (blobcache.go): an operation is written once in a
      transition, and a state the file holds is never replaced by another. */
  predicate StatesOnce(was: Stored, ops: seq<OpWrite>) {
    && OneWriteEach(ops)
    && forall i | 0 <= i < |ops| && ops[i].half.Fwd? :: StateAt(was, ops[i].step) != [] ==> ops[i].op.state == StateAt(was, ops[i].step)
  }

  // ---- The steps

  /** ApplyTransition's loop over the forward writes. */
  function StateUpdates(id: Id, ops: seq<OpWrite>, max: nat): seq<CacheOp> {
    if ops == [] then []
    else
      var n := |ops| - 1;
      StateUpdates(id, ops[..n], max)
        + (if ops[n].half.Fwd? then [PutState(id, ops[n].step, if |ops[n].op.state| > max then ops[n].op.state else [])] else [])
  }

  function Updates(id: Id, t: Transition, max: nat): seq<CacheOp> {
    if t.outcome.Some? then [DropBlobs(id)] + (if |t.output| > max then [PutOutput(id, t.output)] else [])
    else StateUpdates(id, t.ops, max)
  }

  /** CreateRun's: the input, then the states beside their rows in the order
      the map yields them. */
  function SeedUpdates(rec: RunRecord, order: seq<Id>): seq<CacheOp>
    requires forall i | 0 <= i < |order| :: order[i] in rec.steps
  {
    [PutInput(rec.runId, rec.input)] + seq(|order|, i requires 0 <= i < |order| => PutState(rec.runId, order[i], rec.steps[order[i]].forward.state))
  }

  function Entry(c: Cache, id: Id): Blobs {
    if id in c.entries then c.entries[id] else NoBlobs
  }

  /** The assembled record with the blobs the walk took. */
  function Gathered(s: Stored, input: Blob, states: map<Id, Blob>): RunRecord {
    var r := Assemble(s);
    r.(input := input,
       steps := map id | id in r.steps ::
         if id in states then r.steps[id].(forward := r.steps[id].forward.(state := states[id])) else r.steps[id])
  }

  ghost predicate Can(x: World, e: Event) {
    match e
    case Create(c, rec, _, drained, order) =>
      && c !in x.calls && rec.runId !in x.ever && !rec.Terminal() && SeedOk(rec) && drained <= x.file.staged
      && forall step :: step in order <==> step in rec.steps && |rec.steps[step].forward.state| > x.max
    case Apply(c, id, t, drained) =>
      && c !in x.calls && drained <= x.file.staged && ApplyTransition(Drain(x.file, drained), id, t).1.Ok?
      && (id in x.file.stored ==> StatesOnce(x.file.stored[id], t.ops))
    case Cancel(_, _) => true
    case DrainSome(ids) => ids <= x.file.staged
    case Reap(victims) => victims <= x.file.done.Keys
    case Update(c) => c in x.calls && x.calls[c] != []
    case Forget(_) => true
    case Open(r, _) => r !in x.readers
    case Look(r) => r in x.readers && x.readers[r].stage.Opened?
    case Take(r, step) =>
      && r in x.readers && x.readers[r].stage.Walking? && x.readers[r].id in x.readers[r].snap.stored
      && Beside(x.readers[r].snap.stored[x.readers[r].id], step, x.max) && step !in x.readers[r].stage.states
    case FillOutput(r) => r in x.readers && x.readers[r].stage.Missed? && x.readers[r].id in x.readers[r].snap.done
    case End(r) =>
      && r in x.readers && x.readers[r].stage.Walking? && x.readers[r].id in x.readers[r].snap.stored
      && forall step :: Beside(x.readers[r].snap.stored[x.readers[r].id], step, x.max) ==> step in x.readers[r].stage.states
    case Restart => true
  }

  function Updated(x: World, op: CacheOp): World {
    match op
    case PutInput(id, input) => x.(blobs := SetInput(x.blobs, id, input))
    case PutState(id, step, state) => x.(blobs := SetState(x.blobs, id, step, state))
    case PutOutput(id, output) => x.(outputs := SetOutput(x.outputs, id, output))
    case DropBlobs(id) => x.(blobs := Drop(x.blobs, id))
  }

  function At(x: World, r: nat, stage: Stage): World
    requires r in x.readers
  {
    x.(readers := x.readers[r := x.readers[r].(stage := stage)])
  }

  /** The first step of a read: a terminal row's output, or a stage's input. */
  function Looked(x: World, r: nat): World
    requires r in x.readers
  {
    var v, id := x.readers[r].snap, x.readers[r].id;
    if id in v.done then
      if |v.done[id].output| <= x.max then At(x, r, Returned(Mem.Ok(v.done[id])))
      else
        var y, b := x.(outputs := LookedUp(x.outputs, id)), Entry(x.outputs, id);
        At(y, r, if b.output != [] then Returned(Mem.Ok(v.done[id].(output := b.output))) else Missed)
    else if id in v.stored then
      var y, b, file := x.(blobs := LookedUp(x.blobs, id)), Entry(x.blobs, id), v.stored[id].input;
      At(y, r, Walking(if file != [] && b.input != [] then b.input else file, map[],
                       if id in x.blobs.entries then None else Some(NoBlobs.(input := file))))
    else At(x, r, Returned(Mem.Error(Mem.ErrRunNotFound)))
  }

  /** A state beside its row: the cache's, else the file's. */
  function Took(x: World, r: nat, step: Id): World
    requires r in x.readers && x.readers[r].stage.Walking? && x.readers[r].id in x.readers[r].snap.stored
  {
    var id, w, b := x.readers[r].id, x.readers[r].stage, Entry(x.blobs, x.readers[r].id);
    var file := StateAt(x.readers[r].snap.stored[id], step);
    var y := x.(blobs := LookedUp(x.blobs, id));
    if step in b.states then At(y, r, w.(states := w.states[step := b.states[step]]))
    else
      var fill := if w.fill.Some? then Some(w.fill.value.(states := w.fill.value.states[step := file])) else None;
      At(y, r, w.(states := w.states[step := file], fill := fill))
  }

  ghost function After(x: World, e: Event): World
    requires Can(x, e)
  {
    match e
    case Create(c, rec, excluding, drained, order) =>
      var (v, res) := CreateRun(Drain(x.file, drained), rec, excluding);
      if res.Created? then
        x.(file := v, calls := x.calls[c := SeedUpdates(rec, order)],
           ever := x.ever[rec.runId := Seeded(rec)])
      else x.(file := v)
    case Apply(c, id, t, drained) =>
      var v := ApplyTransition(Drain(x.file, drained), id, t).0;
      var was := if id in x.ever then x.ever[id] else NoBlobs;
      x.(file := v, calls := x.calls[c := Updates(id, t, x.max)],
         ever := x.ever[id := if t.outcome.Some? then was.(output := t.output)
                              else if id in v.stored then was.(states := was.states + StatesOf(v.stored[id])) else was])
    case Cancel(id, req) => x.(file := RequestCancel(x.file, id, req).0)
    case DrainSome(ids) => x.(file := Drain(x.file, ids))
    case Reap(victims) => x.(file := StageView.Reap(x.file, victims))
    case Update(c) => Updated(x.(calls := x.calls[c := x.calls[c][1..]]), x.calls[c][0])
    case Forget(id) => x.(outputs := Drop(x.outputs, id))
    case Open(r, id) => x.(readers := x.readers[r := Reader(x.file, id, Opened)])
    case Look(r) => Looked(x, r)
    case Take(r, step) => Took(x, r, step)
    case FillOutput(r) =>
      var id, rec := x.readers[r].id, x.readers[r].snap.done[x.readers[r].id];
      At(x.(outputs := Fill(x.outputs, id, NoBlobs.(output := rec.output))), r, Returned(Mem.Ok(rec)))
    case End(r) =>
      var id, w := x.readers[r].id, x.readers[r].stage;
      At(x.(blobs := if w.fill.Some? then Fill(x.blobs, id, w.fill.value) else x.blobs), r,
         Returned(Mem.Ok(Gathered(x.readers[r].snap.stored[id], w.input, w.states))))
    case Restart => x.(blobs := Cold(x.blobs.limit), outputs := Cold(x.outputs.limit), calls := map[], readers := map[])
  }

  function Cold(limit: int): Cache {
    Cache([], map[], 0, limit)
  }

  // ---- The invariant

  /** Nothing but blobs the Run has had. */
  ghost predicate Within(b: Blobs, k: Blobs) {
    && (b.input == [] || b.input == k.input)
    && (b.output == [] || b.output == k.output)
    && forall step | step in b.states :: step in k.states && b.states[step] == k.states[step]
  }

  ghost predicate CacheKnown(entries: map<Id, Blobs>, ever: map<Id, Blobs>) {
    forall id | id in entries :: id in ever && Within(entries[id], ever[id])
  }

  ghost predicate StageKnown(s: Stored, k: Blobs) {
    s.input == k.input && forall step :: StateAt(s, step) != [] ==> step in k.states && k.states[step] == StateAt(s, step)
  }

  /** A version of the file, old or current. */
  ghost predicate SnapKnown(v: View, ever: map<Id, Blobs>) {
    && (forall id | id in v.stored :: id in ever && StageKnown(v.stored[id], ever[id]))
    && (forall id | id in v.done :: id in ever && (v.done[id].output == [] || v.done[id].output == ever[id].output))
  }

  /** The stage's blobs are the ones the Run has had, no more and no less. */
  ghost predicate Exactly(s: Stored, k: Blobs) {
    && s.input == k.input && k.output == []
    && (forall step :: step in k.states <==> StateAt(s, step) != [])
    && forall step | step in k.states :: StateAt(s, step) == k.states[step]
  }

  /** The current file still holds all a live Run has had. */
  ghost predicate FileKnown(v: View, ever: map<Id, Blobs>) {
    SnapKnown(v, ever) && forall id | id in v.stored && id !in v.done :: Exactly(v.stored[id], ever[id])
  }

  ghost predicate OpKnown(op: CacheOp, ever: map<Id, Blobs>) {
    op.id in ever &&
    match op
    case PutInput(id, input) => input == [] || input == ever[id].input
    case PutState(id, step, state) => state == [] || (step in ever[id].states && state == ever[id].states[step])
    case PutOutput(id, output) => output == [] || output == ever[id].output
    case DropBlobs(id) => true
  }

  ghost predicate CallsKnown(calls: map<nat, seq<CacheOp>>, ever: map<Id, Blobs>) {
    forall c | c in calls :: forall op | op in calls[c] :: OpKnown(op, ever)
  }

  /** What a read has so far is its snapshot's. */
  ghost predicate ReaderSound(d: Reader, max: nat, ever: map<Id, Blobs>) {
    && SnapKnown(d.snap, ever)
    && match d.stage
       case Opened => true
       case Missed => d.id in d.snap.done
       case Walking(input, states, fill) =>
         && d.id in d.snap.stored && d.id !in d.snap.done
         && input == d.snap.stored[d.id].input
         && (forall step | step in states :: Beside(d.snap.stored[d.id], step, max) && states[step] == StateAt(d.snap.stored[d.id], step))
         && (fill.Some? ==> Within(fill.value, ever[d.id]))
       case Returned(r) => r == ReadRun(d.snap, d.id)
  }

  ghost predicate ReadersSound(x: World) {
    forall r | r in x.readers :: ReaderSound(x.readers[r], x.max, x.ever)
  }

  ghost predicate Good(x: World) {
    && FileKnown(x.file, x.ever)
    && CacheKnown(x.blobs.entries, x.ever) && CacheKnown(x.outputs.entries, x.ever)
    && CallsKnown(x.calls, x.ever)
    && ReadersSound(x)
  }

  // ---- What Runs have had only grows

  ghost predicate Grows(a: map<Id, Blobs>, b: map<Id, Blobs>) {
    forall id | id in a :: id in b && a[id].input == b[id].input && Within(a[id], b[id])
  }

  lemma GrownCache(entries: map<Id, Blobs>, a: map<Id, Blobs>, b: map<Id, Blobs>)
    requires CacheKnown(entries, a) && Grows(a, b)
    ensures CacheKnown(entries, b)
  {
  }

  lemma GrownSnap(v: View, a: map<Id, Blobs>, b: map<Id, Blobs>)
    requires SnapKnown(v, a) && Grows(a, b)
    ensures SnapKnown(v, b)
  {
    hide StateAt;
  }

  lemma GrownCalls(calls: map<nat, seq<CacheOp>>, a: map<Id, Blobs>, b: map<Id, Blobs>)
    requires CallsKnown(calls, a) && Grows(a, b)
    ensures CallsKnown(calls, b)
  {
    forall c | c in calls ensures forall op | op in calls[c] :: OpKnown(op, b) {
      forall op | op in calls[c] ensures OpKnown(op, b) {
        assert OpKnown(op, a);
      }
    }
  }

  lemma GrownReader(d: Reader, max: nat, a: map<Id, Blobs>, b: map<Id, Blobs>)
    requires ReaderSound(d, max, a) && Grows(a, b)
    ensures ReaderSound(d, max, b)
  {
    hide StateAt, ReadRun;
    GrownSnap(d.snap, a, b);
  }

  /** A commit: the caches and the readers are as they were. */
  lemma CommitGood(x: World, y: World)
    requires Good(x) && Grows(x.ever, y.ever)
    requires y.blobs == x.blobs && y.outputs == x.outputs && y.readers == x.readers && y.max == x.max
    requires FileKnown(y.file, y.ever) && CallsKnown(y.calls, y.ever)
    ensures Good(y)
  {
    hide FileKnown, CallsKnown;
    GrownCache(x.blobs.entries, x.ever, y.ever);
    GrownCache(x.outputs.entries, x.ever, y.ever);
    forall r | r in y.readers ensures ReaderSound(y.readers[r], y.max, y.ever) {
      GrownReader(x.readers[r], x.max, x.ever, y.ever);
    }
  }

  /** A file with fewer stages of ended Runs, and fewer ended Runs. */
  lemma LessFile(v: View, w: View, ever: map<Id, Blobs>)
    requires FileKnown(v, ever)
    requires forall id | id in w.stored :: id in v.stored && w.stored[id] == v.stored[id] && (id in w.done <==> id in v.done)
    requires forall id | id in w.done :: id in v.done && w.done[id] == v.done[id]
    ensures FileKnown(w, ever)
  {
    hide StateAt;
  }

  // ---- Transactions

  lemma SeedState(rec: RunRecord, step: Id)
    requires SeedOk(rec) && !rec.Terminal() && step in rec.steps
    ensures StateAt(Seed(rec), step) == rec.steps[step].forward.state
    ensures StateAt(Seed(rec), step) != [] ==> step in StatesOf(Seed(rec)) && StatesOf(Seed(rec))[step] == StateAt(Seed(rec), step)
  {
    SeedOpsIn(rec.steps, OpId(step, Fwd));
    assert rec.steps[step].Get(Fwd) == rec.steps[step].forward;
    StatesOfIs(Seed(rec), step);
  }

  lemma StatesOfIs(s: Stored, step: Id)
    ensures step in StatesOf(s) <==> StateAt(s, step) != []
    ensures step in StatesOf(s) ==> StatesOf(s)[step] == StateAt(s, step)
  {
    if StateAt(s, step) != [] {
      assert OpId(step, Fwd) in s.ops && OpId(step, Fwd).step == step;
    }
  }

  function Seeded(rec: RunRecord): Blobs {
    Blobs(rec.input, StatesOf(Seed(rec)), [], 0)
  }

  lemma SeededExactly(rec: RunRecord)
    ensures Exactly(Seed(rec), Seeded(rec))
  {
    hide StatesOf, StateAt;
    SeedInput(rec);
    forall step ensures step in StatesOf(Seed(rec)) <==> StateAt(Seed(rec), step) != []
      ensures step in StatesOf(Seed(rec)) ==> StatesOf(Seed(rec))[step] == StateAt(Seed(rec), step)
    {
      StatesOfIs(Seed(rec), step);
    }
  }

  /** The file with a live Run's stage replaced, or added. */
  lemma PutFile(v: View, w: View, a: map<Id, Blobs>, id: Id, s: Stored, k: Blobs)
    requires FileKnown(v, a) && id !in v.done && Exactly(s, k)
    requires w.stored == v.stored[id := s] && w.done == v.done
    requires id in a ==> k.input == a[id].input && Within(a[id], k)
    ensures Grows(a, a[id := k]) && FileKnown(w, a[id := k])
  {
    hide StateAt, Within, Exactly, SnapKnown, StageKnown;
    WithinItself(a);
    GrownSnap(v, a, a[id := k]);
    SnapPut(v, w, a[id := k], id, s);
    ExactlyKnown(s, k);
  }

  lemma ExactlyKnown(s: Stored, k: Blobs)
    requires Exactly(s, k)
    ensures StageKnown(s, k)
  {
    hide StateAt;
  }

  lemma SnapPut(v: View, w: View, ever: map<Id, Blobs>, id: Id, s: Stored)
    requires SnapKnown(v, ever) && id in ever && w.stored == v.stored[id := s] && w.done == v.done
    ensures StageKnown(s, ever[id]) ==> SnapKnown(w, ever)
  {
    hide StageKnown;
  }

  lemma WithinItself(a: map<Id, Blobs>)
    ensures forall id | id in a :: Within(a[id], a[id])
  {
  }

  lemma CreateGood(x: World, e: Event)
    requires Good(x) && Can(x, e) && e.Create?
    ensures Good(After(x, e))
  {
    hide Seed, SeedOk, Mem.FirstOccupant, ReadersSound, CacheKnown, FileKnown, CallsKnown, OpKnown, SeedUpdates, Exactly, StatesOf;
    var y, rec, v := After(x, e), e.rec, Drain(x.file, e.drained);
    LessFile(x.file, v, x.ever);
    if CreateRun(v, rec, e.excluding).1.Created? {
      SeededExactly(rec);
      NotEnded(x.file, x.ever, rec.runId);
      PutFile(v, y.file, x.ever, rec.runId, Seed(rec), Seeded(rec));
      SeedCalls(x, e);
      GrownCalls(x.calls, x.ever, y.ever);
      CallAdded(x.calls, e.c, SeedUpdates(rec, e.order), y.ever);
    } else {
      GrowsItself(x.ever);
    }
    CommitGood(x, y);
  }

  lemma GrowsItself(a: map<Id, Blobs>)
    ensures Grows(a, a)
  {
  }

  lemma NotEnded(v: View, ever: map<Id, Blobs>, id: Id)
    requires FileKnown(v, ever) && id !in ever
    ensures id !in v.done && id !in v.stored
  {
  }

  lemma CallAdded(calls: map<nat, seq<CacheOp>>, c: nat, ops: seq<CacheOp>, ever: map<Id, Blobs>)
    requires CallsKnown(calls, ever) && forall op | op in ops :: OpKnown(op, ever)
    ensures CallsKnown(calls[c := ops], ever)
  {
  }

  lemma SeedInput(rec: RunRecord)
    ensures Seed(rec).input == rec.input
  {
  }

  lemma SeedCalls(x: World, e: Event)
    requires Can(x, e) && e.Create?
    ensures forall op | op in SeedUpdates(e.rec, e.order) ::
              OpKnown(op, x.ever[e.rec.runId := Seeded(e.rec)])
  {
    hide StatesOf, Seed;
    forall i | 0 <= i < |e.order| ensures e.order[i] in e.rec.steps {
      assert e.order[i] in e.order;
    }
    forall op | op in SeedUpdates(e.rec, e.order)
      ensures OpKnown(op, x.ever[e.rec.runId := Seeded(e.rec)])
    {
      if op.PutState? {
        SeedState(e.rec, op.step);
      }
    }
  }

  /** What a transition's writes leave of the states. */
  lemma WrittenStates(was: Stored, ops: seq<OpWrite>, step: Id)
    requires StatesOnce(was, ops)
    ensures (var now := was.(ops := PutOps(was.ops, ops));
             && (StateAt(was, step) != [] ==> StateAt(now, step) == StateAt(was, step))
             && forall i | 0 <= i < |ops| && ops[i].half.Fwd? && ops[i].step == step :: StateAt(now, step) == ops[i].op.state)
  {
    RowsRead(was.ops, ops, step, Fwd);
    forall i | 0 <= i < |ops| && ops[i].half.Fwd? && ops[i].step == step ensures LastWrite(ops, step, Fwd) == Some(ops[i].op) {
      WriteIsLast(ops, i);
    }
    if LastWrite(ops, step, Fwd).Some? {
      LastIsWrite(ops, step, Fwd);
    }
  }

  lemma {:induction false} StateUpdatesAre(id: Id, ops: seq<OpWrite>, max: nat, op: CacheOp)
    requires op in StateUpdates(id, ops, max)
    ensures op.PutState? && op.id == id
    ensures op.state == [] || exists i :: 0 <= i < |ops| && ops[i].half.Fwd? && ops[i].step == op.step && ops[i].op.state == op.state
  {
    var n := |ops| - 1;
    if op in StateUpdates(id, ops[..n], max) {
      StateUpdatesAre(id, ops[..n], max, op);
      if op.state != [] {
        var i :| 0 <= i < n && ops[..n][i].half.Fwd? && ops[..n][i].step == op.step && ops[..n][i].op.state == op.state;
        assert ops[i].half.Fwd?;
      }
    }
  }

  lemma WrittenExactly(was: Stored, now: Stored, ops: seq<OpWrite>, k: Blobs)
    requires Exactly(was, k) && StatesOnce(was, ops) && now.ops == PutOps(was.ops, ops) && now.input == was.input
    ensures (var l := k.(states := k.states + StatesOf(now)); Exactly(now, l) && Within(k, l))
    ensures forall i | 0 <= i < |ops| && ops[i].half.Fwd? && ops[i].op.state != [] :: ops[i].step in StatesOf(now) && StatesOf(now)[ops[i].step] == ops[i].op.state
  {
    hide StatesOf, StatesOnce, PutOps;
    forall step ensures step in StatesOf(now) <==> StateAt(now, step) != []
      ensures step in StatesOf(now) ==> StatesOf(now)[step] == StateAt(now, step)
      ensures StateAt(was, step) != [] ==> StateAt(now, step) == StateAt(was, step)
      ensures forall i | 0 <= i < |ops| && ops[i].half.Fwd? && ops[i].step == step :: StateAt(now, step) == ops[i].op.state
    {
      StatesOfIs(now, step);
      WrittenStates(was, ops, step);
    }
  }

  lemma LiveExactly(v: View, ever: map<Id, Blobs>, id: Id)
    requires FileKnown(v, ever) && id in v.stored && id !in v.done
    ensures id in ever && Exactly(v.stored[id], ever[id])
  {
  }

  lemma UpdatesKnown(id: Id, ops: seq<OpWrite>, max: nat, ever: map<Id, Blobs>)
    requires id in ever
    requires forall i | 0 <= i < |ops| && ops[i].half.Fwd? && ops[i].op.state != [] :: ops[i].step in ever[id].states && ever[id].states[ops[i].step] == ops[i].op.state
    ensures forall op | op in StateUpdates(id, ops, max) :: OpKnown(op, ever)
  {
    forall op | op in StateUpdates(id, ops, max) ensures OpKnown(op, ever) {
      StateUpdatesAre(id, ops, max, op);
    }
  }

  /** An ordinary transition adds the states it writes to what the Run has
      had, and changes none. */
  lemma WriteGood(x: World, e: Event)
    requires Good(x) && Can(x, e) && e.Apply? && e.t.outcome.None?
    ensures Good(After(x, e))
  {
    hide ReadersSound, CacheKnown, FileKnown, CallsKnown, OpKnown, Exactly, StatesOf, StatesOnce, PutOps, StateUpdates, Within;
    var y, id, v := After(x, e), e.id, Drain(x.file, e.drained);
    LessFile(x.file, v, x.ever);
    LiveExactly(v, x.ever, id);
    var was, now := v.stored[id], y.file.stored[id];
    WrittenExactly(was, now, e.t.ops, x.ever[id]);
    PutFile(v, y.file, x.ever, id, now, y.ever[id]);
    UpdatesKnown(id, e.t.ops, x.max, y.ever);
    GrownCalls(x.calls, x.ever, y.ever);
    CallAdded(x.calls, e.c, Updates(id, e.t, x.max), y.ever);
    CommitGood(x, y);
  }

  /** A terminal transition gives the Run its one output. */
  lemma EndFile(v: View, w: View, ever: map<Id, Blobs>, id: Id, r: RunRecord)
    requires FileKnown(v, ever) && id in v.stored && id !in v.done
    requires w.stored == v.stored && w.done == v.done[id := r]
    ensures id in ever && (var k := ever[id].(output := r.output); Grows(ever, ever[id := k]) && FileKnown(w, ever[id := k]))
  {
    hide StateAt, Exactly, StageKnown, Within, Grows;
    LiveExactly(v, ever, id);
    OutputGrows(v.stored[id], ever, id, r.output);
    GrownSnap(v, ever, ever[id := ever[id].(output := r.output)]);
  }

  lemma OutputGrows(s: Stored, ever: map<Id, Blobs>, id: Id, output: Blob)
    requires id in ever && Exactly(s, ever[id])
    ensures Grows(ever, ever[id := ever[id].(output := output)])
  {
    hide StateAt;
  }

  lemma CommitOutput(r: RunRecord, t: Transition)
    ensures Commit(r, t).output == t.output
  {
  }

  lemma EndGood(x: World, e: Event)
    requires Good(x) && Can(x, e) && e.Apply? && e.t.outcome.Some?
    ensures Good(After(x, e))
  {
    hide ReadersSound, CacheKnown, FileKnown, CallsKnown, StatesOnce, PutOps, Within, Commit;
    var y, id, v := After(x, e), e.id, Drain(x.file, e.drained);
    LessFile(x.file, v, x.ever);
    CommitOutput(Assemble(v.stored[id]), e.t);
    EndFile(v, y.file, x.ever, id, y.file.done[id]);
    GrownCalls(x.calls, x.ever, y.ever);
    CallAdded(x.calls, e.c, Updates(id, e.t, x.max), y.ever);
    CommitGood(x, y);
  }

  /** A cancel, a drain, a reap. */
  lemma OtherGood(x: World, e: Event)
    requires Good(x) && Can(x, e) && (e.Cancel? || e.DrainSome? || e.Reap?)
    ensures Good(After(x, e))
  {
    hide ReadersSound, CacheKnown, FileKnown, CallsKnown;
    var y := After(x, e);
    GrowsItself(x.ever);
    if e.Cancel? {
      CancelFile(x.file, e.id, e.req, x.ever);
    } else {
      LessFile(x.file, y.file, x.ever);
    }
    CommitGood(x, y);
  }

  lemma CancelFile(v: View, id: Id, req: CancelRequest, ever: map<Id, Blobs>)
    requires FileKnown(v, ever)
    ensures FileKnown(RequestCancel(v, id, req).0, ever)
  {
    hide FileKnown, Exactly, Within;
    var w := RequestCancel(v, id, req).0;
    if id in v.stored && id !in v.done && v.stored[id].cancel.None? {
      LiveExactly(v, ever, id);
      SameBlobs(v.stored[id], w.stored[id], ever[id]);
      PutFile(v, w, ever, id, w.stored[id], ever[id]);
      assert ever[id := ever[id]] == ever;
    } else {
      assert w == v;
    }
  }

  lemma SameBlobs(s: Stored, t: Stored, k: Blobs)
    requires Exactly(s, k) && t.ops == s.ops && t.input == s.input
    ensures Exactly(t, k) && Within(k, k)
  {
    assert forall step :: StateAt(t, step) == StateAt(s, step);
  }

  // ---- The caches

  lemma SubKnown(a: map<Id, Blobs>, b: map<Id, Blobs>, ever: map<Id, Blobs>)
    requires CachedStore.Sub(a, b) && CacheKnown(b, ever)
    ensures CacheKnown(a, ever)
  {
    hide Within;
  }

  lemma EntryKnown(c: Cache, id: Id, ever: map<Id, Blobs>)
    requires CacheKnown(c.entries, ever) && id in ever
    ensures Within(Entry(c, id), ever[id])
  {
  }

  lemma PutKnown(entries: map<Id, Blobs>, id: Id, b: Blobs, ever: map<Id, Blobs>)
    requires CacheKnown(entries, ever) && id in ever && Within(b, ever[id])
    ensures CacheKnown(entries[id := b], ever)
  {
  }

  lemma UpdatedKnown(x: World, op: CacheOp)
    requires CacheKnown(x.blobs.entries, x.ever) && CacheKnown(x.outputs.entries, x.ever) && OpKnown(op, x.ever)
    ensures CacheKnown(Updated(x, op).blobs.entries, x.ever) && CacheKnown(Updated(x, op).outputs.entries, x.ever)
  {
    hide CacheKnown, SetInput, SetState, SetOutput;
    var id := op.id;
    match op
    case PutInput(_, input) =>
      var b := Entry(x.blobs, id);
      EntryKnown(x.blobs, id, x.ever);
      CachedStore.SetInputEntries(x.blobs, id, input);
      PutKnown(x.blobs.entries, id, b.(input := input, size := b.size - |b.input| + |input|), x.ever);
      if input != [] && x.blobs.limit > 0 {
        SubKnown(Updated(x, op).blobs.entries, x.blobs.entries[id := b.(input := input, size := b.size - |b.input| + |input|)], x.ever);
      }
    case PutOutput(_, output) =>
      var b := Entry(x.outputs, id);
      EntryKnown(x.outputs, id, x.ever);
      CachedStore.SetOutputEntries(x.outputs, id, output);
      PutKnown(x.outputs.entries, id, b.(output := output, size := b.size - |b.output| + |output|), x.ever);
      if output != [] && x.outputs.limit > 0 {
        SubKnown(Updated(x, op).outputs.entries, x.outputs.entries[id := b.(output := output, size := b.size - |b.output| + |output|)], x.ever);
      }
    case PutState(_, step, state) =>
      EntryKnown(x.blobs, id, x.ever);
      StateKnown(x.blobs, id, step, state, x.ever);
    case DropBlobs(_) =>
      SubKnown(Drop(x.blobs, id).entries, x.blobs.entries, x.ever);
  }

  lemma StateKnown(c: Cache, id: Id, step: Id, state: Blob, ever: map<Id, Blobs>)
    requires CacheKnown(c.entries, ever) && id in ever && Within(Entry(c, id), ever[id])
    requires state == [] || (step in ever[id].states && state == ever[id].states[step])
    ensures CacheKnown(SetState(c, id, step, state).entries, ever)
  {
    hide SetState;
    StateEntry(c, id, step, state);
    CachedStore.SetStateEntries(c, id, step, state);
  }

  /** The output of an entry is untouched. */
  lemma StateEntry(c: Cache, id: Id, step: Id, state: Blob)
    ensures id in SetState(c, id, step, state).entries ==> SetState(c, id, step, state).entries[id].output == Entry(c, id).output
  {
    if c.limit > 0 {
      var t := Touch(c, id);
      var b := WithoutState(t.entries[id], step);
      CachedStore.TrimSub(Put(t, id, b.(states := b.states[step := state], size := b.size + |state|)));
    }
  }

  lemma UpdateGood(x: World, e: Event)
    requires Good(x) && Can(x, e) && (e.Update? || e.Forget? || e.Restart?)
    ensures Good(After(x, e))
  {
    hide ReadersSound, CacheKnown, FileKnown, OpKnown, Drop;
    match e
    case Update(c) =>
      var op := x.calls[c][0];
      assert op in x.calls[c];
      UpdatedKnown(x.(calls := x.calls[c := x.calls[c][1..]]), op);
      RestKnown(x.calls, c, x.ever);
      SameReaders(x, After(x, e));
    case Forget(id) =>
      DropSub(x.outputs, id);
      SubKnown(Drop(x.outputs, id).entries, x.outputs.entries, x.ever);
      SameReaders(x, After(x, e));
    case Restart =>
      NoneKnown(After(x, e));
  }

  lemma DropSub(c: Cache, id: Id)
    ensures CachedStore.Sub(Drop(c, id).entries, c.entries)
  {
  }

  lemma RestKnown(calls: map<nat, seq<CacheOp>>, c: nat, ever: map<Id, Blobs>)
    requires CallsKnown(calls, ever) && c in calls && calls[c] != []
    ensures CallsKnown(calls[c := calls[c][1..]], ever)
  {
    hide OpKnown;
    assert forall op | op in calls[c][1..] :: op in calls[c];
  }

  lemma SameReaders(x: World, y: World)
    requires ReadersSound(x) && y.readers == x.readers && y.max == x.max && y.ever == x.ever
    ensures ReadersSound(y)
  {
  }

  lemma NoneKnown(x: World)
    requires x.readers == map[] && x.blobs.entries == map[] && x.outputs.entries == map[]
    ensures ReadersSound(x) && CacheKnown(x.blobs.entries, x.ever) && CacheKnown(x.outputs.entries, x.ever)
  {
  }

  // ---- Reads

  /** One read moved; the file, the calls and the other reads are as they
      were. */
  lemma ReadGood(x: World, y: World, r: nat)
    requires Good(x) && y.file == x.file && y.calls == x.calls && y.ever == x.ever && y.max == x.max
    requires CacheKnown(y.blobs.entries, x.ever) && CacheKnown(y.outputs.entries, x.ever)
    requires r in y.readers && y.readers == x.readers[r := y.readers[r]] && ReaderSound(y.readers[r], x.max, x.ever)
    ensures Good(y)
  {
    hide ReaderSound, FileKnown, CacheKnown, CallsKnown;
  }

  lemma LookedUpSame(c: Cache, id: Id)
    ensures LookedUp(c, id).entries == c.entries
  {
  }

  lemma KnownBlob(s: Stored, k: Blobs, b: Blobs)
    requires StageKnown(s, k) && Within(b, k)
    ensures b.input != [] ==> b.input == s.input
    ensures forall step | step in b.states && StateAt(s, step) != [] :: b.states[step] == StateAt(s, step)
    ensures Within(NoBlobs.(input := s.input), k)
  {
    hide StateAt;
  }

  lemma LookGood(x: World, r: nat)
    requires Good(x) && Can(x, Look(r))
    ensures Good(After(x, Look(r)))
  {
    hide FileKnown, CallsKnown, LookedUp, StageKnown, Within, StateAt, CacheKnown, Assemble, SnapKnown, Beside;
    var y, d := After(x, Look(r)), x.readers[r];
    LookedUpSame(x.blobs, d.id);
    LookedUpSame(x.outputs, d.id);
    assert ReaderSound(d, x.max, x.ever);
    if d.id in d.snap.done {
      DoneKnown(d.snap, d.id, x.ever);
      EntryKnown(x.outputs, d.id, x.ever);
      EndedOutput(d.snap, d.id, Entry(x.outputs, d.id), x.ever);
    } else if d.id in d.snap.stored {
      StoredKnown(d.snap, d.id, x.ever);
      EntryKnown(x.blobs, d.id, x.ever);
      KnownBlob(d.snap.stored[d.id], x.ever[d.id], Entry(x.blobs, d.id));
    }
    assert ReaderSound(y.readers[r], x.max, x.ever);
    ReadGood(x, y, r);
  }

  lemma EndedOutput(v: View, id: Id, b: Blobs, ever: map<Id, Blobs>)
    requires SnapKnown(v, ever) && id in v.done && Within(b, ever[id])
    ensures v.done[id].output != [] && b.output != [] ==> v.done[id].(output := b.output) == v.done[id]
  {
  }

  lemma TakeGood(x: World, r: nat, step: Id)
    requires Good(x) && Can(x, Take(r, step))
    ensures Good(After(x, Take(r, step)))
  {
    hide FileKnown, CallsKnown, LookedUp, StageKnown, Within, CacheKnown, SnapKnown;
    var y, d, w := After(x, Take(r, step)), x.readers[r], x.readers[r].stage;
    LookedUpSame(x.blobs, d.id);
    assert ReaderSound(d, x.max, x.ever);
    StoredKnown(d.snap, d.id, x.ever);
    EntryKnown(x.blobs, d.id, x.ever);
    var s := d.snap.stored[d.id];
    KnownBlob(s, x.ever[d.id], Entry(x.blobs, d.id));
    if w.fill.Some? {
      FillGrows(s, x.ever[d.id], w.fill.value, step);
    }
    assert ReaderSound(y.readers[r], x.max, x.ever);
    ReadGood(x, y, r);
  }

  lemma DoneKnown(v: View, id: Id, ever: map<Id, Blobs>)
    requires SnapKnown(v, ever) && id in v.done
    ensures id in ever
  {
  }

  lemma StoredKnown(v: View, id: Id, ever: map<Id, Blobs>)
    requires SnapKnown(v, ever) && id in v.stored
    ensures id in ever && StageKnown(v.stored[id], ever[id])
  {
  }

  lemma FillGrows(s: Stored, k: Blobs, fill: Blobs, step: Id)
    requires StageKnown(s, k) && Within(fill, k) && StateAt(s, step) != []
    ensures Within(fill.(states := fill.states[step := StateAt(s, step)]), k)
  {
    hide StateAt;
  }

  lemma FilledKnown(c: Cache, id: Id, b: Blobs, ever: map<Id, Blobs>)
    requires CacheKnown(c.entries, ever) && id in ever && Within(b, ever[id])
    ensures CacheKnown(Fill(c, id, b).entries, ever)
  {
    hide Fill, CacheKnown;
    CachedStore.FillEntries(c, id, b);
    PutKnown(c.entries, id, b.(size := BytesOf(b)), ever);
    SubKnown(Fill(c, id, b).entries, if id in c.entries then c.entries else c.entries[id := b.(size := BytesOf(b))], ever);
  }

  /** The blobs taken one by one make the snapshot's record. */
  lemma GatheredIs(s: Stored, input: Blob, states: map<Id, Blob>, max: nat)
    requires input == s.input
    requires forall step | step in states :: Beside(s, step, max) && states[step] == StateAt(s, step)
    ensures Gathered(s, input, states) == Assemble(s)
  {
    var r := Assemble(s);
    CursorKeeps(Base(s), s.cursor);
    forall id | id in r.steps ensures Gathered(s, input, states).steps[id] == r.steps[id] {
      CachedStore.AssembledState(s, id);
    }
    assert Gathered(s, input, states).steps == r.steps;
  }

  lemma EndsGood(x: World, e: Event)
    requires Good(x) && Can(x, e) && (e.End? || e.FillOutput?)
    ensures Good(After(x, e))
  {
    hide FileKnown, CallsKnown, Gathered, Fill, Assemble, StageKnown;
    var y, d, w := After(x, e), x.readers[e.r], x.readers[e.r].stage;
    assert ReaderSound(d, x.max, x.ever);
    if e.End? {
      GatheredIs(d.snap.stored[d.id], w.input, w.states, x.max);
      if w.fill.Some? {
        FilledKnown(x.blobs, d.id, w.fill.value, x.ever);
      }
    } else {
      FilledKnown(x.outputs, d.id, NoBlobs.(output := d.snap.done[d.id].output), x.ever);
    }
    assert ReaderSound(y.readers[e.r], x.max, x.ever);
    ReadGood(x, y, e.r);
  }

  lemma OpenGood(x: World, r: nat, id: Id)
    requires Good(x) && Can(x, Open(r, id))
    ensures Good(After(x, Open(r, id)))
  {
    hide CallsKnown, CacheKnown, StageKnown;
    ReadGood(x, After(x, Open(r, id)), r);
  }

  lemma StepGood(x: World, e: Event)
    requires Good(x) && Can(x, e)
    ensures Good(After(x, e))
  {
    hide Good, Can, After;
    match e
    case Create(_, _, _, _, _) => CreateGood(x, e);
    case Apply(_, _, t, _) =>
      if t.outcome.Some? {
        EndGood(x, e);
      } else {
        WriteGood(x, e);
      }
    case Cancel(_, _) => OtherGood(x, e);
    case DrainSome(_) => OtherGood(x, e);
    case Reap(_) => OtherGood(x, e);
    case Update(_) => UpdateGood(x, e);
    case Forget(_) => UpdateGood(x, e);
    case Open(r, id) => OpenGood(x, r, id);
    case Look(r) => LookGood(x, r);
    case Take(r, step) => TakeGood(x, r, step);
    case FillOutput(_) => EndsGood(x, e);
    case End(_) => EndsGood(x, e);
    case Restart => UpdateGood(x, e);
  }

  // ---- Whole histories

  ghost predicate History(xs: seq<World>, es: seq<Event>) {
    |xs| == |es| + 1 && forall i | 0 <= i < |es| :: Can(xs[i], es[i]) && xs[i + 1] == After(xs[i], es[i])
  }

  /** An empty file and cold caches of any size. */
  predicate Started(x: World) {
    && x.file == EmptyView && x.blobs == Cold(x.blobs.limit) && x.outputs == Cold(x.outputs.limit)
    && x.calls == map[] && x.readers == map[] && x.ever == map[]
  }

  lemma {:induction false} HistoryGood(xs: seq<World>, es: seq<Event>)
    requires History(xs, es) && Started(xs[0])
    ensures Good(xs[|es|])
    decreases |es|
  {
    hide After, Can;
    if es != [] {
      var n := |es| - 1;
      HistoryGood(xs[..n + 1], es[..n]);
      hide Good;
      StepGood(xs[n], es[n]);
    }
  }

  lemma SnapKept(x: World, e: Event, r: nat)
    requires Can(x, e) && r in x.readers && !e.Restart?
    ensures (var y := After(x, e); r in y.readers && y.readers[r].snap == x.readers[r].snap && y.readers[r].id == x.readers[r].id)
  {
    hide Looked, Took, Updated, Fill, Drop, CreateRun, ApplyTransition, Drain, Gathered, OneWriteEach, StatesOnce, Beside;
    match e
    case Look(d) => MovesOne(x, d);
    case Take(d, step) => TakesOne(x, d, step);
    case Update(c) => MovesNone(x.(calls := x.calls[c := x.calls[c][1..]]), x.calls[c][0]);
    case _ =>
  }

  lemma MovesOne(x: World, r: nat)
    requires r in x.readers
    ensures (var y := Looked(x, r); r in y.readers && y.readers == x.readers[r := x.readers[r].(stage := y.readers[r].stage)])
  {
  }

  lemma TakesOne(x: World, r: nat, step: Id)
    requires Can(x, Take(r, step))
    ensures (var y := Took(x, r, step); r in y.readers && y.readers == x.readers[r := x.readers[r].(stage := y.readers[r].stage)])
  {
  }

  lemma MovesNone(x: World, op: CacheOp)
    ensures Updated(x, op).readers == x.readers
  {
  }

  lemma {:induction false} SnapIsOpened(xs: seq<World>, es: seq<Event>, i: nat, r: nat, id: Id)
    requires History(xs, es) && i < |es| && es[i] == Open(r, id) && forall j | i < j < |es| :: !es[j].Restart?
    ensures r in xs[|es|].readers && xs[|es|].readers[r].snap == xs[i].file && xs[|es|].readers[r].id == id
    decreases |es|
  {
    var n := |es| - 1;
    assert xs[n + 1] == After(xs[n], es[n]);
    if i < n {
      hide After, Can;
      SnapIsOpened(xs[..n + 1], es[..n], i, r, id);
      SnapKept(xs[n], es[n], r);
    }
  }

  /** Every read returns the record the file held when it began, whatever was
      committed, cached, evicted, dropped or filled while it ran. */
  lemma ReadsAreSnapshots(xs: seq<World>, es: seq<Event>, i: nat, r: nat, id: Id)
    requires History(xs, es) && Started(xs[0]) && i < |es| && es[i] == Open(r, id)
    requires forall j | i < j < |es| :: !es[j].Restart?
    ensures r in xs[|es|].readers
    ensures xs[|es|].readers[r].stage.Returned? ==> xs[|es|].readers[r].stage.r == ReadRun(xs[i].file, id)
  {
    hide After, Can, Good;
    HistoryGood(xs, es);
    SnapIsOpened(xs, es, i, r, id);
    FoundSound(xs[|es|], r);
  }

  lemma FoundSound(x: World, r: nat)
    requires Good(x) && r in x.readers
    ensures x.readers[r].stage.Returned? ==> x.readers[r].stage.r == ReadRun(x.readers[r].snap, x.readers[r].id)
  {
    assert ReaderSound(x.readers[r], x.max, x.ever);
  }

  /** And the caches hold nothing but what their Runs have had: of a live Run,
      what the file holds. */
  lemma CachedIsFile(xs: seq<World>, es: seq<Event>, id: Id)
    requires History(xs, es) && Started(xs[0])
    requires id in xs[|es|].file.stored && id !in xs[|es|].file.done && id in xs[|es|].blobs.entries
    ensures CachedStore.OwnBlobs(xs[|es|].file.stored[id], xs[|es|].blobs.entries[id])
  {
    hide After, Can;
    HistoryGood(xs, es);
    LiveExactly(xs[|es|].file, xs[|es|].ever, id);
    EntryKnown(xs[|es|].blobs, id, xs[|es|].ever);
  }
}
