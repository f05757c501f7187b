/** store/bbolt: the store over its six buckets. A transaction is one atomic
    step: a method computes the new buckets and assigns them together, and an
    error leaves every bucket as it was. */
module BboltStore {
  import opened Bytes
  import opened Records
  import opened Keys
  import opened MemStore
  import opened StageView
  import opened StageRefinement
  import opened BboltRows

  const stageDrainPerWrite := 64
  const stageDrainPerSweep := 256

  // ---- The terminal row (store/internal/storagepb/convert.go:254-325)

  datatype TerminalMsg = TerminalMsg(
    runId: Id, pipeline: Id, resource: Id, createdAt: Time, annotations: map<Blob, Blob>, phase: Phase,
    committedAt: Time, startedAt: Time, outcome: Outcome, output: Blob, outputBeside: bool,
    failure: Option<Failure>, cancel: Option<CancelRequest>, failedUnwinds: map<Id, Operation>)

  datatype TermRow = TerminalRow(msg: TerminalMsg) | OutputRow(output: Blob)

  function Marshal(r: RunRecord, beside: bool): TerminalMsg
    requires r.Terminal()
  {
    TerminalMsg(r.runId, r.pipeline, r.resource, r.createdAt, r.annotations, r.phase, r.updatedAt, r.startedAt,
                r.outcome.value, if beside then [] else r.output, beside, r.failure, r.cancel,
                map id | id in r.steps && FailedUnwind(r.steps[id]) :: r.steps[id].unwind)
  }

  function Unmarshal(m: TerminalMsg): RunRecord {
    RunRecord(m.runId, m.pipeline, m.resource, m.annotations, [], m.phase,
              map id | id in m.failedUnwinds :: NoStep.(unwind := m.failedUnwinds[id]),
              m.failure, m.output, Some(m.outcome), Zero, None, None, [], [], Zero, m.cancel,
              m.createdAt, m.committedAt, m.startedAt)
  }

  /** A compact terminal record survives its encoding, the output apart when
      it is kept beside. */
  lemma TerminalRoundTrip(r: RunRecord, beside: bool)
    requires r.Terminal() && Compact(r) == r
    ensures Unmarshal(Marshal(r, beside)) == r.(output := if beside then [] else r.output)
    ensures Unmarshal(Marshal(r, beside)).(output := r.output) == r
  {
    assert KeptSteps(r.steps) == r.steps;
    assert Unmarshal(Marshal(r, beside)).steps == KeptSteps(r.steps);
  }

  // ---- What the other buckets hold

  ghost predicate CursorRep(cursor: map<Bytes, Cursor>, stored: map<Id, Stored>) {
    && (forall b | b in cursor :: exists id: Id :: id.name == b)
    && (forall id: Id :: Lookup(cursor, id.name) == if id in stored then Some(stored[id].cursor) else None)
  }

  ghost predicate AllTerminal(done: map<Id, RunRecord>) {
    forall id | id in done :: done[id].Terminal()
  }

  lemma InvTerminal(v: View)
    requires Inv(v)
    ensures AllTerminal(v.done)
  {
  }

  ghost predicate TermRep(terminal: map<Bytes, TermRow>, done: map<Id, RunRecord>, max: nat)
    requires AllTerminal(done)
  {
    && (forall id: Id :: Lookup(terminal, id.name) == if id in done then Some(TerminalRow(Marshal(done[id], |done[id].output| > max))) else None)
    && (forall id: Id :: Lookup(terminal, OutputKey(id)) == if id in done && |done[id].output| > max then Some(OutputRow(done[id].output)) else None)
  }

  ghost predicate ExpiryRep(expiry: set<Bytes>, done: map<Id, RunRecord>) {
    && (forall id | id in done :: ExpiryKey(done[id].updatedAt, id) in expiry)
    && (forall k | k in expiry :: exists id :: id in done && k == ExpiryKey(done[id].updatedAt, id))
  }

  ghost predicate StagedRep(staged: set<Bytes>, ids: set<Id>) {
    && (forall id | id in ids :: id.name in staged)
    && (forall k | k in staged :: exists id :: id in ids && k == id.name)
  }

  // ---- Pieces of a transaction

  /** putTerminal: the row, its output when large, and the expiry key. */
  method PutTerminal(terminal: map<Bytes, TermRow>, expiry: set<Bytes>, rec: RunRecord, max: nat, ghost done: map<Id, RunRecord>)
    returns (t: map<Bytes, TermRow>, x: set<Bytes>)
    requires rec.Terminal() && rec.runId !in done
    requires AllTerminal(done)
    requires TermRep(terminal, done, max) && ExpiryRep(expiry, done)
    ensures TermRep(t, done[rec.runId := rec], max) && ExpiryRep(x, done[rec.runId := rec])
  {
    var beside := |rec.output| > max;
    t := terminal[rec.runId.name := TerminalRow(Marshal(rec, beside))];
    if beside {
      t := t[OutputKey(rec.runId) := OutputRow(rec.output)];
    }
    x := expiry + {ExpiryKey(rec.updatedAt, rec.runId)};
    TermPut(terminal, done, max, rec);
    ExpiryPut(expiry, done, rec);
  }

  lemma TermPut(terminal: map<Bytes, TermRow>, done: map<Id, RunRecord>, max: nat, rec: RunRecord)
    requires rec.Terminal() && rec.runId !in done
    requires AllTerminal(done)
    requires TermRep(terminal, done, max)
    ensures (var row: map<Bytes, TermRow> := terminal[rec.runId.name := TerminalRow(Marshal(rec, |rec.output| > max))];
             TermRep(if |rec.output| > max then row[OutputKey(rec.runId) := OutputRow(rec.output)] else row, done[rec.runId := rec], max))
  {
    var row: map<Bytes, TermRow> := terminal[rec.runId.name := TerminalRow(Marshal(rec, |rec.output| > max))];
    var t: map<Bytes, TermRow> := if |rec.output| > max then row[OutputKey(rec.runId) := OutputRow(rec.output)] else row;
    forall id: Id
      ensures Lookup(t, id.name) == if id == rec.runId then Some(TerminalRow(Marshal(rec, |rec.output| > max))) else Lookup(terminal, id.name)
      ensures Lookup(t, OutputKey(id)) == if id == rec.runId && |rec.output| > max then Some(OutputRow(rec.output)) else Lookup(terminal, OutputKey(id))
    {
      OutputKeyApart(id, rec.runId);
      OutputKeyApart(rec.runId, id);
      assert id.name == rec.runId.name ==> id == rec.runId;
    }
  }

  lemma ExpiryPut(expiry: set<Bytes>, done: map<Id, RunRecord>, rec: RunRecord)
    requires ExpiryRep(expiry, done) && rec.runId !in done
    ensures ExpiryRep(expiry + {ExpiryKey(rec.updatedAt, rec.runId)}, done[rec.runId := rec])
  {
    var x, now := expiry + {ExpiryKey(rec.updatedAt, rec.runId)}, done[rec.runId := rec];
    forall k | k in x ensures exists id :: id in now && k == ExpiryKey(now[id].updatedAt, id) {
      if k == ExpiryKey(rec.updatedAt, rec.runId) {
        assert now[rec.runId] == rec;
      } else {
        var id :| id in done && k == ExpiryKey(done[id].updatedAt, id);
        assert now[id] == done[id];
      }
    }
  }

  /** deleteNonterminalStage: the active rows and the cursor. */
  method DeleteStage(active: Bucket, cursor: map<Bytes, Cursor>, id: Id, ghost stored: map<Id, Stored>, ghost max: nat)
    returns (a: Bucket, c: map<Bytes, Cursor>)
    requires ActiveRep(active, stored, max) && CursorRep(cursor, stored)
    ensures ActiveRep(a, stored - {id}, max) && CursorRep(c, stored - {id})
  {
    a := DeleteRows(active, id, stored, max);
    c := cursor - {id.name};
    assert forall x: Id :: x.name == id.name <==> x == id;
  }

  ghost predicate StageRep(active: Bucket, cursor: map<Bytes, Cursor>, staged: set<Bytes>, stored: map<Id, Stored>, ids: set<Id>, max: nat) {
    ActiveRep(active, stored, max) && CursorRep(cursor, stored) && StagedRep(staged, ids)
  }

  method DrainOne(active: Bucket, cursor: map<Bytes, Cursor>, staged: set<Bytes>, k: Bytes, ghost stored: map<Id, Stored>, ghost ids: set<Id>, ghost drained: set<Id>, ghost max: nat)
    returns (a: Bucket, c: map<Bytes, Cursor>, s: set<Bytes>, ghost x: Id)
    requires StageRep(active, cursor, staged, stored - drained, ids - drained, max) && k in staged
    ensures x in ids - drained && s == staged - {k}
    ensures StageRep(a, c, s, stored - (drained + {x}), ids - (drained + {x}), max)
  {
    x :| x in ids - drained && k == x.name;
    a, c := DeleteStage(active, cursor, Id(k), stored - drained, max);
    s := staged - {k};
    StagedDrop(staged, ids, drained, x);
    MinusOne(stored, drained, x);
  }

  /** drainStaged: the stages of the first n staged runs. */
  method DrainStaged(active: Bucket, cursor: map<Bytes, Cursor>, staged: set<Bytes>, n: nat, ghost stored: map<Id, Stored>, ghost ids: set<Id>, ghost max: nat)
    returns (a: Bucket, c: map<Bytes, Cursor>, s: set<Bytes>, taken: nat, ghost drained: set<Id>)
    requires StageRep(active, cursor, staged, stored, ids, max)
    ensures drained <= ids && taken == |drained| && taken <= n && (taken < n ==> drained == ids)
    ensures StageRep(a, c, s, stored - drained, ids - drained, max)
  {
    var batch := FirstKeys(staged, n);
    a, c, s, drained := active, cursor, staged, {};
    var i := 0;
    assert stored - {} == stored && ids - {} == ids;
    while i < |batch|
      invariant i <= |batch|
      invariant forall j | i <= j < |batch| :: batch[j] in s
      invariant |s| == |staged| - i
      invariant drained <= ids && i == |drained|
      invariant StageRep(a, c, s, stored - drained, ids - drained, max)
    {
      ghost var x;
      a, c, s, x := DrainOne(a, c, s, batch[i], stored, ids, drained, max);
      drained := drained + {x};
      i := i + 1;
    }
    taken := |batch|;
    if taken < n {
      StagedEmpty(s, ids - drained);
    }
  }

  lemma StagedEmpty(s: set<Bytes>, ids: set<Id>)
    requires StagedRep(s, ids) && |s| == 0
    ensures ids == {}
  {
    assert forall id | id in ids :: id.name in s;
  }

  /** The first keys of a bucket, at most n of them. */
  method FirstKeys(staged: set<Bytes>, n: nat) returns (batch: seq<Bytes>)
    ensures |batch| == if |staged| <= n then |staged| else n
    ensures forall b | b in batch :: b in staged
    ensures forall i, j | 0 <= i < j < |batch| :: batch[i] != batch[j]
    ensures Ascending(batch)
  {
    var keys := Sorted(staged);
    batch := if |keys| <= n then keys else keys[..n];
    forall i, j | 0 <= i < j < |batch| ensures batch[i] != batch[j] {
      AscendingDistinct(batch, i);
    }
  }

  lemma AscendingDistinct(s: seq<Bytes>, i: nat)
    requires Ascending(s) && i < |s|
    ensures forall j | i < j < |s| :: s[j] != s[i]
  {
    LessIrreflexive(s[i]);
  }

  lemma StagedDrop(s: set<Bytes>, ids: set<Id>, drained: set<Id>, x: Id)
    requires StagedRep(s, ids - drained) && x in ids - drained
    ensures StagedRep(s - {x.name}, ids - (drained + {x}))
  {
    assert forall id: Id :: id.name == x.name <==> id == x;
  }

  // ---- Reaping

  lemma TermDrop(terminal: map<Bytes, TermRow>, done: map<Id, RunRecord>, max: nat, id: Id)
    requires AllTerminal(done)
    requires TermRep(terminal, done, max)
    ensures TermRep(terminal - {id.name} - {OutputKey(id)}, done - {id}, max)
  {
    var t: map<Bytes, TermRow> := terminal - {id.name} - {OutputKey(id)};
    forall x: Id
      ensures Lookup(t, x.name) == if x == id then None else Lookup(terminal, x.name)
      ensures Lookup(t, OutputKey(x)) == if x == id then None else Lookup(terminal, OutputKey(x))
    {
      OutputKeyApart(x, id);
      OutputKeyApart(id, x);
      assert x.name == id.name ==> x == id;
    }
  }

  lemma ExpiryDrop(expiry: set<Bytes>, done: map<Id, RunRecord>, id: Id)
    requires ExpiryRep(expiry, done) && id in done
    ensures ExpiryRep(expiry - {ExpiryKey(done[id].updatedAt, id)}, done - {id})
  {
    var x, now := expiry - {ExpiryKey(done[id].updatedAt, id)}, done - {id};
    forall i | i in now ensures ExpiryKey(now[i].updatedAt, i) in x {
      ExpiryKeyInjective(done[i].updatedAt, i, done[id].updatedAt, id);
    }
    forall k | k in x ensures exists i :: i in now && k == ExpiryKey(now[i].updatedAt, i) {
      var i :| i in done && k == ExpiryKey(done[i].updatedAt, i);
      assert i in now && now[i] == done[i];
    }
  }

  /** The encoded commit times ascend along the index. */
  lemma PrefixesAscend(t: Time, a: Id, u: Time, b: Id)
    requires Less(ExpiryKey(t, a), ExpiryKey(u, b))
    ensures !Less(ExpiryPrefix(u), ExpiryPrefix(t))
  {
    if Less(ExpiryPrefix(u), ExpiryPrefix(t)) {
      LessSameLength(ExpiryPrefix(u), b.name, ExpiryPrefix(t), a.name);
      LessTransitive(ExpiryKey(t, a), ExpiryKey(u, b), ExpiryKey(t, a));
      LessIrreflexive(ExpiryKey(t, a));
    }
  }

  ghost function KeyOf(done: map<Id, RunRecord>, id: Id): Bytes
    requires id in done
  {
    ExpiryKey(done[id].updatedAt, id)
  }

  function Prefix8(k: Bytes): Bytes {
    if |k| < 8 then k else k[..8]
  }

  /** The walk took the first n keys of the index and stopped at the limit,
      the end, or the first Run that has not expired. */
  ghost predicate WalkStopped(keys: seq<Bytes>, n: nat, before: Time, limit: int) {
    && n <= |keys|
    && (forall j | 0 <= j < n :: Less(Prefix8(keys[j]), ExpiryPrefix(before)))
    && (if limit <= 0 then n == 0 else n <= limit)
    && (n == |keys| || n >= limit || !Less(Prefix8(keys[n]), ExpiryPrefix(before)))
  }

  ghost predicate Index(keys: seq<Bytes>, done: map<Id, RunRecord>) {
    && Ascending(keys)
    && (forall id | id in done :: KeyOf(done, id) in keys)
    && (forall k | k in keys :: exists id :: id in done && k == KeyOf(done, id))
  }

  ghost predicate Taken(keys: seq<Bytes>, n: nat, done: map<Id, RunRecord>, victims: set<Id>) {
    && n <= |keys|
    && victims <= done.Keys
    && |victims| == n
    && forall id | id in done :: id in victims <==> KeyOf(done, id) in keys[..n]
  }

  lemma KeyPrefix(done: map<Id, RunRecord>, id: Id)
    requires id in done
    ensures Prefix8(KeyOf(done, id)) == ExpiryPrefix(done[id].updatedAt)
  {
    ExpiryKeyInjective(done[id].updatedAt, id, Zero, id);
  }

  lemma WalkTakesOldest(v: View, keys: seq<Bytes>, n: nat, victims: set<Id>, before: Time, limit: int)
    requires Index(keys, v.done) && WalkStopped(keys, n, before, limit) && Taken(keys, n, v.done, victims)
    ensures TakesOldest(v, victims, before, limit)
  {
    hide Index, ExpiryPrefix, ExpiryKey, Prefix8, Less;
    var all := Reachable(v, before);
    forall id | id in victims ensures id in all {
      TakenReachable(v, keys, n, victims, before, limit, id);
    }
    forall a, b | a in victims && b in v.done && b !in victims
      ensures Less(KeyOf(v.done, a), KeyOf(v.done, b))
    {
      TakenFirst(keys, n, v.done, victims, a, b);
    }
    if limit > 0 && n < limit {
      forall id | id in all ensures id in victims {
        LateNotReachable(v, keys, n, before, limit, id);
      }
      assert victims == all;
    }
    SubsetSize(victims, all);
  }

  lemma TakenReachable(v: View, keys: seq<Bytes>, n: nat, victims: set<Id>, before: Time, limit: int, id: Id)
    requires WalkStopped(keys, n, before, limit) && Taken(keys, n, v.done, victims) && id in victims
    ensures id in Reachable(v, before)
  {
    var j :| 0 <= j < n && keys[..n][j] == KeyOf(v.done, id);
    KeyPrefix(v.done, id);
  }

  lemma TakenFirst(keys: seq<Bytes>, n: nat, done: map<Id, RunRecord>, victims: set<Id>, a: Id, b: Id)
    requires Index(keys, done) && Taken(keys, n, done, victims) && a in victims && b in done && b !in victims
    ensures Less(KeyOf(done, a), KeyOf(done, b))
  {
    var i :| 0 <= i < n && keys[..n][i] == KeyOf(done, a);
    assert KeyOf(done, b) in keys;
    var j :| 0 <= j < |keys| && keys[j] == KeyOf(done, b);
    InPrefix(keys, j, n);
  }

  lemma InPrefix(keys: seq<Bytes>, j: nat, n: nat)
    requires j < |keys| && n <= |keys|
    ensures j < n ==> keys[j] in keys[..n]
  {
    if j < n {
      assert keys[..n][j] == keys[j];
    }
  }

  lemma LateNotReachable(v: View, keys: seq<Bytes>, n: nat, before: Time, limit: int, id: Id)
    requires Index(keys, v.done) && WalkStopped(keys, n, before, limit) && n < limit && id in Reachable(v, before)
    ensures KeyOf(v.done, id) in keys[..n]
  {
    var k := KeyOf(v.done, id);
    assert k in keys;
    var j :| 0 <= j < |keys| && keys[j] == k;
    KeyPrefix(v.done, id);
    if n <= j {
      LaterNotExpired(keys, v.done, n, j, ExpiryPrefix(before));
    }
    assert keys[..n][j] == k;
  }

  lemma LaterNotExpired(keys: seq<Bytes>, done: map<Id, RunRecord>, n: nat, j: nat, cutoff: Bytes)
    requires Index(keys, done) && n <= j < |keys| && !Less(Prefix8(keys[n]), cutoff)
    ensures !Less(Prefix8(keys[j]), cutoff)
  {
    assert keys[n] in keys && keys[j] in keys;
    var x :| x in done && keys[n] == KeyOf(done, x);
    var y :| y in done && keys[j] == KeyOf(done, y);
    KeyPrefix(done, x);
    KeyPrefix(done, y);
    if n < j {
      PrefixesAscend(done[x].updatedAt, x, done[y].updatedAt, y);
      NotLessChain(Prefix8(keys[j]), Prefix8(keys[n]), cutoff);
    }
  }

  lemma NotLessChain(a: Bytes, b: Bytes, c: Bytes)
    requires !Less(a, b) && !Less(b, c)
    ensures !Less(a, c)
  {
    LessTotal(a, b);
    if Less(a, c) && Less(b, a) {
      LessTransitive(b, a, c);
    }
  }

  // ---- Rows of a Run

  /** putOnce on an absent row: one key more. */
  method PutFact(active: Bucket, k0: Key, row: Row, ghost stored: map<Id, Stored>, ghost s: Stored, ghost max: nat) returns (a: Bucket)
    requires ActiveRep(active, stored, max)
    requires forall k: Key | k.id == k0.id :: RowOf(s, max, k) == if k == k0 then Some(row) else Expected(stored, max, k)
    ensures ActiveRep(a, stored[k0.id := s], max)
  {
    a := active[Encode(k0) := row];
    assert IsKey(Encode(k0));
    forall k: Key ensures Lookup(a, Encode(k)) == Expected(stored[k0.id := s], max, k) {
      PutAt(active, k0, row, k);
      assert Lookup(active, Encode(k)) == Expected(stored, max, k);
    }
  }

  /** Each fact is one row and touches no other. */
  lemma FactRows(s: Stored, max: nat, k: Key)
    ensures RowOf(s.(cancel := None, failure := None, input := [], ops := map[]), max, k) == if k.KMeta? then Some(MetaOf(s)) else None
    ensures s.cancel.Some? ==> RowOf(s, max, k) == if k.KCancel? then Some(CancelRow(s.cancel.value)) else RowOf(s.(cancel := None), max, k)
    ensures s.failure.Some? ==> RowOf(s, max, k) == if k.KFail? then Some(FailureRow(s.failure.value)) else RowOf(s.(failure := None), max, k)
    ensures s.input != [] ==> RowOf(s, max, k) == if k.KInput? then Some(BlobRow(s.input)) else RowOf(s.(input := []), max, k)
  {
  }

  method PutFailure(active: Bucket, id: Id, f: Failure, ghost stored: map<Id, Stored>, ghost max: nat) returns (a: Bucket)
    requires ActiveRep(active, stored, max) && id in stored && stored[id].failure.None?
    ensures ActiveRep(a, stored[id := stored[id].(failure := Some(f))], max)
  {
    ghost var s := stored[id].(failure := Some(f));
    assert s.(failure := None) == stored[id];
    forall k: Key | k.id == id ensures RowOf(s, max, k) == if k == KFail(id) then Some(FailureRow(f)) else Expected(stored, max, k) {
      FactRows(s, max, k);
    }
    a := PutFact(active, KFail(id), FailureRow(f), stored, s, max);
  }

  method PutCancel(active: Bucket, id: Id, req: CancelRequest, ghost stored: map<Id, Stored>, ghost max: nat) returns (a: Bucket)
    requires ActiveRep(active, stored, max) && id in stored && stored[id].cancel.None?
    ensures ActiveRep(a, stored[id := stored[id].(cancel := Some(req))], max)
  {
    ghost var s := stored[id].(cancel := Some(req));
    assert s.(cancel := None) == stored[id];
    forall k: Key | k.id == id ensures RowOf(s, max, k) == if k == KCancel(id) then Some(CancelRow(req)) else Expected(stored, max, k) {
      FactRows(s, max, k);
    }
    a := PutFact(active, KCancel(id), CancelRow(req), stored, s, max);
  }

  method PutInput(active: Bucket, id: Id, input: Blob, ghost stored: map<Id, Stored>, ghost max: nat) returns (a: Bucket)
    requires ActiveRep(active, stored, max) && id in stored && stored[id].input == [] && input != []
    ensures ActiveRep(a, stored[id := stored[id].(input := input)], max)
  {
    ghost var s := stored[id].(input := input);
    assert s.(input := []) == stored[id];
    forall k: Key | k.id == id ensures RowOf(s, max, k) == if k == KInput(id) then Some(BlobRow(input)) else Expected(stored, max, k) {
      FactRows(s, max, k);
    }
    a := PutFact(active, KInput(id), BlobRow(input), stored, s, max);
  }

  method PutMeta(active: Bucket, s: Stored, ghost stored: map<Id, Stored>, ghost max: nat) returns (a: Bucket)
    requires ActiveRep(active, stored, max) && s.runId !in stored
    requires s.input == [] && s.cancel.None? && s.failure.None? && s.ops == map[]
    ensures ActiveRep(a, stored[s.runId := s], max)
  {
    forall k: Key | k.id == s.runId ensures RowOf(s, max, k) == if k == KMeta(s.runId) then Some(MetaOf(s)) else Expected(stored, max, k) {
      FactRows(s, max, k);
    }
    a := PutFact(active, KMeta(s.runId), MetaOf(s), stored, s, max);
  }

  lemma RowPresent(active: Bucket, stored: map<Id, Stored>, max: nat, k: Key)
    requires ActiveRep(active, stored, max) && (k.KMeta? || k.KCancel? || k.KFail?)
    ensures Encode(k) == ActiveKey(k.id, Tag(k))
    ensures ActiveKey(k.id, Tag(k)) in active <==> Expected(stored, max, k).Some?
  {
    assert Encode(k) == ActiveKey(k.id, Tag(k)) + [];
    assert Lookup(active, Encode(k)) == Expected(stored, max, k);
  }

  method PutSeedOps(active: Bucket, rec: RunRecord, max: nat, ghost stored: map<Id, Stored>) returns (a: Bucket)
    requires ActiveRep(active, stored, max) && rec.runId in stored && stored[rec.runId].ops == map[]
    ensures ActiveRep(a, stored[rec.runId := stored[rec.runId].(ops := SeedOps(rec.steps))], max)
  {
    a := active;
    ghost var ops: map<OpId, Operation> := map[];
    var todo := rec.steps.Keys;
    assert SeedOps(rec.steps - todo) == map[];
    assert stored[rec.runId := stored[rec.runId].(ops := map[])] == stored;
    while todo != {}
      invariant todo <= rec.steps.Keys
      invariant ops == SeedOps(rec.steps - todo)
      invariant ActiveRep(a, WithOps(stored, rec.runId, ops), max)
      decreases todo
    {
      var id :| id in todo;
      SeedOpsAdd(rec.steps, todo, id);
      todo := todo - {id};
      a := PutSeedOp(a, rec.runId, id, Fwd, rec.steps[id].forward, max, stored, ops);
      ops := AddHalf(ops, id, Fwd, rec.steps[id].forward);
      a := PutSeedOp(a, rec.runId, id, Unw, rec.steps[id].unwind, max, stored, ops);
      ops := AddHalf(ops, id, Unw, rec.steps[id].unwind);
    }
    assert rec.steps - {} == rec.steps;
  }

  ghost function WithOps(stored: map<Id, Stored>, id: Id, ops: map<OpId, Operation>): map<Id, Stored>
    requires id in stored
  {
    stored[id := stored[id].(ops := ops)]
  }

  method PutSeedOp(active: Bucket, id: Id, step: Id, h: Half, op: Operation, max: nat, ghost stored: map<Id, Stored>, ghost ops: map<OpId, Operation>) returns (a: Bucket)
    requires id in stored && ActiveRep(active, WithOps(stored, id, ops), max)
    ensures ActiveRep(a, WithOps(stored, id, AddHalf(ops, step, h, op)), max)
  {
    a := active;
    if op.status != OpNone {
      ghost var now := WithOps(stored, id, ops);
      a := PutOp(a, id, step, h, op, max, now);
      assert now[id := now[id].(ops := now[id].ops[OpId(step, h) := op])] == WithOps(stored, id, ops[OpId(step, h) := op]);
    }
  }

  function AddHalf(ops: map<OpId, Operation>, id: Id, h: Half, op: Operation): map<OpId, Operation> {
    if op.status != OpNone then ops[OpId(id, h) := op] else ops
  }

  lemma SeedOpsAdd(steps: map<Id, StepRecord>, todo: set<Id>, id: Id)
    requires id in steps && id in todo
    ensures SeedOps(steps - (todo - {id})) ==
            AddHalf(AddHalf(SeedOps(steps - todo), id, Fwd, steps[id].forward), id, Unw, steps[id].unwind)
  {
    var a, b := SeedOps(steps - (todo - {id})), AddHalf(AddHalf(SeedOps(steps - todo), id, Fwd, steps[id].forward), id, Unw, steps[id].unwind);
    forall k ensures k in a <==> k in b
      ensures k in a ==> a[k] == b[k]
    {
      SeedOpsAddAt(steps, todo, id, k);
    }
  }

  lemma SeedOpsAddAt(steps: map<Id, StepRecord>, todo: set<Id>, id: Id, k: OpId)
    requires id in steps && id in todo
    ensures (var a, b := SeedOps(steps - (todo - {id})), AddHalf(AddHalf(SeedOps(steps - todo), id, Fwd, steps[id].forward), id, Unw, steps[id].unwind);
             (k in a <==> k in b) && (k in a ==> a[k] == b[k]))
  {
    SeedOpsIn(steps - (todo - {id}), k);
    SeedOpsIn(steps - todo, k);
    assert k.h.Fwd? || k.h.Unw?;
  }

  /** putRun of a nonterminal record. */
  method PutRunRows(active: Bucket, cursor: map<Bytes, Cursor>, rec: RunRecord, max: nat, ghost stored: map<Id, Stored>)
    returns (a: Bucket, c: map<Bytes, Cursor>)
    requires ActiveRep(active, stored, max) && CursorRep(cursor, stored) && rec.runId !in stored
    ensures ActiveRep(a, stored[rec.runId := Seed(rec)], max) && CursorRep(c, stored[rec.runId := Seed(rec)])
  {
    var id := rec.runId;
    var c0 := Cursor(rec.phase, NoId, 0, rec.awaiting, rec.awaited, rec.nextAttemptAt, rec.lastError,
                     rec.lastReason, rec.lastErrorAt, rec.updatedAt, rec.startedAt);
    var bare := Stored(id, rec.pipeline, rec.resource, rec.annotations, rec.createdAt, [], None, None, map[], c0);
    a := PutMeta(active, bare, stored, max);
    ghost var s := bare;
    if rec.input != [] {
      a := PutInput(a, id, rec.input, stored[id := s], max);
      s := s.(input := rec.input);
      Again(stored, id, bare, s);
    }
    c := cursor[id.name := c0];
    a := PutSeedOps(a, rec, max, stored[id := s]);
    Again(stored, id, s, s.(ops := SeedOps(rec.steps)));
    s := s.(ops := SeedOps(rec.steps));
    a, s := PutEnds(a, rec, max, stored, s);
    CursorPut(cursor, stored, id, s);
  }

  method PutEnds(active: Bucket, rec: RunRecord, max: nat, ghost stored: map<Id, Stored>, ghost s0: Stored) returns (a: Bucket, ghost s: Stored)
    requires ActiveRep(active, stored[rec.runId := s0], max) && s0.failure.None? && s0.cancel.None?
    ensures s == s0.(failure := rec.failure, cancel := rec.cancel)
    ensures ActiveRep(a, stored[rec.runId := s], max)
  {
    a, s := active, s0;
    if rec.failure.Some? {
      a := PutFailure(a, rec.runId, rec.failure.value, stored[rec.runId := s], max);
      Again(stored, rec.runId, s, s.(failure := rec.failure));
      s := s.(failure := rec.failure);
    }
    if rec.cancel.Some? {
      a := PutCancel(a, rec.runId, rec.cancel.value, stored[rec.runId := s], max);
      Again(stored, rec.runId, s, s.(cancel := rec.cancel));
      s := s.(cancel := rec.cancel);
    }
  }

  lemma Again<K, V>(m: map<K, V>, k: K, a: V, b: V)
    ensures m[k := a][k := b] == m[k := b]
  {
  }

  lemma CursorPut(cursor: map<Bytes, Cursor>, stored: map<Id, Stored>, id: Id, s: Stored)
    requires CursorRep(cursor, stored)
    ensures CursorRep(cursor[id.name := s.cursor], stored[id := s])
  {
    assert forall x: Id :: x.name == id.name <==> x == id;
  }

  /** The rows an ordinary transition writes. */
  method TransitionRows(active: Bucket, cursor: map<Bytes, Cursor>, id: Id, t: Transition, max: nat, ghost stored: map<Id, Stored>)
    returns (a: Bucket, c: map<Bytes, Cursor>)
    requires ActiveRep(active, stored, max) && CursorRep(cursor, stored) && id in stored
    requires t.failure.Some? ==> stored[id].failure.None?
    ensures ActiveRep(a, stored[id := Next(stored[id], t)], max) && CursorRep(c, stored[id := Next(stored[id], t)])
  {
    ghost var s := stored[id];
    ghost var now := stored;
    a := active;
    if t.failure.Some? {
      s := s.(failure := t.failure);
      a := PutFailure(a, id, t.failure.value, now, max);
      now := now[id := s];
    }
    c := cursor[id.name := t.cursor];
    CursorPut(cursor, stored, id, Next(stored[id], t));
    a := PutWrites(a, id, t.ops, max, now);
    SameRows(a, now[id := s.(ops := PutOps(s.ops, t.ops))], id, Next(stored[id], t), max);
    assert now[id := s.(ops := PutOps(s.ops, t.ops))][id := Next(stored[id], t)] == stored[id := Next(stored[id], t)];
  }

  /** The cursor is not among the active rows. */
  lemma SameRows(active: Bucket, stored: map<Id, Stored>, id: Id, s: Stored, max: nat)
    requires ActiveRep(active, stored, max) && id in stored && s == stored[id].(cursor := s.cursor)
    ensures ActiveRep(active, stored[id := s], max)
  {
    forall k: Key ensures Expected(stored[id := s], max, k) == Expected(stored, max, k) {
    }
  }

  method PutWrites(active: Bucket, id: Id, ops: seq<OpWrite>, max: nat, ghost stored: map<Id, Stored>) returns (a: Bucket)
    requires ActiveRep(active, stored, max) && id in stored
    ensures ActiveRep(a, stored[id := stored[id].(ops := PutOps(stored[id].ops, ops))], max)
  {
    a := active;
    ghost var now := stored;
    var i := 0;
    while i < |ops|
      invariant i <= |ops|
      invariant now == stored[id := stored[id].(ops := PutOps(stored[id].ops, ops[..i]))]
      invariant ActiveRep(a, now, max)
    {
      assert ops[..i + 1][..i] == ops[..i];
      a := PutOp(a, id, ops[i].step, ops[i].half, ops[i].op, max, now);
      now := now[id := now[id].(ops := now[id].ops[OpId(ops[i].step, ops[i].half) := ops[i].op])];
      i := i + 1;
    }
    assert ops[..i] == ops;
  }

  /** The record the terminality commit writes. */
  method CommitRow(active: Bucket, cursor: map<Bytes, Cursor>, id: Id, t: Transition, ghost stored: map<Id, Stored>, ghost max: nat) returns (rec: RunRecord)
    requires ActiveRep(active, stored, max) && CursorRep(cursor, stored) && id in stored
    ensures rec == Commit(Assemble(stored[id]), t)
  {
    var got := GetNonterminal(active, cursor, id, stored, max);
    rec := got.value;
    if t.failure.Some? {
      rec := rec.(failure := t.failure);
    }
    rec := WriteOps(rec, t.ops);
    if t.cursor.step != NoId {
      var sr := rec.StepOf(t.cursor.step);
      if t.cursor.phase.PhaseUnwind? && sr.forward.status == OpSucceeded {
        rec := rec.WithOp(t.cursor.step, Unw, sr.unwind.(status := OpUnresolved));
      } else {
        rec := rec.WithOp(t.cursor.step, Fwd, sr.forward.(status := OpUnresolved));
      }
    }
    rec := rec.(phase := t.cursor.phase, updatedAt := t.cursor.updatedAt, startedAt := t.cursor.startedAt,
                outcome := t.outcome, output := t.output);
    rec := CompactTerminal(rec);
  }

  // ---- Reads over the buckets

  ghost predicate StoreRep(active: Bucket, cursor: map<Bytes, Cursor>, terminal: map<Bytes, TermRow>, v: View, max: nat) {
    Inv(v) && ActiveRep(active, v.stored, max) && CursorRep(cursor, v.stored) && TermRep(terminal, v.done, max)
  }

  method GetRunIn(active: Bucket, cursor: map<Bytes, Cursor>, terminal: map<Bytes, TermRow>, id: Id, max: nat, ghost v: View) returns (r: Result<RunRecord>)
    requires StoreRep(active, cursor, terminal, v, max)
    ensures r == ReadRun(v, id)
  {
    var key: Bytes := id.name;
    assert Lookup(terminal, key) == if id in v.done then Some(TerminalRow(Marshal(v.done[id], |v.done[id].output| > max))) else None;
    if key in terminal {
      TerminalRoundTrip(v.done[id], |v.done[id].output| > max);
      var msg := terminal[key].msg;
      var rec := Unmarshal(msg);
      if msg.outputBeside {
        assert Lookup(terminal, OutputKey(id)) == Some(OutputRow(v.done[id].output));
        rec := rec.(output := terminal[OutputKey(id)].output);
      }
      return Ok(rec);
    }
    r := GetNonterminal(active, cursor, id, v.stored, max);
  }

  method GetHeadIn(active: Bucket, cursor: map<Bytes, Cursor>, terminal: map<Bytes, TermRow>, id: Id, max: nat, ghost v: View) returns (r: Result<RunRecord>)
    requires StoreRep(active, cursor, terminal, v, max)
    ensures r == ReadHead(v, id)
  {
    var key: Bytes := id.name;
    assert Lookup(terminal, key) == if id in v.done then Some(TerminalRow(Marshal(v.done[id], |v.done[id].output| > max))) else None;
    if key in terminal {
      TerminalRoundTrip(v.done[id], |v.done[id].output| > max);
      return Ok(Unmarshal(terminal[key].msg).(output := []));
    }
    r := GetHead(active, cursor, id, v.stored, max);
  }

  /** ListNonterminal: the slots in key order, each read as its head; a slot
      naming no Run is reported. */
  method ListIn(active: Bucket, cursor: map<Bytes, Cursor>, terminal: map<Bytes, TermRow>, slots: map<Bytes, Id>, max: nat, ghost v: View)
    returns (r: Result<seq<RunRecord>>)
    requires StoreRep(active, cursor, terminal, v, max) && slots == v.slots
    ensures SlotsExact(v) ==> r.Ok? && Lists(r.value, LiveHeads(v))
  {
    var out: seq<RunRecord> := [];
    var keys := Sorted(slots.Keys);
    var i := 0;
    while i < |keys|
      invariant i <= |keys| && |out| == i
      invariant ReadInOrder(v, keys, out)
    {
      assert keys[i] in keys;
      var got := GetHeadIn(active, cursor, terminal, slots[keys[i]], max, v);
      if got.Error? {
        if SlotsExact(v) {
          SlotHeld(v, keys[i]);
          assert false;
        }
        return Error(got.error);
      }
      ReadNext(v, keys, out, got.value);
      out := out + [got.value];
      i := i + 1;
    }
    ListDone(v, keys, out);
    r := Ok(out);
  }

  ghost predicate ReadInOrder(v: View, keys: seq<Bytes>, out: seq<RunRecord>) {
    |out| <= |keys| && forall j | 0 <= j < |out| :: keys[j] in v.slots && ReadHead(v, v.slots[keys[j]]) == Ok(out[j])
  }

  lemma ReadNext(v: View, keys: seq<Bytes>, out: seq<RunRecord>, h: RunRecord)
    requires ReadInOrder(v, keys, out) && |out| < |keys|
    requires keys[|out|] in v.slots && ReadHead(v, v.slots[keys[|out|]]) == Ok(h)
    ensures ReadInOrder(v, keys, out + [h])
  {
  }

  lemma SlotHeld(v: View, k: Bytes)
    requires k in v.slots && SlotsExact(v)
    ensures ReadHead(v, v.slots[k]).Ok?
  {
    InverseAt(v.slots, Live(v), k);
  }

  lemma InverseAt(slots: map<Bytes, Id>, live: map<Id, Bytes>, k: Bytes)
    requires Inverse(slots, live) && k in slots
    ensures slots[k] in live && live[slots[k]] == k
  {
  }

  lemma ListDone(v: View, keys: seq<Bytes>, out: seq<RunRecord>)
    requires Inv(v) && Ascending(keys) && |out| == |keys|
    requires (forall k | k in keys :: k in v.slots) && (forall k | k in v.slots :: k in keys)
    requires ReadInOrder(v, keys, out)
    ensures SlotsExact(v) ==> Lists(out, LiveHeads(v))
  {
    if SlotsExact(v) {
      forall i, j | 0 <= i < j < |keys| ensures keys[i] != keys[j] {
        AscendingDistinct(keys, i);
      }
      forall j | 0 <= j < |keys|
        ensures v.slots[keys[j]] in LiveHeads(v) && LiveHeads(v)[v.slots[keys[j]]] == out[j] && out[j].runId == v.slots[keys[j]]
      {
        InverseAt(v.slots, Live(v), keys[j]);
        StoredHead(v.stored[v.slots[keys[j]]]);
      }
      ListedBySlots(v.slots, Live(v), LiveHeads(v), keys, out);
    }
  }

  lemma StoredHead(s: Stored)
    ensures HeadRows(s).runId == s.runId
  {
  }

  lemma ListedBySlots(slots: map<Bytes, Id>, live: map<Id, Bytes>, heads: map<Id, RunRecord>, keys: seq<Bytes>, out: seq<RunRecord>)
    requires Inverse(slots, live) && heads.Keys == live.Keys && |out| == |keys|
    requires forall k | k in slots :: k in keys
    requires forall i, j | 0 <= i < j < |keys| :: keys[i] != keys[j]
    requires forall j | 0 <= j < |keys| :: keys[j] in slots && slots[keys[j]] in heads && heads[slots[keys[j]]] == out[j] && out[j].runId == slots[keys[j]]
    ensures Lists(out, heads)
  {
    forall i, j | 0 <= i < j < |out| ensures out[i].runId != out[j].runId {
      assert live[slots[keys[i]]] == keys[i] && live[slots[keys[j]]] == keys[j];
    }
    forall id | id in heads ensures heads[id] in out {
      assert live[id] in keys;
      var j :| 0 <= j < |keys| && keys[j] == live[id];
      assert out[j] == heads[id];
    }
  }

  // ---- Reaping, row by row

  /** The walk over the expiry index: oldest first, to the first Run that
      has not expired or the limit. */
  method CountExpired(keys: seq<Bytes>, cutoff: Bytes, limit: int) returns (n: nat)
    ensures n <= |keys|
    ensures forall j | 0 <= j < n :: Less(Prefix8(keys[j]), cutoff)
    ensures if limit <= 0 then n == 0 else n <= limit
    ensures n == |keys| || n >= limit || !Less(Prefix8(keys[n]), cutoff)
  {
    n := 0;
    while n < |keys| && n < limit && Less(Prefix8(keys[n]), cutoff)
      invariant n <= |keys| && (n == 0 || n <= limit)
      invariant forall j | 0 <= j < n :: Less(Prefix8(keys[j]), cutoff)
    {
      n := n + 1;
    }
  }

  ghost predicate BucketsRep(active: Bucket, cursor: map<Bytes, Cursor>, terminal: map<Bytes, TermRow>, expiry: set<Bytes>, staged: set<Bytes>, v: View, max: nat) {
    && StageRep(active, cursor, staged, v.stored, v.staged, max)
    && AllTerminal(v.done)
    && TermRep(terminal, v.done, max)
    && ExpiryRep(expiry, v.done)
  }

  /** One victim: its stage, terminal row, output, index key and staged key. */
  method ReapOne(active: Bucket, cursor: map<Bytes, Cursor>, terminal: map<Bytes, TermRow>, expiry: set<Bytes>, staged: set<Bytes>, k: Bytes, ghost max: nat, ghost v: View)
    returns (a: Bucket, c: map<Bytes, Cursor>, t: map<Bytes, TermRow>, x: set<Bytes>, s: set<Bytes>, victim: Id)
    requires BucketsRep(active, cursor, terminal, expiry, staged, v, max) && k in expiry
    ensures victim in v.done && k == KeyOf(v.done, victim) && x == expiry - {k}
    ensures BucketsRep(a, c, t, x, s, Reap(v, {victim}), max)
  {
    ghost var named :| named in v.done && k == ExpiryKey(v.done[named].updatedAt, named);
    ExpiryKeyInjective(v.done[named].updatedAt, named, Zero, named);
    var id := Id(k[8..]);
    victim := id;
    a, c := DeleteStage(active, cursor, id, v.stored, max);
    t := terminal - {id.name} - {OutputKey(id)};
    x := expiry - {k};
    s := staged - {id.name};
    TermDrop(terminal, v.done, max, id);
    ExpiryDrop(expiry, v.done, id);
    StagedRemove(staged, v.staged, id);
  }

  lemma StagedRemove(s: set<Bytes>, ids: set<Id>, x: Id)
    requires StagedRep(s, ids)
    ensures StagedRep(s - {x.name}, ids - {x})
  {
    assert forall id: Id :: id.name == x.name <==> id == x;
  }

  method ReapAll(active: Bucket, cursor: map<Bytes, Cursor>, terminal: map<Bytes, TermRow>, expiry: set<Bytes>, staged: set<Bytes>, doomed: seq<Bytes>, ghost max: nat, ghost v: View)
    returns (a: Bucket, c: map<Bytes, Cursor>, t: map<Bytes, TermRow>, x: set<Bytes>, s: set<Bytes>, victims: set<Id>)
    requires BucketsRep(active, cursor, terminal, expiry, staged, v, max)
    requires Ascending(doomed) && forall k | k in doomed :: k in expiry
    ensures victims <= v.done.Keys && |victims| == |doomed|
    ensures forall id | id in v.done :: id in victims <==> KeyOf(v.done, id) in doomed
    ensures BucketsRep(a, c, t, x, s, Reap(v, victims), max)
  {
    hide BucketsRep;
    a, c, t, x, s, victims := active, cursor, terminal, expiry, staged, {};
    var i := 0;
    ReapNone(v);
    while i < |doomed|
      invariant i <= |doomed|
      invariant forall j | i <= j < |doomed| :: doomed[j] in x
      invariant victims <= v.done.Keys && |victims| == i
      invariant forall id | id in v.done :: id in victims <==> KeyOf(v.done, id) in doomed[..i]
      invariant BucketsRep(a, c, t, x, s, Reap(v, victims), max)
    {
      AscendingDistinct(doomed, i);
      var victim;
      a, c, t, x, s, victim := ReapOne(a, c, t, x, s, doomed[i], max, Reap(v, victims));
      ReapTwice(v, victims, victim);
      VictimsGrow(v.done, victims, victim, doomed, i);
      victims := victims + {victim};
      i := i + 1;
    }
    assert doomed[..i] == doomed;
  }

  lemma ReapNone(v: View)
    ensures Reap(v, {}) == v
  {
    assert v.stored - {} == v.stored && v.done - {} == v.done && v.staged - {} == v.staged;
  }

  lemma ReapTwice(v: View, victims: set<Id>, x: Id)
    ensures Reap(Reap(v, victims), {x}) == Reap(v, victims + {x})
  {
    assert v.stored - victims - {x} == v.stored - (victims + {x});
    assert v.done - victims - {x} == v.done - (victims + {x});
  }

  lemma VictimsGrow(done: map<Id, RunRecord>, victims: set<Id>, x: Id, doomed: seq<Bytes>, i: nat)
    requires i < |doomed| && x in done && x !in victims && doomed[i] == KeyOf(done, x)
    requires forall id | id in done :: id in victims <==> KeyOf(done, id) in doomed[..i]
    ensures forall id | id in done :: id in victims + {x} <==> KeyOf(done, id) in doomed[..i + 1]
  {
    assert doomed[..i + 1] == doomed[..i] + [doomed[i]];
    forall id | id in done ensures KeyOf(done, id) == KeyOf(done, x) <==> id == x {
      ExpiryKeyInjective(done[id].updatedAt, id, done[x].updatedAt, x);
    }
  }

  lemma DrainTwice(v: View, a: set<Id>, b: set<Id>)
    ensures Drain(Drain(v, a), b) == Drain(v, a + b)
  {
    assert v.stored - a - b == v.stored - (a + b);
  }

  lemma SortedIndex(expiry: set<Bytes>, done: map<Id, RunRecord>)
    requires ExpiryRep(expiry, done)
    ensures Index(Sorted(expiry), done)
  {
    var keys := Sorted(expiry);
    forall id | id in done ensures KeyOf(done, id) in keys {
      assert KeyOf(done, id) in expiry;
    }
    forall k | k in keys ensures exists id :: id in done && k == KeyOf(done, id) {
      assert k in expiry;
      var id :| id in done && k == ExpiryKey(done[id].updatedAt, id);
      assert k == KeyOf(done, id);
    }
  }

  /** The walk over the whole index, as the keys it took. */
  ghost predicate Walked(v: View, doomed: seq<Bytes>, before: Time, limit: int) {
    exists keys :: doomed <= keys && Index(keys, v.done) && WalkStopped(keys, |doomed|, before, limit)
  }

  method ExpiryWalk(expiry: set<Bytes>, before: Time, limit: int, ghost v: View) returns (doomed: seq<Bytes>)
    requires ExpiryRep(expiry, v.done)
    ensures Ascending(doomed) && forall k | k in doomed :: k in expiry
    ensures Walked(v, doomed, before, limit)
  {
    hide ExpiryRep, Index, Less, ExpiryPrefix;
    var keys := Sorted(expiry);
    SortedIndex(expiry, v.done);
    var n := CountExpired(keys, ExpiryPrefix(before), limit);
    doomed := keys[..n];
    assert doomed <= keys && WalkStopped(keys, |doomed|, before, limit);
  }

  lemma WalkedOldest(v: View, doomed: seq<Bytes>, victims: set<Id>, before: Time, limit: int)
    requires Walked(v, doomed, before, limit)
    requires victims <= v.done.Keys && |victims| == |doomed|
    requires forall id | id in v.done :: id in victims <==> KeyOf(v.done, id) in doomed
    ensures TakesOldest(v, victims, before, limit)
  {
    var keys :| doomed <= keys && Index(keys, v.done) && WalkStopped(keys, |doomed|, before, limit);
    assert keys[..|doomed|] == doomed;
    WalkTakesOldest(v, keys, |doomed|, victims, before, limit);
  }

  lemma TerminalPresent(terminal: map<Bytes, TermRow>, done: map<Id, RunRecord>, max: nat, id: Id)
    requires AllTerminal(done)
    requires TermRep(terminal, done, max)
    ensures id.name in terminal <==> id in done
  {
    var key: Bytes := id.name;
    assert Lookup(terminal, key) == if id in done then Some(TerminalRow(Marshal(done[id], |done[id].output| > max))) else None;
  }

  // ---- The store

  /** What a write drains: nothing while fewer than a batch are counted, else a
      full batch, or all there are. */
  predicate DrainsFor(hint: int, staged: set<Id>, drained: set<Id>) {
    if hint < stageDrainPerWrite then drained == {}
    else |drained| <= stageDrainPerWrite && (|drained| == stageDrainPerWrite || drained == staged)
  }

  class Store {
    var active: Bucket
    var cursor: map<Bytes, Cursor>
    var terminal: map<Bytes, TermRow>
    var expiry: set<Bytes>
    var staged: set<Bytes>
    var slots: map<Bytes, Id>
    /** How many staged runs the write path believes there are. */
    var hint: int
    const blobRowMax: nat
    /** What the six buckets spell out. */
    ghost var view: View

    ghost predicate Valid()
      reads this
    {
      Inv(view) && BucketsRep(active, cursor, terminal, expiry, staged, view, blobRowMax) && slots == view.slots
    }

    constructor (blobRowMax: nat)
      ensures Valid() && view == EmptyView && this.blobRowMax == blobRowMax
    {
      this.blobRowMax := blobRowMax;
      active, cursor, terminal, expiry, staged, slots, hint := map[], map[], map[], {}, {}, map[], 0;
      view := EmptyView;
    }

    // Reads

    method GetRun(id: Id) returns (r: Result<RunRecord>)
      requires Valid()
      ensures r == ReadRun(view, id)
    {
      r := GetRunIn(active, cursor, terminal, id, blobRowMax, view);
    }

    method GetRunHead(id: Id) returns (r: Result<RunRecord>)
      requires Valid()
      ensures r == ReadHead(view, id)
    {
      r := GetHeadIn(active, cursor, terminal, id, blobRowMax, view);
    }

    method GetActiveRunID(pipeline: Id, resource: Id) returns (id: Option<Id>)
      requires Valid()
      ensures id == Lookup(view.slots, SlotKey(pipeline, resource))
    {
      var k := SlotKey(pipeline, resource);
      id := if k in slots then Some(slots[k]) else None;
    }

    /** The slots name the nonterminal Runs; each is read as its head. */
    method ListNonterminal() returns (r: Result<seq<RunRecord>>)
      requires Valid()
      ensures SlotsExact(view) ==> r.Ok? && Lists(r.value, LiveHeads(view))
    {
      r := ListIn(active, cursor, terminal, slots, blobRowMax, view);
    }

    // Writes

    /** The occupant of the first occupied slot, the Run's own first. */
    method Blocker(rec: RunRecord, excluding: seq<Id>) returns (id: Option<Id>)
      requires Valid()
      ensures id == FirstOccupant(view.slots, [rec.pipeline] + excluding, rec.resource)
    {
      var own := SlotKey(rec.pipeline, rec.resource);
      if own in slots {
        return Some(slots[own]);
      }
      assert ([rec.pipeline] + excluding)[1..] == excluding;
      var i := 0;
      while i < |excluding|
        invariant i <= |excluding|
        invariant FirstOccupant(slots, excluding, rec.resource) == FirstOccupant(slots, excluding[i..], rec.resource)
      {
        assert excluding[i..][1..] == excluding[i + 1..];
        if excluding[i] != rec.pipeline {
          var k := SlotKey(excluding[i], rec.resource);
          if k in slots {
            return Some(slots[k]);
          }
        }
        i := i + 1;
      }
      id := None;
    }

    /** The rows of an admitted Run, and its slot. */
    method Admit(rec: RunRecord, ghost excluding: seq<Id>)
      requires Valid() && rec.runId !in view.stored && rec.runId !in view.done
      requires FirstOccupant(view.slots, [rec.pipeline] + excluding, rec.resource).None?
      modifies this`active, this`cursor, this`terminal, this`expiry, this`slots, this`view
      ensures Valid()
      ensures view == StageView.CreateRun(old(view), rec, excluding).0
    {
      hide ActiveRep, CursorRep, TermRep, ExpiryRep, StagedRep, Inv, AllTerminal, FirstOccupant, Seed;
      CreateKeepsInv(view, rec, excluding);
      InvTerminal(StageView.CreateRun(view, rec, excluding).0);
      if rec.Terminal() {
        var c := CompactTerminal(rec);
        terminal, expiry := PutTerminal(terminal, expiry, c, blobRowMax, view.done);
      } else {
        active, cursor := PutRunRows(active, cursor, rec, blobRowMax, view.stored);
      }
      slots := slots[SlotKey(rec.pipeline, rec.resource) := rec.runId];
      view := StageView.CreateRun(view, rec, excluding).0;
    }

    method CreateRun(rec: RunRecord, excluding: seq<Id>) returns (r: CreateResult, ghost drained: set<Id>)
      requires Valid() && rec.runId !in view.stored && rec.runId !in view.done
      modifies this
      ensures Valid()
      ensures DrainsFor(old(hint), old(view).staged, drained) && hint == old(hint) - |drained|
      ensures drained <= old(view).staged
      ensures (view, r) == StageView.CreateRun(Drain(old(view), drained), rec, excluding)
    {
      hide ActiveRep, CursorRep, TermRep, ExpiryRep, StagedRep, Inv, AllTerminal;
      drained := WriteDrain();
      var blocker := Blocker(rec, excluding);
      if blocker.Some? {
        var existing := GetRun(blocker.value);
        r := if existing.Ok? then Occupied(existing.value) else Broken;
        return;
      }
      Admit(rec, excluding);
      r := Created;
    }

    method ApplyTransition(id: Id, t: Transition) returns (r: Result<()>, ghost drained: set<Id>)
      requires Valid()
      modifies this
      ensures Valid()
      ensures DrainsFor(old(hint), old(view).staged, drained)
      ensures hint == old(hint) - |drained| + (if r.Ok? && t.outcome.Some? then 1 else 0)
      ensures drained <= old(view).staged
      ensures r == StageView.ApplyTransition(Drain(old(view), drained), id, t).1
      ensures view == if r.Ok? then StageView.ApplyTransition(Drain(old(view), drained), id, t).0 else old(view)
    {
      hide ActiveRep, CursorRep, TermRep, ExpiryRep, StagedRep, Inv, AllTerminal;
      // The buckets before the transaction, for a rollback.
      var active0, cursor0, staged0 := active, cursor, staged;
      ghost var view0 := view;
      drained := WriteDrain();
      r := WriteTransition(id, t);
      if r.Error? {
        active, cursor, staged := active0, cursor0, staged0;
        view := view0;
      } else if t.outcome.Some? {
        hint := hint + 1;
      }
    }

    /** The terminality commit: the terminal row, the staged key and the
        slot. The stage itself stays for a later drain. */
    method CommitTerminal(id: Id, t: Transition)
      requires Valid() && id in view.stored && id !in view.done && t.outcome.Some?
      modifies this`terminal, this`expiry, this`staged, this`slots, this`view
      ensures Valid()
      ensures view == StageView.ApplyTransition(old(view), id, t).0
    {
      hide ActiveRep, CursorRep, TermRep, ExpiryRep, StagedRep, Inv, AllTerminal, Commit;
      ApplyKeepsInv(view, id, t);
      InvTerminal(StageView.ApplyTransition(view, id, t).0);
      InvUnder(view, id);
      var rec := CommitRow(active, cursor, id, t, view.stored, blobRowMax);
      CommitFacts(view.stored[id], t);
      terminal, expiry := PutTerminal(terminal, expiry, rec, blobRowMax, view.done);
      StagedAdd(staged, view.staged, id);
      staged := staged + {id.name};
      var key := SlotKey(rec.pipeline, rec.resource);
      if key in slots && slots[key] == id {
        slots := slots - {key};
      }
      view := StageView.ApplyTransition(view, id, t).0;
    }

    /** The transaction's body: nothing is written before the last check. */
    method WriteTransition(id: Id, t: Transition) returns (r: Result<()>)
      requires Valid()
      modifies this`active, this`cursor, this`terminal, this`expiry, this`staged, this`slots, this`view
      ensures Valid()
      ensures (view, r) == StageView.ApplyTransition(old(view), id, t)
      ensures r.Error? ==> terminal == old(terminal) && expiry == old(expiry) && slots == old(slots)
    {
      hide ActiveRep, CursorRep, TermRep, ExpiryRep, StagedRep, Inv, AllTerminal;
      TerminalPresent(terminal, view.done, blobRowMax, id);
      RowPresent(active, view.stored, blobRowMax, KMeta(id));
      RowPresent(active, view.stored, blobRowMax, KFail(id));
      ApplyKeepsInv(view, id, t);
      InvTerminal(StageView.ApplyTransition(view, id, t).0);
      if id.name in terminal {
        return Error(ErrRunTerminal);
      }
      if ActiveKey(id, tagMeta) !in active {
        return Error(ErrRunNotFound);
      }
      if t.outcome.Some? {
        CommitTerminal(id, t);
        return Ok(());
      }
      if t.failure.Some? && ActiveKey(id, tagFailure) in active {
        return Error(ErrAlreadyWritten);
      }
      active, cursor := TransitionRows(active, cursor, id, t, blobRowMax, view.stored);
      view := StageView.ApplyTransition(view, id, t).0;
      r := Ok(());
    }

    method RequestCancel(id: Id, req: CancelRequest) returns (r: Result<bool>)
      requires Valid()
      modifies this
      ensures Valid()
      ensures (view, r) == StageView.RequestCancel(old(view), id, req)
    {
      hide ActiveRep, CursorRep, TermRep, ExpiryRep, StagedRep, Inv, AllTerminal;
      TerminalPresent(terminal, view.done, blobRowMax, id);
      RowPresent(active, view.stored, blobRowMax, KMeta(id));
      RowPresent(active, view.stored, blobRowMax, KCancel(id));
      if id.name in terminal {
        return Error(ErrRunTerminal);
      }
      if ActiveKey(id, tagMeta) !in active {
        return Error(ErrRunNotFound);
      }
      if ActiveKey(id, tagCancel) in active {
        return Ok(false);
      }
      CancelKeepsInv(view, id, req);
      active := PutCancel(active, id, req, view.stored, blobRowMax);
      view := StageView.RequestCancel(view, id, req).0;
      SameCursors(cursor, old(view).stored, view.stored);
      r := Ok(true);
    }

    method ReapTerminal(before: Time, limit: int) returns (deleted: nat, victims: set<Id>)
      requires Valid()
      modifies this
      ensures Valid()
      ensures TakesOldest(old(view), victims, before, limit) && deleted == |victims|
      ensures view == Reap(old(view), victims)
    {
      hide ActiveRep, CursorRep, TermRep, ExpiryRep, StagedRep, Inv, AllTerminal, Walked, TakesOldest;
      var doomed := ExpiryWalk(expiry, before, limit, view);
      active, cursor, terminal, expiry, staged, victims := ReapAll(active, cursor, terminal, expiry, staged, doomed, blobRowMax, view);
      WalkedOldest(view, doomed, victims, before, limit);
      ReapKeepsInv(view, victims);
      InvTerminal(Reap(view, victims));
      view := Reap(view, victims);
      deleted := |doomed|;
    }

    /** A write carries a batch once that many runs are believed staged. */
    method WriteDrain() returns (ghost drained: set<Id>)
      requires Valid()
      modifies this`active, this`cursor, this`staged, this`hint, this`view
      ensures Valid() && drained <= old(view).staged && view == Drain(old(view), drained)
      ensures DrainsFor(old(hint), old(view).staged, drained) && hint == old(hint) - |drained|
    {
      hide ActiveRep, CursorRep, TermRep, ExpiryRep, StagedRep, Inv, AllTerminal;
      drained := {};
      if hint < stageDrainPerWrite {
        assert view.stored - {} == view.stored && view.staged - {} == view.staged;
        return;
      }
      var n;
      n, drained := DrainBatch(stageDrainPerWrite);
    }

    method DrainBatch(max: nat) returns (n: nat, ghost drained: set<Id>)
      requires Valid()
      modifies this`active, this`cursor, this`staged, this`hint, this`view
      ensures Valid() && drained <= old(view).staged && view == Drain(old(view), drained)
      ensures n == |drained| <= max && (n < max ==> drained == old(view).staged)
      ensures hint == old(hint) - n
    {
      hide ActiveRep, CursorRep, TermRep, ExpiryRep, StagedRep, Inv, AllTerminal;
      active, cursor, staged, n, drained := DrainStaged(active, cursor, staged, max, view.stored, view.staged, blobRowMax);
      hint := hint - n;
      DrainInvisible(view, drained, NoId);
      view := Drain(view, drained);
    }

    /** Drain: batch after batch until a short one. Nothing of a terminal
        Run is left outside its terminal row. */
    method DrainAll()
      requires Valid()
      modifies this`active, this`cursor, this`staged, this`hint, this`view
      ensures Valid() && view == Drain(old(view), old(view).staged)
      ensures staged == {} && view.stored.Keys !! view.done.Keys
    {
      hide ActiveRep, CursorRep, TermRep, ExpiryRep, StagedRep, Inv, AllTerminal;
      ghost var all := {};
      assert view.stored - {} == view.stored && view.staged - {} == view.staged;
      while true
        invariant Valid() && all <= old(view).staged && view == Drain(old(view), all)
        decreases view.staged
      {
        ghost var before, drained := view, {};
        var n;
        n, drained := DrainBatch(stageDrainPerSweep);
        DrainTwice(old(view), all, drained);
        all := all + drained;
        if n < stageDrainPerSweep {
          break;
        }
        assert drained != {} && view.staged < before.staged;
      }
      assert view.staged == {} && all == old(view).staged;
      DrainInvisible(old(view), all, NoId);
      NoneStaged(staged, view.staged);
    }
  }

  lemma InvUnder(v: View, id: Id)
    requires Inv(v) && id in v.stored
    ensures v.stored[id].runId == id
  {
  }

  lemma CancelKeepsInv(v: View, id: Id, req: CancelRequest)
    requires Inv(v)
    ensures Inv(StageView.RequestCancel(v, id, req).0)
  {
  }

  lemma NoneStaged(s: set<Bytes>, ids: set<Id>)
    requires StagedRep(s, ids) && ids == {}
    ensures s == {}
  {
  }

  lemma StagedAdd(s: set<Bytes>, ids: set<Id>, x: Id)
    requires StagedRep(s, ids)
    ensures StagedRep(s + {x.name}, ids + {x})
  {
  }

  lemma CommitFacts(s: Stored, t: Transition)
    ensures (var r := Commit(Assemble(s), t);
             r.runId == s.runId && r.outcome == t.outcome && r.pipeline == s.pipeline && r.resource == s.resource)
  {
    CommitCompact(Assemble(s), t);
    CommitIdentity(Assemble(s), t);
    StoredRunning(s);
  }

  lemma SameCursors(cursor: map<Bytes, Cursor>, a: map<Id, Stored>, b: map<Id, Stored>)
    requires CursorRep(cursor, a) && a.Keys == b.Keys && forall id | id in a :: a[id].cursor == b[id].cursor
    ensures CursorRep(cursor, b)
  {
  }
}
