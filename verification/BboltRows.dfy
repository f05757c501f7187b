/** The active bucket: what rows a Run's components spell out, and the code
    that writes, finds, walks and deletes them (store/bbolt/store.go:775-1073). */
module BboltRows {
  import opened Bytes
  import opened Records
  import opened Keys
  import opened MemStore
  import opened StageView

  /** A decoded row value. The codec is injective; a blob is one value
      whether it sits in a row or in a nested bucket. */
  datatype Row =
    | MetaRow(runId: Id, pipeline: Id, resource: Id, annotations: map<Blob, Blob>, createdAt: Time)
    | CancelRow(cancel: CancelRequest)
    | FailureRow(failure: Failure)
    | BlobRow(blob: Blob)
    | OpRow(op: Operation)

  type Bucket = map<Bytes, Row>

  /** A forward operation's large state sits beside its row. */
  predicate Beside(op: Operation, h: Half, max: nat) {
    h.Fwd? && |op.state| > max
  }

  function Slim(op: Operation, h: Half, max: nat): Operation {
    if Beside(op, h, max) then op.(state := []) else op
  }

  function MetaOf(s: Stored): Row {
    MetaRow(s.runId, s.pipeline, s.resource, s.annotations, s.createdAt)
  }

  /** The row a Run's components put under a key, if any. */
  ghost function RowOf(s: Stored, max: nat, k: Key): Option<Row> {
    match k
    case KMeta(_) => Some(MetaOf(s))
    case KCancel(_) => if s.cancel.Some? then Some(CancelRow(s.cancel.value)) else None
    case KFail(_) => if s.failure.Some? then Some(FailureRow(s.failure.value)) else None
    case KInput(_) => if s.input != [] then Some(BlobRow(s.input)) else None
    case KOp(_, o, step, h) =>
      if OpId(step, h) in s.ops && s.ops[OpId(step, h)].order == o then Some(OpRow(Slim(s.ops[OpId(step, h)], h, max))) else None
    case KState(_, o, step) =>
      if OpId(step, Fwd) in s.ops && s.ops[OpId(step, Fwd)].order == o && Beside(s.ops[OpId(step, Fwd)], Fwd, max)
      then Some(BlobRow(s.ops[OpId(step, Fwd)].state)) else None
  }

  ghost function Expected(stored: map<Id, Stored>, max: nat, k: Key): Option<Row> {
    if k.id in stored then RowOf(stored[k.id], max, k) else None
  }

  ghost predicate IsKey(b: Bytes) {
    exists k: Key :: Encode(k) == b
  }

  /** The bucket holds exactly the rows the Runs spell out. */
  ghost predicate ActiveRep(active: Bucket, stored: map<Id, Stored>, max: nat) {
    && (forall b | b in active :: IsKey(b))
    && (forall k: Key :: Lookup(active, Encode(k)) == Expected(stored, max, k))
  }

  lemma PutAt(active: Bucket, k0: Key, row: Row, k: Key)
    ensures Lookup(active[Encode(k0) := row], Encode(k)) == if k == k0 then Some(row) else Lookup(active, Encode(k))
  {
    EncodeInjective(k0, k);
  }

  lemma DeleteAt(active: Bucket, k0: Key, k: Key)
    ensures Lookup(active - {Encode(k0)}, Encode(k)) == if k == k0 then None else Lookup(active, Encode(k))
  {
    EncodeInjective(k0, k);
  }

  // ---- Walking one Run

  lemma RowsOfRun(active: Bucket, stored: map<Id, Stored>, max: nat, id: Id, b: Bytes) returns (k: Key)
    requires ActiveRep(active, stored, max) && b in active && HasPrefix(b, RunPrefix(id))
    ensures b == Encode(k) && k.id == id && id in stored && RowOf(stored[id], max, k) == Some(active[b])
  {
    assert IsKey(b);
    k :| Encode(k) == b;
    PrefixIsRun(k, id);
    assert Lookup(active, Encode(k)) == Expected(stored, max, k);
  }

  /** A prefix walk stops at the first key without the prefix. */
  method Span(keys: seq<Bytes>, prefix: Bytes) returns (lo: nat, hi: nat)
    requires Ascending(keys)
    ensures lo <= hi <= |keys|
    ensures forall j | lo <= j < hi :: HasPrefix(keys[j], prefix)
    ensures forall b :: b in keys[lo..hi] <==> b in keys && HasPrefix(b, prefix)
  {
    lo := Seek(keys, prefix);
    hi := lo;
    while hi < |keys| && HasPrefix(keys[hi], prefix)
      invariant lo <= hi <= |keys|
      invariant forall j | lo <= j < hi :: HasPrefix(keys[j], prefix)
    {
      hi := hi + 1;
    }
    PrefixWalk(keys, prefix, lo, hi);
  }

  /** The keys a prefix walk visits, collected. */
  method Collect(active: Bucket, prefix: Bytes) returns (out: seq<Bytes>)
    ensures forall b :: b in out <==> b in active && HasPrefix(b, prefix)
    ensures Ascending(out)
  {
    var keys := Sorted(active.Keys);
    var lo, hi := Span(keys, prefix);
    out := keys[lo..hi];
  }

  /** deleteNonterminalStage: collect the run's keys, then delete them. */
  method DeleteRows(active: Bucket, id: Id, ghost stored: map<Id, Stored>, ghost max: nat) returns (left: Bucket)
    requires ActiveRep(active, stored, max)
    ensures ActiveRep(left, stored - {id}, max)
  {
    var doomed := Collect(active, RunPrefix(id));
    left := DeleteAll(active, doomed);
    forall k: Key ensures Lookup(left, Encode(k)) == Expected(stored - {id}, max, k) {
      PrefixIsRun(k, id);
      assert Lookup(active, Encode(k)) == Expected(stored, max, k);
    }
  }

  method DeleteAll(active: Bucket, doomed: seq<Bytes>) returns (left: Bucket)
    ensures left == map b | b in active && b !in doomed :: active[b]
  {
    left := active;
    var i := 0;
    while i < |doomed|
      invariant i <= |doomed|
      invariant left == map b | b in active && b !in doomed[..i] :: active[b]
    {
      assert doomed[..i + 1] == doomed[..i] + [doomed[i]];
      left := left - {doomed[i]};
      i := i + 1;
    }
    assert doomed[..i] == doomed;
  }

  /** findOp: the run's row for the step and phase, whatever its order. */
  method FindOp(active: Bucket, id: Id, step: Id, h: Half, ghost stored: map<Id, Stored>, ghost max: nat) returns (key: Option<Bytes>)
    requires ActiveRep(active, stored, max) && id in stored
    ensures key == if OpId(step, h) in stored[id].ops then Some(Encode(KOp(id, stored[id].ops[OpId(step, h)].order, step, h))) else None
  {
    var rows := Collect(active, OpPrefix(id));
    key := FirstMatch(rows, id, step, h);
    if key.Some? {
      FindOpUnique(active, id, step, h, stored, max, key.value);
    } else {
      FindOpPresent(active, id, step, h, stored, max);
    }
  }

  method FirstMatch(rows: seq<Bytes>, id: Id, step: Id, h: Half) returns (key: Option<Bytes>)
    requires forall b | b in rows :: HasPrefix(b, OpPrefix(id))
    ensures key.Some? ==> key.value in rows && FindOpTest(key.value, id, step, h)
    ensures key.None? ==> forall b | b in rows :: !FindOpTest(b, id, step, h)
  {
    var suffix := FindOpSuffix(step, h);
    var n := |OpPrefix(id)|;
    var i := 0;
    while i < |rows|
      invariant i <= |rows|
      invariant forall j | 0 <= j < i :: !FindOpTest(rows[j], id, step, h)
    {
      var k := rows[i];
      assert k in rows;
      if |k| == n + 4 + |suffix| && k[n + 4..] == suffix {
        return Some(k);
      }
      i := i + 1;
    }
    key := None;
  }

  lemma FindOpPresent(active: Bucket, id: Id, step: Id, h: Half, stored: map<Id, Stored>, max: nat)
    requires ActiveRep(active, stored, max) && id in stored
    ensures OpId(step, h) in stored[id].ops ==>
              var b := Encode(KOp(id, stored[id].ops[OpId(step, h)].order, step, h));
              b in active && FindOpTest(b, id, step, h)
  {
    if OpId(step, h) in stored[id].ops {
      var k := KOp(id, stored[id].ops[OpId(step, h)].order, step, h);
      assert Lookup(active, Encode(k)) == Expected(stored, max, k);
      FindOpTells(k, id, step, h);
    }
  }

  lemma FindOpUnique(active: Bucket, id: Id, step: Id, h: Half, stored: map<Id, Stored>, max: nat, b: Bytes)
    requires ActiveRep(active, stored, max) && id in stored && b in active && FindOpTest(b, id, step, h)
    ensures OpId(step, h) in stored[id].ops && b == Encode(KOp(id, stored[id].ops[OpId(step, h)].order, step, h))
  {
    assert IsKey(b);
    var k :| Encode(k) == b;
    FindOpTells(k, id, step, h);
    assert Lookup(active, Encode(k)) == Expected(stored, max, k);
  }

  /** putOp: one row per step and phase, a large forward state beside it. */
  method PutOp(active: Bucket, id: Id, step: Id, h: Half, op: Operation, max: nat, ghost stored: map<Id, Stored>) returns (left: Bucket)
    requires ActiveRep(active, stored, max) && id in stored
    ensures ActiveRep(left, stored[id := stored[id].(ops := stored[id].ops[OpId(step, h) := op])], max)
  {
    var beside := h.Fwd? && |op.state| > max;
    var row := if beside then op.(state := []) else op;
    var key := OpKey(id, op.order, step, h);
    var prior := FindOp(active, id, step, h, stored, max);
    ghost var was := Lookup(stored[id].ops, OpId(step, h));
    RowKeys(id, op.order, step, h, if was.Some? then was.value.order else 0);
    left := active;
    if prior.Some? && prior.value != key {
      left := left - {prior.value};
    }
    left := left[key := OpRow(row)];
    if h.Unw? {
      PutOpRep(active, id, step, h, op, max, stored, left);
      return;
    }
    if prior.Some? {
      left := left - {StateKey(prior.value)};
    }
    if beside {
      left := left[StateKey(key) := BlobRow(op.state)];
    }
    PutOpRep(active, id, step, h, op, max, stored, left);
  }

  lemma RowKeys(id: Id, order: Uint32, step: Id, h: Half, was: Uint32)
    ensures OpKey(id, order, step, h) == Encode(KOp(id, order, step, h))
    ensures Encode(KOp(id, order, step, h)) == Encode(KOp(id, was, step, h)) <==> order == was
    ensures h.Fwd? ==> StateKey(Encode(KOp(id, order, step, h))) == Encode(KState(id, order, step))
    ensures h.Fwd? ==> StateKey(Encode(KOp(id, was, step, h))) == Encode(KState(id, was, step))
  {
    EncodeInjective(KOp(id, order, step, h), KOp(id, was, step, h));
    StateAfterRow(id, order, step);
    StateAfterRow(id, was, step);
  }

  ghost function AfterPutOp(active: Bucket, id: Id, step: Id, h: Half, op: Operation, max: nat, prior: Option<Operation>): Bucket {
    var a := if prior.Some? && prior.value.order != op.order then active - {Encode(KOp(id, prior.value.order, step, h))} else active;
    var b := a[Encode(KOp(id, op.order, step, h)) := OpRow(Slim(op, h, max))];
    var c := if h.Fwd? && prior.Some? then b - {Encode(KState(id, prior.value.order, step))} else b;
    if Beside(op, h, max) then c[Encode(KState(id, op.order, step)) := BlobRow(op.state)] else c
  }

  lemma PutOpRep(active: Bucket, id: Id, step: Id, h: Half, op: Operation, max: nat, stored: map<Id, Stored>, left: Bucket)
    requires ActiveRep(active, stored, max) && id in stored
    requires left == AfterPutOp(active, id, step, h, op, max, Lookup(stored[id].ops, OpId(step, h)))
    ensures ActiveRep(left, stored[id := stored[id].(ops := stored[id].ops[OpId(step, h) := op])], max)
  {
    var prior := Lookup(stored[id].ops, OpId(step, h));
    forall k: Key
      ensures Lookup(left, Encode(k)) == Expected(stored[id := stored[id].(ops := stored[id].ops[OpId(step, h) := op])], max, k)
    {
      PutOpAt(active, id, step, h, op, max, prior, k);
      assert Lookup(active, Encode(k)) == Expected(stored, max, k);
      PutOpExpects(stored, id, step, h, op, max, k);
    }
    AfterPutOpKeys(active, id, step, h, op, max, prior);
  }

  lemma AfterPutOpKeys(active: Bucket, id: Id, step: Id, h: Half, op: Operation, max: nat, prior: Option<Operation>)
    requires forall b | b in active :: IsKey(b)
    ensures forall b | b in AfterPutOp(active, id, step, h, op, max, prior) :: IsKey(b)
  {
    assert IsKey(Encode(KOp(id, op.order, step, h))) && IsKey(Encode(KState(id, op.order, step)));
  }

  /** How a write changes what the rows should be. */
  lemma PutOpExpects(stored: map<Id, Stored>, id: Id, step: Id, h: Half, op: Operation, max: nat, k: Key)
    requires id in stored
    ensures (var prior := Lookup(stored[id].ops, OpId(step, h));
             Expected(stored[id := stored[id].(ops := stored[id].ops[OpId(step, h) := op])], max, k) ==
             if k == KOp(id, op.order, step, h) then Some(OpRow(Slim(op, h, max)))
             else if k == KState(id, op.order, step) && Beside(op, h, max) then Some(BlobRow(op.state))
             else if prior.Some? && (k == KOp(id, prior.value.order, step, h) || (h.Fwd? && k == KState(id, prior.value.order, step))) then None
             else Expected(stored, max, k))
  {
  }

  lemma PutOpAt(active: Bucket, id: Id, step: Id, h: Half, op: Operation, max: nat, prior: Option<Operation>, k: Key)
    ensures Lookup(AfterPutOp(active, id, step, h, op, max, prior), Encode(k)) ==
      if k == KOp(id, op.order, step, h) then Some(OpRow(Slim(op, h, max)))
      else if k == KState(id, op.order, step) && Beside(op, h, max) then Some(BlobRow(op.state))
      else if prior.Some? && (k == KOp(id, prior.value.order, step, h) || (h.Fwd? && k == KState(id, prior.value.order, step))) then None
      else Lookup(active, Encode(k))
  {
    var newKey := KOp(id, op.order, step, h);
    var a := if prior.Some? && prior.value.order != op.order then active - {Encode(KOp(id, prior.value.order, step, h))} else active;
    var b := a[Encode(newKey) := OpRow(Slim(op, h, max))];
    var c := if h.Fwd? && prior.Some? then b - {Encode(KState(id, prior.value.order, step))} else b;
    if prior.Some? {
      DeleteAt(active, KOp(id, prior.value.order, step, h), k);
      DeleteAt(b, KState(id, prior.value.order, step), k);
    }
    PutAt(a, newKey, OpRow(Slim(op, h, max)), k);
    PutAt(c, KState(id, op.order, step), BlobRow(op.state), k);
  }

  // ---- Reading a nonterminal Run back

  /** The operations whose rows have been read, each without a state that
      has not. */
  ghost function SeenOps(s: Stored, id: Id, max: nat, seen: set<Key>): map<OpId, Operation> {
    map o | o in s.ops && KOp(id, s.ops[o].order, o.step, o.h) in seen ::
      if KState(id, s.ops[o].order, o.step) in seen then s.ops[o] else Slim(s.ops[o], o.h, max)
  }

  /** The components as far as the rows in seen tell. */
  ghost function SoFar(s: Stored, id: Id, max: nat, seen: set<Key>): Stored {
    s.(input := if KInput(id) in seen then s.input else [],
       cancel := if KCancel(id) in seen then s.cancel else None,
       failure := if KFail(id) in seen then s.failure else None,
       ops := SeenOps(s, id, max, seen))
  }

  lemma SoFarAll(s: Stored, id: Id, max: nat, seen: set<Key>)
    requires forall k: Key | k.id == id && RowOf(s, max, k).Some? :: k in seen
    ensures SoFar(s, id, max, seen) == s
  {
    assert s.input != [] ==> RowOf(s, max, KInput(id)).Some?;
    assert s.cancel.Some? ==> RowOf(s, max, KCancel(id)).Some?;
    assert s.failure.Some? ==> RowOf(s, max, KFail(id)).Some?;
    forall o | o in s.ops ensures o in SeenOps(s, id, max, seen) && SeenOps(s, id, max, seen)[o] == s.ops[o] {
      assert OpId(o.step, o.h) == o;
      assert RowOf(s, max, KOp(id, s.ops[o].order, o.step, o.h)).Some?;
      assert Beside(s.ops[o], o.h, max) ==> RowOf(s, max, KState(id, s.ops[o].order, o.step)).Some?;
    }
  }

  lemma StepsOfPut(ops: map<OpId, Operation>, step: Id, h: Half, op: Operation)
    ensures StepsOf(ops[OpId(step, h) := op]) ==
            StepsOf(ops)[step := (if step in StepsOf(ops) then StepsOf(ops)[step] else NoStep).With(h, op)]
  {
    var a := StepsOf(ops[OpId(step, h) := op]);
    assert OpId(step, h).step in a;
    forall x ensures x in a <==> x in StepsOf(ops) || x == step {
      if x in StepsOf(ops) {
        var k :| k in ops && k.step == x;
        assert k in ops[OpId(step, h) := op];
      }
      if x in a {
        var k :| k in ops[OpId(step, h) := op] && k.step == x;
      }
    }
    if step !in StepsOf(ops) {
      assert forall k | k in ops :: k.step != step;
    }
  }

  lemma BasePut(s: Stored, step: Id, h: Half, op: Operation)
    ensures Base(s.(ops := s.ops[OpId(step, h) := op])) == Base(s).WithOp(step, h, op)
  {
    StepsOfPut(s.ops, step, h, op);
  }

  /** What one more row adds. */
  lemma SoFarAdd(s: Stored, max: nat, seen: set<Key>, k: Key)
    requires RowOf(s, max, k).Some? && k !in seen
    requires k.KState? ==> KOp(k.id, k.order, k.step, Fwd) in seen
    requires k.KOp? && k.h.Fwd? ==> KState(k.id, k.order, k.step) !in seen
    ensures (var a, b := SoFar(s, k.id, max, seen), SoFar(s, k.id, max, seen + {k});
             match k
             case KMeta(_) => b == a
             case KInput(_) => b == a.(input := s.input)
             case KCancel(_) => b == a.(cancel := s.cancel)
             case KFail(_) => b == a.(failure := s.failure)
             case KOp(_, _, step, h) => b == a.(ops := a.ops[OpId(step, h) := Slim(s.ops[OpId(step, h)], h, max)])
             case KState(_, _, step) =>
               && OpId(step, Fwd) in a.ops && a.ops[OpId(step, Fwd)] == Slim(s.ops[OpId(step, Fwd)], Fwd, max)
               && b == a.(ops := a.ops[OpId(step, Fwd) := s.ops[OpId(step, Fwd)]]))
  {
    var a, b := SeenOps(s, k.id, max, seen), SeenOps(s, k.id, max, seen + {k});
    match k
    case KOp(_, _, step, h) =>
      assert b == a[OpId(step, h) := Slim(s.ops[OpId(step, h)], h, max)];
    case KState(_, _, step) =>
      assert OpId(step, Fwd) in a;
      assert b == a[OpId(step, Fwd) := s.ops[OpId(step, Fwd)]];
    case _ =>
      assert b == a;
  }

  /** The rows of a Run as a walk returns them, and the keys among the first
      n of them. */
  ghost predicate Rows(rows: seq<Bytes>, active: Bucket, id: Id) {
    && Ascending(rows)
    && forall b :: b in rows <==> b in active && HasPrefix(b, RunPrefix(id))
  }

  ghost predicate SeenIs(seen: set<Key>, rows: seq<Bytes>, n: nat)
    requires n <= |rows|
  {
    forall k: Key :: k in seen <==> Encode(k) in rows[..n]
  }

  lemma SeenNext(seen: set<Key>, rows: seq<Bytes>, n: nat, k: Key)
    requires n < |rows| && SeenIs(seen, rows, n) && rows[n] == Encode(k)
    ensures SeenIs(seen + {k}, rows, n + 1)
  {
    assert rows[..n + 1] == rows[..n] + [rows[n]];
    forall x: Key ensures Encode(x) == Encode(k) <==> x == k {
      EncodeInjective(x, k);
    }
  }

  /** In an ascending list, what sorts before an element is before it. */
  lemma Earlier(rows: seq<Bytes>, a: Bytes, n: nat)
    requires Ascending(rows) && n < |rows| && Less(a, rows[n])
    ensures a in rows ==> a in rows[..n]
  {
    if a in rows {
      var j :| 0 <= j < |rows| && rows[j] == a;
      LessIrreflexive(a);
      if n <= j {
        if n < j {
          LessTransitive(a, rows[n], a);
        }
        assert false;
      }
      assert rows[..n][j] == a;
    }
  }

  lemma NotEarlier(rows: seq<Bytes>, a: Bytes, n: nat)
    requires Ascending(rows) && n < |rows| && Less(rows[n], a)
    ensures a !in rows[..n]
  {
    if a in rows[..n] {
      var j :| 0 <= j < n && rows[..n][j] == a;
      LessTransitive(rows[j], rows[n], a);
      LessIrreflexive(a);
    }
  }

  /** The meta row is a Run's first; a Run without one has none. */
  lemma FirstIsMeta(active: Bucket, stored: map<Id, Stored>, max: nat, id: Id, rows: seq<Bytes>)
    requires ActiveRep(active, stored, max) && Rows(rows, active, id)
    ensures id in stored ==> rows != [] && rows[0] == Encode(KMeta(id)) && rows[0][|RunPrefix(id)|] == tagMeta && active[rows[0]] == MetaOf(stored[id])
    ensures id !in stored ==> rows == []
  {
    if id in stored {
      var m := KMeta(id);
      assert Lookup(active, Encode(m)) == Expected(stored, max, m);
      PrefixIsRun(m, id);
      assert Encode(m) in rows;
      var k := RowsOfRun(active, stored, max, id, rows[0]);
      if k != m {
        RowsByTag(m, k);
        Earlier(rows, Encode(m), 0);
        assert false;
      }
    } else if rows != [] {
      assert rows[0] in rows;
      var k := RowsOfRun(active, stored, max, id, rows[0]);
      assert false;
    }
  }

  /** What holds of the next row of a walk. */
  lemma NextRow(active: Bucket, stored: map<Id, Stored>, max: nat, id: Id, rows: seq<Bytes>, n: nat, seen: set<Key>) returns (k: Key)
    requires ActiveRep(active, stored, max) && Rows(rows, active, id) && n < |rows| && SeenIs(seen, rows, n)
    ensures rows[n] == Encode(k) && k.id == id && id in stored && k !in seen
    ensures RowOf(stored[id], max, k) == Some(active[rows[n]])
    ensures k.KState? ==> KOp(k.id, k.order, k.step, Fwd) in seen
    ensures k.KOp? && k.h.Fwd? ==> KState(k.id, k.order, k.step) !in seen
  {
    assert rows[n] in rows;
    k := RowsOfRun(active, stored, max, id, rows[n]);
    if k in seen {
      var j :| 0 <= j < n && rows[..n][j] == Encode(k);
      LessIrreflexive(rows[n]);
      assert false;
    }
    if k.KState? {
      var o := KOp(id, k.order, k.step, Fwd);
      StateAfterRow(id, k.order, k.step);
      assert Lookup(active, Encode(o)) == Expected(stored, max, o);
      PrefixIsRun(o, id);
      Earlier(rows, Encode(o), n);
    } else if k.KOp? && k.h.Fwd? {
      StateAfterRow(id, k.order, k.step);
      NotEarlier(rows, Encode(KState(id, k.order, k.step)), n);
    }
  }

  /** Reading one row of the walk (the loop body of getNonterminal). */
  method ReadRow(rec: RunRecord, b: Bytes, row: Row, ghost s: Stored, ghost max: nat, ghost seen: set<Key>, ghost k: Key) returns (r: RunRecord)
    requires rec == Base(SoFar(s, k.id, max, seen)) && b == Encode(k) && !k.KMeta?
    requires RowOf(s, max, k) == Some(row) && k !in seen
    requires k.KState? ==> KOp(k.id, k.order, k.step, Fwd) in seen
    requires k.KOp? && k.h.Fwd? ==> KState(k.id, k.order, k.step) !in seen
    ensures r == Base(SoFar(s, k.id, max, seen + {k}))
  {
    SoFarAdd(s, max, seen, k);
    SplitActiveKeyEncode(k);
    var (_, tag, rest) := SplitActiveKey(b).value;
    if tag == tagInput {
      r := rec.(input := row.blob);
    } else if tag == tagCancel {
      r := rec.(cancel := Some(row.cancel));
    } else if tag == tagFailure {
      r := rec.(failure := Some(row.failure));
    } else {
      StateSuffixTells(k);
      SplitOpRestRoundTrip(k.order, k.step, if k.KOp? then k.h else Fwd);
      if HasSuffix(rest, stateSuffix) {
        var (_, step, _) := SplitOpRest(rest[..|rest| - 2]).value;
        var op := rec.OpOf(Id(step), Fwd);
        BaseReadOp(SoFar(s, k.id, max, seen), Id(step), Fwd);
        BasePut(SoFar(s, k.id, max, seen), Id(step), Fwd, op.(state := row.blob));
        r := rec.WithOp(Id(step), Fwd, op.(state := row.blob));
      } else {
        var (_, step, h) := SplitOpRest(rest).value;
        BasePut(SoFar(s, k.id, max, seen), Id(step), h, row.op);
        r := rec.WithOp(Id(step), h, row.op);
      }
    }
  }

  lemma BaseReadOp(s: Stored, step: Id, h: Half)
    requires OpId(step, h) in s.ops
    ensures Base(s).OpOf(step, h) == s.ops[OpId(step, h)]
  {
    assert OpId(step, h).step in StepsOf(s.ops);
  }

  /** getNonterminal: one prefix walk of the active rows, then the cursor.
      The malformed-key returns of the source cannot be reached. */
  method GetNonterminal(active: Bucket, cursor: map<Bytes, Cursor>, id: Id, ghost stored: map<Id, Stored>, ghost max: nat) returns (r: Result<RunRecord>)
    requires ActiveRep(active, stored, max)
    requires id in stored ==> Lookup(cursor, id.name) == Some(stored[id].cursor)
    ensures r == if id in stored then Ok(Assemble(stored[id])) else Error(ErrRunNotFound)
  {
    var rows := Collect(active, RunPrefix(id));
    FirstIsMeta(active, stored, max, id, rows);
    if rows == [] || rows[0][|RunPrefix(id)|] != tagMeta {
      return Error(ErrRunNotFound);
    }
    ghost var s := stored[id];
    ghost var seen := {KMeta(id)};
    var m := active[rows[0]];
    var rec := RunRecord(m.runId, m.pipeline, m.resource, m.annotations, [], PhaseForward, map[], None, [], None,
                         Zero, None, None, [], [], Zero, None, m.createdAt, Zero, Zero);
    assert SeenOps(s, id, max, seen) == map[];
    assert StepsOf(map[]) == map[];
    SeenNext({}, rows, 0, KMeta(id));
    assert {} + {KMeta(id)} == seen;
    var i := 1;
    while i < |rows|
      invariant 1 <= i <= |rows|
      invariant SeenIs(seen, rows, i) && KMeta(id) in seen
      invariant rec == Base(SoFar(s, id, max, seen))
    {
      ghost var k := NextRow(active, stored, max, id, rows, i, seen);
      rec := ReadRow(rec, rows[i], active[rows[i]], s, max, seen, k);
      SeenNext(seen, rows, i, k);
      seen := seen + {k};
      i := i + 1;
    }
    AllSeen(active, stored, max, id, rows, seen);
    SoFarAll(s, id, max, seen);
    var c := cursor[id.name];
    r := Ok(ApplyCursor(rec, c));
  }

  lemma AllSeen(active: Bucket, stored: map<Id, Stored>, max: nat, id: Id, rows: seq<Bytes>, seen: set<Key>)
    requires ActiveRep(active, stored, max) && Rows(rows, active, id) && SeenIs(seen, rows, |rows|) && id in stored
    ensures forall k: Key | k.id == id && RowOf(stored[id], max, k).Some? :: k in seen
  {
    assert rows[..|rows|] == rows;
    forall k: Key | k.id == id && RowOf(stored[id], max, k).Some? ensures k in seen {
      assert Lookup(active, Encode(k)) == Expected(stored, max, k);
      PrefixIsRun(k, id);
    }
  }

  /** getHead of a nonterminal Run: the walk stops at the first row that is
      neither cancel nor failure. */
  method GetHead(active: Bucket, cursor: map<Bytes, Cursor>, id: Id, ghost stored: map<Id, Stored>, ghost max: nat) returns (r: Result<RunRecord>)
    requires ActiveRep(active, stored, max)
    requires id in stored ==> Lookup(cursor, id.name) == Some(stored[id].cursor)
    ensures r == if id in stored then Ok(HeadRows(stored[id])) else Error(ErrRunNotFound)
  {
    var rows := Collect(active, RunPrefix(id));
    FirstIsMeta(active, stored, max, id, rows);
    if rows == [] || rows[0][|RunPrefix(id)|] != tagMeta {
      return Error(ErrRunNotFound);
    }
    ghost var s := stored[id];
    ghost var seen := {KMeta(id)};
    var m := active[rows[0]];
    var cancel, failure := None, None;
    SeenNext({}, rows, 0, KMeta(id));
    assert {} + {KMeta(id)} == seen;
    var i := 1;
    while i < |rows|
      invariant 1 <= i <= |rows|
      invariant SeenIs(seen, rows, i) && KMeta(id) in seen
      invariant cancel == if KCancel(id) in seen then s.cancel else None
      invariant failure == if KFail(id) in seen then s.failure else None
    {
      ghost var k := NextRow(active, stored, max, id, rows, i, seen);
      SplitActiveKeyEncode(k);
      TagAt(k);
      var tag := rows[i][|RunPrefix(id)|];
      if tag == tagCancel {
        cancel := Some(active[rows[i]].cancel);
      } else if tag == tagFailure {
        failure := Some(active[rows[i]].failure);
      } else {
        HeadDone(active, stored, max, id, rows, i, seen, k);
        break;
      }
      SeenNext(seen, rows, i, k);
      seen := seen + {k};
      i := i + 1;
    }
    if i == |rows| {
      AllSeen(active, stored, max, id, rows, seen);
      assert RowOf(s, max, KCancel(id)).Some? ==> KCancel(id) in seen;
      assert RowOf(s, max, KFail(id)).Some? ==> KFail(id) in seen;
    }
    var rec := RunRecord(m.runId, m.pipeline, m.resource, m.annotations, [], PhaseForward, map[], failure, [], None,
                         Zero, None, None, [], [], Zero, cancel, m.createdAt, Zero, Zero);
    r := Ok(ApplyCursor(rec, cursor[id.name]));
  }

  lemma TagAt(k: Key)
    ensures |Encode(k)| > |RunPrefix(k.id)| && Encode(k)[|RunPrefix(k.id)|] == Tag(k)
  {
  }

  /** Past an input or operation row there is no cancel or failure row. */
  lemma HeadDone(active: Bucket, stored: map<Id, Stored>, max: nat, id: Id, rows: seq<Bytes>, n: nat, seen: set<Key>, k: Key)
    requires ActiveRep(active, stored, max) && Rows(rows, active, id) && id in stored
    requires n < |rows| && SeenIs(seen, rows, n) && rows[n] == Encode(k) && k.id == id && Tag(k) > tagFailure
    ensures stored[id].cancel.Some? ==> KCancel(id) in seen
    ensures stored[id].failure.Some? ==> KFail(id) in seen
  {
    forall x | x in {KCancel(id), KFail(id)} && RowOf(stored[id], max, x).Some? ensures x in seen {
      assert Lookup(active, Encode(x)) == Expected(stored, max, x);
      PrefixIsRun(x, id);
      RowsByTag(x, k);
      Earlier(rows, Encode(x), n);
    }
    assert stored[id].cancel.Some? ==> RowOf(stored[id], max, KCancel(id)).Some?;
    assert stored[id].failure.Some? ==> RowOf(stored[id], max, KFail(id)).Some?;
  }
}
