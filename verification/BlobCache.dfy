/** store/bbolt/blobcache.go: a least-recently-used cache of a Run's blobs,
    with byte accounting. */
module BlobCache {
  import opened Bytes
  import opened Records

  /** One Run's cached blobs, and how many bytes they are. */
  datatype Blobs = Blobs(input: Blob, states: map<Id, Blob>, output: Blob, size: int)

  const NoBlobs := Blobs([], map[], [], 0)

  /** The recency list, most recently used first, and the index. */
  datatype Cache = Cache(order: seq<Id>, entries: map<Id, Blobs>, size: int, limit: int)

  // ---- Byte accounting

  ghost function StateBytes(states: map<Id, Blob>): nat
    decreases |states|
  {
    if states == map[] then 0
    else
      var id :| id in states;
      |states[id]| + StateBytes(states - {id})
  }

  ghost function BytesOf(b: Blobs): nat {
    |b.input| + StateBytes(b.states) + |b.output|
  }

  lemma {:induction false} StateBytesWithout(states: map<Id, Blob>, k: Id)
    requires k in states
    ensures StateBytes(states) == |states[k]| + StateBytes(states - {k})
    decreases |states|
  {
    var id :| id in states && StateBytes(states) == |states[id]| + StateBytes(states - {id});
    if id != k {
      StateBytesWithout(states - {id}, k);
      StateBytesWithout(states - {k}, id);
      assert states - {id} - {k} == states - {k} - {id};
    }
  }

  lemma StateBytesPut(states: map<Id, Blob>, k: Id, v: Blob)
    requires k !in states
    ensures StateBytes(states[k := v]) == |v| + StateBytes(states)
  {
    StateBytesWithout(states[k := v], k);
    assert states[k := v] - {k} == states;
  }

  function TotalOf(order: seq<Id>, entries: map<Id, Blobs>): int
    requires forall id | id in order :: id in entries
  {
    if order == [] then 0 else entries[order[|order| - 1]].size + TotalOf(order[..|order| - 1], entries)
  }

  ghost predicate Permutes(order: seq<Id>, keys: set<Id>) {
    && (forall i, j | 0 <= i < j < |order| :: order[i] != order[j])
    && (forall id :: id in order <==> id in keys)
  }

  /** The list is a permutation of the index; an entry's size is the bytes it
      holds, the cache's the bytes of all; a cache without a limit admits
      nothing. */
  ghost predicate Accounted(c: Cache) {
    && Permutes(c.order, c.entries.Keys)
    && (forall id | id in c.entries :: c.entries[id].size == BytesOf(c.entries[id]))
    && c.size == TotalOf(c.order, c.entries)
    && (c.limit <= 0 ==> c.order == [])
  }

  predicate Fits(c: Cache) {
    c.limit > 0 ==> c.size <= c.limit
  }

  // ---- What each operation does

  function Without(order: seq<Id>, id: Id): seq<Id> {
    if order == [] then []
    else
      var n := |order| - 1;
      if order[n] == id then order[..n] else Without(order[..n], id) + [order[n]]
  }

  /** touch. */
  function Touch(c: Cache, id: Id): Cache {
    c.(order := [id] + Without(c.order, id), entries := if id in c.entries then c.entries else c.entries[id := NoBlobs])
  }

  /** remove of the last entry. */
  function DropLast(c: Cache): Cache
    requires c.order != [] && c.order[|c.order| - 1] in c.entries
  {
    var n := |c.order| - 1;
    c.(order := c.order[..n], entries := c.entries - {c.order[n]}, size := c.size - c.entries[c.order[n]].size)
  }

  /** evict: the least recently used go until the rest fits. */
  function Trim(c: Cache): Cache
    decreases |c.order|
  {
    if c.size > c.limit && c.order != [] && c.order[|c.order| - 1] in c.entries then Trim(DropLast(c)) else c
  }

  /** The entry's blobs replaced, the sizes with them. */
  function Put(c: Cache, id: Id, b: Blobs): Cache
    requires id in c.entries
  {
    c.(entries := c.entries[id := b], size := c.size - c.entries[id].size + b.size)
  }

  function SetInput(c: Cache, id: Id, input: Blob): Cache {
    if input == [] || c.limit <= 0 then c
    else
      var t := Touch(c, id);
      var b := t.entries[id];
      Trim(Put(t, id, b.(input := input, size := b.size - |b.input| + |input|)))
  }

  function SetOutput(c: Cache, id: Id, output: Blob): Cache {
    if output == [] || c.limit <= 0 then c
    else
      var t := Touch(c, id);
      var b := t.entries[id];
      Trim(Put(t, id, b.(output := output, size := b.size - |b.output| + |output|)))
  }

  function WithoutState(b: Blobs, step: Id): Blobs {
    if step in b.states then b.(states := b.states - {step}, size := b.size - |b.states[step]|) else b
  }

  /** An empty state drops the step's. */
  function SetState(c: Cache, id: Id, step: Id, state: Blob): Cache {
    if c.limit <= 0 then c
    else
      var t := Touch(c, id);
      var b := WithoutState(t.entries[id], step);
      if state == [] then Put(t, id, b)
      else Trim(Put(t, id, b.(states := b.states[step := state], size := b.size + |state|)))
  }

  function PushFront(c: Cache, id: Id, b: Blobs): Cache {
    c.(order := [id] + c.order, entries := c.entries[id := b], size := c.size + b.size)
  }

  ghost function Fill(c: Cache, id: Id, b: Blobs): Cache {
    if BytesOf(b) == 0 || c.limit <= 0 || id in c.entries then c
    else
      Trim(PushFront(c, id, b.(size := BytesOf(b))))
  }

  function Drop(c: Cache, id: Id): Cache {
    if id in c.entries then
      c.(order := Without(c.order, id), entries := c.entries - {id}, size := c.size - c.entries[id].size)
    else c
  }

  function LookedUp(c: Cache, id: Id): Cache {
    if id in c.entries then Touch(c, id) else c
  }

  // ---- The invariant

  lemma {:induction false} WithoutIs(order: seq<Id>, keys: set<Id>, id: Id)
    requires Permutes(order, keys)
    ensures Permutes(Without(order, id), keys - {id})
    ensures id !in order ==> Without(order, id) == order
    decreases |order|
  {
    if order != [] {
      var n := |order| - 1;
      LastOut(order, keys);
      WithoutIs(order[..n], keys - {order[n]}, id);
      if order[n] == id {
      } else {
        assert order[n] in order;
        assert keys - {order[n]} - {id} + {order[n]} == keys - {id};
        PermutesPush(Without(order[..n], id), keys - {order[n]} - {id}, order[n]);
        if id !in order {
          assert id !in order[..n];
          assert order == order[..n] + [order[n]];
        }
      }
    }
  }

  lemma LastOut(order: seq<Id>, keys: set<Id>)
    requires Permutes(order, keys) && order != []
    ensures order[|order| - 1] in keys && Permutes(order[..|order| - 1], keys - {order[|order| - 1]})
  {
    var n := |order| - 1;
    assert order == order[..n] + [order[n]];
    assert order[n] in order;
  }

  lemma PermutesPush(order: seq<Id>, keys: set<Id>, id: Id)
    requires Permutes(order, keys) && id !in keys
    ensures Permutes(order + [id], keys + {id})
  {
    assert forall i | 0 <= i < |order| :: order[i] in order;
  }

  lemma PermutesFront(order: seq<Id>, keys: set<Id>, id: Id)
    requires Permutes(order, keys) && id !in keys
    ensures Permutes([id] + order, keys + {id})
  {
    assert forall i | 0 <= i < |order| :: order[i] in order;
  }

  lemma {:induction false} TotalSame(order: seq<Id>, a: map<Id, Blobs>, b: map<Id, Blobs>)
    requires forall id | id in order :: id in a && id in b && a[id].size == b[id].size
    ensures TotalOf(order, a) == TotalOf(order, b)
  {
    if order != [] {
      TotalSame(order[..|order| - 1], a, b);
    }
  }

  lemma {:induction false} TotalFront(order: seq<Id>, entries: map<Id, Blobs>, id: Id)
    requires id in entries && forall x | x in order :: x in entries
    ensures TotalOf([id] + order, entries) == entries[id].size + TotalOf(order, entries)
    decreases |order|
  {
    if order != [] {
      var n := |order| - 1;
      assert ([id] + order)[..n + 1] == [id] + order[..n];
      TotalFront(order[..n], entries, id);
    }
  }

  lemma {:induction false} TotalWithout(order: seq<Id>, keys: set<Id>, entries: map<Id, Blobs>, id: Id)
    requires Permutes(order, keys) && keys <= entries.Keys && id in keys
    ensures forall x | x in Without(order, id) :: x in entries
    ensures TotalOf(order, entries) == entries[id].size + TotalOf(Without(order, id), entries)
    decreases |order|
  {
    WithoutIs(order, keys, id);
    assert id in order;
    var n := |order| - 1;
    if order[n] != id {
      LastOut(order, keys);
      TotalWithout(order[..n], keys - {order[n]}, entries, id);
      assert Without(order, id)[..|Without(order, id)| - 1] == Without(order[..n], id);
    }
  }

  lemma TouchAccounted(c: Cache, id: Id)
    requires Accounted(c) && c.limit > 0
    ensures Accounted(Touch(c, id)) && Touch(c, id).size == c.size && id in Touch(c, id).entries
  {
    hide StateBytes, Permutes;
    var t, rest := Touch(c, id), Without(c.order, id);
    TouchPermutes(c.order, c.entries.Keys, id);
    assert t.entries.Keys == c.entries.Keys + {id};
    EmptyStates();
    TouchTotal(c, id);
  }

  lemma EmptyStates()
    ensures StateBytes(map[]) == 0
  {
  }

  lemma TouchPermutes(order: seq<Id>, keys: set<Id>, id: Id)
    requires Permutes(order, keys)
    ensures Permutes([id] + Without(order, id), keys + {id})
    ensures forall x | x in Without(order, id) :: x in keys
  {
    WithoutIs(order, keys, id);
    PermutesFront(Without(order, id), keys - {id}, id);
    assert keys - {id} + {id} == keys + {id};
  }

  lemma TouchTotal(c: Cache, id: Id)
    requires Permutes(c.order, c.entries.Keys) && c.size == TotalOf(c.order, c.entries)
    ensures (var t := Touch(c, id); (forall x | x in t.order :: x in t.entries) && TotalOf(t.order, t.entries) == c.size)
  {
    hide Permutes, Without, TotalOf;
    var t, rest := Touch(c, id), Without(c.order, id);
    TouchPermutes(c.order, c.entries.Keys, id);
    TotalFront(rest, t.entries, id);
    if id in c.entries {
      TotalWithout(c.order, c.entries.Keys, c.entries, id);
    } else {
      NotListed(c.order, c.entries.Keys, id);
      WithoutIs(c.order, c.entries.Keys, id);
      TotalSame(rest, c.entries, t.entries);
    }
  }

  lemma NotListed(order: seq<Id>, keys: set<Id>, id: Id)
    requires Permutes(order, keys)
    ensures id in order <==> id in keys
  {
  }

  lemma PutAccounted(c: Cache, id: Id, b: Blobs)
    requires Accounted(c) && id in c.entries && b.size == BytesOf(b)
    ensures Accounted(Put(c, id, b))
  {
    var p := Put(c, id, b);
    assert p.entries.Keys == c.entries.Keys;
    TotalWithout(c.order, c.entries.Keys, c.entries, id);
    TotalWithout(c.order, c.entries.Keys, p.entries, id);
    WithoutIs(c.order, c.entries.Keys, id);
    TotalSame(Without(c.order, id), c.entries, p.entries);
  }

  lemma PushAccounted(c: Cache, id: Id, b: Blobs)
    requires Accounted(c) && c.limit > 0 && id !in c.entries && b.size == BytesOf(b)
    ensures Accounted(PushFront(c, id, b))
  {
    hide TotalOf, BytesOf;
    var n := PushFront(c, id, b);
    PermutesFront(c.order, c.entries.Keys, id);
    assert n.entries.Keys == c.entries.Keys + {id};
    TotalFront(c.order, n.entries, id);
    TotalSame(c.order, c.entries, n.entries);
  }

  lemma DropLastAccounted(c: Cache)
    requires Accounted(c) && c.order != []
    ensures c.order[|c.order| - 1] in c.entries && Accounted(DropLast(c))
  {
    var n := |c.order| - 1;
    LastOut(c.order, c.entries.Keys);
    assert (c.entries - {c.order[n]}).Keys == c.entries.Keys - {c.order[n]};
    TotalSame(c.order[..n], c.entries, c.entries - {c.order[n]});
  }

  /** The longest most recent prefix that fits. */
  ghost predicate LongestFitting(order: seq<Id>, entries: map<Id, Blobs>, limit: int, kept: seq<Id>)
    requires forall id | id in order :: id in entries
  {
    && kept <= order
    && (kept != [] ==> TotalOf(kept, entries) <= limit)
    && (|kept| < |order| ==> TotalOf(order[..|kept| + 1], entries) > limit)
  }

  /** Eviction keeps exactly the longest most recent prefix that fits the
      limit, each entry as it was, and the accounts right. */
  lemma {:induction false} TrimKeepsLongest(c: Cache)
    requires Accounted(c) && c.limit > 0
    ensures Accounted(Trim(c)) && Fits(Trim(c)) && Trim(c).limit == c.limit
    ensures LongestFitting(c.order, c.entries, c.limit, Trim(c).order)
    ensures Trim(c).entries == map id | id in c.entries && id in Trim(c).order :: c.entries[id]
    decreases |c.order|
  {
    hide TotalOf, BytesOf;
    if c.size > c.limit && c.order != [] {
      DropLastAccounted(c);
      TrimKeepsLongest(DropLast(c));
      LongestBelow(c, DropLast(c), Trim(c).order);
    } else {
      assert c.order[..|c.order|] == c.order;
      TotalEmpty(c.entries);
    }
  }

  lemma TotalEmpty(entries: map<Id, Blobs>)
    ensures TotalOf([], entries) == 0
  {
  }

  lemma LongestBelow(c: Cache, d: Cache, k: seq<Id>)
    requires Accounted(c) && c.order != [] && c.order[|c.order| - 1] in c.entries && d == DropLast(c) && c.size > c.limit && Accounted(d)
    requires LongestFitting(d.order, d.entries, c.limit, k)
    ensures LongestFitting(c.order, c.entries, c.limit, k)
  {
    hide TotalOf, BytesOf, Permutes;
    var n := |c.order| - 1;
    assert forall id | id in d.order :: id in c.order;
    InOrder(c, d);
    assert k == d.order[..|k|] == c.order[..|k|];
    TotalSame(k, d.entries, c.entries);
    if |k| < n {
      var l := d.order[..|k| + 1];
      assert l == c.order[..|k| + 1] && forall id | id in l :: id in d.order;
      TotalSame(l, d.entries, c.entries);
    } else {
      assert c.order[..|k| + 1] == c.order;
    }
  }

  lemma InOrder(c: Cache, d: Cache)
    requires Accounted(c) && Accounted(d)
    ensures forall id | id in c.order :: id in c.entries
    ensures forall id | id in d.order :: id in d.entries
  {
  }

  /** The prefix is determined: there is one longest. */
  lemma LongestUnique(order: seq<Id>, entries: map<Id, Blobs>, limit: int, a: seq<Id>, b: seq<Id>)
    requires forall id | id in order :: id in entries && entries[id].size >= 0
    requires LongestFitting(order, entries, limit, a) && LongestFitting(order, entries, limit, b)
    ensures a == b
  {
    assert a == order[..|a|] && b == order[..|b|];
    if |a| < |b| {
      TotalGrows(order, entries, |a| + 1, |b|);
    } else if |b| < |a| {
      TotalGrows(order, entries, |b| + 1, |a|);
    }
  }

  lemma {:induction false} TotalGrows(order: seq<Id>, entries: map<Id, Blobs>, i: nat, j: nat)
    requires i <= j <= |order| && forall id | id in order :: id in entries && entries[id].size >= 0
    ensures TotalOf(order[..i], entries) <= TotalOf(order[..j], entries)
    decreases j
  {
    if i < j {
      TotalGrows(order, entries, i, j - 1);
      assert order[..j][..j - 1] == order[..j - 1];
      assert order[j - 1] in order;
    }
  }

  lemma EntryBytes(c: Cache, id: Id)
    requires Accounted(c) && id in c.entries
    ensures c.entries[id].size == BytesOf(c.entries[id])
  {
  }

  ghost predicate Sound(c: Cache) {
    Accounted(c) && Fits(c)
  }

  lemma SetInputSound(c: Cache, id: Id, input: Blob)
    requires Sound(c)
    ensures Sound(SetInput(c, id, input))
  {
    hide Accounted, Permutes, Trim, TotalOf, Without, StateBytes, LongestFitting;
    if input != [] && c.limit > 0 {
      TouchAccounted(c, id);
      var t := Touch(c, id);
      var b := t.entries[id];
      EntryBytes(t, id);
      var p := b.(input := input, size := b.size - |b.input| + |input|);
      PutAccounted(t, id, p);
      TrimKeepsLongest(Put(t, id, p));
    }
  }

  lemma SetOutputSound(c: Cache, id: Id, output: Blob)
    requires Sound(c)
    ensures Sound(SetOutput(c, id, output))
  {
    hide Accounted, Permutes, Trim, TotalOf, Without, StateBytes, LongestFitting;
    if output != [] && c.limit > 0 {
      TouchAccounted(c, id);
      var t := Touch(c, id);
      var b := t.entries[id];
      EntryBytes(t, id);
      var p := b.(output := output, size := b.size - |b.output| + |output|);
      PutAccounted(t, id, p);
      TrimKeepsLongest(Put(t, id, p));
    }
  }

  lemma SetStateSound(c: Cache, id: Id, step: Id, state: Blob)
    requires Sound(c)
    ensures Sound(SetState(c, id, step, state))
  {
    hide Accounted, Permutes, Trim, TotalOf, Without, StateBytes, LongestFitting;
    if c.limit > 0 {
      TouchAccounted(c, id);
      var t := Touch(c, id);
      var b := WithoutState(t.entries[id], step);
      EntryBytes(t, id);
      if step in t.entries[id].states {
        StateBytesWithout(t.entries[id].states, step);
      }
      PutAccounted(t, id, b);
      if state != [] {
        StateBytesPut(b.states, step, state);
        var p := b.(states := b.states[step := state], size := b.size + |state|);
        PutAccounted(t, id, p);
        TrimKeepsLongest(Put(t, id, p));
      }
    }
  }

  lemma FillSound(c: Cache, id: Id, b: Blobs)
    requires Sound(c)
    ensures Sound(Fill(c, id, b))
  {
    hide Accounted, Permutes, Trim, TotalOf, Without, StateBytes, LongestFitting;
    if BytesOf(b) != 0 && c.limit > 0 && id !in c.entries {
      var n := PushFront(c, id, b.(size := BytesOf(b)));
      PushAccounted(c, id, b.(size := BytesOf(b)));
      TrimKeepsLongest(n);
    }
  }

  lemma DropSound(c: Cache, id: Id)
    requires Sound(c)
    ensures Sound(Drop(c, id)) && Drop(c, id).size <= c.size
    ensures Drop(c, id).entries == c.entries - {id}
  {
    if id in c.entries {
      var d := Drop(c, id);
      WithoutIs(c.order, c.entries.Keys, id);
      TotalWithout(c.order, c.entries.Keys, c.entries, id);
      assert d.entries.Keys == c.entries.Keys - {id};
      TotalSame(d.order, c.entries, d.entries);
    }
  }

  lemma LookedUpSound(c: Cache, id: Id)
    requires Sound(c)
    ensures Sound(LookedUp(c, id)) && LookedUp(c, id).entries == c.entries
    ensures id !in c.entries ==> LookedUp(c, id) == c
  {
    if id in c.entries {
      assert c.order != [];
      TouchAccounted(c, id);
    }
  }

  // ---- What is cached

  function Entry(c: Cache, id: Id): Blobs {
    if id in c.entries then c.entries[id] else NoBlobs
  }

  /** The cache after an entry was written: it is there, as asked, exactly when
      it fits on its own; the others are as they were, or gone. */
  ghost predicate Writes(c: Cache, d: Cache, id: Id, input: Blob, states: map<Id, Blob>, output: Blob) {
    && (id in d.entries <==> |input| + StateBytes(states) + |output| <= c.limit)
    && (id in d.entries ==> d.entries[id].input == input && d.entries[id].states == states && d.entries[id].output == output)
    && (forall x | x in d.entries && x != id :: x in c.entries && d.entries[x] == c.entries[x])
  }

  /** The first entry survives the trim exactly when it fits alone. */
  lemma FirstKept(c: Cache, id: Id)
    requires Accounted(c) && c.limit > 0 && c.order != [] && c.order[0] == id
    ensures id in c.entries
    ensures id in Trim(c).entries <==> BytesOf(c.entries[id]) <= c.limit
    ensures forall x | x in Trim(c).entries :: x in c.entries && Trim(c).entries[x] == c.entries[x]
  {
    hide BytesOf;
    TrimKeepsLongest(c);
    assert id in c.order;
    var k := Trim(c).order;
    assert c.order[..1] == [id];
    FirstTotal(c.entries, id);
    if k != [] {
      assert k[0] == id;
      assert id in k;
      FirstWithin(c, k);
    } else {
      assert id !in Trim(c).entries;
    }
  }

  lemma FirstTotal(entries: map<Id, Blobs>, id: Id)
    requires id in entries
    ensures TotalOf([id], entries) == entries[id].size
  {
    assert [id][..0] == [];
  }

  lemma FirstWithin(c: Cache, k: seq<Id>)
    requires Accounted(c) && k != [] && k <= c.order
    requires forall id | id in c.order :: id in c.entries
    ensures TotalOf(k, c.entries) >= BytesOf(c.entries[k[0]])
  {
    assert k == c.order[..|k|] && k[0] in c.order;
    assert c.order[..1] == [k[0]];
    FirstTotal(c.entries, k[0]);
    TotalGrows(c.order, c.entries, 1, |k|);
  }

  lemma SetInputWrites(c: Cache, id: Id, input: Blob)
    requires Sound(c) && input != [] && c.limit > 0
    ensures Writes(c, SetInput(c, id, input), id, input, Entry(c, id).states, Entry(c, id).output)
  {
    hide Accounted, Permutes, Trim, TotalOf, Without, StateBytes, LongestFitting;
    TouchAccounted(c, id);
    var t := Touch(c, id);
    var b := t.entries[id];
    EntryBytes(t, id);
    var p := b.(input := input, size := b.size - |b.input| + |input|);
    PutAccounted(t, id, p);
    FirstKept(Put(t, id, p), id);
  }

  lemma SetOutputWrites(c: Cache, id: Id, output: Blob)
    requires Sound(c) && output != [] && c.limit > 0
    ensures Writes(c, SetOutput(c, id, output), id, Entry(c, id).input, Entry(c, id).states, output)
  {
    hide Accounted, Permutes, Trim, TotalOf, Without, StateBytes, LongestFitting;
    TouchAccounted(c, id);
    var t := Touch(c, id);
    var b := t.entries[id];
    EntryBytes(t, id);
    var p := b.(output := output, size := b.size - |b.output| + |output|);
    PutAccounted(t, id, p);
    FirstKept(Put(t, id, p), id);
  }

  lemma SetStateWrites(c: Cache, id: Id, step: Id, state: Blob)
    requires Sound(c) && c.limit > 0
    ensures (var b, d := Entry(c, id), SetState(c, id, step, state);
             if state == [] then
               && d.entries == c.entries[id := d.entries[id]]
               && d.entries[id].input == b.input && d.entries[id].output == b.output && d.entries[id].states == b.states - {step}
             else Writes(c, d, id, b.input, b.states[step := state], b.output))
  {
    hide Accounted, Permutes, Trim, TotalOf, Without, StateBytes, LongestFitting;
    TouchAccounted(c, id);
    var t := Touch(c, id);
    var b := WithoutState(t.entries[id], step);
    EntryBytes(t, id);
    if step in t.entries[id].states {
      StateBytesWithout(t.entries[id].states, step);
    } else {
      assert t.entries[id].states - {step} == t.entries[id].states;
    }
    if state != [] {
      assert b.states[step := state] == t.entries[id].states[step := state];
      StateBytesPut(b.states, step, state);
      var p := b.(states := b.states[step := state], size := b.size + |state|);
      PutAccounted(t, id, p);
      FirstKept(Put(t, id, p), id);
    }
  }

  lemma FillWrites(c: Cache, id: Id, b: Blobs)
    requires Sound(c) && c.limit > 0 && id !in c.entries && BytesOf(b) != 0
    ensures Writes(c, Fill(c, id, b), id, b.input, b.states, b.output)
  {
    hide Accounted, Permutes, Trim, TotalOf, Without, StateBytes, LongestFitting;
    PushAccounted(c, id, b.(size := BytesOf(b)));
    FirstKept(PushFront(c, id, b.(size := BytesOf(b))), id);
  }

  // ---- Who is evicted

  datatype Use =
    | UseInput(id: Id, input: Blob)
    | UseState(id: Id, step: Id, state: Blob)
    | UseOutput(id: Id, output: Blob)
    | UseFill(id: Id, b: Blobs)
    | UseLookup(id: Id)
    | UseDrop(id: Id)

  ghost function Used(c: Cache, u: Use): Cache {
    match u
    case UseInput(id, input) => SetInput(c, id, input)
    case UseState(id, step, state) => SetState(c, id, step, state)
    case UseOutput(id, output) => SetOutput(c, id, output)
    case UseFill(id, b) => Fill(c, id, b)
    case UseLookup(id) => LookedUp(c, id)
    case UseDrop(id) => Drop(c, id)
  }

  /** A write or a read of an entry uses its Run, a fill only when it makes
      one, a drop not at all. */
  ghost predicate Counts(c: Cache, u: Use) {
    match u
    case UseInput(_, input) => input != []
    case UseState(_, _, _) => true
    case UseOutput(_, output) => output != []
    case UseFill(id, b) => id !in c.entries && BytesOf(b) != 0
    case UseLookup(id) => id in c.entries
    case UseDrop(_) => false
  }

  /** When each Run was last used. */
  ghost function Stamped(last: map<Id, nat>, clock: nat, c: Cache, u: Use): map<Id, nat> {
    if Counts(c, u) then last[u.id := clock] else last
  }

  /** The recency list runs from the last used to the first. */
  ghost predicate ByRecency(order: seq<Id>, last: map<Id, nat>) {
    && (forall i | 0 <= i < |order| :: order[i] in last)
    && (forall i, j | 0 <= i < j < |order| :: last[order[i]] > last[order[j]])
  }

  ghost predicate Before(last: map<Id, nat>, clock: nat) {
    forall id | id in last :: last[id] < clock
  }

  lemma {:induction false} WithoutByRecency(order: seq<Id>, last: map<Id, nat>, id: Id)
    requires ByRecency(order, last)
    ensures ByRecency(Without(order, id), last)
    ensures forall x | x in Without(order, id) :: x in order && x != id
    decreases |order|
  {
    if order != [] {
      var n := |order| - 1;
      WithoutByRecency(order[..n], last, id);
      if order[n] == id {
        forall x | x in order[..n] ensures x != id {
          var i :| 0 <= i < n && order[..n][i] == x;
          assert last[order[i]] > last[order[n]];
        }
      } else {
        var rest := Without(order[..n], id);
        forall i | 0 <= i < |rest| ensures last[rest[i]] > last[order[n]] {
          assert rest[i] in rest;
          var m :| 0 <= m < n && order[..n][m] == rest[i];
        }
      }
    }
  }

  lemma FrontByRecency(order: seq<Id>, last: map<Id, nat>, clock: nat, id: Id)
    requires ByRecency(order, last) && Before(last, clock)
    ensures ByRecency([id] + Without(order, id), last[id := clock])
  {
    WithoutByRecency(order, last, id);
    var rest := Without(order, id);
    forall i | 0 <= i < |rest| ensures rest[i] != id && rest[i] in last {
      assert rest[i] in rest;
    }
  }

  lemma PrefixByRecency(order: seq<Id>, last: map<Id, nat>, k: seq<Id>)
    requires ByRecency(order, last) && k <= order
    ensures ByRecency(k, last)
  {
  }

  /** The list before any trim. */
  ghost function Listed(c: Cache, u: Use): seq<Id> {
    if u.UseDrop? then Without(c.order, u.id) else if Counts(c, u) then [u.id] + Without(c.order, u.id) else c.order
  }

  lemma UsedSound(c: Cache, u: Use)
    requires Sound(c)
    ensures Sound(Used(c, u))
  {
    hide Sound, SetInput, SetState, SetOutput, Fill, LookedUp, Drop;
    match u
    case UseInput(id, input) => SetInputSound(c, id, input);
    case UseState(id, step, state) => SetStateSound(c, id, step, state);
    case UseOutput(id, output) => SetOutputSound(c, id, output);
    case UseFill(id, b) => FillSound(c, id, b);
    case UseLookup(id) => LookedUpSound(c, id);
    case UseDrop(id) => DropSound(c, id);
  }

  lemma UsedOrder(c: Cache, u: Use)
    requires Sound(c)
    ensures Used(c, u).order <= Listed(c, u)
  {
    hide Accounted, Without, Trim, Touch, WithoutState, BytesOf, StateBytes;
    if c.limit <= 0 {
      UnlimitedEmpty(c);
    }
    match u
    case UseInput(id, input) =>
      TouchedPrefix(c, id, NoBlobs);
      var b := Touch(c, id).entries[id];
      TouchedPrefix(c, id, b.(input := input, size := b.size - |b.input| + |input|));
    case UseState(id, step, state) =>
      TouchedPrefix(c, id, NoBlobs);
      var b := WithoutState(Touch(c, id).entries[id], step);
      TouchedPrefix(c, id, b);
      TouchedPrefix(c, id, b.(states := b.states[step := state], size := b.size + |state|));
    case UseOutput(id, output) =>
      TouchedPrefix(c, id, NoBlobs);
      var b := Touch(c, id).entries[id];
      TouchedPrefix(c, id, b.(output := output, size := b.size - |b.output| + |output|));
    case UseFill(id, b) =>
      if id !in c.entries {
        NotThere(c, id);
        TrimPrefix(PushFront(c, id, b.(size := BytesOf(b))));
      }
    case UseLookup(id) => TouchedPrefix(c, id, NoBlobs);
    case UseDrop(id) =>
      if id !in c.entries {
        NotThere(c, id);
      }
  }

  lemma TouchedPrefix(c: Cache, id: Id, b: Blobs)
    ensures id in Touch(c, id).entries
    ensures Trim(Put(Touch(c, id), id, b)).order <= [id] + Without(c.order, id)
    ensures Touch(c, id).order == [id] + Without(c.order, id) && Put(Touch(c, id), id, b).order == [id] + Without(c.order, id)
  {
    hide Without;
    TrimPrefix(Put(Touch(c, id), id, b));
  }

  lemma UnlimitedEmpty(c: Cache)
    requires Accounted(c) && c.limit <= 0
    ensures c.order == []
  {
  }

  lemma NotThere(c: Cache, id: Id)
    requires Accounted(c) && id !in c.entries
    ensures Without(c.order, id) == c.order
  {
    WithoutIs(c.order, c.entries.Keys, id);
  }

  lemma {:induction false} TrimPrefix(c: Cache)
    ensures Trim(c).order <= c.order && Trim(c).entries.Keys <= c.entries.Keys
    decreases |c.order|
  {
    if c.size > c.limit && c.order != [] && c.order[|c.order| - 1] in c.entries {
      TrimPrefix(DropLast(c));
    }
  }

  lemma ListedByRecency(c: Cache, u: Use, last: map<Id, nat>, clock: nat)
    requires ByRecency(c.order, last) && Before(last, clock)
    ensures ByRecency(Listed(c, u), Stamped(last, clock, c, u))
  {
    hide ByRecency, Without;
    WithoutByRecency(c.order, last, u.id);
    FrontByRecency(c.order, last, clock, u.id);
  }

  /** x fell off the end of the list. */
  lemma Evicted(c: Cache, d: Cache, u: Use, l: map<Id, nat>, x: Id, y: Id)
    requires Sound(c) && Sound(d) && d.order <= Listed(c, u) && ByRecency(Listed(c, u), l)
    requires x in c.entries && x != u.id && x !in d.entries && y in d.entries
    ensures x in l && y in l && l[x] < l[y]
  {
    WithoutIs(c.order, c.entries.Keys, u.id);
    assert x in c.order && x in Without(c.order, u.id);
    var order := Listed(c, u);
    assert x in order;
    var m :| 0 <= m < |order| && order[m] == x;
    assert y in d.order;
    var j :| 0 <= j < |d.order| && d.order[j] == y;
    assert forall i | 0 <= i < |d.order| :: d.order[i] == order[i] && d.order[i] in d.entries;
  }

  /** Whatever is done, the list stays in the order of use, and what is evicted
      was used before everything that stays. */
  lemma UseKeepsRecency(c: Cache, u: Use, last: map<Id, nat>, clock: nat, x: Id, y: Id)
    requires Sound(c) && ByRecency(c.order, last) && Before(last, clock)
    ensures Sound(Used(c, u)) && ByRecency(Used(c, u).order, Stamped(last, clock, c, u))
    ensures (var l := Stamped(last, clock, c, u);
             x in c.entries && x != u.id && x !in Used(c, u).entries && y in Used(c, u).entries ==>
               x in l && y in l && l[x] < l[y])
  {
    hide Sound, ByRecency, Used, Listed;
    UsedSound(c, u);
    UsedOrder(c, u);
    ListedByRecency(c, u, last, clock);
    var d, l := Used(c, u), Stamped(last, clock, c, u);
    PrefixByRecency(Listed(c, u), l, d.order);
    if x in c.entries && x != u.id && x !in d.entries && y in d.entries {
      Evicted(c, d, u, l, x, y);
    }
  }

  ghost function Ran(c: Cache, us: seq<Use>): Cache {
    if us == [] then c else Used(Ran(c, us[..|us| - 1]), us[|us| - 1])
  }

  /** The clock is the number of operations so far. */
  ghost function LastUsed(c: Cache, us: seq<Use>): map<Id, nat> {
    if us == [] then map[] else Stamped(LastUsed(c, us[..|us| - 1]), |us| - 1, Ran(c, us[..|us| - 1]), us[|us| - 1])
  }

  /** From an empty cache, over every run of operations, the list is in the
      order of use. */
  lemma {:induction false} RunsByRecency(limit: int, us: seq<Use>)
    ensures (var c := Cache([], map[], 0, limit);
             Sound(Ran(c, us)) && ByRecency(Ran(c, us).order, LastUsed(c, us)) && Before(LastUsed(c, us), |us|))
    decreases |us|
  {
    var c := Cache([], map[], 0, limit);
    if us == [] {
      assert TotalOf([], map[]) == 0;
    } else {
      var before := us[..|us| - 1];
      RunsByRecency(limit, before);
      UseKeepsRecency(Ran(c, before), us[|us| - 1], LastUsed(c, before), |us| - 1, NoId, NoId);
    }
  }

  // ---- The cache, in place

  /** What fill needs: the loop over the states, in any order. */
  method BytesNeeded(b: Blobs) returns (need: nat)
    ensures need == BytesOf(b)
  {
    need := |b.input| + |b.output|;
    var todo := b.states.Keys;
    assert b.states - {} == b.states;
    ghost var left := b.states;
    while todo != {}
      invariant left.Keys == todo && todo <= b.states.Keys && left == b.states - (b.states.Keys - todo)
      invariant need + StateBytes(left) == BytesOf(b)
      decreases todo
    {
      var id :| id in todo;
      StateBytesWithout(left, id);
      left := left - {id};
      todo := todo - {id};
      need := need + |b.states[id]|;
    }
  }

  lemma AloneLast(c: Cache, keep: Id)
    requires Accounted(c) && c.order != [] && c.order[0] == keep
    ensures c.order[|c.order| - 1] == keep <==> |c.order| == 1
  {
  }

  class LRU {
    /** Front is most recently used. */
    var order: seq<Id>
    var byId: map<Id, Blobs>
    var size: int
    const limit: int

    ghost function View(): Cache
      reads this
    {
      Cache(order, byId, size, limit)
    }

    constructor (limit: int)
      ensures Sound(View()) && View() == Cache([], map[], 0, limit)
    {
      this.limit := limit;
      order, byId, size := [], map[], 0;
    }

    /** MoveToFront, or PushFront of a new entry. */
    method TouchEntry(id: Id) returns (ok: bool)
      modifies this
      ensures ok == (limit > 0)
      ensures View() == if ok then Touch(old(View()), id) else old(View())
    {
      if limit <= 0 {
        return false;
      }
      if id !in byId {
        byId := byId[id := NoBlobs];
      }
      order := [id] + Without(order, id);
      ok := true;
    }

    method Evict(keep: Id)
      requires Accounted(View()) && (order != [] ==> order[0] == keep)
      modifies this
      ensures View() == Trim(old(View()))
    {
      hide StateBytes, BytesOf, TotalOf, Permutes;
      while size > limit
        invariant Accounted(View()) && (order != [] ==> order[0] == keep)
        invariant Trim(View()) == Trim(old(View()))
        decreases |order|
      {
        if order == [] {
          return;
        }
        var last := order[|order| - 1];
        DropLastAccounted(View());
        AloneLast(View(), keep);
        Remove(last);
        if last == keep {
          // The one being written is alone and too big: it goes too.
          return;
        }
      }
    }

    /** remove, of the list's last element. */
    method Remove(last: Id)
      requires order != [] && order[|order| - 1] == last && last in byId
      modifies this
      ensures View() == DropLast(old(View()))
    {
      size := size - byId[last].size;
      order := order[..|order| - 1];
      byId := byId - {last};
    }

    method SetInputOf(id: Id, input: Blob)
      requires Sound(View())
      modifies this
      ensures View() == SetInput(old(View()), id, input) && Sound(View())
    {
      hide Accounted, Trim, StateBytes, Without;
      SetInputSound(View(), id, input);
      if input == [] {
        return;
      }
      ghost var c := View();
      var ok := TouchEntry(id);
      if !ok {
        return;
      }
      TouchAccounted(c, id);
      var b := byId[id];
      ghost var p := b.(input := input, size := b.size - |b.input| + |input|);
      EntryBytes(View(), id);
      PutAccounted(View(), id, p);
      size := size - |b.input|;
      b := b.(size := b.size - |b.input|, input := input);
      size := size + |input|;
      b := b.(size := b.size + |input|);
      byId := byId[id := b];
      assert View() == Put(Touch(c, id), id, p);
      Evict(id);
    }

    method SetOutputOf(id: Id, output: Blob)
      requires Sound(View())
      modifies this
      ensures View() == SetOutput(old(View()), id, output) && Sound(View())
    {
      hide Accounted, Trim, StateBytes, Without;
      SetOutputSound(View(), id, output);
      if output == [] {
        return;
      }
      ghost var c := View();
      var ok := TouchEntry(id);
      if !ok {
        return;
      }
      TouchAccounted(c, id);
      var b := byId[id];
      ghost var p := b.(output := output, size := b.size - |b.output| + |output|);
      EntryBytes(View(), id);
      PutAccounted(View(), id, p);
      size := size - |b.output|;
      b := b.(size := b.size - |b.output|, output := output);
      size := size + |output|;
      b := b.(size := b.size + |output|);
      byId := byId[id := b];
      assert View() == Put(Touch(c, id), id, p);
      Evict(id);
    }

    method SetStateOf(id: Id, step: Id, state: Blob)
      requires Sound(View())
      modifies this
      ensures View() == SetState(old(View()), id, step, state) && Sound(View())
    {
      hide Accounted, Trim, StateBytes, Without;
      SetStateSound(View(), id, step, state);
      ghost var c := View();
      var ok := TouchEntry(id);
      if !ok {
        return;
      }
      TouchAccounted(c, id);
      var b := byId[id];
      EntryBytes(View(), id);
      if step in b.states {
        StateBytesWithout(b.states, step);
        var dropped := |b.states[step]|;
        size := size - dropped;
        b := b.(size := b.size - dropped, states := b.states - {step});
      }
      assert b == WithoutState(Touch(c, id).entries[id], step);
      PutAccounted(Touch(c, id), id, b);
      byId := byId[id := b];
      if state == [] {
        return;
      }
      StateBytesPut(b.states, step, state);
      b := b.(states := b.states[step := state], size := b.size + |state|);
      PutAccounted(Touch(c, id), id, b);
      size := size + |state|;
      byId := byId[id := b];
      assert View() == Put(Touch(c, id), id, b);
      Evict(id);
    }

    /** Caches a Run read from the file on a miss. */
    method FillWith(id: Id, b: Blobs)
      requires Sound(View())
      modifies this
      ensures View() == Fill(old(View()), id, b) && Sound(View())
    {
      hide Accounted, Trim, StateBytes, Without;
      FillSound(View(), id, b);
      var need := BytesNeeded(b);
      if need == 0 || limit <= 0 {
        return;
      }
      if id in byId {
        return;
      }
      PushAccounted(View(), id, b.(size := need));
      byId := byId[id := b.(size := need)];
      order := [id] + order;
      size := size + need;
      Evict(id);
    }

    method DropRun(id: Id)
      requires Sound(View())
      modifies this
      ensures View() == Drop(old(View()), id) && Sound(View())
    {
      hide Accounted, Without;
      DropSound(View(), id);
      if id in byId {
        size := size - byId[id].size;
        order := Without(order, id);
        byId := byId - {id};
      }
    }

    /** The Run's entry, marked most recently used. */
    method Lookup(id: Id) returns (b: Option<Blobs>)
      requires Sound(View())
      modifies this
      ensures View() == LookedUp(old(View()), id) && Sound(View()) && byId == old(byId)
      ensures b == if id in byId then Some(byId[id]) else None
    {
      hide Accounted, Without;
      LookedUpSound(View(), id);
      if id !in byId {
        return None;
      }
      order := [id] + Without(order, id);
      b := Some(byId[id]);
    }
  }
}
