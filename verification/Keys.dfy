/** The composite keys of the six buckets (store/bbolt/store.go:354-421,
    690-721) and what their byte order gives a prefix walk. */
module Keys {
  import opened Bytes
  import opened Records

  const tagMeta: byte := 77
  const tagCancel: byte := 99
  const tagFailure: byte := 102
  const tagInput: byte := 105
  const tagOp: byte := 111
  const tagOutput: byte := 79
  const stateSuffix: Bytes := [0, 115]

  // ---- Encoders

  function SlotKey(pipeline: Id, resource: Id): Bytes {
    pipeline.name + [0] + resource.name
  }

  function RunPrefix(id: Id): Bytes {
    id.name + [0]
  }

  function ActiveKey(id: Id, tag: byte): Bytes {
    RunPrefix(id) + [tag]
  }

  function PhaseByte(h: Half): byte {
    if h.Unw? then 117 else 102
  }

  /** The bytes after an operation row's tag: order, step, phase. */
  function OpRest(order: Uint32, step: Id, h: Half): Bytes {
    [0] + BE(order, 4) + [0] + step.name + [0, PhaseByte(h)]
  }

  function OpKey(id: Id, order: Uint32, step: Id, h: Half): Bytes {
    ActiveKey(id, tagOp) + OpRest(order, step, h)
  }

  function StateKey(opKey: Bytes): Bytes {
    opKey + stateSuffix
  }

  function OutputKey(id: Id): Bytes {
    id.name + [0, tagOutput]
  }

  /** The conversion uint64(n). */
  function Uint64(n: Int64): nat {
    if n < 0 then n + 0x1_0000_0000_0000_0000 else n
  }

  /** The zero time encodes as zero; any other as its nanoseconds, as a
      uint64, so a time before the epoch wraps to the top of the range. */
  function ExpiryPrefix(t: Time): Bytes {
    BE(if t.Zero? then 0 else Uint64(t.nanos), 8)
  }

  function ExpiryKey(t: Time, id: Id): Bytes {
    ExpiryPrefix(t) + id.name
  }

  /** The rows of the active bucket. */
  datatype Key =
    | KMeta(id: Id)
    | KCancel(id: Id)
    | KFail(id: Id)
    | KInput(id: Id)
    | KOp(id: Id, order: Uint32, step: Id, h: Half)
    | KState(id: Id, order: Uint32, step: Id)

  function Tag(k: Key): byte {
    match k
    case KMeta(_) => tagMeta
    case KCancel(_) => tagCancel
    case KFail(_) => tagFailure
    case KInput(_) => tagInput
    case _ => tagOp
  }

  /** The bytes after the tag. */
  function Rest(k: Key): Bytes {
    match k
    case KOp(_, o, s, h) => OpRest(o, s, h)
    case KState(_, o, s) => OpRest(o, s, Fwd) + stateSuffix
    case _ => []
  }

  function Encode(k: Key): Bytes {
    ActiveKey(k.id, Tag(k)) + Rest(k)
  }

  // ---- Decoders

  /** bytes.IndexByte(k, 0). */
  function IndexNul(k: Bytes): (i: int)
    ensures i == -1 ==> 0 !in k
    ensures i != -1 ==> 0 <= i < |k| && k[i] == 0 && 0 !in k[..i]
  {
    if k == [] then -1
    else if k[0] == 0 then 0
    else
      var i := IndexNul(k[1..]);
      if i == -1 then -1 else
        assert k[..i + 1] == [k[0]] + k[1..][..i];
        i + 1
  }

  function SplitActiveKey(k: Bytes): Option<(Id, byte, Bytes)> {
    var i := IndexNul(k);
    if i < 0 || i + 1 >= |k| then None
    else Some((Id(k[..i]), k[i + 1], k[i + 2..]))
  }

  function SplitOpRest(rest: Bytes): Option<(Uint32, Bytes, Half)> {
    if |rest| < 1 + 4 + 1 + 2 || rest[0] != 0 || rest[5] != 0 || rest[|rest| - 2] != 0 then None
    else
      var tail := rest[6..];
      var order := FromBE(rest[1..5]) % 0x1_0000_0000;
      Some((order, tail[..|tail| - 2], if tail[|tail| - 1] == 117 then Unw else Fwd))
  }

  // ---- Round trips and injectivity

  lemma FirstNul(name: NulFree, rest: Bytes)
    ensures IndexNul(name + [0] + rest) == |name|
  {
    var k := name + [0] + rest;
    assert k[|name|] == 0;
    forall j | |name| < j <= |k| ensures 0 in k[..j] {
      assert k[..j][|name|] == 0;
    }
    assert forall j | 0 <= j < |name| :: k[j] == name[j];
    var i := IndexNul(k);
  }

  /** The part before the first NUL and the part after it are recoverable. */
  lemma SplitAtNul(a: NulFree, x: Bytes, b: NulFree, y: Bytes)
    requires a + [0] + x == b + [0] + y
    ensures a == b && x == y
  {
    FirstNul(a, x);
    FirstNul(b, y);
    var k := a + [0] + x;
    assert a == k[..|a|] && b == k[..|b|];
    assert x == k[|a| + 1..] && y == k[|b| + 1..];
  }

  lemma SplitActiveKeyEncode(k: Key)
    ensures SplitActiveKey(Encode(k)) == Some((k.id, Tag(k), Rest(k)))
  {
    FirstNul(k.id.name, [Tag(k)] + Rest(k));
    assert Encode(k) == k.id.name + [0] + ([Tag(k)] + Rest(k));
    assert Encode(k)[..|k.id.name|] == k.id.name;
  }

  lemma SplitOpRestRoundTrip(order: Uint32, step: Id, h: Half)
    ensures SplitOpRest(OpRest(order, step, h)) == Some((order, step.name, h))
  {
    var r := OpRest(order, step, h);
    assert r[1..5] == BE(order, 4);
    assert r[6..] == step.name + [0, PhaseByte(h)];
    assert r[6..][..|step.name|] == step.name;
    assert Pow256(4) == 0x1_0000_0000;
    BERoundTrip(order, 4);
  }

  /** An operation row never reads as a state row, nor the reverse. */
  lemma StateSuffixTells(k: Key)
    requires Tag(k) == tagOp
    ensures HasSuffix(Rest(k), stateSuffix) <==> k.KState?
    ensures k.KState? ==> Rest(k)[..|Rest(k)| - 2] == OpRest(k.order, k.step, Fwd)
  {
    var r := Rest(k);
    if k.KOp? {
      assert r[|r| - 1] == PhaseByte(k.h);
      assert r[|r| - 2..][1] == r[|r| - 1];
    } else {
      var q := OpRest(k.order, k.step, Fwd);
      assert r[|q|..] == stateSuffix;
      assert r[..|q|] == q;
    }
  }

  lemma EncodeInjective(a: Key, b: Key)
    ensures Encode(a) == Encode(b) ==> a == b
  {
    if Encode(a) == Encode(b) {
      SplitActiveKeyEncode(a);
      SplitActiveKeyEncode(b);
      if Tag(a) == tagOp {
        StateSuffixTells(a);
        StateSuffixTells(b);
        SplitOpRestRoundTrip(a.order, a.step, if a.KOp? then a.h else Fwd);
        SplitOpRestRoundTrip(b.order, b.step, if b.KOp? then b.h else Fwd);
      }
    }
  }

  lemma SlotKeyInjective(p: Id, r: Id, q: Id, s: Id)
    ensures SlotKey(p, r) == SlotKey(q, s) <==> p == q && r == s
  {
    if SlotKey(p, r) == SlotKey(q, s) {
      SplitAtNul(p.name, r.name, q.name, s.name);
    }
  }

  /** A terminal row and an output row never share a key. */
  lemma OutputKeyApart(a: Id, b: Id)
    ensures OutputKey(a) != b.name
    ensures OutputKey(a) == OutputKey(b) ==> a == b
  {
    assert OutputKey(a)[|a.name|] == 0;
    if OutputKey(a) == OutputKey(b) {
      assert OutputKey(a) == a.name + [0] + [tagOutput];
      assert OutputKey(b) == b.name + [0] + [tagOutput];
      SplitAtNul(a.name, [tagOutput], b.name, [tagOutput]);
    }
  }

  lemma ExpiryKeyInjective(t: Time, a: Id, u: Time, b: Id)
    ensures ExpiryKey(t, a) == ExpiryKey(u, b) <==> ExpiryPrefix(t) == ExpiryPrefix(u) && a == b
    ensures ExpiryKey(t, a)[..8] == ExpiryPrefix(t) && ExpiryKey(t, a)[8..] == a.name
  {
    assert ExpiryKey(u, b)[..8] == ExpiryPrefix(u) && ExpiryKey(u, b)[8..] == b.name;
  }

  // ---- Order

  lemma PrefixTellsName(a: NulFree, x: Bytes, b: NulFree)
    ensures HasPrefix(a + [0] + x, b + [0]) <==> a == b
  {
    var e := a + [0] + x;
    if HasPrefix(e, b + [0]) {
      assert e == b + [0] + e[|b| + 1..];
      SplitAtNul(a, x, b, e[|b| + 1..]);
    }
  }

  /** A prefix walk over R visits exactly the rows of R. */
  lemma PrefixIsRun(k: Key, id: Id)
    ensures HasPrefix(Encode(k), RunPrefix(id)) <==> k.id == id
  {
    var x := [Tag(k)] + Rest(k);
    assert Encode(k) == k.id.name + [0] + x;
    PrefixTellsName(k.id.name, x, id.name);
  }

  /** Within a run, rows come by tag: meta, cancel, failure, input, then the
      operations. */
  lemma RowsByTag(a: Key, b: Key)
    requires a.id == b.id && Tag(a) < Tag(b)
    ensures Less(Encode(a), Encode(b))
  {
    LessAtByte(RunPrefix(a.id), Tag(a), Rest(a), Tag(b), Rest(b));
  }

  /** The bytes after the order of an operation or state row. */
  function OpTail(k: Key): Bytes
    requires Tag(k) == tagOp
  {
    [0] + k.step.name + (if k.KOp? then [0, PhaseByte(k.h)] else [0, PhaseByte(Fwd)] + stateSuffix)
  }

  function OpPrefix(id: Id): Bytes {
    ActiveKey(id, tagOp) + [0]
  }

  lemma OpShape(k: Key)
    requires Tag(k) == tagOp
    ensures Encode(k) == OpPrefix(k.id) + (BE(k.order, 4) + OpTail(k))
  {
    var b, t := BE(k.order, 4), OpTail(k);
    assert Rest(k) == [0] + (b + t);
    assert Encode(k) == ActiveKey(k.id, tagOp) + [0] + (b + t);
  }

  /** Operations come in resolution order. */
  lemma OpsByOrder(a: Key, b: Key)
    requires a.id == b.id && Tag(a) == tagOp == Tag(b) && a.order < b.order
    ensures Less(Encode(a), Encode(b))
  {
    OpShape(a);
    OpShape(b);
    assert Pow256(4) == 0x1_0000_0000;
    var m, n, x, y, p := BE(a.order, 4), BE(b.order, 4), OpTail(a), OpTail(b), OpPrefix(a.id);
    BEOrder(a.order, b.order, 4);
    LessSameLength(m, x, n, y);
    LessAppend(p, m + x, n + y);
  }

  /** A state comes after the row it is beside. */
  lemma StateAfterRow(id: Id, order: Uint32, step: Id)
    ensures Encode(KState(id, order, step)) == StateKey(Encode(KOp(id, order, step, Fwd)))
    ensures Less(Encode(KOp(id, order, step, Fwd)), Encode(KState(id, order, step)))
  {
    var k := Encode(KOp(id, order, step, Fwd));
    assert Encode(KState(id, order, step)) == k + stateSuffix;
    LessAppend(k, [], stateSuffix);
    assert k + [] == k;
  }

  function FindOpSuffix(step: Id, h: Half): Bytes {
    [0] + step.name + [0, PhaseByte(h)]
  }

  predicate TailTest(e: Bytes, p: Bytes, s: Bytes) {
    HasPrefix(e, p) && |e| == |p| + 4 + |s| && e[|p| + 4..] == s
  }

  /** findOp's test: the prefix, the length and the bytes after the order. */
  predicate FindOpTest(e: Bytes, id: Id, step: Id, h: Half) {
    TailTest(e, OpPrefix(id), FindOpSuffix(step, h))
  }

  lemma TailTestTells(p: Bytes, b: Bytes, t: Bytes, s: Bytes)
    requires |b| == 4
    ensures TailTest(p + (b + t), p, s) <==> t == s
  {
    var e := p + (b + t);
    assert e[|p| + 4..] == t;
  }

  /** It singles out the rows of one step and phase. */
  lemma FindOpTells(k: Key, id: Id, step: Id, h: Half)
    ensures FindOpTest(Encode(k), id, step, h) <==> k.KOp? && k.id == id && k.step == step && k.h == h
  {
    var e, p, s := Encode(k), OpPrefix(id), FindOpSuffix(step, h);
    if Tag(k) == tagOp && k.id == id {
      FindOpTellsOwn(k, step, h);
    } else if HasPrefix(e, p) {
      OpPrefixTells(k, id);
    }
  }

  lemma FindOpTellsOwn(k: Key, step: Id, h: Half)
    requires Tag(k) == tagOp
    ensures FindOpTest(Encode(k), k.id, step, h) <==> k.KOp? && k.step == step && k.h == h
  {
    OpShape(k);
    TailTestTells(OpPrefix(k.id), BE(k.order, 4), OpTail(k), FindOpSuffix(step, h));
    TailTells(k, step, h);
  }

  lemma OpPrefixTells(k: Key, id: Id)
    requires HasPrefix(Encode(k), OpPrefix(id))
    ensures k.id == id && Tag(k) == tagOp
  {
    var e, p := Encode(k), OpPrefix(id);
    assert p[..|RunPrefix(id)|] == RunPrefix(id);
    assert e[..|RunPrefix(id)|] == RunPrefix(id);
    PrefixIsRun(k, id);
    assert e[|id.name| + 1] == p[|id.name| + 1] == tagOp;
    assert e[|id.name| + 1] == Tag(k);
  }

  lemma TailTells(k: Key, step: Id, h: Half)
    requires Tag(k) == tagOp
    ensures OpTail(k) == FindOpSuffix(step, h) <==> k.KOp? && k.step == step && k.h == h
  {
    var t, s := OpTail(k), FindOpSuffix(step, h);
    assert t[|t| - 1] == if k.KOp? then PhaseByte(k.h) else 115;
    assert s[|s| - 1] == PhaseByte(h);
    assert s[1..|s| - 2] == step.name;
    assert k.KOp? ==> t[1..|t| - 2] == k.step.name;
  }

  /** The order the reaper walks the expiry index in, against the order it
      means: they agree exactly on these pairs of times. */
  predicate ExpiryOrderSound(t: Time, u: Time) {
    match (t, u)
    case (Zero, Zero) => true
    case (Zero, At(n)) => n != 0
    case (At(m), Zero) => true
    case (At(m), At(n)) => (m >= 0) == (n >= 0)
  }

  lemma ExpiryOrder(t: Time, u: Time)
    ensures (Less(ExpiryPrefix(t), ExpiryPrefix(u)) <==> t.Before(u)) <==> ExpiryOrderSound(t, u)
  {
    Pow256Eight();
    BEOrder(if t.Zero? then 0 else Uint64(t.nanos), if u.Zero? then 0 else Uint64(u.nanos), 8);
  }

  lemma Pow256Eight()
    ensures Pow256(8) == 0x1_0000_0000_0000_0000
  {
    assert Pow256(4) == 0x1_0000_0000;
    assert Pow256(6) == 0x1_0000_0000_0000;
  }
}
