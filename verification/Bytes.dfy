/** Byte strings and the order a bucket iterates them in. */
module Bytes {

  /** Only the order of bytes matters here, so their range is not spelled out. */
  type byte = int

  type Bytes = seq<byte>

  type NulFree = s: Bytes | 0 !in s witness []

  /** An identifier: the store contract keeps NUL out of every one. */
  datatype Id = Id(name: NulFree)

  const NoId := Id([])

  /** bytes.Compare(a, b) < 0. */
  predicate Less(a: Bytes, b: Bytes) {
    if b == [] then false
    else if a == [] then true
    else a[0] < b[0] || (a[0] == b[0] && Less(a[1..], b[1..]))
  }

  predicate HasPrefix(k: Bytes, p: Bytes) {
    p <= k
  }

  predicate HasSuffix(k: Bytes, s: Bytes) {
    |s| <= |k| && k[|k| - |s|..] == s
  }

  lemma {:induction false} LessIrreflexive(a: Bytes)
    ensures !Less(a, a)
  {
    if a != [] {
      LessIrreflexive(a[1..]);
    }
  }

  lemma {:induction false} LessTotal(a: Bytes, b: Bytes)
    ensures Less(a, b) || Less(b, a) || a == b
  {
    if a != [] && b != [] && a[0] == b[0] {
      LessTotal(a[1..], b[1..]);
      if a[1..] == b[1..] {
        assert a == [a[0]] + a[1..] == b;
      }
    }
  }

  lemma {:induction false} LessTransitive(a: Bytes, b: Bytes, c: Bytes)
    requires Less(a, b) && Less(b, c)
    ensures Less(a, c)
  {
    if a != [] && a[0] == b[0] == c[0] {
      LessTransitive(a[1..], b[1..], c[1..]);
    }
  }

  /** A common prefix does not affect the order. */
  lemma {:induction false} LessAppend(p: Bytes, a: Bytes, b: Bytes)
    ensures Less(p + a, p + b) <==> Less(a, b)
  {
    if p == [] {
      assert p + a == a && p + b == b;
    } else {
      LessAppend(p[1..], a, b);
      assert (p + a)[1..] == p[1..] + a;
      assert (p + b)[1..] == p[1..] + b;
    }
  }

  /** The first differing byte decides. */
  lemma LessAtByte(p: Bytes, x: byte, a: Bytes, y: byte, b: Bytes)
    ensures x < y ==> Less(p + [x] + a, p + [y] + b)
  {
    LessAppend(p, [x] + a, [y] + b);
    assert p + [x] + a == p + ([x] + a);
    assert p + [y] + b == p + ([y] + b);
  }

  /** Strings of one length compare independently of what follows. */
  lemma {:induction false} LessSameLength(a: Bytes, x: Bytes, b: Bytes, y: Bytes)
    requires |a| == |b|
    ensures Less(a, b) ==> Less(a + x, b + y)
  {
    if a != [] {
      LessSameLength(a[1..], x, b[1..], y);
      assert (a + x)[1..] == a[1..] + x;
      assert (b + y)[1..] == b[1..] + y;
    }
  }

  /** n in w bytes, big-endian, truncated to w bytes. */
  function BE(n: nat, w: nat): (b: Bytes)
    ensures |b| == w
  {
    if w == 0 then [] else BE(n / 256, w - 1) + [n % 256]
  }

  function FromBE(b: Bytes): int {
    if b == [] then 0 else FromBE(b[..|b| - 1]) * 256 + b[|b| - 1]
  }

  function Pow256(w: nat): (p: nat)
    ensures p >= 1
  {
    if w == 0 then 1 else 256 * Pow256(w - 1)
  }

  lemma {:induction false} BERoundTrip(n: nat, w: nat)
    requires n < Pow256(w)
    ensures FromBE(BE(n, w)) == n
  {
    if w > 0 {
      BERoundTrip(n / 256, w - 1);
      assert BE(n, w)[..w - 1] == BE(n / 256, w - 1);
    }
  }

  /** Big-endian bytes sort as the numbers they encode. */
  lemma {:induction false} BEOrder(m: nat, n: nat, w: nat)
    requires m < Pow256(w) && n < Pow256(w)
    ensures Less(BE(m, w), BE(n, w)) <==> m < n
    decreases w
  {
    if w > 0 {
      BEOrder(m / 256, n / 256, w - 1);
      BEOrder(n / 256, m / 256, w - 1);
      var p, q := BE(m / 256, w - 1), BE(n / 256, w - 1);
      if m / 256 < n / 256 {
        LessSameLength(p, [m % 256], q, [n % 256]);
      } else if n / 256 < m / 256 {
        LessSameLength(q, [n % 256], p, [m % 256]);
        if Less(BE(m, w), BE(n, w)) {
          LessTransitive(BE(m, w), BE(n, w), BE(m, w));
          LessIrreflexive(BE(m, w));
        }
      } else {
        LessAppend(p, [m % 256], [n % 256]);
        assert Less([m % 256], [n % 256]) <==> m % 256 < n % 256;
      }
    }
  }

  /** Strictly ascending. */
  ghost predicate Ascending(s: seq<Bytes>) {
    forall i, j | 0 <= i < j < |s| :: Less(s[i], s[j])
  }

  lemma {:induction false} LeastExists(ks: set<Bytes>)
    requires ks != {}
    ensures exists k | k in ks :: forall x | x in ks :: !Less(x, k)
    decreases |ks|
  {
    var k :| k in ks;
    if ks == {k} {
      LessIrreflexive(k);
    } else {
      LeastExists(ks - {k});
      var l :| l in ks - {k} && forall x | x in ks - {k} :: !Less(x, l);
      LessIrreflexive(k);
      LessIrreflexive(l);
      if Less(k, l) {
        forall x | x in ks ensures !Less(x, k) {
          if Less(x, k) && x != k {
            LessTransitive(x, k, l);
          }
        }
      } else {
        assert forall x | x in ks :: x == k || x in ks - {k};
      }
    }
  }

  function Least(ks: set<Bytes>): (k: Bytes)
    requires ks != {}
    ensures k in ks && forall x | x in ks :: !Less(x, k)
  {
    LeastExists(ks);
    assert forall a, b | a in ks && b in ks && !Less(a, b) && !Less(b, a) :: a == b by {
      forall a, b | a in ks && b in ks && !Less(a, b) && !Less(b, a) ensures a == b {
        LessTotal(a, b);
      }
    }
    var k :| k in ks && forall x | x in ks :: !Less(x, k);
    k
  }

  /** The keys of a bucket in the order a cursor visits them. */
  function Sorted(ks: set<Bytes>): (s: seq<Bytes>)
    ensures forall k :: k in s <==> k in ks
    ensures Ascending(s)
    ensures |s| == |ks|
    decreases |ks|
  {
    if ks == {} then [] else
      var k := Least(ks);
      var rest := Sorted(ks - {k});
      assert forall x | x in rest :: Less(k, x) by {
        forall x | x in rest ensures Less(k, x) {
          LessTotal(k, x);
        }
      }
      var s := [k] + rest;
      assert Ascending(s) by {
        forall i, j | 0 <= i < j < |s| ensures Less(s[i], s[j]) {
          if i == 0 { assert s[j] == rest[j - 1] && rest[j - 1] in rest; }
          else { assert s[i] == rest[i - 1] && s[j] == rest[j - 1]; }
        }
      }
      s
  }

  /** Cursor.Seek: the index of the first key at or after k. */
  method Seek(s: seq<Bytes>, k: Bytes) returns (i: nat)
    requires Ascending(s)
    ensures i <= |s|
    ensures forall j | 0 <= j < i :: Less(s[j], k)
    ensures forall j | i <= j < |s| :: !Less(s[j], k)
  {
    i := 0;
    while i < |s| && Less(s[i], k)
      invariant i <= |s|
      invariant forall j | 0 <= j < i :: Less(s[j], k)
    {
      i := i + 1;
    }
    forall j | i <= j < |s| ensures !Less(s[j], k) {
      if j > i && Less(s[j], k) {
        assert Less(s[i], s[j]);
        LessTransitive(s[i], s[j], k);
      }
    }
  }

  /** A prefix is never after a key it starts. */
  lemma {:induction false} PrefixFirst(k: Bytes, p: Bytes)
    requires HasPrefix(k, p)
    ensures !Less(k, p)
  {
    if p != [] {
      PrefixFirst(k[1..], p[1..]);
    }
  }

  /** Between a prefix and a key it starts, every key has the prefix. */
  lemma {:induction false} PrefixConvex(p: Bytes, x: Bytes, k: Bytes)
    requires HasPrefix(k, p) && !Less(x, p) && Less(x, k)
    ensures HasPrefix(x, p)
  {
    if p != [] {
      assert x != [];
      assert k[0] == p[0];
      assert x[0] == p[0];
      PrefixConvex(p[1..], x[1..], k[1..]);
      assert x == [x[0]] + x[1..];
    }
  }

  /** What a prefix walk visits: from Seek(p), while the prefix holds,
      are exactly the keys with the prefix. */
  lemma PrefixWalk(s: seq<Bytes>, p: Bytes, lo: nat, hi: nat)
    requires Ascending(s) && lo <= hi <= |s|
    requires forall j | 0 <= j < lo :: Less(s[j], p)
    requires forall j | lo <= j < |s| :: !Less(s[j], p)
    requires forall j | lo <= j < hi :: HasPrefix(s[j], p)
    requires hi < |s| ==> !HasPrefix(s[hi], p)
    ensures forall k :: k in s[lo..hi] <==> k in s && HasPrefix(k, p)
  {
    forall k | k in s && HasPrefix(k, p) ensures k in s[lo..hi] {
      var j :| 0 <= j < |s| && s[j] == k;
      PrefixFirst(k, p);
      if j >= hi {
        if j > hi {
          assert Less(s[hi], s[j]);
          PrefixConvex(p, s[hi], k);
        }
        assert false;
      }
      assert s[lo..hi][j - lo] == k;
    }
  }
}
