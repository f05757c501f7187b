/** internal/runpool: tokens per run class over a line ordered by place. A
    member is a holder, in line, or set aside; a grant never passes over a
    member ahead that would not fit beside it. */
module RunPool {
  import opened Bytes
  import opened Records

  type Key = Blob

  /** A place in line; any totally ordered type would do. */
  type Place = int

  datatype Waiter = Waiter(w: Id, order: Place)

  datatype Class = Class(capacity: int, inUse: int, line: seq<Waiter>, sidelined: int)

  datatype State = State(classes: map<Key, Class>, holders: map<Id, Key>, pending: map<Id, Key>, sidelined: set<Id>, parked: set<Id>)

  // ---- One line

  /** BinarySearchFunc's answer: the first place not before order. */
  function PlaceFor(line: seq<Waiter>, order: Place): nat {
    if line == [] || line[0].order >= order then 0 else 1 + PlaceFor(line[1..], order)
  }

  function IndexOf(line: seq<Waiter>, w: Id): int {
    if line == [] then -1
    else if line[0].w == w then 0
    else
      var i := IndexOf(line[1..], w);
      if i < 0 then -1 else i + 1
  }

  function Inserted(line: seq<Waiter>, x: Waiter): seq<Waiter> {
    var i := PlaceFor(line, x.order);
    if i <= |line| then line[..i] + [x] + line[i..] else line
  }

  function Removed(line: seq<Waiter>, w: Id): seq<Waiter> {
    var i := IndexOf(line, w);
    if 0 <= i < |line| then line[..i] + line[i + 1..] else line
  }

  /** head: whom to wake when the class has free capacity. */
  function HeadOf(c: Class): seq<Id> {
    if c.inUse < c.capacity && |c.line| > 0 then [c.line[0].w] else []
  }

  ghost predicate SortedLine(line: seq<Waiter>) {
    && (forall i, j | 0 <= i < j < |line| :: line[i].order <= line[j].order)
    && (forall i, j | 0 <= i < j < |line| :: line[i].w != line[j].w)
  }

  ghost predicate InLine(line: seq<Waiter>, w: Id) {
    exists i :: 0 <= i < |line| && line[i].w == w
  }

  lemma {:induction false} PlaceForIs(line: seq<Waiter>, order: Place)
    requires SortedLine(line)
    ensures PlaceFor(line, order) <= |line|
    ensures forall i | 0 <= i < PlaceFor(line, order) :: line[i].order < order
    ensures forall i | PlaceFor(line, order) <= i < |line| :: line[i].order >= order
  {
    if line != [] && line[0].order < order {
      PlaceForIs(line[1..], order);
      forall i | 0 <= i < PlaceFor(line, order) ensures line[i].order < order {
        assert i > 0 ==> line[i] == line[1..][i - 1];
      }
      forall i | PlaceFor(line, order) <= i < |line| ensures line[i].order >= order {
        assert line[i] == line[1..][i - 1];
      }
    }
  }

  lemma {:induction false} IndexOfIs(line: seq<Waiter>, w: Id)
    ensures IndexOf(line, w) >= 0 <==> InLine(line, w)
    ensures IndexOf(line, w) >= 0 ==> IndexOf(line, w) < |line| && line[IndexOf(line, w)].w == w
    ensures -1 <= IndexOf(line, w)
  {
    if line != [] && line[0].w != w {
      IndexOfIs(line[1..], w);
      if InLine(line, w) {
        var i :| 0 <= i < |line| && line[i].w == w;
        assert line[1..][i - 1].w == w;
      }
      if InLine(line[1..], w) {
        var i :| 0 <= i < |line[1..]| && line[1..][i].w == w;
        assert line[i + 1].w == w;
      }
    }
  }

  lemma IndexOfAt(line: seq<Waiter>, i: nat)
    requires SortedLine(line) && i < |line|
    ensures IndexOf(line, line[i].w) == i
  {
    IndexOfIs(line, line[i].w);
  }

  lemma InsertedIs(line: seq<Waiter>, x: Waiter)
    requires SortedLine(line) && !InLine(line, x.w)
    ensures SortedLine(Inserted(line, x)) && |Inserted(line, x)| == |line| + 1
    ensures forall w :: InLine(Inserted(line, x), w) <==> InLine(line, w) || w == x.w
    ensures IndexOf(Inserted(line, x), x.w) == PlaceFor(line, x.order)
  {
    PlaceForIs(line, x.order);
    var i, out := PlaceFor(line, x.order), Inserted(line, x);
    assert out == line[..i] + [x] + line[i..];
    SplicedSorted(line, x, i);
    hide SortedLine, Inserted, InLine;
    forall w ensures InLine(out, w) <==> InLine(line, w) || w == x.w {
      SplicedHas(line, x, i, w);
    }
    assert out[i] == x;
    IndexOfAt(out, i);
  }

  lemma SplicedSorted(line: seq<Waiter>, x: Waiter, i: nat)
    requires SortedLine(line) && !InLine(line, x.w) && i <= |line|
    requires (forall j | 0 <= j < i :: line[j].order < x.order) && forall j | i <= j < |line| :: line[j].order >= x.order
    ensures SortedLine(line[..i] + [x] + line[i..])
  {
    forall j | 0 <= j < |line| ensures line[j].w != x.w {
      assert line[j].w == x.w ==> InLine(line, x.w);
    }
  }

  lemma SplicedHas(line: seq<Waiter>, x: Waiter, i: nat, w: Id)
    requires i <= |line|
    ensures InLine(line[..i] + [x] + line[i..], w) <==> InLine(line, w) || w == x.w
  {
    var out := line[..i] + [x] + line[i..];
    if InLine(line, w) {
      var j :| 0 <= j < |line| && line[j].w == w;
      assert out[if j < i then j else j + 1].w == w;
    }
    assert out[i].w == x.w;
    if InLine(out, w) {
      var j :| 0 <= j < |out| && out[j].w == w;
      assert j != i ==> line[if j < i then j else j - 1].w == w;
    }
  }

  lemma RemovedIs(line: seq<Waiter>, w: Id)
    requires SortedLine(line) && InLine(line, w)
    ensures SortedLine(Removed(line, w)) && |Removed(line, w)| == |line| - 1
    ensures forall x :: InLine(Removed(line, w), x) <==> InLine(line, x) && x != w
  {
    IndexOfIs(line, w);
    var i := IndexOf(line, w);
    CutSorted(line, i);
    hide SortedLine, InLine, IndexOf;
    forall x ensures InLine(line[..i] + line[i + 1..], x) <==> InLine(line, x) && x != w {
      CutHas(line, i, x);
    }
  }

  lemma CutSorted(line: seq<Waiter>, i: nat)
    requires SortedLine(line) && i < |line|
    ensures SortedLine(line[..i] + line[i + 1..])
  {
  }

  lemma CutHas(line: seq<Waiter>, i: nat, x: Id)
    requires SortedLine(line) && i < |line|
    ensures InLine(line[..i] + line[i + 1..], x) <==> InLine(line, x) && x != line[i].w
  {
    var out := line[..i] + line[i + 1..];
    if InLine(line, x) && x != line[i].w {
      var j :| 0 <= j < |line| && line[j].w == x;
      assert out[if j < i then j else j - 1].w == x;
    }
    if InLine(out, x) {
      var j :| 0 <= j < |out| && out[j].w == x;
      assert line[if j < i then j else j + 1].w == x;
    }
  }

  /** With distinct places the line is the one sorted listing of its members:
      it does not depend on when each joined. */
  lemma {:induction false} LineCanonical(a: seq<Waiter>, b: seq<Waiter>)
    requires SortedLine(a) && SortedLine(b) && (forall x :: x in a <==> x in b)
    requires forall i, j | 0 <= i < j < |a| :: a[i].order != a[j].order
    ensures a == b
    decreases |a|
  {
    assert b != [] ==> b[0] in b;
    if a != [] {
      SameHead(a, b);
      TailMembers(a);
      TailMembers(b);
      LineCanonical(a[1..], b[1..]);
      assert a == [a[0]] + a[1..] && b == [b[0]] + b[1..];
    }
  }

  lemma SameHead(a: seq<Waiter>, b: seq<Waiter>)
    requires SortedLine(a) && SortedLine(b) && (forall x :: x in a <==> x in b) && a != []
    requires forall i, j | 0 <= i < j < |a| :: a[i].order != a[j].order
    ensures b != [] && a[0] == b[0]
  {
    assert a[0] in b;
    assert b[0] in a;
    var j :| 0 <= j < |b| && b[j] == a[0];
    var i :| 0 <= i < |a| && a[i] == b[0];
    assert a[0].order <= a[i].order && b[0].order <= b[j].order;
  }

  lemma TailMembers(a: seq<Waiter>)
    requires SortedLine(a) && a != []
    ensures SortedLine(a[1..]) && forall x :: x in a[1..] <==> x in a && x != a[0]
  {
    assert a == [a[0]] + a[1..];
  }

  // ---- Pieces of the operations

  function ClassFor(st: State, k: Key, capacity: int): State {
    if k in st.classes then st else st.(classes := st.classes[k := Class(capacity, 0, [], 0)])
  }

  /** w takes its place, off the sideline if it was set aside. */
  function Join(st: State, k: Key, w: Id, order: Place): State
    requires k in st.classes
  {
    var c := st.classes[k];
    var aside := w in st.sidelined;
    st.(classes := st.classes[k := c.(line := Inserted(c.line, Waiter(w, order)), sidelined := c.sidelined - (if aside then 1 else 0))],
        pending := st.pending[w := k], sidelined := st.sidelined - {w})
  }

  /** forget: no pending trace of w is left. */
  function Forget(st: State, k: Key, w: Id): State
    requires k in st.classes
  {
    if w !in st.pending then st
    else
      var c := st.classes[k];
      var d := if w in st.sidelined then c.(sidelined := c.sidelined - 1) else c.(line := Removed(c.line, w));
      st.(classes := st.classes[k := d], pending := st.pending - {w}, sidelined := st.sidelined - {w}, parked := st.parked - {w})
  }

  function Seize(st: State, k: Key, w: Id): State
    requires k in st.classes
  {
    st.(classes := st.classes[k := st.classes[k].(inUse := st.classes[k].inUse + 1)], holders := st.holders[w := k])
  }

  function Yield(st: State, k: Key, w: Id): State
    requires k in st.classes
  {
    st.(classes := st.classes[k := st.classes[k].(inUse := st.classes[k].inUse - 1)], holders := st.holders - {w})
  }

  function Aside(st: State, k: Key, w: Id): State
    requires k in st.classes
  {
    var c := st.classes[k];
    st.(classes := st.classes[k := c.(line := Removed(c.line, w), sidelined := c.sidelined + 1)],
        sidelined := st.sidelined + {w}, parked := st.parked - {w})
  }

  function HeadAt(st: State, k: Key): seq<Id> {
    if k in st.classes then HeadOf(st.classes[k]) else []
  }

  // ---- The operations

  function PendingCount(c: Class): int {
    |c.line| + c.sidelined
  }

  function Admit(capacity: map<Key, int>, st0: State, k: Key, w: Id, order: Place, maxPending: int): (State, bool) {
    if k !in capacity then (st0, true)
    else
      var st := ClassFor(st0, k, capacity[k]);
      if w in st.holders || w in st.pending then (st, true)
      else if maxPending > 0 && PendingCount(st.classes[k]) >= maxPending then (st, false)
      else (Join(st, k, w, order), true)
  }

  function InPlace(st: State, k: Key, w: Id, order: Place): State
    requires k in st.classes
  {
    if IndexOf(st.classes[k].line, w) < 0 then Join(st, k, w, order) else st
  }

  function Acquire(capacity: map<Key, int>, st0: State, k: Key, w: Id, order: Place): (State, bool, seq<Id>) {
    if k !in capacity then (st0, true, [])
    else
      var st := ClassFor(st0, k, capacity[k]);
      if w in st.holders then (st, true, [])
      else
        var at := InPlace(st, k, w, order);
        var c := at.classes[k];
        if c.inUse + IndexOf(c.line, w) >= c.capacity then (at.(parked := at.parked + {w}), false, [])
        else
          var held := Seize(Forget(at, k, w), k, w);
          (held, true, HeadAt(held, k))
  }

  function Hold(capacity: map<Key, int>, st0: State, k: Key, w: Id): State {
    if k !in capacity then st0
    else
      var st := ClassFor(st0, k, capacity[k]);
      if w in st.holders then st else Seize(Forget(st, k, w), k, w)
  }

  function Release(st: State, w: Id): (State, seq<Id>) {
    if w in st.holders && st.holders[w] in st.classes then
      (Yield(st, st.holders[w], w), HeadAt(Yield(st, st.holders[w], w), st.holders[w]))
    else if w in st.pending && st.pending[w] in st.classes then
      (Forget(st, st.pending[w], w), HeadAt(Forget(st, st.pending[w], w), st.pending[w]))
    else (st, [])
  }

  function Clear(st: State, w: Id): (State, seq<Id>) {
    if w !in st.pending || w in st.sidelined || st.pending[w] !in st.classes then (st, [])
    else (Aside(st, st.pending[w], w), HeadAt(Aside(st, st.pending[w], w), st.pending[w]))
  }

  // ---- Invariants

  function HoldersOf(st: State, k: Key): set<Id> {
    set w | w in st.holders && st.holders[w] == k
  }

  function PendingOf(st: State, k: Key): set<Id> {
    set w | w in st.pending && st.pending[w] == k
  }

  function AsideOf(st: State, k: Key): set<Id> {
    set w | w in st.pending && st.pending[w] == k && w in st.sidelined
  }

  /** One class: its line sorted and made of the pending members not set
      aside, its counts the sizes of the sets. */
  ghost predicate ClassSound(c: Class, holders: set<Id>, pending: set<Id>, aside: set<Id>) {
    && SortedLine(c.line)
    && (forall w :: InLine(c.line, w) <==> w in pending && w !in aside)
    && aside <= pending && c.inUse == |holders| && c.sidelined == |aside|
  }

  ghost predicate SoundAt(st: State, k: Key)
    requires k in st.classes
  {
    ClassSound(st.classes[k], HoldersOf(st, k), PendingOf(st, k), AsideOf(st, k))
  }

  /** Every member is exactly one of holder, in line or set aside; one that
      was refused is in line. */
  ghost predicate Partitioned(st: State) {
    && (forall w | w in st.holders :: st.holders[w] in st.classes && w !in st.pending)
    && (forall w | w in st.pending :: st.pending[w] in st.classes)
    && st.sidelined <= st.pending.Keys
    && st.parked <= st.pending.Keys - st.sidelined
  }

  ghost predicate Sound(capacity: map<Key, int>, st: State) {
    && Partitioned(st)
    && forall k | k in st.classes :: k in capacity && st.classes[k].capacity == capacity[k] && SoundAt(st, k)
  }

  /** With free capacity over a line, its head is owed a kick or has not
      asked yet. */
  ghost predicate HeadOwed(c: Class, parked: set<Id>, owed: set<Id>) {
    c.inUse < c.capacity && |c.line| > 0 ==> c.line[0].w in owed || c.line[0].w !in parked
  }

  ghost predicate NotStranded(st: State, owed: set<Id>) {
    forall k | k in st.classes :: HeadOwed(st.classes[k], st.parked, owed)
  }

  // ---- Each piece keeps the invariant

  /** Only w's membership in k changed. */
  ghost predicate OnlyMoves(st: State, t: State, k: Key, w: Id) {
    && (forall j | j in st.classes && j != k :: j in t.classes && t.classes[j] == st.classes[j])
    && t.classes.Keys == st.classes.Keys
    && (forall x | x != w :: x in t.holders <==> x in st.holders)
    && (forall x | x != w && x in st.holders :: t.holders[x] == st.holders[x])
    && (forall x | x != w :: x in t.pending <==> x in st.pending)
    && (forall x | x != w && x in st.pending :: t.pending[x] == st.pending[x])
    && (forall x | x != w :: x in t.sidelined <==> x in st.sidelined)
    && (w in st.holders ==> st.holders[w] == k) && (w in t.holders ==> t.holders[w] == k)
    && (w in st.pending ==> st.pending[w] == k) && (w in t.pending ==> t.pending[w] == k)
  }

  lemma SameElsewhere(st: State, t: State, k: Key, w: Id, j: Key)
    requires OnlyMoves(st, t, k, w) && j != k
    ensures HoldersOf(t, j) == HoldersOf(st, j) && PendingOf(t, j) == PendingOf(st, j) && AsideOf(t, j) == AsideOf(st, j)
  {
  }

  lemma SoundFrom(capacity: map<Key, int>, st: State, t: State, k: Key, w: Id)
    requires Sound(capacity, st) && k in st.classes && OnlyMoves(st, t, k, w) && Partitioned(t)
    requires k in t.classes && t.classes[k].capacity == st.classes[k].capacity && SoundAt(t, k)
    ensures Sound(capacity, t)
  {
    forall j | j in t.classes ensures j in capacity && t.classes[j].capacity == capacity[j] && SoundAt(t, j) {
      hide ClassSound, Partitioned, HoldersOf, PendingOf, AsideOf;
      assert j in st.classes && SoundAt(st, j);
      if j != k {
        SameElsewhere(st, t, k, w, j);
      }
    }
  }

  lemma ClassForSound(capacity: map<Key, int>, st: State, k: Key)
    requires Sound(capacity, st) && k in capacity
    ensures Sound(capacity, ClassFor(st, k, capacity[k])) && k in ClassFor(st, k, capacity[k]).classes
    ensures forall j | j in st.classes :: ClassFor(st, k, capacity[k]).classes[j] == st.classes[j]
  {
    if k !in st.classes {
      var t := ClassFor(st, k, capacity[k]);
      assert HoldersOf(t, k) == {} && PendingOf(t, k) == {} && AsideOf(t, k) == {};
      assert SoundAt(t, k);
      forall j | j in st.classes ensures SoundAt(t, j) {
        assert SoundAt(st, j);
        assert HoldersOf(t, j) == HoldersOf(st, j) && PendingOf(t, j) == PendingOf(st, j) && AsideOf(t, j) == AsideOf(st, j);
      }
    }
  }

  lemma JoinMoves(st: State, k: Key, w: Id, order: Place)
    requires Partitioned(st) && k in st.classes && w !in st.holders && (w in st.pending ==> st.pending[w] == k && w in st.sidelined)
    ensures OnlyMoves(st, Join(st, k, w, order), k, w) && Partitioned(Join(st, k, w, order))
  {
    hide Inserted, Removed;
  }

  lemma ClassJoined(c: Class, h: set<Id>, p: set<Id>, a: set<Id>, w: Id, order: Place, p1: set<Id>, a1: set<Id>)
    requires ClassSound(c, h, p, a) && (w in p <==> w in a) && p1 == p + {w} && a1 == a - {w}
    ensures ClassSound(c.(line := Inserted(c.line, Waiter(w, order)), sidelined := c.sidelined - (if w in a then 1 else 0)), h, p1, a1)
  {
    hide SortedLine, InLine, Inserted, PlaceFor, IndexOf;
    JoinedLine(c, h, p, a, w, order);
    assert w !in a ==> a1 == a;
  }

  lemma JoinedLine(c: Class, h: set<Id>, p: set<Id>, a: set<Id>, w: Id, order: Place)
    requires ClassSound(c, h, p, a) && (w in p <==> w in a)
    ensures SortedLine(Inserted(c.line, Waiter(w, order)))
    ensures forall x :: InLine(Inserted(c.line, Waiter(w, order)), x) <==> (x in p || x == w) && (x == w || x !in a)
    ensures IndexOf(Inserted(c.line, Waiter(w, order)), w) == PlaceFor(c.line, order)
    ensures InLine(Inserted(c.line, Waiter(w, order)), w)
  {
    hide SortedLine, InLine, Inserted, PlaceFor, IndexOf;
    InsertedIs(c.line, Waiter(w, order));
  }

  lemma ClassForgot(c: Class, h: set<Id>, p: set<Id>, a: set<Id>, w: Id)
    requires ClassSound(c, h, p, a) && w in p
    ensures ClassSound(if w in a then c.(sidelined := c.sidelined - 1) else c.(line := Removed(c.line, w)), h, p - {w}, a - {w})
  {
    hide SortedLine, InLine, Removed;
    if w in a {
      assert |a - {w}| == |a| - 1;
    } else {
      RemovedIs(c.line, w);
      assert a - {w} == a;
    }
  }

  lemma ClassSeized(c: Class, h: set<Id>, p: set<Id>, a: set<Id>, w: Id)
    requires ClassSound(c, h, p, a) && w !in h
    ensures ClassSound(c.(inUse := c.inUse + 1), h + {w}, p, a)
  {
    hide SortedLine, InLine;
  }

  lemma ClassYielded(c: Class, h: set<Id>, p: set<Id>, a: set<Id>, w: Id)
    requires ClassSound(c, h, p, a) && w in h
    ensures ClassSound(c.(inUse := c.inUse - 1), h - {w}, p, a)
  {
    hide SortedLine, InLine;
  }

  lemma ClassAside(c: Class, h: set<Id>, p: set<Id>, a: set<Id>, w: Id)
    requires ClassSound(c, h, p, a) && w in p && w !in a
    ensures ClassSound(c.(line := Removed(c.line, w), sidelined := c.sidelined + 1), h, p, a + {w})
  {
    hide SortedLine, InLine, Removed;
    RemovedIs(c.line, w);
  }

  lemma JoinSets(st: State, k: Key, w: Id, order: Place)
    requires Partitioned(st) && k in st.classes && w !in st.holders && (w in st.pending ==> st.pending[w] == k && w in st.sidelined)
    ensures (var t := Join(st, k, w, order);
             && HoldersOf(t, k) == HoldersOf(st, k)
             && PendingOf(t, k) == PendingOf(st, k) + {w}
             && AsideOf(t, k) == AsideOf(st, k) - {w})
    ensures w in PendingOf(st, k) <==> w in AsideOf(st, k)
    ensures w in AsideOf(st, k) <==> w in st.sidelined
  {
    hide Inserted;
  }

  lemma JoinSound(capacity: map<Key, int>, st: State, k: Key, w: Id, order: Place)
    requires Sound(capacity, st) && k in st.classes && w !in st.holders
    requires w in st.pending ==> st.pending[w] == k && w in st.sidelined
    ensures Sound(capacity, Join(st, k, w, order))
    ensures IndexOf(Join(st, k, w, order).classes[k].line, w) == PlaceFor(st.classes[k].line, order)
    ensures InLine(Join(st, k, w, order).classes[k].line, w)
  {
    assert w in st.sidelined ==> w in st.pending;
    hide ClassSound, SortedLine, InLine, Inserted, Removed, PlaceFor, IndexOf, HoldersOf, PendingOf, AsideOf, OnlyMoves, Partitioned;
    assert SoundAt(st, k);
    JoinMoves(st, k, w, order);
    JoinSets(st, k, w, order);
    var t := Join(st, k, w, order);
    ClassJoined(st.classes[k], HoldersOf(st, k), PendingOf(st, k), AsideOf(st, k), w, order, PendingOf(t, k), AsideOf(t, k));
    JoinedLine(st.classes[k], HoldersOf(st, k), PendingOf(st, k), AsideOf(st, k), w, order);
    SoundFrom(capacity, st, Join(st, k, w, order), k, w);
  }

  lemma ForgetMoves(st: State, k: Key, w: Id)
    requires Partitioned(st) && k in st.classes && (w in st.pending ==> st.pending[w] == k) && (w in st.holders ==> st.holders[w] == k)
    ensures OnlyMoves(st, Forget(st, k, w), k, w) && Partitioned(Forget(st, k, w))
  {
    hide Inserted, Removed;
  }

  lemma ForgetSets(st: State, k: Key, w: Id)
    requires Partitioned(st) && k in st.classes && w in st.pending && st.pending[w] == k && w !in st.holders
    ensures (var t := Forget(st, k, w);
             && HoldersOf(t, k) == HoldersOf(st, k)
             && PendingOf(t, k) == PendingOf(st, k) - {w}
             && AsideOf(t, k) == AsideOf(st, k) - {w})
    ensures w !in HoldersOf(st, k) && w in PendingOf(st, k) && (w in AsideOf(st, k) <==> w in st.sidelined)
  {
    hide Inserted, Removed;
  }

  lemma ForgetSound(capacity: map<Key, int>, st: State, k: Key, w: Id)
    requires Sound(capacity, st) && k in st.classes && w !in st.holders && (w in st.pending ==> st.pending[w] == k)
    ensures Sound(capacity, Forget(st, k, w)) && w !in Forget(st, k, w).pending
  {
    hide ClassSound, SortedLine, InLine, Inserted, Removed, PlaceFor, IndexOf, HoldersOf, PendingOf, AsideOf, OnlyMoves, Partitioned;
    if w in st.pending {
      assert SoundAt(st, k);
      ForgetMoves(st, k, w);
      ForgetSets(st, k, w);
      ClassForgot(st.classes[k], HoldersOf(st, k), PendingOf(st, k), AsideOf(st, k), w);
      SoundFrom(capacity, st, Forget(st, k, w), k, w);
    }
  }

  lemma SeizeMoves(st: State, k: Key, w: Id)
    requires Partitioned(st) && k in st.classes && w !in st.holders && w !in st.pending
    ensures OnlyMoves(st, Seize(st, k, w), k, w) && Partitioned(Seize(st, k, w))
  {
    hide Inserted, Removed;
  }

  lemma SeizeSets(st: State, k: Key, w: Id)
    requires Partitioned(st) && k in st.classes && w !in st.holders && w !in st.pending
    ensures (var t := Seize(st, k, w);
             && HoldersOf(t, k) == HoldersOf(st, k) + {w}
             && PendingOf(t, k) == PendingOf(st, k)
             && AsideOf(t, k) == AsideOf(st, k))
    ensures w !in HoldersOf(st, k) && w !in PendingOf(st, k)
  {
    hide Inserted, Removed;
  }

  lemma SeizeSound(capacity: map<Key, int>, st: State, k: Key, w: Id)
    requires Sound(capacity, st) && k in st.classes && w !in st.holders && w !in st.pending
    ensures Sound(capacity, Seize(st, k, w))
  {
    hide ClassSound, SortedLine, InLine, Inserted, Removed, PlaceFor, IndexOf, HoldersOf, PendingOf, AsideOf, OnlyMoves, Partitioned;
    assert SoundAt(st, k);
    SeizeMoves(st, k, w);
    SeizeSets(st, k, w);
    ClassSeized(st.classes[k], HoldersOf(st, k), PendingOf(st, k), AsideOf(st, k), w);
    SoundFrom(capacity, st, Seize(st, k, w), k, w);
  }

  lemma YieldMoves(st: State, k: Key, w: Id)
    requires Partitioned(st) && k in st.classes && w in st.holders && st.holders[w] == k
    ensures OnlyMoves(st, Yield(st, k, w), k, w) && Partitioned(Yield(st, k, w))
  {
    hide Inserted, Removed;
  }

  lemma YieldSets(st: State, k: Key, w: Id)
    requires Partitioned(st) && k in st.classes && w in st.holders && st.holders[w] == k
    ensures (var t := Yield(st, k, w);
             && HoldersOf(t, k) == HoldersOf(st, k) - {w}
             && PendingOf(t, k) == PendingOf(st, k)
             && AsideOf(t, k) == AsideOf(st, k))
    ensures w in HoldersOf(st, k)
  {
    hide Inserted, Removed;
  }

  lemma YieldSound(capacity: map<Key, int>, st: State, w: Id)
    requires Sound(capacity, st) && w in st.holders
    ensures st.holders[w] in st.classes && Sound(capacity, Yield(st, st.holders[w], w))
  {
    assert st.holders[w] in st.classes;
    hide ClassSound, SortedLine, InLine, Inserted, Removed, PlaceFor, IndexOf, HoldersOf, PendingOf, AsideOf, OnlyMoves, Partitioned;
    var k := st.holders[w];
    assert SoundAt(st, k);
    assert k in capacity && st.classes[k].capacity == capacity[k];
    hide Sound;
    YieldMoves(st, k, w);
    YieldSets(st, k, w);
    ClassYielded(st.classes[k], HoldersOf(st, k), PendingOf(st, k), AsideOf(st, k), w);
    SoundFrom(capacity, st, Yield(st, k, w), k, w);
  }

  lemma AsideMoves(st: State, k: Key, w: Id)
    requires Partitioned(st) && k in st.classes && w in st.pending && st.pending[w] == k && w !in st.sidelined
    ensures OnlyMoves(st, Aside(st, k, w), k, w) && Partitioned(Aside(st, k, w))
  {
    hide Inserted, Removed;
  }

  lemma AsideSets(st: State, k: Key, w: Id)
    requires Partitioned(st) && k in st.classes && w in st.pending && st.pending[w] == k && w !in st.sidelined
    ensures (var t := Aside(st, k, w);
             && HoldersOf(t, k) == HoldersOf(st, k)
             && PendingOf(t, k) == PendingOf(st, k)
             && AsideOf(t, k) == AsideOf(st, k) + {w})
    ensures w in PendingOf(st, k) && w !in AsideOf(st, k)
  {
    hide Inserted, Removed;
  }

  lemma PendingClass(capacity: map<Key, int>, st: State, w: Id)
    requires Sound(capacity, st) && w in st.pending
    ensures Partitioned(st) && st.pending[w] in st.classes && SoundAt(st, st.pending[w])
    ensures st.pending[w] in capacity && st.classes[st.pending[w]].capacity == capacity[st.pending[w]]
  {
    hide SoundAt;
  }

  lemma AsideSound(capacity: map<Key, int>, st: State, w: Id)
    requires Sound(capacity, st) && w in st.pending && w !in st.sidelined
    ensures st.pending[w] in st.classes && Sound(capacity, Aside(st, st.pending[w], w))
  {
    hide Sound, ClassSound, SortedLine, InLine, Inserted, Removed, PlaceFor, IndexOf, HoldersOf, PendingOf, AsideOf, OnlyMoves, Partitioned;
    PendingClass(capacity, st, w);
    var k := st.pending[w];
    AsideMoves(st, k, w);
    AsideSets(st, k, w);
    ClassAside(st.classes[k], HoldersOf(st, k), PendingOf(st, k), AsideOf(st, k), w);
    SoundFrom(capacity, st, Aside(st, k, w), k, w);
  }

  lemma ParkSound(capacity: map<Key, int>, st: State, k: Key, w: Id)
    requires Sound(capacity, st) && k in st.classes && InLine(st.classes[k].line, w)
    ensures Sound(capacity, st.(parked := st.parked + {w}))
  {
    hide SortedLine, InLine;
    var t := st.(parked := st.parked + {w});
    assert SoundAt(st, k);
    assert w in PendingOf(st, k) && w !in AsideOf(st, k);
    forall j | j in st.classes ensures SoundAt(t, j) {
      assert SoundAt(st, j);
      assert HoldersOf(t, j) == HoldersOf(st, j) && PendingOf(t, j) == PendingOf(st, j) && AsideOf(t, j) == AsideOf(st, j);
    }
  }

  // ---- The counts are the sizes of the sets

  lemma {:induction false} LineSize(line: seq<Waiter>, members: set<Id>)
    requires SortedLine(line) && forall w :: InLine(line, w) <==> w in members
    ensures |line| == |members|
    decreases |line|
  {
    if line == [] {
      assert members == {} by {
        assert forall w :: !InLine(line, w);
      }
    } else {
      var n := |line| - 1;
      var last, init := line[n].w, line[..n];
      assert InLine(line, last);
      forall w ensures InLine(init, w) <==> w in members - {last} {
        if InLine(init, w) {
          var i :| 0 <= i < |init| && init[i].w == w;
          assert line[i].w == w;
        }
        if InLine(line, w) && w != last {
          var i :| 0 <= i < |line| && line[i].w == w;
          assert init[i].w == w;
        }
        assert InLine(line, w) <==> w in members;
      }
      LineSize(init, members - {last});
    }
  }

  /** In use counts the holders; pending counts the members in line and the
      ones set aside. */
  lemma CountsExact(capacity: map<Key, int>, st: State, k: Key)
    requires Sound(capacity, st) && k in st.classes
    ensures st.classes[k].inUse == |HoldersOf(st, k)|
    ensures PendingCount(st.classes[k]) == |PendingOf(st, k)|
  {
    assert SoundAt(st, k);
    LineSize(st.classes[k].line, PendingOf(st, k) - AsideOf(st, k));
    assert PendingOf(st, k) == (PendingOf(st, k) - AsideOf(st, k)) + AsideOf(st, k);
  }

  // ---- The pool in use

  /** The pool, and the kicks not yet acted on. A kick to w is acted on when w
      asks, is released or is cleared. */
  datatype World = World(pool: State, owed: set<Id>)

  datatype Event =
    | Enter(k: Key, w: Id, order: Place, maxPending: int)
    | Ask(k: Key, w: Id, order: Place)
    | Recover(k: Key, w: Id)
    | Leave(w: Id)
    | StepAside(w: Id)

  function Kicked(kicks: seq<Id>): set<Id> {
    set x | x in kicks
  }

  function Happens(capacity: map<Key, int>, x: World, e: Event): World {
    match e
    case Enter(k, w, order, max) => x.(pool := Admit(capacity, x.pool, k, w, order, max).0)
    case Ask(k, w, order) =>
      var (p, granted, kicks) := Acquire(capacity, x.pool, k, w, order);
      World(p, (x.owed - {w}) + Kicked(kicks))
    case Recover(k, w) => x.(pool := Hold(capacity, x.pool, k, w))
    case Leave(w) =>
      var (p, kicks) := Release(x.pool, w);
      World(p, (x.owed - {w}) + Kicked(kicks))
    case StepAside(w) =>
      var (p, kicks) := Clear(x.pool, w);
      World(p, (x.owed - {w}) + Kicked(kicks))
  }

  predicate OwnKey(st: State, k: Key, w: Id) {
    (w in st.holders ==> st.holders[w] == k) && (w in st.pending ==> st.pending[w] == k)
  }

  /** A hold passes no kick on: it strands the line when w heads it, a token
      is left after w's, and the next member was refused and is owed none. */
  predicate HoldStrands(x: World, k: Key, w: Id) {
    && k in x.pool.classes
    && var c := x.pool.classes[k];
       && |c.line| > 1 && c.line[0].w == w && c.inUse + 1 < c.capacity
       && c.line[1].w in x.pool.parked && c.line[1].w !in x.owed
  }

  /** One member uses one key; a hold strands no line. The engine holds only
      at recovery (engine/engine.go:417-429), before anyone was refused. */
  predicate Legal(x: World, e: Event) {
    match e
    case Enter(k, w, _, _) => OwnKey(x.pool, k, w)
    case Ask(k, w, _) => OwnKey(x.pool, k, w)
    case Recover(k, w) => OwnKey(x.pool, k, w) && !HoldStrands(x, k, w)
    case _ => true
  }

  /** No one was refused yet, so no hold strands. */
  lemma RecoveryHolds(x: World, k: Key, w: Id)
    requires x.pool.parked == {}
    ensures !HoldStrands(x, k, w)
  {
  }

  ghost predicate Good(capacity: map<Key, int>, x: World) {
    Sound(capacity, x.pool) && NotStranded(x.pool, x.owed)
  }

  /** Classes other than the one touched keep their heads owed. */
  lemma StrandedFrom(st: State, t: State, k: Key, w: Id, owed: set<Id>, now: set<Id>)
    requires NotStranded(st, owed) && k in st.classes && t.classes.Keys == st.classes.Keys
    requires forall j | j in st.classes && j != k :: t.classes[j] == st.classes[j] && !InLine(st.classes[j].line, w)
    requires owed - {w} <= now && t.parked - {w} <= st.parked
    requires HeadOwed(t.classes[k], t.parked, now)
    ensures NotStranded(t, now)
  {
    forall j | j in t.classes ensures HeadOwed(t.classes[j], t.parked, now) {
      assert HeadOwed(st.classes[j], st.parked, owed);
      if j != k && |st.classes[j].line| > 0 {
        assert InLine(st.classes[j].line, st.classes[j].line[0].w);
      }
    }
  }

  lemma NotElsewhere(capacity: map<Key, int>, st: State, k: Key, w: Id, j: Key)
    requires Sound(capacity, st) && OwnKey(st, k, w) && j in st.classes && j != k
    ensures !InLine(st.classes[j].line, w)
  {
    assert SoundAt(st, j);
  }

  /** A named head is owed. */
  lemma HeadNamed(c: Class, parked: set<Id>, owed: set<Id>)
    ensures HeadOwed(c, parked, owed + Kicked(HeadOf(c)))
  {
  }

  /** w is in no line: a holder, set aside, or no member at all. */
  lemma Acted(capacity: map<Key, int>, st: State, w: Id, owed: set<Id>)
    requires Sound(capacity, st) && NotStranded(st, owed) && (w !in st.pending || w in st.sidelined)
    ensures NotStranded(st, owed - {w})
  {
    forall j | j in st.classes ensures HeadOwed(st.classes[j], st.parked, owed - {w}) {
      assert HeadOwed(st.classes[j], st.parked, owed) && SoundAt(st, j);
      if |st.classes[j].line| > 0 {
        assert InLine(st.classes[j].line, st.classes[j].line[0].w);
      }
    }
  }

  lemma ClassForOwed(st: State, k: Key, capacity: int, owed: set<Id>)
    requires NotStranded(st, owed)
    ensures NotStranded(ClassFor(st, k, capacity), owed)
  {
    var t := ClassFor(st, k, capacity);
    forall j | j in t.classes ensures HeadOwed(t.classes[j], t.parked, owed) {
      if j in st.classes {
        assert HeadOwed(st.classes[j], st.parked, owed);
      }
    }
  }

  /** A member that joins is the head or leaves it as it was. */
  lemma JoinHead(line: seq<Waiter>, x: Waiter)
    requires SortedLine(line)
    ensures |Inserted(line, x)| == |line| + 1
    ensures PlaceFor(line, x.order) == 0 ==> Inserted(line, x)[0] == x
    ensures PlaceFor(line, x.order) > 0 ==> |line| > 0 && Inserted(line, x)[0] == line[0]
  {
    PlaceForIs(line, x.order);
  }

  lemma EnterGood(capacity: map<Key, int>, x: World, e: Event)
    requires Good(capacity, x) && Legal(x, e) && e.Enter?
    ensures Good(capacity, Happens(capacity, x, e))
  {
    hide Join, ClassFor, SortedLine, Inserted, SoundAt, HeadOwed;
    var k, w := e.k, e.w;
    if k in capacity {
      ClassForSound(capacity, x.pool, k);
      ClassForOwed(x.pool, k, capacity[k], x.owed);
      var st := ClassFor(x.pool, k, capacity[k]);
      if w !in st.holders && w !in st.pending {
        JoinSound(capacity, st, k, w, e.order);
        JoinOwed(capacity, st, k, w, e.order, x.owed);
      }
    }
  }

  lemma JoinOwed(capacity: map<Key, int>, st: State, k: Key, w: Id, order: Place, owed: set<Id>)
    requires Sound(capacity, st) && NotStranded(st, owed) && k in st.classes && w !in st.parked
    ensures NotStranded(Join(st, k, w, order), owed)
  {
    var t := Join(st, k, w, order);
    assert SoundAt(st, k);
    JoinHead(st.classes[k].line, Waiter(w, order));
    forall j | j in t.classes ensures HeadOwed(t.classes[j], t.parked, owed) {
      assert HeadOwed(st.classes[j], st.parked, owed);
    }
  }

  lemma AskGood(capacity: map<Key, int>, x: World, e: Event)
    requires Good(capacity, x) && Legal(x, e) && e.Ask?
    ensures Good(capacity, Happens(capacity, x, e))
  {
    hide Join, SortedLine, Inserted, SoundAt, HeadOwed, Seize, Forget, IndexOf, HeadAt;
    var k, w := e.k, e.w;
    if k !in capacity {
      Acted(capacity, x.pool, w, x.owed);
      NoKicks();
      assert (x.owed - {w}) + {} == x.owed - {w};
    } else {
      ClassForSound(capacity, x.pool, k);
      ClassForOwed(x.pool, k, capacity[k], x.owed);
      var st := ClassFor(x.pool, k, capacity[k]);
      if w in st.holders {
        Acted(capacity, st, w, x.owed);
        NoKicks();
        assert (x.owed - {w}) + {} == x.owed - {w};
      } else {
        AskInLine(capacity, x, st, e);
      }
    }
  }

  lemma NoKicks()
    ensures Kicked([]) == {}
  {
  }

  /** The two answers, as what they leave. */
  lemma AskIs(capacity: map<Key, int>, x: World, st: State, at: State, e: Event)
    requires e.Ask? && e.k in capacity && st == ClassFor(x.pool, e.k, capacity[e.k]) && e.k in st.classes && e.w !in st.holders
    requires at == InPlace(st, e.k, e.w, e.order) && e.k in at.classes && e.k in Forget(at, e.k, e.w).classes
    ensures (var k, w, c := e.k, e.w, at.classes[e.k];
             Happens(capacity, x, e) ==
               if c.inUse + IndexOf(c.line, w) >= c.capacity then World(at.(parked := at.parked + {w}), x.owed - {w})
               else World(Seize(Forget(at, k, w), k, w), (x.owed - {w}) + Kicked(HeadAt(Seize(Forget(at, k, w), k, w), k))))
  {
    hide Join, Seize, Forget, HeadAt, IndexOf;
    NoKicks();
    assert (x.owed - {e.w}) + {} == x.owed - {e.w};
  }

  lemma AskInLine(capacity: map<Key, int>, x: World, st: State, e: Event)
    requires e.Ask? && e.k in capacity && st == ClassFor(x.pool, e.k, capacity[e.k])
    requires Sound(capacity, st) && NotStranded(st, x.owed) && OwnKey(st, e.k, e.w) && e.w !in st.holders && e.k in st.classes
    ensures Good(capacity, Happens(capacity, x, e))
  {
    hide Join, SoundAt, HeadOwed, Seize, Forget, HeadAt, IndexOf, InLine, NotStranded, ClassFor, Sound, InPlace, Happens, OwnKey;
    var k, w := e.k, e.w;
    var at := InPlace(st, k, w, e.order);
    InPlaceGood(capacity, st, k, w, e.order, x.owed);
    ForgetKeeps(at, k, w);
    AskIs(capacity, x, st, at, e);
    if at.classes[k].inUse + IndexOf(at.classes[k].line, w) >= at.classes[k].capacity {
      ParkSound(capacity, at, k, w);
      RefusedOwed(capacity, at, k, w, x.owed);
    } else {
      Pended(at, k, w);
      ForgetSound(capacity, at, k, w);
      SeizeSound(capacity, Forget(at, k, w), k, w);
      GrantedOwed(capacity, at, k, w, x.owed);
    }
  }

  /** In line, whether it was there or takes its place now. */
  lemma InPlaceGood(capacity: map<Key, int>, st: State, k: Key, w: Id, order: Place, owed: set<Id>)
    requires Sound(capacity, st) && NotStranded(st, owed) && k in st.classes && OwnKey(st, k, w) && w !in st.holders
    ensures (var at := InPlace(st, k, w, order);
             && Sound(capacity, at) && NotStranded(at, owed) && k in at.classes && InLine(at.classes[k].line, w)
             && OwnKey(at, k, w) && w !in at.holders && w in at.pending)
  {
    hide Inserted, IndexOf, SortedLine;
    assert SoundAt(st, k);
    IndexOfIs(st.classes[k].line, w);
    assert w in PendingOf(st, k) <==> w in st.pending;
    assert w in AsideOf(st, k) <==> w in st.pending && w in st.sidelined;
    if IndexOf(st.classes[k].line, w) < 0 {
      JoinSound(capacity, st, k, w, order);
      JoinOwed(capacity, st, k, w, order, owed);
    }
  }

  lemma Pended(st: State, k: Key, w: Id)
    requires OwnKey(st, k, w)
    ensures w in st.pending ==> st.pending[w] == k
  {
  }

  lemma ForgetKeeps(st: State, k: Key, w: Id)
    requires k in st.classes
    ensures k in Forget(st, k, w).classes && Forget(st, k, w).holders == st.holders
  {
  }

  lemma RefusedOwed(capacity: map<Key, int>, at: State, k: Key, w: Id, owed: set<Id>)
    requires Sound(capacity, at) && NotStranded(at, owed) && k in at.classes && InLine(at.classes[k].line, w) && OwnKey(at, k, w)
    requires at.classes[k].inUse + IndexOf(at.classes[k].line, w) >= at.classes[k].capacity
    ensures NotStranded(at.(parked := at.parked + {w}), owed - {w})
  {
    hide SortedLine;
    var t, c := at.(parked := at.parked + {w}), at.classes[k];
    IndexOfIs(c.line, w);
    assert HeadOwed(c, at.parked, owed);
    forall j | j in at.classes && j != k ensures !InLine(at.classes[j].line, w) {
      NotElsewhere(capacity, at, k, w, j);
    }
    StrandedFrom(at, t, k, w, owed, owed - {w});
  }

  lemma GrantedOwed(capacity: map<Key, int>, at: State, k: Key, w: Id, owed: set<Id>)
    requires Sound(capacity, at) && NotStranded(at, owed) && k in at.classes && OwnKey(at, k, w) && k in Forget(at, k, w).classes
    ensures (var t := Seize(Forget(at, k, w), k, w); NotStranded(t, (owed - {w}) + Kicked(HeadAt(t, k))))
  {
    hide SortedLine, Removed, SoundAt, Partitioned, Sound;
    var t := Seize(Forget(at, k, w), k, w);
    forall j | j in at.classes && j != k ensures !InLine(at.classes[j].line, w) {
      NotElsewhere(capacity, at, k, w, j);
    }
    HeadNamed(t.classes[k], t.parked, owed - {w});
    StrandedFrom(at, t, k, w, owed, (owed - {w}) + Kicked(HeadAt(t, k)));
  }

  lemma DepartedOwed(capacity: map<Key, int>, st: State, t: State, k: Key, w: Id, owed: set<Id>)
    requires Sound(capacity, st) && NotStranded(st, owed) && k in st.classes && OwnKey(st, k, w)
    requires t.classes.Keys == st.classes.Keys && t.parked <= st.parked
    requires forall j | j in st.classes && j != k :: t.classes[j] == st.classes[j]
    ensures NotStranded(t, (owed - {w}) + Kicked(HeadAt(t, k)))
  {
    forall j | j in st.classes && j != k ensures !InLine(st.classes[j].line, w) {
      NotElsewhere(capacity, st, k, w, j);
    }
    HeadNamed(t.classes[k], t.parked, owed - {w});
    StrandedFrom(st, t, k, w, owed, (owed - {w}) + Kicked(HeadAt(t, k)));
  }

  lemma LeaveGood(capacity: map<Key, int>, x: World, w: Id)
    requires Good(capacity, x)
    ensures Good(capacity, Happens(capacity, x, Leave(w)))
  {
    hide SoundAt, HeadOwed, Removed, HeadAt, NotStranded;
    var st := x.pool;
    if w in st.holders {
      YieldSound(capacity, st, w);
      DepartedOwed(capacity, st, Yield(st, st.holders[w], w), st.holders[w], w, x.owed);
    } else if w in st.pending {
      ForgetSound(capacity, st, st.pending[w], w);
      DepartedOwed(capacity, st, Forget(st, st.pending[w], w), st.pending[w], w, x.owed);
    } else {
      Acted(capacity, st, w, x.owed);
      NoKicks();
      assert (x.owed - {w}) + {} == x.owed - {w};
    }
  }

  lemma StepAsideGood(capacity: map<Key, int>, x: World, w: Id)
    requires Good(capacity, x)
    ensures Good(capacity, Happens(capacity, x, StepAside(w)))
  {
    hide SoundAt, HeadOwed, Removed, HeadAt, NotStranded;
    var st := x.pool;
    if w in st.pending && w !in st.sidelined {
      AsideSound(capacity, st, w);
      DepartedOwed(capacity, st, Aside(st, st.pending[w], w), st.pending[w], w, x.owed);
    } else {
      Acted(capacity, st, w, x.owed);
      NoKicks();
      assert (x.owed - {w}) + {} == x.owed - {w};
    }
  }

  /** The new head once w has left the line. */
  lemma RemovedHead(line: seq<Waiter>, w: Id)
    ensures |line| > 0 && line[0].w == w ==> Removed(line, w) == line[1..]
    ensures |line| > 0 && line[0].w != w ==> |Removed(line, w)| > 0 && Removed(line, w)[0] == line[0]
    ensures line == [] ==> Removed(line, w) == []
  {
    IndexOfIs(line, w);
  }

  /** A member is in no line but its own class's, and only while pending and
      not set aside. */
  lemma HeadIsPending(capacity: map<Key, int>, st: State, k: Key, w: Id)
    requires Sound(capacity, st) && k in st.classes && |st.classes[k].line| > 0 && st.classes[k].line[0].w == w
    ensures w in st.pending && st.pending[w] == k && w !in st.sidelined && w !in st.holders
  {
    assert SoundAt(st, k);
    assert InLine(st.classes[k].line, w);
    assert w in PendingOf(st, k) && w !in AsideOf(st, k);
  }

  /** What a hold leaves of the class and of the refused. */
  lemma HeldClass(capacity: map<Key, int>, st: State, k: Key, w: Id)
    requires Sound(capacity, st) && k in st.classes && OwnKey(st, k, w) && w !in st.holders
    ensures (var t, c := Seize(Forget(st, k, w), k, w), st.classes[k];
             && t.classes.Keys == st.classes.Keys && (forall j | j in st.classes && j != k :: t.classes[j] == st.classes[j])
             && t.classes[k].inUse == c.inUse + 1 && t.classes[k].capacity == c.capacity
             && t.classes[k].line == (if w in st.pending && w !in st.sidelined then Removed(c.line, w) else c.line)
             && t.parked - {w} == st.parked - {w})
    ensures w !in st.pending ==> w !in st.parked
  {
    hide Removed, SoundAt;
  }

  /** The held class keeps its head owed unless w stood before a refused
      member owed nothing, and a token is still left for that one. */
  lemma HoldsHead(capacity: map<Key, int>, x: World, k: Key, w: Id)
    requires Good(capacity, x) && k in x.pool.classes && OwnKey(x.pool, k, w) && w !in x.pool.holders
    ensures (var t := Seize(Forget(x.pool, k, w), k, w);
             k in t.classes && (HeadOwed(t.classes[k], t.parked, x.owed) <==> !HoldStrands(x, k, w)))
  {
    hide Removed, IndexOf, SortedLine;
    var line := x.pool.classes[k].line;
    HeldClass(capacity, x.pool, k, w);
    RemovedHead(line, w);
    assert SoundAt(x.pool, k);
    assert HeadOwed(x.pool.classes[k], x.pool.parked, x.owed);
    if |line| > 0 && line[0].w == w {
      HeadIsPending(capacity, x.pool, k, w);
    }
  }

  lemma HoldsOthers(capacity: map<Key, int>, x: World, k: Key, w: Id)
    requires Good(capacity, x) && k in x.pool.classes && OwnKey(x.pool, k, w) && w !in x.pool.holders
    ensures (var t := Seize(Forget(x.pool, k, w), k, w);
             && t.classes.Keys == x.pool.classes.Keys
             && forall j | j in t.classes && j != k :: HeadOwed(t.classes[j], t.parked, x.owed))
  {
    hide Removed, SoundAt, OwnKey;
    HeldClass(capacity, x.pool, k, w);
    var t := Seize(Forget(x.pool, k, w), k, w);
    forall j | j in t.classes && j != k ensures HeadOwed(t.classes[j], t.parked, x.owed) {
      assert HeadOwed(x.pool.classes[j], x.pool.parked, x.owed);
      NotElsewhere(capacity, x.pool, k, w, j);
      if |t.classes[j].line| > 0 {
        assert InLine(x.pool.classes[j].line, t.classes[j].line[0].w);
      }
    }
  }

  /** Holding a member by right keeps the pool sound, and keeps its lines
      served unless it strands one: exactly. */
  lemma HoldKeepsIff(capacity: map<Key, int>, x: World, k: Key, w: Id)
    requires Good(capacity, x) && OwnKey(x.pool, k, w)
    ensures Sound(capacity, Happens(capacity, x, Recover(k, w)).pool)
    ensures Good(capacity, Happens(capacity, x, Recover(k, w))) <==> !HoldStrands(x, k, w)
  {
    hide SoundAt, HeadOwed, Seize, Forget;
    if k in x.pool.classes && |x.pool.classes[k].line| > 0 && x.pool.classes[k].line[0].w == w {
      HeadIsPending(capacity, x.pool, k, w);
    }
    if k in capacity {
      ClassForSound(capacity, x.pool, k);
      ClassForOwed(x.pool, k, capacity[k], x.owed);
      var y := x.(pool := ClassFor(x.pool, k, capacity[k]));
      assert HoldStrands(y, k, w) <==> HoldStrands(x, k, w);
      if w !in y.pool.holders {
        ForgetSound(capacity, y.pool, k, w);
        ForgetKeeps(y.pool, k, w);
        SeizeSound(capacity, Forget(y.pool, k, w), k, w);
        HoldsHead(capacity, y, k, w);
        HoldsOthers(capacity, y, k, w);
      }
    }
  }

  /** Every event keeps the pool sound and its lines served. */
  lemma EventGood(capacity: map<Key, int>, x: World, e: Event)
    requires Good(capacity, x) && Legal(x, e)
    ensures Good(capacity, Happens(capacity, x, e))
  {
    hide Good;
    match e
    case Enter(_, _, _, _) => EnterGood(capacity, x, e);
    case Ask(_, _, _) => AskGood(capacity, x, e);
    case Recover(k, w) => HoldKeepsIff(capacity, x, k, w);
    case Leave(w) => LeaveGood(capacity, x, w);
    case StepAside(w) => StepAsideGood(capacity, x, w);
  }

  const Empty := World(State(map[], map[], map[], {}, {}), {})

  function Ran(capacity: map<Key, int>, x: World, es: seq<Event>): World
    decreases es
  {
    if es == [] then x else Ran(capacity, Happens(capacity, x, es[0]), es[1..])
  }

  predicate AllLegal(capacity: map<Key, int>, x: World, es: seq<Event>)
    decreases es
  {
    es == [] || (Legal(x, es[0]) && AllLegal(capacity, Happens(capacity, x, es[0]), es[1..]))
  }

  lemma {:induction false} RunsGood(capacity: map<Key, int>, x: World, es: seq<Event>)
    requires Good(capacity, x) && AllLegal(capacity, x, es)
    ensures Good(capacity, Ran(capacity, x, es))
    decreases |es|
  {
    if es != [] {
      EventGood(capacity, x, es[0]);
      RunsGood(capacity, Happens(capacity, x, es[0]), es[1..]);
    }
  }

  /** In every reachable pool a class with free capacity over a line owes its
      head a kick, unless the head has not asked; so with no kick owed and all
      having asked, the class is full or its line empty. */
  lemma NeverStranded(capacity: map<Key, int>, es: seq<Event>, k: Key)
    requires AllLegal(capacity, Empty, es)
    ensures (var y := Ran(capacity, Empty, es);
             k in y.pool.classes && y.owed == {} && (forall i | 0 <= i < |y.pool.classes[k].line| :: y.pool.classes[k].line[i].w in y.pool.parked)
             ==> y.pool.classes[k].inUse >= y.pool.classes[k].capacity || y.pool.classes[k].line == [])
  {
    assert Good(capacity, Empty);
    RunsGood(capacity, Empty, es);
    var y := Ran(capacity, Empty, es);
    assert k in y.pool.classes ==> HeadOwed(y.pool.classes[k], y.pool.parked, y.owed);
  }

  /** A grant stays within capacity, and every member ahead of the one granted
      still fits. */
  lemma GrantFits(capacity: map<Key, int>, st: State, k: Key, w: Id, order: Place, i: nat)
    requires Sound(capacity, st) && OwnKey(st, k, w) && k in capacity && w !in st.holders
    requires Acquire(capacity, st, k, w, order).1
    ensures (var t := Acquire(capacity, st, k, w, order).0;
             var ahead := InPlace(ClassFor(st, k, capacity[k]), k, w, order).classes[k].line;
             && k in t.classes && t.classes[k].inUse <= capacity[k]
             && (i < IndexOf(ahead, w) ==> i < |t.classes[k].line| && t.classes[k].line[i] == ahead[i] && t.classes[k].inUse + i < capacity[k]))
  {
    hide SortedLine, Join;
    ClassForSound(capacity, st, k);
    var base := ClassFor(st, k, capacity[k]);
    assert NotStranded(base, base.pending.Keys) by {
      AllOwed(capacity, base);
    }
    InPlaceGood(capacity, base, k, w, order, base.pending.Keys);
    var at := InPlace(base, k, w, order);
    IndexOfIs(at.classes[k].line, w);
    assert SoundAt(at, k);
    assert w in PendingOf(at, k) && w !in AsideOf(at, k);
  }

  lemma AllOwed(capacity: map<Key, int>, st: State)
    requires Sound(capacity, st)
    ensures NotStranded(st, st.pending.Keys)
  {
    forall k | k in st.classes ensures HeadOwed(st.classes[k], st.parked, st.pending.Keys) {
      assert SoundAt(st, k);
      if |st.classes[k].line| > 0 {
        assert InLine(st.classes[k].line, st.classes[k].line[0].w);
        assert st.classes[k].line[0].w in PendingOf(st, k);
      }
    }
  }

  /** A run that strands a line: two tokens are taken, a and b are refused
      behind them, both tokens come back with one kick, to a. Holding a by
      right consumes that kick, and b waits over a free token with none. */
  lemma HoldAfterRefusalStrands(k: Key, a: Id, b: Id, c: Id, d: Id)
    requires |{a, b, c, d}| == 4
    ensures (var capacity: map<Key, int> := map[k := 2];
             var es := [Ask(k, c, 1), Ask(k, d, 2), Ask(k, a, 3), Ask(k, b, 4), Leave(c), Leave(d)];
             var x := Ran(capacity, Empty, es);
             var y := Happens(capacity, Happens(capacity, x, Recover(k, a)), Ask(k, a, 3));
             && AllLegal(capacity, Empty, es) && OwnKey(x.pool, k, a) && HoldStrands(x, k, a)
             && y.owed == {} && y.pool.parked == {b} && y.pool.classes == map[k := Class(2, 1, [Waiter(b, 4)], 0)])
  {
    hide Happens, Legal, OwnKey, HoldStrands, Ran, AllLegal;
    FourApart(a, b, c, d);
    var capacity: map<Key, int> := map[k := 2];
    TwoGranted(k, c, d);
    TwoRefused(k, a, b, c, d);
    TwoReturned(k, a, b, c, d);
    HeldByRight(k, a, b);
    var last := [Leave(c), Leave(d)];
    var mid := [Ask(k, a, 3), Ask(k, b, 4)] + last;
    RanTwo(capacity, Empty, Ask(k, c, 1), Ask(k, d, 2), mid);
    RanTwo(capacity, BothTaken(k, c, d), Ask(k, a, 3), Ask(k, b, 4), last);
    RanTwo(capacity, BothBehind(k, a, b, c, d), Leave(c), Leave(d), []);
    assert [Ask(k, c, 1), Ask(k, d, 2)] + mid == [Ask(k, c, 1), Ask(k, d, 2), Ask(k, a, 3), Ask(k, b, 4), Leave(c), Leave(d)];
    assert [Leave(c), Leave(d)] + [] == last;
    RanNone(capacity, BothFree(k, a, b));
  }

  lemma RanTwo(capacity: map<Key, int>, x: World, e: Event, f: Event, es: seq<Event>)
    ensures (var y := Happens(capacity, x, e);
             && Ran(capacity, x, [e, f] + es) == Ran(capacity, Happens(capacity, y, f), es)
             && (AllLegal(capacity, x, [e, f] + es) <==> Legal(x, e) && Legal(y, f) && AllLegal(capacity, Happens(capacity, y, f), es)))
  {
    hide Happens, Legal;
    assert ([e, f] + es)[1..] == [f] + es;
    assert ([f] + es)[1..] == es;
  }

  lemma RanNone(capacity: map<Key, int>, x: World)
    ensures Ran(capacity, x, []) == x && AllLegal(capacity, x, [])
  {
  }

  function BothTaken(k: Key, c: Id, d: Id): World {
    World(State(map[k := Class(2, 2, [], 0)], map[c := k, d := k], map[], {}, {}), {})
  }

  function BothBehind(k: Key, a: Id, b: Id, c: Id, d: Id): World {
    World(State(map[k := Class(2, 2, [Waiter(a, 3), Waiter(b, 4)], 0)], map[c := k, d := k], map[a := k, b := k], {}, {a, b}), {})
  }

  function BothFree(k: Key, a: Id, b: Id): World {
    World(State(map[k := Class(2, 0, [Waiter(a, 3), Waiter(b, 4)], 0)], map[], map[a := k, b := k], {}, {a, b}), {a})
  }

  function Unlined(k: Key, inUse: int, holders: map<Id, Key>): World {
    World(State(map[k := Class(2, inUse, [], 0)], holders, map[], {}, {}), {})
  }

  lemma GrantedAlone(k: Key, w: Id, order: Place, inUse: int, holders: map<Id, Key>)
    requires inUse < 2 && w !in holders
    ensures Legal(Unlined(k, inUse, holders), Ask(k, w, order))
    ensures Happens(map[k := 2], Unlined(k, inUse, holders), Ask(k, w, order)) == Unlined(k, inUse + 1, holders[w := k])
  {
    assert PlaceFor([], order) == 0 && Inserted([], Waiter(w, order)) == [Waiter(w, order)];
    assert IndexOf([], w) == -1 && IndexOf([Waiter(w, order)], w) == 0;
    RemovedHead([Waiter(w, order)], w);
    hide Inserted, PlaceFor, IndexOf, Removed;
  }

  lemma TwoGranted(k: Key, c: Id, d: Id)
    requires c != d
    ensures (var capacity: map<Key, int> := map[k := 2]; var y := Happens(capacity, Empty, Ask(k, c, 1));
             Legal(Empty, Ask(k, c, 1)) && Legal(y, Ask(k, d, 2)) && Happens(capacity, y, Ask(k, d, 2)) == BothTaken(k, c, d))
  {
    GrantedAlone(k, c, 1, 0, map[]);
    GrantedAlone(k, d, 2, 1, map[c := k]);
    MadeOnFirstUse(k, c);
    assert map[][c := k] == map[c := k] && map[c := k][d := k] == map[c := k, d := k];
    hide Happens;
  }

  lemma MadeOnFirstUse(k: Key, c: Id)
    ensures Happens(map[k := 2], Empty, Ask(k, c, 1)) == Happens(map[k := 2], Unlined(k, 0, map[]), Ask(k, c, 1))
  {
    hide InPlace, Forget, Seize, HeadAt, IndexOf;
    assert ClassFor(Empty.pool, k, 2) == Unlined(k, 0, map[]).pool;
  }

  lemma TwoRefused(k: Key, a: Id, b: Id, c: Id, d: Id)
    requires a != b && a != c && a != d && b != c && b != d && c != d
    ensures (var capacity: map<Key, int> := map[k := 2]; var x := BothTaken(k, c, d); var y := Happens(capacity, x, Ask(k, a, 3));
             Legal(x, Ask(k, a, 3)) && Legal(y, Ask(k, b, 4)) && Happens(capacity, y, Ask(k, b, 4)) == BothBehind(k, a, b, c, d))
  {
    var one, two := [Waiter(a, 3)], [Waiter(a, 3), Waiter(b, 4)];
    assert PlaceFor([], 3) == 0 && Inserted([], Waiter(a, 3)) == one && IndexOf(one, a) == 0;
    assert one[1..] == [] && PlaceFor(one, 4) == 1 && Inserted(one, Waiter(b, 4)) == two;
    assert two[1..] == [Waiter(b, 4)] && IndexOf(one, b) == -1 && IndexOf(two, b) == 1;
    hide Inserted, PlaceFor, IndexOf;
    assert IndexOf([], a) == -1 by {
      IndexOfIs([], a);
    }
    var y := Happens(map[k := 2], BothTaken(k, c, d), Ask(k, a, 3));
    assert y == World(State(map[k := Class(2, 2, [Waiter(a, 3)], 0)], map[c := k, d := k], map[a := k], {}, {a}), {});
  }

  lemma TwoReturned(k: Key, a: Id, b: Id, c: Id, d: Id)
    requires a != b && a != c && a != d && b != c && b != d && c != d
    ensures (var capacity: map<Key, int> := map[k := 2]; var x := BothBehind(k, a, b, c, d); var y := Happens(capacity, x, Leave(c));
             Legal(x, Leave(c)) && Legal(y, Leave(d)) && Happens(capacity, y, Leave(d)) == BothFree(k, a, b))
  {
    var y := Happens(map[k := 2], BothBehind(k, a, b, c, d), Leave(c));
    assert y == World(State(map[k := Class(2, 1, [Waiter(a, 3), Waiter(b, 4)], 0)], map[d := k], map[a := k, b := k], {}, {a, b}), {a});
  }

  lemma HeldByRight(k: Key, a: Id, b: Id)
    requires a != b
    ensures (var capacity: map<Key, int> := map[k := 2]; var x := BothFree(k, a, b);
             && OwnKey(x.pool, k, a) && HoldStrands(x, k, a)
             && Happens(capacity, Happens(capacity, x, Recover(k, a)), Ask(k, a, 3))
                == World(State(map[k := Class(2, 1, [Waiter(b, 4)], 0)], map[a := k], map[b := k], {}, {b}), {}))
  {
    RemovedHead([Waiter(a, 3), Waiter(b, 4)], a);
    var y := Happens(map[k := 2], BothFree(k, a, b), Recover(k, a));
    assert y == World(State(map[k := Class(2, 1, [Waiter(b, 4)], 0)], map[a := k], map[b := k], {}, {b}), {a});
  }

  lemma FourApart(a: Id, b: Id, c: Id, d: Id)
    requires |{a, b, c, d}| == 4
    ensures a != b && a != c && a != d && b != c && b != d && c != d
  {
  }

  // ---- The answers

  function LineOf(st: State, k: Key): seq<Waiter> {
    if k in st.classes then st.classes[k].line else []
  }

  /** A new member is admitted exactly while the pending members are below the
      limit; a limit that is not positive is none. A refusal changes no
      member, an admission puts it in its class's line. */
  lemma AdmitAnswers(capacity: map<Key, int>, st: State, k: Key, w: Id, order: Place, maxPending: int)
    requires Sound(capacity, st) && OwnKey(st, k, w)
    ensures (var (t, admitted) := Admit(capacity, st, k, w, order, maxPending);
             && (admitted <==> k !in capacity || w in st.holders || w in st.pending || maxPending <= 0 || |PendingOf(st, k)| < maxPending)
             && t.holders == st.holders && t.sidelined == st.sidelined && t.parked == st.parked
             && t.pending == (if admitted && k in capacity && w !in st.holders then st.pending[w := k] else st.pending)
             && (!admitted || k !in capacity || w in st.holders || w in st.pending ==> forall j :: LineOf(t, j) == LineOf(st, j))
             && (forall j :: InLine(LineOf(t, j), w) <==> j in t.classes && w in t.pending && t.pending[w] == j && w !in t.sidelined))
  {
    hide Sound, SortedLine, Inserted, InLine, PlaceFor, PendingOf;
    PendingCounted(capacity, st, k);
    if w !in st.pending {
      NotAside(capacity, st, w);
    } else {
      assert st.pending[w := k] == st.pending;
    }
    var t := Admit(capacity, st, k, w, order, maxPending).0;
    AdmitSound(capacity, st, k, w, order, maxPending);
    forall j ensures InLine(LineOf(t, j), w) <==> j in t.classes && w in t.pending && t.pending[w] == j && w !in t.sidelined {
      WhereInLine(capacity, t, j, w);
    }
  }

  lemma AdmitSound(capacity: map<Key, int>, st: State, k: Key, w: Id, order: Place, maxPending: int)
    requires Sound(capacity, st)
    ensures Sound(capacity, Admit(capacity, st, k, w, order, maxPending).0)
  {
    hide SortedLine, Inserted, InLine, PlaceFor, SoundAt;
    if k in capacity {
      ClassForSound(capacity, st, k);
      if w !in st.holders && w !in st.pending {
        JoinSound(capacity, ClassFor(st, k, capacity[k]), k, w, order);
      }
    }
  }

  lemma PendingCounted(capacity: map<Key, int>, st: State, k: Key)
    requires Sound(capacity, st)
    ensures |PendingOf(st, k)| == if k in st.classes then PendingCount(st.classes[k]) else 0
  {
    if k in st.classes {
      CountsExact(capacity, st, k);
    } else {
      assert PendingOf(st, k) == {};
    }
  }

  lemma HoldersCounted(capacity: map<Key, int>, st: State, k: Key)
    requires Sound(capacity, st)
    ensures |HoldersOf(st, k)| == if k in st.classes then st.classes[k].inUse else 0
  {
    if k in st.classes {
      CountsExact(capacity, st, k);
    } else {
      assert HoldersOf(st, k) == {};
    }
  }

  lemma WhereInLine(capacity: map<Key, int>, st: State, k: Key, w: Id)
    requires Sound(capacity, st)
    ensures InLine(LineOf(st, k), w) <==> k in st.classes && w in st.pending && st.pending[w] == k && w !in st.sidelined
  {
    if k in st.classes {
      assert SoundAt(st, k);
      assert InLine(st.classes[k].line, w) <==> w in PendingOf(st, k) && w !in AsideOf(st, k);
    }
  }

  /** How many stand before w: those before it in line, or those it would be
      put behind. */
  ghost predicate RankIs(line: seq<Waiter>, w: Id, order: Place, n: nat) {
    if InLine(line, w) then n < |line| && line[n].w == w
    else
      && n <= |line|
      && (forall i | 0 <= i < n :: line[i].order < order)
      && forall i | n <= i < |line| :: line[i].order >= order
  }

  /** A member is granted exactly when it and every member ahead of it fit in
      the free capacity; a holder and a member of an unlimited class always
      are. A grant makes it a holder with no pending trace; a refusal leaves
      it in line, having asked. */
  lemma AcquireAnswers(capacity: map<Key, int>, st: State, k: Key, w: Id, order: Place) returns (n: nat)
    requires Sound(capacity, st) && OwnKey(st, k, w)
    ensures RankIs(LineOf(st, k), w, order, n)
    ensures (var (t, granted, kicks) := Acquire(capacity, st, k, w, order);
             && (granted <==> k !in capacity || w in st.holders || |HoldersOf(st, k)| + n + 1 <= capacity[k])
             && t.holders == (if granted && k in capacity then st.holders[w := k] else st.holders)
             && t.pending == (if k !in capacity || w in st.holders then st.pending else if granted then st.pending - {w} else st.pending[w := k])
             && t.sidelined == (if k !in capacity || w in st.holders then st.sidelined else st.sidelined - {w})
             && t.parked == (if k !in capacity || w in st.holders then st.parked else if granted then st.parked - {w} else st.parked + {w}))
  {
    hide Sound, SortedLine, Inserted, Removed, PlaceFor, IndexOf, InLine, HoldersOf, InPlace;
    HoldersCounted(capacity, st, k);
    LineSorted(capacity, st, k);
    WhereInLine(capacity, st, k, w);
    n := Rank(LineOf(st, k), w, order);
    if k in capacity {
      ClassForSound(capacity, st, k);
      ClassCapacity(capacity, ClassFor(st, k, capacity[k]), k);
      var made := ClassFor(st, k, capacity[k]);
      assert LineOf(st, k) == made.classes[k].line;
      if w !in st.holders {
        PlacedRank(capacity, made, k, w, order, n);
        ForgetFields(InPlace(made, k, w, order), k, w);
        assert st.pending[w := k] - {w} == st.pending - {w} && (st.sidelined - {w}) - {w} == st.sidelined - {w};
      } else {
        assert st.holders[w := k] == st.holders;
      }
    }
  }

  lemma ClassCapacity(capacity: map<Key, int>, st: State, k: Key)
    requires Sound(capacity, st) && k in st.classes
    ensures k in capacity && st.classes[k].capacity == capacity[k]
  {
  }

  lemma ForgetFields(st: State, k: Key, w: Id)
    requires k in st.classes && w in st.pending
    ensures (var t := Forget(st, k, w);
             && k in t.classes && t.holders == st.holders && t.pending == st.pending - {w}
             && t.sidelined == st.sidelined - {w} && t.parked == st.parked - {w})
  {
    hide Removed;
  }

  lemma LineSorted(capacity: map<Key, int>, st: State, k: Key)
    requires Sound(capacity, st)
    ensures SortedLine(LineOf(st, k))
  {
    if k in st.classes {
      assert SoundAt(st, k);
    }
  }

  lemma Rank(line: seq<Waiter>, w: Id, order: Place) returns (n: nat)
    requires SortedLine(line)
    ensures RankIs(line, w, order, n)
    ensures n == if InLine(line, w) then IndexOf(line, w) else PlaceFor(line, order)
  {
    IndexOfIs(line, w);
    PlaceForIs(line, order);
    n := if InLine(line, w) then IndexOf(line, w) else PlaceFor(line, order);
  }

  lemma PlacedRank(capacity: map<Key, int>, st: State, k: Key, w: Id, order: Place, n: nat)
    requires Sound(capacity, st) && k in st.classes && OwnKey(st, k, w) && w !in st.holders
    requires n == if InLine(st.classes[k].line, w) then IndexOf(st.classes[k].line, w) else PlaceFor(st.classes[k].line, order)
    ensures (var at := InPlace(st, k, w, order);
             && k in at.classes && IndexOf(at.classes[k].line, w) == n && at.classes[k].inUse == st.classes[k].inUse && at.classes[k].capacity == st.classes[k].capacity
             && at.holders == st.holders && at.parked == st.parked && at.pending == st.pending[w := k] && at.sidelined == st.sidelined - {w})
  {
    hide SortedLine, Inserted, PlaceFor, InLine;
    WhereIs(capacity, st, k, w);
    IndexOfIs(st.classes[k].line, w);
    if IndexOf(st.classes[k].line, w) < 0 {
      JoinSound(capacity, st, k, w, order);
    } else {
      assert st.pending[w := k] == st.pending && st.sidelined - {w} == st.sidelined;
    }
  }

  /** A kick names the head of a line over a free token, and no one else. */
  ghost predicate NamesHead(st: State, w: Id) {
    exists k :: k in st.classes && st.classes[k].inUse < st.classes[k].capacity && st.classes[k].line != [] && st.classes[k].line[0].w == w
  }

  lemma KicksAreHeads(capacity: map<Key, int>, st: State, k: Key, w: Id, order: Place, x: Id)
    ensures x in Acquire(capacity, st, k, w, order).2 ==> NamesHead(Acquire(capacity, st, k, w, order).0, x)
    ensures x in Release(st, w).1 ==> NamesHead(Release(st, w).0, x)
    ensures x in Clear(st, w).1 ==> NamesHead(Clear(st, w).0, x)
  {
    hide NamesHead, InPlace, Seize, Forget, Yield, Aside, HeadAt, IndexOf;
    forall t: State, j | x in HeadAt(t, j) ensures NamesHead(t, x) {
      HeadIsNamed(t, j, x);
    }
  }

  lemma HeadIsNamed(st: State, k: Key, x: Id)
    requires x in HeadAt(st, k)
    ensures NamesHead(st, x)
  {
    assert st.classes[k].line[0].w == x;
  }

  // ---- What the callers were told

  /** The members as their callers know them, from the answers alone. */
  datatype Book = Book(holding: map<Id, Key>, lined: map<Id, Key>, aside: set<Id>, refused: set<Id>, place: map<Id, Place>)

  const Blank := Book(map[], map[], {}, {}, map[])

  function Answer(capacity: map<Key, int>, x: World, e: Event): bool {
    match e
    case Enter(k, w, order, max) => Admit(capacity, x.pool, k, w, order, max).1
    case Ask(k, w, order) => Acquire(capacity, x.pool, k, w, order).1
    case _ => true
  }

  function Noted(capacity: map<Key, int>, b: Book, e: Event, answer: bool): Book {
    match e
    case Enter(k, w, order, _) =>
      if k !in capacity || !answer || w in b.holding || w in b.lined then b
      else b.(lined := b.lined[w := k], place := b.place[w := order])
    case Ask(k, w, order) =>
      if k !in capacity || w in b.holding then b
      else
        var at := if w in b.lined && w !in b.aside then b.place else b.place[w := order];
        if answer then Book(b.holding[w := k], b.lined - {w}, b.aside - {w}, b.refused - {w}, at)
        else Book(b.holding, b.lined[w := k], b.aside - {w}, b.refused + {w}, at)
    case Recover(k, w) =>
      if k !in capacity || w in b.holding then b
      else b.(holding := b.holding[w := k], lined := b.lined - {w}, aside := b.aside - {w}, refused := b.refused - {w})
    case Leave(w) =>
      if w in b.holding then b.(holding := b.holding - {w})
      else b.(lined := b.lined - {w}, aside := b.aside - {w}, refused := b.refused - {w})
    case StepAside(w) =>
      if w in b.lined && w !in b.aside then b.(aside := b.aside + {w}, refused := b.refused - {w}) else b
  }

  ghost predicate Placed(line: seq<Waiter>, place: map<Id, Place>) {
    forall i | 0 <= i < |line| :: line[i].w in place && place[line[i].w] == line[i].order
  }

  /** The pool's records are the book, each member in line at its place. */
  ghost predicate Matches(st: State, b: Book) {
    st.holders == b.holding && st.pending == b.lined && st.sidelined == b.aside && st.parked == b.refused && AllPlaced(st, b.place)
  }

  lemma MembersNoted(capacity: map<Key, int>, x: World, b: Book, e: Event)
    requires Good(capacity, x) && Legal(x, e) && Matches(x.pool, b)
    ensures (var t, c := Happens(capacity, x, e).pool, Noted(capacity, b, e, Answer(capacity, x, e));
             t.holders == c.holding && t.pending == c.lined && t.sidelined == c.aside && t.parked == c.refused)
  {
    hide Placed, SoundAt, NotStranded, Removed, Inserted, IndexOf, HeadAt;
    match e
    case Enter(k, w, order, max) => AdmitAnswers(capacity, x.pool, k, w, order, max);
    case Ask(k, w, order) => var n := AcquireAnswers(capacity, x.pool, k, w, order);
    case Recover(k, w) =>
      if k in capacity && w !in x.pool.holders && w !in x.pool.pending {
        assert x.pool.pending - {w} == x.pool.pending && x.pool.sidelined - {w} == x.pool.sidelined && x.pool.parked - {w} == x.pool.parked;
      }
    case Leave(w) =>
      if w !in x.pool.holders && w !in x.pool.pending {
        assert x.pool.pending - {w} == x.pool.pending && x.pool.sidelined - {w} == x.pool.sidelined && x.pool.parked - {w} == x.pool.parked;
      }
    case StepAside(w) =>
  }

  lemma InsertedPlaced(line: seq<Waiter>, x: Waiter, place: map<Id, Place>)
    requires SortedLine(line) && Placed(line, place) && x.w in place && place[x.w] == x.order
    ensures Placed(Inserted(line, x), place)
  {
    PlaceForIs(line, x.order);
  }

  lemma RemovedPlaced(line: seq<Waiter>, w: Id, place: map<Id, Place>)
    requires Placed(line, place)
    ensures Placed(Removed(line, w), place)
  {
    IndexOfIs(line, w);
  }

  lemma Replaced(line: seq<Waiter>, w: Id, place: map<Id, Place>, order: Place)
    requires Placed(line, place) && !InLine(line, w)
    ensures Placed(line, place[w := order])
  {
    forall i | 0 <= i < |line| ensures line[i].w != w {
      assert line[i].w == w ==> InLine(line, w);
    }
  }

  ghost predicate AllPlaced(st: State, place: map<Id, Place>) {
    forall k | k in st.classes :: Placed(st.classes[k].line, place)
  }

  lemma ClassForPlaced(st: State, k: Key, capacity: int, place: map<Id, Place>)
    requires AllPlaced(st, place)
    ensures AllPlaced(ClassFor(st, k, capacity), place)
  {
  }

  lemma JoinPlaced(capacity: map<Key, int>, st: State, k: Key, w: Id, order: Place, place: map<Id, Place>)
    requires Sound(capacity, st) && k in st.classes && AllPlaced(st, place) && (w !in st.pending || w in st.sidelined)
    ensures AllPlaced(Join(st, k, w, order), place[w := order])
  {
    hide SortedLine, Inserted, Placed;
    var t := Join(st, k, w, order);
    forall j | j in t.classes ensures Placed(t.classes[j].line, place[w := order]) {
      WhereInLine(capacity, st, j, w);
      Replaced(st.classes[j].line, w, place, order);
      LineSorted(capacity, st, j);
      InsertedPlaced(st.classes[j].line, Waiter(w, order), place[w := order]);
    }
  }

  lemma ForgetPlaced(st: State, k: Key, w: Id, place: map<Id, Place>)
    requires k in st.classes && AllPlaced(st, place)
    ensures AllPlaced(Forget(st, k, w), place)
  {
    hide Removed, Placed;
    RemovedPlaced(st.classes[k].line, w, place);
  }

  lemma AsidePlaced(st: State, k: Key, w: Id, place: map<Id, Place>)
    requires k in st.classes && AllPlaced(st, place)
    ensures AllPlaced(Aside(st, k, w), place)
  {
    hide Removed, Placed;
    RemovedPlaced(st.classes[k].line, w, place);
  }

  /** A member keeps the place it joined with. */
  lemma PlacesNoted(capacity: map<Key, int>, x: World, b: Book, e: Event)
    requires Good(capacity, x) && Legal(x, e) && Matches(x.pool, b)
    ensures AllPlaced(Happens(capacity, x, e).pool, Noted(capacity, b, e, Answer(capacity, x, e)).place)
  {
    hide Placed, SoundAt, NotStranded, Removed, Inserted, IndexOf, HeadAt, SortedLine;
    match e
    case Enter(k, w, order, max) =>
      if k in capacity {
        ClassForSound(capacity, x.pool, k);
        ClassForPlaced(x.pool, k, capacity[k], b.place);
        if w !in b.holding && w !in b.lined {
          JoinPlaced(capacity, ClassFor(x.pool, k, capacity[k]), k, w, order, b.place);
        }
      }
    case Ask(k, w, order) =>
      if k in capacity {
        ClassForSound(capacity, x.pool, k);
        ClassForPlaced(x.pool, k, capacity[k], b.place);
        if w !in b.holding {
          AskPlaced(capacity, ClassFor(x.pool, k, capacity[k]), k, w, order, b.place);
        }
      }
    case Recover(k, w) =>
      if k in capacity {
        ClassForPlaced(x.pool, k, capacity[k], b.place);
        ForgetPlaced(ClassFor(x.pool, k, capacity[k]), k, w, b.place);
      }
    case Leave(w) =>
      if w !in b.holding && w in b.lined {
        ForgetPlaced(x.pool, b.lined[w], w, b.place);
      }
    case StepAside(w) =>
      if w in b.lined && w !in b.aside {
        AsidePlaced(x.pool, b.lined[w], w, b.place);
      }
  }

  lemma AskPlaced(capacity: map<Key, int>, st: State, k: Key, w: Id, order: Place, place: map<Id, Place>)
    requires Sound(capacity, st) && k in st.classes && OwnKey(st, k, w) && w !in st.holders && AllPlaced(st, place)
    ensures (var at := InPlace(st, k, w, order);
             var now := if w in st.pending && w !in st.sidelined then place else place[w := order];
             k in at.classes && AllPlaced(at, now) && k in Forget(at, k, w).classes && AllPlaced(Seize(Forget(at, k, w), k, w), now))
  {
    hide Placed, SoundAt, Removed, Inserted, IndexOf, SortedLine;
    WhereIs(capacity, st, k, w);
    var at := InPlace(st, k, w, order);
    var now := if w in st.pending && w !in st.sidelined then place else place[w := order];
    if w !in st.pending || w in st.sidelined {
      JoinPlaced(capacity, st, k, w, order, place);
    }
    ForgetPlaced(at, k, w, now);
    ForgetKeeps(at, k, w);
  }

  function Books(capacity: map<Key, int>, x: World, b: Book, es: seq<Event>): Book
    decreases es
  {
    if es == [] then b else Books(capacity, Happens(capacity, x, es[0]), Noted(capacity, b, es[0], Answer(capacity, x, es[0])), es[1..])
  }

  lemma {:induction false} RunsMatch(capacity: map<Key, int>, x: World, b: Book, es: seq<Event>)
    requires Good(capacity, x) && AllLegal(capacity, x, es) && Matches(x.pool, b)
    ensures Good(capacity, Ran(capacity, x, es)) && Matches(Ran(capacity, x, es).pool, Books(capacity, x, b, es))
    decreases |es|
  {
    hide Good, Legal, Happens, Noted, Matches, Answer;
    if es != [] {
      EventGood(capacity, x, es[0]);
      EventMatches(capacity, x, b, es[0]);
      RunsMatch(capacity, Happens(capacity, x, es[0]), Noted(capacity, b, es[0], Answer(capacity, x, es[0])), es[1..]);
    }
  }

  lemma EventMatches(capacity: map<Key, int>, x: World, b: Book, e: Event)
    requires Good(capacity, x) && Legal(x, e) && Matches(x.pool, b)
    ensures Matches(Happens(capacity, x, e).pool, Noted(capacity, b, e, Answer(capacity, x, e)))
  {
    MembersNoted(capacity, x, b, e);
    PlacesNoted(capacity, x, b, e);
    hide Happens, Noted, Answer, Placed;
  }

  /** Over every run the pool's records are what its answers told: the holders
      are the members granted and not released, the pending ones those
      admitted or refused since, each in line at the place it joined with
      unless set aside. */
  lemma CallersToldTrue(capacity: map<Key, int>, es: seq<Event>)
    requires AllLegal(capacity, Empty, es)
    ensures Matches(Ran(capacity, Empty, es).pool, Books(capacity, Empty, Blank, es))
  {
    assert Good(capacity, Empty);
    RunsMatch(capacity, Empty, Blank, es);
  }

  // ---- One pending limit

  /** Every admission of k is under the limit, and no member asks for k before
      it was admitted. */
  predicate Limits(x: World, e: Event, k: Key, limit: int) {
    && (e.Enter? && e.k == k ==> e.maxPending == limit)
    && (e.Ask? && e.k == k ==> e.w in x.pool.holders || e.w in x.pool.pending)
  }

  predicate AllLimit(capacity: map<Key, int>, x: World, es: seq<Event>, k: Key, limit: int)
    decreases es
  {
    es == [] || (Limits(x, es[0], k, limit) && AllLimit(capacity, Happens(capacity, x, es[0]), es[1..], k, limit))
  }

  lemma PendingNotOver(capacity: map<Key, int>, x: World, e: Event, k: Key, limit: int)
    requires Good(capacity, x) && Legal(x, e) && Limits(x, e, k, limit) && limit > 0
    requires |PendingOf(x.pool, k)| <= limit
    ensures |PendingOf(Happens(capacity, x, e).pool, k)| <= limit
  {
    hide Sound, SoundAt, NotStranded, Removed, Inserted, IndexOf, HeadAt, HoldStrands, HoldersOf;
    var t := Happens(capacity, x, e).pool;
    match e
    case Enter(j, w, order, max) =>
      AdmitAnswers(capacity, x.pool, j, w, order, max);
      if PendingOf(t, k) != PendingOf(x.pool, k) {
        assert j == k && PendingOf(t, k) == PendingOf(x.pool, k) + {w};
      }
    case Ask(j, w, order) =>
      var n := AcquireAnswers(capacity, x.pool, j, w, order);
      FewerPending(x.pool, t, k, w);
    case Recover(_, w) => FewerPending(x.pool, t, k, w);
    case Leave(w) => FewerPending(x.pool, t, k, w);
    case StepAside(w) => FewerPending(x.pool, t, k, w);
  }

  lemma FewerPending(st: State, t: State, k: Key, w: Id)
    ensures PendingOf(t, k) <= PendingOf(st, k) ==> |PendingOf(t, k)| <= |PendingOf(st, k)|
  {
    if PendingOf(t, k) <= PendingOf(st, k) {
      assert PendingOf(st, k) == PendingOf(t, k) + (PendingOf(st, k) - PendingOf(t, k));
    }
  }

  /** Under one positive limit a class never has more pending members. */
  lemma {:induction false} PendingWithin(capacity: map<Key, int>, x: World, es: seq<Event>, k: Key, limit: int)
    requires Good(capacity, x) && AllLegal(capacity, x, es) && AllLimit(capacity, x, es, k, limit) && limit > 0
    requires |PendingOf(x.pool, k)| <= limit
    ensures |PendingOf(Ran(capacity, x, es).pool, k)| <= limit
    decreases |es|
  {
    hide Good, Legal, Happens, Limits, PendingOf;
    if es != [] {
      EventGood(capacity, x, es[0]);
      PendingNotOver(capacity, x, es[0], k, limit);
      PendingWithin(capacity, Happens(capacity, x, es[0]), es[1..], k, limit);
    }
  }

  // ---- The pool, in place

  /** slices.BinarySearchFunc. */
  method Search(line: seq<Waiter>, order: Place) returns (i: nat)
    requires SortedLine(line)
    ensures i == PlaceFor(line, order) && i <= |line|
  {
    var lo, hi := 0, |line|;
    while lo < hi
      invariant 0 <= lo <= hi <= |line|
      invariant forall j | 0 <= j < lo :: line[j].order < order
      invariant forall j | hi <= j < |line| :: line[j].order >= order
    {
      var mid := (lo + hi) / 2;
      if line[mid].order < order {
        lo := mid + 1;
      } else {
        hi := mid;
      }
    }
    i := lo;
    PlaceUnique(line, order, i);
  }

  lemma {:induction false} PlaceUnique(line: seq<Waiter>, order: Place, i: nat)
    requires i <= |line|
    requires forall j | 0 <= j < i :: line[j].order < order
    requires forall j | i <= j < |line| :: line[j].order >= order
    ensures i == PlaceFor(line, order)
  {
    if i > 0 {
      assert line[0].order < order;
      PlaceUnique(line[1..], order, i - 1);
    }
  }

  /** slices.IndexFunc. */
  method Find(line: seq<Waiter>, w: Id) returns (i: int)
    ensures i == IndexOf(line, w)
  {
    i := 0;
    assert line[0..] == line;
    while i < |line|
      invariant 0 <= i <= |line|
      invariant IndexOf(line, w) == if IndexOf(line[i..], w) < 0 then -1 else i + IndexOf(line[i..], w)
      decreases |line| - i
    {
      if line[i].w == w {
        return;
      }
      assert line[i..][1..] == line[i + 1..];
      i := i + 1;
    }
    assert line[i..] == [];
    i := -1;
  }

  class Pool {
    const capacity: map<Key, int>
    var classes: map<Key, Class>
    var holders: map<Id, Key>
    var pending: map<Id, Key>
    var sidelined: set<Id>
    var parked: set<Id>

    ghost function View(): State
      reads this
    {
      State(classes, holders, pending, sidelined, parked)
    }

    constructor (capacity: map<Key, int>)
      ensures this.capacity == capacity && View() == Empty.pool
    {
      this.capacity := capacity;
      classes, holders, pending, sidelined, parked := map[], map[], map[], {}, {};
    }

    method MakeClass(k: Key)
      requires k in capacity
      modifies this`classes
      ensures View() == ClassFor(old(View()), k, capacity[k])
    {
      if k !in classes {
        classes := classes[k := Class(capacity[k], 0, [], 0)];
      }
    }

    /** insert, and its index. */
    method Insert(k: Key, w: Id, order: Place) returns (i: nat)
      requires k in classes && SortedLine(classes[k].line)
      modifies this`classes
      ensures classes == old(classes)[k := old(classes)[k].(line := Inserted(old(classes)[k].line, Waiter(w, order)))]
      ensures i == PlaceFor(old(classes)[k].line, order)
    {
      var c := classes[k];
      i := Search(c.line, order);
      classes := classes[k := c.(line := c.line[..i] + [Waiter(w, order)] + c.line[i..])];
    }

    method DropFromLine(k: Key, w: Id)
      requires k in classes
      modifies this`classes
      ensures classes == old(classes)[k := old(classes)[k].(line := Removed(old(classes)[k].line, w))]
    {
      var c := classes[k];
      var i := Find(c.line, w);
      IndexOfIs(c.line, w);
      if i >= 0 {
        classes := classes[k := c.(line := c.line[..i] + c.line[i + 1..])];
      } else {
        assert classes == classes[k := c.(line := Removed(c.line, w))];
      }
    }

    method AdmitMember(k: Key, w: Id, order: Place, maxPending: int) returns (admitted: bool)
      requires Sound(capacity, View())
      modifies this
      ensures (View(), admitted) == Admit(capacity, old(View()), k, w, order, maxPending)
    {
      hide SortedLine, Inserted, PlaceFor, Sound;
      if k !in capacity {
        return true;
      }
      ClassForSound(capacity, View(), k);
      MakeClass(k);
      if w in holders || w in pending {
        return true;
      }
      if maxPending > 0 && |classes[k].line| + classes[k].sidelined >= maxPending {
        return false;
      }
      ghost var st := View();
      SoundLine(capacity, st, k);
      NotAside(capacity, st, w);
      pending := pending[w := k];
      var i := Insert(k, w, order);
      assert sidelined == sidelined - {w};
      admitted := true;
    }

    method AcquireToken(k: Key, w: Id, order: Place) returns (granted: bool, kicks: seq<Id>)
      requires Sound(capacity, View()) && OwnKey(View(), k, w)
      modifies this
      ensures (View(), granted, kicks) == Acquire(capacity, old(View()), k, w, order)
    {
      hide SortedLine, Inserted, Removed, PlaceFor, IndexOf, Sound;
      if k !in capacity {
        return true, [];
      }
      ClassForSound(capacity, View(), k);
      MakeClass(k);
      if w in holders {
        return true, [];
      }
      ghost var st := View();
      var idx := TakePlace(k, w, order);
      PlacedAt(capacity, st, k, w, order);
      if classes[k].inUse + idx >= classes[k].capacity {
        parked := parked + {w};
        return false, [];
      }
      ghost var at := View();
      DropFromLine(k, w);
      parked := parked - {w};
      pending := pending - {w};
      assert sidelined - {w} == sidelined;
      assert View() == Forget(at, k, w);
      classes := classes[k := classes[k].(inUse := classes[k].inUse + 1)];
      holders := holders[w := k];
      granted := true;
      kicks := HeadOf(classes[k]);
    }

    /** w's index in line, joining it first when it is not there: it was never
        admitted, or was set aside. */
    method TakePlace(k: Key, w: Id, order: Place) returns (idx: int)
      requires Sound(capacity, View()) && OwnKey(View(), k, w) && k in classes && w !in holders
      modifies this`classes, this`pending, this`sidelined
      ensures View() == InPlace(old(View()), k, w, order) && k in classes
      ensures idx == IndexOf(classes[k].line, w)
    {
      hide SortedLine, Inserted, Removed, PlaceFor, IndexOf, Sound, InLine;
      ghost var st := View();
      SoundLine(capacity, st, k);
      WhereIs(capacity, st, k, w);
      if w !in pending {
        pending := pending[w := k];
      }
      assert pending == st.pending[w := k];
      idx := Find(classes[k].line, w);
      if idx < 0 {
        JoinSound(capacity, st, k, w, order);
        if w in sidelined {
          sidelined := sidelined - {w};
          classes := classes[k := classes[k].(sidelined := classes[k].sidelined - 1)];
        }
        idx := Insert(k, w, order);
        assert sidelined == st.sidelined - {w};
        assert View() == Join(st, k, w, order);
      } else {
        assert pending == st.pending;
      }
    }

    method HoldToken(k: Key, w: Id)
      requires Sound(capacity, View()) && OwnKey(View(), k, w)
      modifies this
      ensures View() == Hold(capacity, old(View()), k, w)
    {
      hide SortedLine, Removed, Sound;
      if k !in capacity {
        return;
      }
      MakeClass(k);
      if w in holders {
        return;
      }
      ForgetMember(k, w);
      classes := classes[k := classes[k].(inUse := classes[k].inUse + 1)];
      holders := holders[w := k];
    }

    method ForgetMember(k: Key, w: Id)
      requires k in classes
      modifies this
      ensures View() == Forget(old(View()), k, w)
    {
      hide Removed;
      if w !in pending {
        return;
      }
      pending := pending - {w};
      parked := parked - {w};
      if w in sidelined {
        sidelined := sidelined - {w};
        classes := classes[k := classes[k].(sidelined := classes[k].sidelined - 1)];
        return;
      }
      DropFromLine(k, w);
      assert sidelined == sidelined - {w};
    }

    method ReleaseMember(w: Id) returns (kicks: seq<Id>)
      requires Sound(capacity, View())
      modifies this
      ensures (View(), kicks) == Release(old(View()), w)
    {
      if w in holders {
        var k := holders[w];
        holders := holders - {w};
        classes := classes[k := classes[k].(inUse := classes[k].inUse - 1)];
        kicks := HeadOf(classes[k]);
      } else if w in pending {
        var k := pending[w];
        ForgetMember(k, w);
        kicks := HeadOf(classes[k]);
      } else {
        kicks := [];
      }
    }

    method ClearMember(w: Id) returns (kicks: seq<Id>)
      requires Sound(capacity, View())
      modifies this
      ensures (View(), kicks) == Clear(old(View()), w)
    {
      kicks := [];
      if w !in pending || w in sidelined {
        return;
      }
      hide Removed, Sound;
      var k := pending[w];
      DropFromLine(k, w);
      parked := parked - {w};
      sidelined := sidelined + {w};
      classes := classes[k := classes[k].(sidelined := classes[k].sidelined + 1)];
      assert classes == Aside(old(View()), k, w).classes;
      kicks := HeadOf(classes[k]);
    }
  }

  lemma SoundLine(capacity: map<Key, int>, st: State, k: Key)
    requires Sound(capacity, st) && k in st.classes
    ensures SortedLine(st.classes[k].line)
  {
    assert SoundAt(st, k);
  }

  lemma NotAside(capacity: map<Key, int>, st: State, w: Id)
    requires Sound(capacity, st) && w !in st.pending
    ensures w !in st.sidelined
  {
  }

  /** Out of line, a pending member is set aside. */
  lemma WhereIs(capacity: map<Key, int>, st: State, k: Key, w: Id)
    requires Sound(capacity, st) && k in st.classes && OwnKey(st, k, w) && w !in st.holders
    ensures IndexOf(st.classes[k].line, w) < 0 <==> w !in st.pending || w in st.sidelined
    ensures w !in st.pending ==> w !in st.sidelined
    ensures w in st.pending ==> st.pending[w] == k
  {
    assert SoundAt(st, k);
    IndexOfIs(st.classes[k].line, w);
    assert w in PendingOf(st, k) <==> w in st.pending;
    assert w in AsideOf(st, k) <==> w in st.pending && w in st.sidelined;
  }

  lemma PlacedAt(capacity: map<Key, int>, st: State, k: Key, w: Id, order: Place)
    requires Sound(capacity, st) && k in st.classes && OwnKey(st, k, w) && w !in st.holders
    ensures (var at := InPlace(st, k, w, order); w in at.pending && w !in at.sidelined)
  {
    hide SortedLine, Inserted, IndexOf;
    WhereIs(capacity, st, k, w);
  }
}
