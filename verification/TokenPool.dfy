/** internal/tokenpool: tokens per class, FIFO queues of parked waiters, and
    the kicks the caller owes them. */
module TokenPool {
  import opened Bytes
  import opened Records

  /** A concurrency class; waiters are Runs. */
  type Key = Blob

  datatype Class = Class(capacity: int, inUse: int, waiters: seq<Id>)

  /** The class a waiter is parked on, and since when. */
  datatype Park = Park(key: Key, since: int)

  datatype State = State(classes: map<Key, Class>, parked: map<Id, Park>)

  datatype Grant = Grant(granted: bool, held: bool, waited: int, kicks: seq<Id>)

  /** slices.DeleteFunc of one waiter. */
  function Without(s: seq<Id>, w: Id): seq<Id> {
    if s == [] then [] else (if s[0] == w then [] else [s[0]]) + Without(s[1..], w)
  }

  /** nextWaiter: the head, when the class has a free token. */
  function NextWaiter(c: Class): seq<Id> {
    if c.inUse < c.capacity && |c.waiters| > 0 then [c.waiters[0]] else []
  }

  /** w leaves the queue it is in; the capacity that exposes is handed on. */
  function Leave(st: State, w: Id): State {
    if w !in st.parked then st
    else
      var k := st.parked[w].key;
      State(if k in st.classes then st.classes[k := st.classes[k].(waiters := Without(st.classes[k].waiters, w))] else st.classes,
            st.parked - {w})
  }

  function Exposed(st: State, w: Id): seq<Id> {
    if w in st.parked && st.parked[w].key in Leave(st, w).classes then NextWaiter(Leave(st, w).classes[st.parked[w].key]) else []
  }

  function ParkedAt(st: State, w: Id, k: Key): bool {
    w in st.parked && st.parked[w].key == k
  }

  function Ensure(st: State, k: Key, capacity: int): State {
    if k in st.classes then st else st.(classes := st.classes[k := Class(capacity, 0, [])])
  }

  function Take(st: State, k: Key): State
    requires k in st.classes
  {
    st.(classes := st.classes[k := st.classes[k].(inUse := st.classes[k].inUse + 1)])
  }

  function Enqueue(st: State, w: Id, p: Park): State
    requires p.key in st.classes
  {
    var c := st.classes[p.key];
    State(st.classes[p.key := if w in c.waiters then c else c.(waiters := c.waiters + [w])], st.parked[w := p])
  }

  function Acquire(capacity: map<Key, int>, st0: State, k: Key, w: Id, bypass: bool, now: int): (State, Grant) {
    if bypass || k !in capacity then (Leave(st0, w), Grant(true, false, 0, Exposed(st0, w)))
    else
      var st := Ensure(st0, k, capacity[k]);
      var same := ParkedAt(st, w, k);
      if st.classes[k].inUse < st.classes[k].capacity then
        var taken := Take(Leave(st, w), k);
        (taken,
         Grant(true, true, if w in st.parked then now - st.parked[w].since else 0,
               (if same then [] else Exposed(st, w)) + NextWaiter(taken.classes[k])))
      else if same then (st, Grant(false, false, 0, []))
      else
        (Enqueue(Leave(st, w), w, Park(k, if w in st.parked then st.parked[w].since else now)),
         Grant(false, false, 0, Exposed(st, w)))
  }

  /** A token that was never held is not released: the source panics. */
  function Release(st: State, k: Key): (State, seq<Id>)
    requires k in st.classes && st.classes[k].inUse > 0
  {
    var c := st.classes[k].(inUse := st.classes[k].inUse - 1);
    (st.(classes := st.classes[k := c]), NextWaiter(c))
  }

  function Clear(st: State, w: Id): (State, seq<Id>) {
    (Leave(st, w), Exposed(st, w))
  }

  // ---- Invariants

  function Kicked(kicks: seq<Id>): set<Id> {
    set x | x in kicks
  }

  ghost predicate NoRepeats(s: seq<Id>) {
    forall i, j | 0 <= i < j < |s| :: s[i] != s[j]
  }

  /** Use stays within capacity, and a waiter is queued once, on exactly the
      class it is parked on. */
  ghost predicate Sound(capacity: map<Key, int>, st: State) {
    && (forall k | k in st.classes ::
          && k in capacity && st.classes[k].capacity == capacity[k]
          && 0 <= st.classes[k].inUse && (st.classes[k].inUse > 0 ==> st.classes[k].inUse <= capacity[k])
          && NoRepeats(st.classes[k].waiters))
    && (forall w | w in st.parked :: st.parked[w].key in st.classes)
    && (forall k, w :: k in st.classes ==> (w in st.classes[k].waiters <==> ParkedAt(st, w, k)))
  }

  /** No queue is stranded: a free token over a queue means its head is owed
      a kick. */
  ghost predicate NotStranded(st: State, owed: set<Id>) {
    forall k | k in st.classes :: HeadOwed(st.classes[k], owed)
  }

  ghost predicate HeadOwed(c: Class, owed: set<Id>) {
    c.inUse < c.capacity && c.waiters != [] ==> c.waiters[0] in owed
  }

  lemma {:induction false} WithoutIs(s: seq<Id>, w: Id)
    ensures forall x :: x in Without(s, w) <==> x in s && x != w
    ensures NoRepeats(s) ==> NoRepeats(Without(s, w))
    ensures w !in s ==> Without(s, w) == s
  {
    if s != [] {
      WithoutIs(s[1..], w);
      assert s == [s[0]] + s[1..];
      if NoRepeats(s) {
        assert NoRepeats(s[1..]) && s[0] !in s[1..];
      }
    }
  }

  /** Leaving keeps the order of the others: no waiter moves back. */
  lemma {:induction false} WithoutMovesUp(s: seq<Id>, w: Id, i: nat)
    requires i < |s| && s[i] != w
    ensures exists j :: 0 <= j <= i && j < |Without(s, w)| && Without(s, w)[j] == s[i]
  {
    if i == 0 {
      assert Without(s, w)[0] == s[0];
    } else {
      WithoutMovesUp(s[1..], w, i - 1);
      var rest := Without(s[1..], w);
      var j :| 0 <= j <= i - 1 && j < |rest| && rest[j] == s[i];
      if s[0] == w {
        assert Without(s, w)[j] == s[i];
      } else {
        assert Without(s, w)[j + 1] == s[i];
      }
    }
  }

  lemma LeaveSound(capacity: map<Key, int>, st: State, w: Id)
    requires Sound(capacity, st)
    ensures Sound(capacity, Leave(st, w)) && w !in Leave(st, w).parked
    ensures Leave(st, w).classes.Keys == st.classes.Keys
    ensures forall k | k in st.classes :: Leave(st, w).classes[k] == st.classes[k].(waiters := Leave(st, w).classes[k].waiters)
    ensures forall k | k in st.classes && !ParkedAt(st, w, k) :: Leave(st, w).classes[k] == st.classes[k]
    ensures forall k | k in st.classes :: w !in Leave(st, w).classes[k].waiters
  {
    if w in st.parked {
      WithoutIs(st.classes[st.parked[w].key].waiters, w);
    }
  }

  lemma LeaveNotStranded(capacity: map<Key, int>, st: State, w: Id, owed: set<Id>)
    requires Sound(capacity, st) && NotStranded(st, owed)
    ensures NotStranded(Leave(st, w), (owed - {w}) + Kicked(Exposed(st, w)))
  {
    LeaveSound(capacity, st, w);
    forall k | k in st.classes ensures HeadOwed(Leave(st, w).classes[k], (owed - {w}) + Kicked(Exposed(st, w))) {
      assert HeadOwed(st.classes[k], owed);
      if ParkedAt(st, w, k) {
        ExposedOwed(st, w, k, owed);
      } else {
        OthersOwed(capacity, st, w, k, owed);
      }
    }
  }

  lemma ExposedOwed(st: State, w: Id, k: Key, owed: set<Id>)
    requires ParkedAt(st, w, k) && k in st.classes
    ensures HeadOwed(Leave(st, w).classes[k], (owed - {w}) + Kicked(Exposed(st, w)))
  {
  }

  /** A class w is not parked on is as before, and w is not its head. */
  lemma OthersOwed(capacity: map<Key, int>, st: State, w: Id, k: Key, owed: set<Id>)
    requires Sound(capacity, st) && k in st.classes && HeadOwed(st.classes[k], owed) && !ParkedAt(st, w, k)
    ensures HeadOwed(st.classes[k], owed - {w})
  {
    assert w !in st.classes[k].waiters;
    assert st.classes[k].waiters != [] ==> st.classes[k].waiters[0] in st.classes[k].waiters;
  }

  // ---- The pool in use

  /** The pool, the kicks not yet acted on, and what its callers were told:
      the tokens they were granted and have not returned, and for each waiter
      refused and not yet through, the class it last asked for and the time of
      its first refusal. A kick to w is acted on when w asks again or is
      cleared. */
  datatype World = World(pool: State, owed: set<Id>, held: multiset<Key>, refused: map<Id, Park>)

  datatype Event =
    | Ask(k: Key, w: Id, bypass: bool, now: int)
    | Return(k: Key)
    | Resolve(w: Id)

  ghost predicate Served(capacity: map<Key, int>, x: World) {
    Sound(capacity, x.pool) && NotStranded(x.pool, x.owed) && HeldCounts(x.pool, x.held)
  }

  ghost predicate Good(capacity: map<Key, int>, x: World) {
    Served(capacity, x) && x.refused == x.pool.parked
  }

  /** A caller returns only tokens it holds. */
  predicate Legal(x: World, e: Event) {
    e.Return? ==> e.k in x.held
  }

  /** Returning a token that is not out is no step: the source panics. */
  function Happens(capacity: map<Key, int>, x: World, e: Event): World {
    match e
    case Ask(k, w, bypass, now) =>
      var (p, g) := Acquire(capacity, x.pool, k, w, bypass, now);
      World(p, (x.owed - {w}) + Kicked(g.kicks), if g.granted && g.held then x.held + multiset{k} else x.held,
            if g.granted then x.refused - {w} else x.refused[w := Park(k, if w in x.refused then x.refused[w].since else now)])
    case Return(k) =>
      if k in x.pool.classes && x.pool.classes[k].inUse > 0 then
        var (p, kicks) := Release(x.pool, k);
        World(p, x.owed + Kicked(kicks), x.held - multiset{k}, x.refused)
      else x
    case Resolve(w) =>
      var (p, kicks) := Clear(x.pool, w);
      World(p, (x.owed - {w}) + Kicked(kicks), x.held, x.refused - {w})
  }

  lemma EnsureGood(capacity: map<Key, int>, st: State, k: Key, owed: set<Id>)
    requires Sound(capacity, st) && NotStranded(st, owed) && k in capacity
    ensures Sound(capacity, Ensure(st, k, capacity[k])) && NotStranded(Ensure(st, k, capacity[k]), owed)
  {
    if k !in st.classes {
      assert forall w :: !ParkedAt(st, w, k);
    }
  }

  lemma TakeSound(capacity: map<Key, int>, st: State, k: Key)
    requires Sound(capacity, st) && k in st.classes && st.classes[k].inUse < st.classes[k].capacity
    ensures Sound(capacity, Take(st, k))
  {
    forall j, w ensures ParkedAt(Take(st, k), w, j) == ParkedAt(st, w, j) {
    }
  }

  lemma EnqueueSound(capacity: map<Key, int>, st: State, w: Id, p: Park)
    requires Sound(capacity, st) && p.key in st.classes && w !in st.parked
    ensures Sound(capacity, Enqueue(st, w, p))
    ensures w !in st.classes[p.key].waiters
  {
    var c := st.classes[p.key];
    assert !ParkedAt(st, w, p.key);
    assert w !in c.waiters;
    assert forall y :: y in c.waiters + [w] <==> y in c.waiters || y == w;
    assert NoRepeats(c.waiters + [w]);
    forall j | j in st.classes && j != p.key ensures w !in st.classes[j].waiters {
      assert !ParkedAt(st, w, j);
    }
  }

  /** The cascade: with tokens left, the new head is named. */
  lemma CascadeOwed(st: State, k: Key, owed: set<Id>)
    requires k in st.classes && forall j | j in st.classes && j != k :: HeadOwed(st.classes[j], owed)
    ensures NotStranded(st, owed + Kicked(NextWaiter(st.classes[k])))
  {
    forall j | j in st.classes ensures HeadOwed(st.classes[j], owed + Kicked(NextWaiter(st.classes[k]))) {
      if j != k {
        assert HeadOwed(st.classes[j], owed);
      }
    }
  }

  lemma KickedBoth(a: seq<Id>, b: seq<Id>)
    ensures Kicked(a + b) == Kicked(a) + Kicked(b)
  {
  }

  lemma Granted(capacity: map<Key, int>, st: State, k: Key, w: Id, owed: set<Id>)
    requires Sound(capacity, st) && NotStranded(st, owed) && k in st.classes && st.classes[k].inUse < st.classes[k].capacity
    ensures k in Leave(st, w).classes
    ensures (var taken := Take(Leave(st, w), k);
             && Sound(capacity, taken)
             && NotStranded(taken, (owed - {w}) + Kicked((if ParkedAt(st, w, k) then [] else Exposed(st, w)) + NextWaiter(taken.classes[k]))))
  {
    LeaveSound(capacity, st, w);
    LeaveNotStranded(capacity, st, w, owed);
    TakeSound(capacity, Leave(st, w), k);
    var taken, base := Take(Leave(st, w), k), if ParkedAt(st, w, k) then [] else Exposed(st, w);
    forall j | j in taken.classes && j != k ensures HeadOwed(taken.classes[j], (owed - {w}) + Kicked(base)) {
      assert HeadOwed(Leave(st, w).classes[j], (owed - {w}) + Kicked(Exposed(st, w)));
      if ParkedAt(st, w, k) {
        assert HeadOwed(st.classes[j], owed);
        OthersOwed(capacity, st, w, j, owed);
      }
    }
    CascadeOwed(taken, k, (owed - {w}) + Kicked(base));
    KickedBoth(base, NextWaiter(taken.classes[k]));
    assert (owed - {w}) + Kicked(base) + Kicked(NextWaiter(taken.classes[k])) == (owed - {w}) + (Kicked(base) + Kicked(NextWaiter(taken.classes[k])));
  }

  lemma Refused(capacity: map<Key, int>, st: State, k: Key, w: Id, since: int, owed: set<Id>)
    requires Sound(capacity, st) && NotStranded(st, owed) && k in st.classes && st.classes[k].inUse >= st.classes[k].capacity
    ensures ParkedAt(st, w, k) ==> NotStranded(st, owed - {w})
    ensures k in Leave(st, w).classes
    ensures !ParkedAt(st, w, k) ==> Sound(capacity, Enqueue(Leave(st, w), w, Park(k, since)))
    ensures !ParkedAt(st, w, k) ==> NotStranded(Enqueue(Leave(st, w), w, Park(k, since)), (owed - {w}) + Kicked(Exposed(st, w)))
  {
    LeaveSound(capacity, st, w);
    LeaveNotStranded(capacity, st, w, owed);
    EnqueueSound(capacity, Leave(st, w), w, Park(k, since));
    if ParkedAt(st, w, k) {
      forall j | j in st.classes ensures HeadOwed(st.classes[j], owed - {w}) {
        assert HeadOwed(st.classes[j], owed);
        if j != k {
          OthersOwed(capacity, st, w, j, owed);
        }
      }
    } else {
      FullEnqueue(Leave(st, w), w, Park(k, since), (owed - {w}) + Kicked(Exposed(st, w)));
    }
  }

  lemma FullEnqueue(st: State, w: Id, p: Park, owed: set<Id>)
    requires NotStranded(st, owed) && p.key in st.classes && st.classes[p.key].inUse >= st.classes[p.key].capacity
    ensures NotStranded(Enqueue(st, w, p), owed)
  {
  }

  lemma AskGood(capacity: map<Key, int>, x: World, e: Event)
    requires Served(capacity, x) && e.Ask?
    ensures Served(capacity, Happens(capacity, x, e))
  {
    if e.bypass || e.k !in capacity {
      LeaveSound(capacity, x.pool, e.w);
      LeaveNotStranded(capacity, x.pool, e.w, x.owed);
    } else {
      EnsureGood(capacity, x.pool, e.k, x.owed);
      var st := Ensure(x.pool, e.k, capacity[e.k]);
      assert HeldCounts(st, x.held);
      if st.classes[e.k].inUse < st.classes[e.k].capacity {
        AskGranted(capacity, x, st, e);
      } else {
        AskRefused(capacity, x, st, e);
      }
    }
  }

  lemma AskGranted(capacity: map<Key, int>, x: World, st: State, e: Event)
    requires Served(capacity, x) && e.Ask? && !e.bypass && e.k in capacity && st == Ensure(x.pool, e.k, capacity[e.k])
    requires Sound(capacity, st) && NotStranded(st, x.owed) && HeldCounts(st, x.held) && st.classes[e.k].inUse < st.classes[e.k].capacity
    ensures Served(capacity, Happens(capacity, x, e))
  {
    hide Sound, NotStranded, Leave, Exposed, ParkedAt, Kicked, NextWaiter, Without, HeldCounts;
    LeaveSound(capacity, st, e.w);
    Granted(capacity, st, e.k, e.w, x.owed);
    LeaveHeld(st, e.w, x.held);
    TakeHeld(Leave(st, e.w), e.k, x.held);
  }

  lemma AskRefused(capacity: map<Key, int>, x: World, st: State, e: Event)
    requires Served(capacity, x) && e.Ask? && !e.bypass && e.k in capacity && st == Ensure(x.pool, e.k, capacity[e.k])
    requires Sound(capacity, st) && NotStranded(st, x.owed) && HeldCounts(st, x.held) && st.classes[e.k].inUse >= st.classes[e.k].capacity
    ensures Served(capacity, Happens(capacity, x, e))
  {
    hide Sound, NotStranded, Leave, Exposed, ParkedAt, Kicked, NextWaiter, Without, HeldCounts;
    var since := if e.w in st.parked then st.parked[e.w].since else e.now;
    LeaveSound(capacity, st, e.w);
    Refused(capacity, st, e.k, e.w, since, x.owed);
    LeaveHeld(st, e.w, x.held);
    EnqueueHeld(Leave(st, e.w), e.w, Park(e.k, since), x.held);
    NoKicks();
    assert (x.owed - {e.w}) + {} == x.owed - {e.w};
  }

  ghost predicate HeldCounts(st: State, held: multiset<Key>) {
    forall k :: held[k] == if k in st.classes then st.classes[k].inUse else 0
  }

  lemma LeaveHeld(st: State, w: Id, held: multiset<Key>)
    requires HeldCounts(st, held)
    ensures HeldCounts(Leave(st, w), held)
  {
  }

  lemma TakeHeld(st: State, k: Key, held: multiset<Key>)
    requires HeldCounts(st, held) && k in st.classes
    ensures HeldCounts(Take(st, k), held + multiset{k})
  {
  }

  lemma EnqueueHeld(st: State, w: Id, p: Park, held: multiset<Key>)
    requires HeldCounts(st, held) && p.key in st.classes
    ensures HeldCounts(Enqueue(st, w, p), held)
  {
  }

  lemma NoKicks()
    ensures Kicked([]) == {}
  {
  }

  lemma EventServes(capacity: map<Key, int>, x: World, e: Event)
    requires Served(capacity, x) && Legal(x, e)
    ensures Served(capacity, Happens(capacity, x, e))
  {
    match e
    case Ask(_, _, _, _) => AskGood(capacity, x, e);
    case Return(k) =>
      var p := Release(x.pool, k).0;
      forall j, w | j in p.classes ensures w in p.classes[j].waiters <==> ParkedAt(p, w, j) {
        assert ParkedAt(p, w, j) == ParkedAt(x.pool, w, j);
      }
    case Resolve(w) =>
      LeaveSound(capacity, x.pool, w);
      LeaveNotStranded(capacity, x.pool, w, x.owed);
  }

  lemma RefusedTracked(capacity: map<Key, int>, x: World, e: Event)
    requires x.refused == x.pool.parked
    ensures Happens(capacity, x, e).refused == Happens(capacity, x, e).pool.parked
  {
    hide Without, NextWaiter, Kicked;
    if e.Ask? && !e.bypass && e.k in capacity {
      var st := Ensure(x.pool, e.k, capacity[e.k]);
      assert ParkedAt(st, e.w, e.k) ==> st.parked == st.parked[e.w := st.parked[e.w]];
      assert Leave(st, e.w).parked == st.parked - {e.w};
    }
  }

  /** Every event keeps the pool sound, its accounts right, no queue stranded,
      and what the callers were told true. */
  lemma EventGood(capacity: map<Key, int>, x: World, e: Event)
    requires Good(capacity, x) && Legal(x, e)
    ensures Good(capacity, Happens(capacity, x, e))
  {
    EventServes(capacity, x, e);
    RefusedTracked(capacity, x, e);
    hide Served, Happens;
  }

  const Empty := World(State(map[], map[]), {}, multiset{}, map[])

  function Ran(capacity: map<Key, int>, x: World, es: seq<Event>): World
    decreases es
  {
    if es == [] then x else Ran(capacity, Happens(capacity, x, es[0]), es[1..])
  }

  predicate AllLegal(capacity: map<Key, int>, x: World, es: seq<Event>)
    decreases es
  {
    es == [] || (Legal(x, es[0]) && AllLegal(capacity, Happens(capacity, x, es[0]), es[1..]))
  }

  /** Every run of a pool, from any good state, stays good. */
  lemma {:induction false} RunsGood(capacity: map<Key, int>, x: World, es: seq<Event>)
    requires Good(capacity, x) && AllLegal(capacity, x, es)
    ensures Good(capacity, Ran(capacity, x, es))
    decreases |es|
  {
    if es != [] {
      EventGood(capacity, x, es[0]);
      RunsGood(capacity, Happens(capacity, x, es[0]), es[1..]);
    }
  }

  /** Through barging, bypass, cross-key parks and clears: whenever no kick is
      owed, every class is full or its queue empty; and no class is ever over
      its capacity. */
  lemma NeverStranded(capacity: map<Key, int>, es: seq<Event>, k: Key)
    requires AllLegal(capacity, Empty, es)
    ensures (var y := Ran(capacity, Empty, es);
             && (y.owed == {} && k in y.pool.classes ==> (k in capacity && y.pool.classes[k].inUse >= capacity[k]) || y.pool.classes[k].waiters == [])
             && (y.held[k] > 0 ==> k in capacity && y.held[k] <= capacity[k]))
  {
    assert Good(capacity, Empty);
    RunsGood(capacity, Empty, es);
    var y := Ran(capacity, Empty, es);
    assert k in y.pool.classes ==> HeadOwed(y.pool.classes[k], y.owed);
    assert y.held[k] == if k in y.pool.classes then y.pool.classes[k].inUse else 0;
  }

  /** The wake order is first in, first out: whatever others do, a waiter
      keeps its place in its queue or moves up. */
  lemma KeepsPlace(capacity: map<Key, int>, x: World, e: Event, k: Key, i: nat)
    requires Good(capacity, x) && Legal(x, e)
    requires k in x.pool.classes && i < |x.pool.classes[k].waiters|
    requires !e.Return? ==> e.w != x.pool.classes[k].waiters[i]
    ensures (var y := Happens(capacity, x, e).pool;
             k in y.classes && exists j :: 0 <= j <= i && j < |y.classes[k].waiters| && y.classes[k].waiters[j] == x.pool.classes[k].waiters[i])
  {
    var s := x.pool.classes[k].waiters;
    if e.Return? {
      assert Release(x.pool, e.k).0.classes[k].waiters == s;
    } else {
      WithoutMovesUp(s, e.w, i);
      var j :| 0 <= j <= i && j < |Without(s, e.w)| && Without(s, e.w)[j] == s[i];
      QueueAfter(capacity, x, e, k);
      Settles(s, Without(s, e.w), Happens(capacity, x, e).pool.classes[k].waiters, i, j);
    }
  }

  lemma Settles(s: seq<Id>, kept: seq<Id>, t: seq<Id>, i: nat, j: nat)
    requires i < |s| && j <= i && j < |kept| && kept[j] == s[i] && (s <= t || kept <= t)
    ensures exists n :: 0 <= n <= i && n < |t| && t[n] == s[i]
  {
    if s <= t {
      assert t[i] == s[i];
    } else {
      assert t[j] == s[i];
    }
  }

  lemma QueueAfter(capacity: map<Key, int>, x: World, e: Event, k: Key)
    requires Good(capacity, x) && Legal(x, e) && k in x.pool.classes && !e.Return?
    ensures k in Happens(capacity, x, e).pool.classes
    ensures (var t, s := Happens(capacity, x, e).pool.classes[k].waiters, x.pool.classes[k].waiters;
             s <= t || Without(s, e.w) <= t)
  {
    hide Sound, NotStranded, Exposed, Kicked, NextWaiter, Without;
    LeaveQueue(x.pool, e.w, k);
    if e.Ask? && !e.bypass && e.k in capacity {
      LeaveQueue(Ensure(x.pool, e.k, capacity[e.k]), e.w, k);
    }
  }

  lemma LeaveQueue(st: State, w: Id, k: Key)
    requires k in st.classes
    ensures k in Leave(st, w).classes
    ensures (var t, s := Leave(st, w).classes[k].waiters, st.classes[k].waiters; t == s || t == Without(s, w))
  {
  }

  // ---- The answers

  /** Tokens of k out. */
  function UseOf(st: State, k: Key): int {
    if k in st.classes then st.classes[k].inUse else 0
  }

  /** A kick names the head of a queue over a free token, and no one else. */
  ghost predicate NamesHead(st: State, w: Id) {
    exists k :: k in st.classes && st.classes[k].inUse < st.classes[k].capacity && st.classes[k].waiters != [] && st.classes[k].waiters[0] == w
  }

  /** What an Acquire answers: it grants exactly when it need not count, or a
      token is free; it hands out a token exactly when it counts; a waiter
      granted is parked no more, one refused is parked on the class it asked
      for; and no one else's park or token changes. */
  lemma AcquireAnswers(capacity: map<Key, int>, st: State, k: Key, w: Id, bypass: bool, now: int)
    requires Sound(capacity, st)
    ensures (var (t, g) := Acquire(capacity, st, k, w, bypass, now);
             && (g.granted <==> bypass || k !in capacity || UseOf(st, k) < capacity[k])
             && (g.held <==> g.granted && !bypass && k in capacity)
             && (g.granted ==> w !in t.parked)
             && (!g.granted ==> w in t.parked && t.parked[w] == Park(k, if w in st.parked then st.parked[w].since else now))
             && (forall x | x != w :: x in t.parked <==> x in st.parked)
             && (forall x | x != w && x in st.parked :: t.parked[x] == st.parked[x])
             && (forall j :: UseOf(t, j) == UseOf(st, j) + (if g.held && j == k then 1 else 0))
             && g.waited == (if g.held && w in st.parked then now - st.parked[w].since else 0))
  {
    hide NoRepeats, Without, NextWaiter, Exposed;
    if !bypass && k in capacity {
      var made := Ensure(st, k, capacity[k]);
      assert made.classes[k].inUse == UseOf(st, k) && made.classes[k].capacity == capacity[k];
    }
  }

  lemma ExposedHead(st: State, w: Id, x: Id)
    requires x in Exposed(st, w)
    ensures NamesHead(Leave(st, w), x)
  {
    assert Leave(st, w).classes[st.parked[w].key].waiters[0] == x;
  }

  /** No one is woken for nothing. */
  lemma KicksAreHeads(capacity: map<Key, int>, st: State, k: Key, w: Id, bypass: bool, now: int, x: Id)
    requires Sound(capacity, st)
    ensures x in Acquire(capacity, st, k, w, bypass, now).1.kicks ==> NamesHead(Acquire(capacity, st, k, w, bypass, now).0, x)
    ensures x in Clear(st, w).1 ==> NamesHead(Clear(st, w).0, x)
    ensures k in st.classes && st.classes[k].inUse > 0 && x in Release(st, k).1 ==> NamesHead(Release(st, k).0, x)
  {
    if x in Exposed(st, w) {
      ExposedHead(st, w, x);
    }
    if !bypass && k in capacity {
      EnsureSound(capacity, st, k);
      SameAsk(capacity, st, k, w, now);
      if x in Acquire(capacity, st, k, w, bypass, now).1.kicks {
        AskedHeads(capacity, Ensure(st, k, capacity[k]), k, w, now, x);
      }
    }
    if k in st.classes && st.classes[k].inUse > 0 && x in Release(st, k).1 {
      assert Release(st, k).0.classes[k].waiters[0] == x;
    }
  }

  lemma EnsureSound(capacity: map<Key, int>, st: State, k: Key)
    requires Sound(capacity, st) && k in capacity
    ensures Sound(capacity, Ensure(st, k, capacity[k]))
  {
    if k !in st.classes {
      assert forall w :: !ParkedAt(st, w, k);
    }
  }

  lemma SameAsk(capacity: map<Key, int>, st: State, k: Key, w: Id, now: int)
    requires k in capacity
    ensures Acquire(capacity, Ensure(st, k, capacity[k]), k, w, false, now) == Acquire(capacity, st, k, w, false, now)
  {
  }

  lemma NextIsHead(st: State, k: Key, x: Id)
    requires k in st.classes && x in NextWaiter(st.classes[k])
    ensures NamesHead(st, x)
  {
    assert st.classes[k].waiters[0] == x;
  }

  lemma AskedHeads(capacity: map<Key, int>, st: State, k: Key, w: Id, now: int, x: Id)
    requires Sound(capacity, st) && k in capacity && k in st.classes && x in Acquire(capacity, st, k, w, false, now).1.kicks
    ensures NamesHead(Acquire(capacity, st, k, w, false, now).0, x)
  {
    hide Without, NoRepeats, NextWaiter, Exposed;
    LeaveSound(capacity, st, w);
    var t := Acquire(capacity, st, k, w, false, now).0;
    if st.classes[k].inUse < st.classes[k].capacity {
      var own, other := NextWaiter(t.classes[k]), if ParkedAt(st, w, k) then [] else Exposed(st, w);
      assert Acquire(capacity, st, k, w, false, now).1.kicks == other + own;
      if x in own {
        NextIsHead(t, k, x);
      } else {
        ExposedStays(st, t, k, w, x);
      }
    } else {
      ExposedStays(st, t, k, w, x);
    }
  }

  /** The head exposed on the class w left, which w does not ask for. */
  lemma ExposedStays(st: State, t: State, k: Key, w: Id, x: Id)
    requires x in Exposed(st, w) && !ParkedAt(st, w, k)
    requires forall j | j in Leave(st, w).classes && j != k :: j in t.classes && t.classes[j] == Leave(st, w).classes[j]
    ensures NamesHead(t, x)
  {
    var j := st.parked[w].key;
    assert j != k && t.classes[j].waiters[0] == x;
  }

  /** Over every run: a token is out exactly when its caller was told so, who
      was refused last is who is parked, and a grant reports how long its
      waiter had been parked since its first refusal. */
  lemma CallersToldTrue(capacity: map<Key, int>, es: seq<Event>, k: Key, w: Id, bypass: bool, now: int)
    requires AllLegal(capacity, Empty, es)
    ensures (var y := Ran(capacity, Empty, es); var g := Acquire(capacity, y.pool, k, w, bypass, now).1;
             && (g.granted <==> bypass || k !in capacity || y.held[k] < capacity[k])
             && (g.held <==> g.granted && !bypass && k in capacity)
             && g.waited == (if g.held && w in y.refused then now - y.refused[w].since else 0)
             && (forall x :: x in y.refused <==> x in y.pool.parked)
             && (k in y.pool.classes ==> forall x :: x in y.pool.classes[k].waiters <==> x in y.refused && y.refused[x].key == k))
  {
    assert Good(capacity, Empty);
    RunsGood(capacity, Empty, es);
    var y := Ran(capacity, Empty, es);
    AcquireAnswers(capacity, y.pool, k, w, bypass, now);
    assert y.held[k] == UseOf(y.pool, k);
  }

  // ---- The pool, in place

  class Pool {
    const capacity: map<Key, int>
    var classes: map<Key, Class>
    var parked: map<Id, Park>

    ghost function View(): State
      reads this
    {
      State(classes, parked)
    }

    constructor (capacity: map<Key, int>)
      ensures this.capacity == capacity && View() == Empty.pool
    {
      this.capacity := capacity;
      classes, parked := map[], map[];
    }

    /** The queue entry of a waiter goes, and its key's next is named. */
    method Unqueue(k: Key, w: Id) returns (kicks: seq<Id>)
      modifies this`classes
      ensures classes == (if k in old(classes) then old(classes)[k := old(classes)[k].(waiters := Without(old(classes)[k].waiters, w))] else old(classes))
      ensures kicks == if k in classes then NextWaiter(classes[k]) else []
    {
      kicks := [];
      if k in classes {
        var c := classes[k];
        classes := classes[k := c.(waiters := Without(c.waiters, w))];
        kicks := NextWaiter(classes[k]);
      }
    }

    method AcquireToken(k: Key, w: Id, bypass: bool, now: int) returns (granted: bool, held: bool, waited: int, kicks: seq<Id>)
      requires Sound(capacity, View())
      modifies this
      ensures (View(), Grant(granted, held, waited, kicks)) == Acquire(capacity, old(View()), k, w, bypass, now)
    {
      hide Sound, NextWaiter, Without, NoRepeats;
      var wasParked := w in parked;
      var prior := if wasParked then Some(parked[w]) else None;
      granted, held, waited, kicks := true, false, 0, [];
      if bypass || k !in capacity {
        kicks := Unpark(w, false);
        return;
      }
      if k !in classes {
        classes := classes[k := Class(capacity[k], 0, [])];
      }
      ghost var st := View();
      QueuedIfParked(capacity, old(View()), w, k);
      assert st == Ensure(old(View()), k, capacity[k]);
      if classes[k].inUse < classes[k].capacity {
        kicks := Unpark(w, wasParked && prior.value.key == k);
        classes := classes[k := classes[k].(inUse := classes[k].inUse + 1)];
        kicks := kicks + NextWaiter(classes[k]);
        held := true;
        if wasParked {
          waited := now - prior.value.since;
        }
        return;
      }
      granted := false;
      if wasParked && prior.value.key != k {
        kicks := Unqueue(prior.value.key, w);
      }
      if w !in classes[k].waiters {
        classes := classes[k := classes[k].(waiters := classes[k].waiters + [w])];
      }
      parked := parked[w := Park(k, if wasParked then prior.value.since else now)];
      Requeued(capacity, st, k, w, now, View());
    }

    /** unpark: w's park goes, its queue entry included. */
    method Unpark(w: Id, samePending: bool) returns (kicks: seq<Id>)
      modifies this
      ensures View() == Leave(old(View()), w)
      ensures kicks == if samePending then [] else Exposed(old(View()), w)
    {
      kicks := [];
      if w in parked {
        var k := parked[w].key;
        parked := parked - {w};
        var next := Unqueue(k, w);
        if !samePending {
          kicks := next;
        }
      }
    }

    method ReleaseToken(k: Key) returns (kicks: seq<Id>)
      requires k in classes && classes[k].inUse > 0
      modifies this`classes
      ensures (View(), kicks) == Release(old(View()), k)
    {
      classes := classes[k := classes[k].(inUse := classes[k].inUse - 1)];
      kicks := NextWaiter(classes[k]);
    }

    method ClearWaiter(w: Id) returns (kicks: seq<Id>)
      modifies this
      ensures (View(), kicks) == Clear(old(View()), w)
    {
      kicks := Unpark(w, false);
    }
  }

  /** w is queued on k exactly when parked there; a class just made has no
      queue. */
  lemma QueuedIfParked(capacity: map<Key, int>, st: State, w: Id, k: Key)
    requires Sound(capacity, st)
    ensures k in st.classes ==> (w in st.classes[k].waiters <==> ParkedAt(st, w, k))
    ensures k !in st.classes ==> !ParkedAt(st, w, k)
  {
  }

  /** A refusal in place: the queue entry moved, or was kept with its park
      time. */
  lemma Requeued(capacity: map<Key, int>, st: State, k: Key, w: Id, now: int, v: State)
    requires k in st.classes && (w in st.classes[k].waiters <==> ParkedAt(st, w, k))
    requires (var left := if w in st.parked && st.parked[w].key != k then Leave(st, w).classes else st.classes;
              && k in left
              && v == State(if w in left[k].waiters then left else left[k := left[k].(waiters := left[k].waiters + [w])],
                            st.parked[w := Park(k, if w in st.parked then st.parked[w].since else now)]))
    ensures v == if ParkedAt(st, w, k) then st else Enqueue(Leave(st, w), w, Park(k, if w in st.parked then st.parked[w].since else now))
  {
    assert !ParkedAt(st, w, k) ==> st.parked[w := v.parked[w]] == Leave(st, w).parked[w := v.parked[w]];
    assert ParkedAt(st, w, k) ==> v.parked == st.parked;
  }
}
