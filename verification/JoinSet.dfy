/** internal/joinset: waiters over sets of keys with a threshold, indexed both
    ways, and the kicks a completion reports. */
module JoinSet {
  import opened Bytes
  import opened Records

  /** Keys and waiters are both Runs in the engine. */
  type Key = Id

  datatype Waiter = Waiter(keys: seq<Key>, need: nat, finished: set<Key>, since: int, kicked: bool)

  datatype State = State(waiters: map<Id, Waiter>, byKey: map<Key, set<Id>>)

  const Empty := State(map[], map[])

  // ---- What each operation does

  /** The keys without repeats, in order of first mention. */
  function Distinct(keys: seq<Key>): seq<Key> {
    if keys == [] then []
    else
      var n := |keys| - 1;
      if keys[n] in keys[..n] then Distinct(keys[..n]) else Distinct(keys[..n]) + [keys[n]]
  }

  /** min(max(need, 1), n). */
  function Clamped(need: int, n: nat): nat {
    var atLeast := if need < 1 then 1 else need;
    if atLeast < n then atLeast else n
  }

  function Members(byKey: map<Key, set<Id>>, k: Key): set<Id> {
    if k in byKey then byKey[k] else {}
  }

  function Indexed(byKey: map<Key, set<Id>>, keys: seq<Key>, w: Id): map<Key, set<Id>> {
    map k | k in byKey.Keys + (set x | x in keys) :: Members(byKey, k) + (if k in keys then {w} else {})
  }

  function Register(s: State, w: Id, keys: seq<Key>, need: int, now: int): (State, bool) {
    if w in s.waiters then (s, false)
    else
      var own := Distinct(keys);
      (State(s.waiters[w := Waiter(own, Clamped(need, |own|), {}, now, false)], Indexed(s.byKey, keys, w)), true)
  }

  function Mark(s: State, w: Id, k: Key): State {
    if w in s.waiters && w in Members(s.byKey, k) then
      s.(waiters := s.waiters[w := s.waiters[w].(finished := s.waiters[w].finished + {k})])
    else s
  }

  /** The waiter after its key completed: its threshold is checked once. */
  function Reached(x: Waiter): bool {
    !x.kicked && x.need > 0 && |x.finished| >= x.need
  }

  function Completed(x: Waiter, k: Key): Waiter {
    var y := x.(finished := x.finished + {k});
    if Reached(y) then y.(kicked := true) else y
  }

  function Complete(s: State, k: Key): State {
    s.(waiters := map w | w in s.waiters :: if w in Members(s.byKey, k) then Completed(s.waiters[w], k) else s.waiters[w])
  }

  function Kicks(s: State, k: Key): set<Id> {
    set w | w in s.waiters && w in Members(s.byKey, k) && Reached(s.waiters[w].(finished := s.waiters[w].finished + {k}))
  }

  function Filtered(keys: seq<Key>, finished: set<Key>): seq<Key> {
    if keys == [] then []
    else Filtered(keys[..|keys| - 1], finished) + (if keys[|keys| - 1] in finished then [keys[|keys| - 1]] else [])
  }

  function DoneOf(s: State, w: Id): Option<seq<Key>> {
    if w in s.waiters then Some(Filtered(s.waiters[w].keys, s.waiters[w].finished)) else None
  }

  function Unindexed(byKey: map<Key, set<Id>>, w: Id, keys: seq<Key>): map<Key, set<Id>> {
    map k | k in byKey && (k in keys ==> byKey[k] - {w} != {}) :: if k in keys then byKey[k] - {w} else byKey[k]
  }

  function Remove(s: State, w: Id): State {
    if w in s.waiters then State(s.waiters - {w}, Unindexed(s.byKey, w, s.waiters[w].keys)) else s
  }

  // ---- The index, both ways

  ghost predicate NoRepeats(s: seq<Key>) {
    forall i, j | 0 <= i < j < |s| :: s[i] != s[j]
  }

  ghost predicate WaiterSound(x: Waiter) {
    && NoRepeats(x.keys)
    && (forall k | k in x.finished :: k in x.keys)
    && x.need <= |x.keys| && (x.keys != [] ==> x.need > 0)
    && (x.kicked ==> |x.finished| >= x.need)
  }

  ghost predicate Sound(s: State) {
    && (forall w | w in s.waiters :: WaiterSound(s.waiters[w]))
    && (forall k | k in s.byKey :: s.byKey[k] != {})
    && (forall k, w :: w in Members(s.byKey, k) <==> w in s.waiters && k in s.waiters[w].keys)
  }

  lemma {:induction false} DistinctIs(keys: seq<Key>)
    ensures NoRepeats(Distinct(keys))
    ensures forall k :: k in Distinct(keys) <==> k in keys
  {
    if keys != [] {
      var n := |keys| - 1;
      DistinctIs(keys[..n]);
      assert keys == keys[..n] + [keys[n]];
      if keys[n] !in keys[..n] {
        assert keys[n] !in Distinct(keys[..n]);
      }
    }
  }

  lemma RegisterSound(s: State, w: Id, keys: seq<Key>, need: int, now: int)
    requires Sound(s)
    ensures Sound(Register(s, w, keys, need, now).0)
  {
    if w !in s.waiters {
      var own, t := Distinct(keys), Register(s, w, keys, need, now).0;
      DistinctIs(keys);
      forall k, x ensures x in Members(t.byKey, k) <==> x in t.waiters && k in t.waiters[x].keys {
        assert k in keys <==> k in own;
        assert x in Members(s.byKey, k) <==> x in s.waiters && k in s.waiters[x].keys;
      }
      forall k | k in t.byKey ensures t.byKey[k] != {} {
        if k in keys {
          assert w in t.byKey[k];
        }
      }
    }
  }

  lemma MarkSound(s: State, w: Id, k: Key)
    requires Sound(s)
    ensures Sound(Mark(s, w, k))
  {
    if w in s.waiters && w in Members(s.byKey, k) {
      var x := s.waiters[w];
      assert x.finished <= x.finished + {k};
      Grows(x.finished, x.finished + {k});
    }
  }

  lemma Grows(a: set<Key>, b: set<Key>)
    requires a <= b
    ensures |a| <= |b|
  {
    assert b == a + (b - a);
  }

  lemma CompleteSound(s: State, k: Key)
    requires Sound(s)
    ensures Sound(Complete(s, k))
  {
    var t := Complete(s, k);
    forall w | w in t.waiters ensures WaiterSound(t.waiters[w]) {
      var x := s.waiters[w];
      Grows(x.finished, x.finished + {k});
    }
    forall j, w ensures w in Members(t.byKey, j) <==> w in t.waiters && j in t.waiters[w].keys {
      assert w in Members(s.byKey, j) <==> w in s.waiters && j in s.waiters[w].keys;
    }
  }

  lemma RemoveSound(s: State, w: Id)
    requires Sound(s)
    ensures Sound(Remove(s, w))
  {
    if w in s.waiters {
      var t := Remove(s, w);
      forall j, x ensures x in Members(t.byKey, j) <==> x in t.waiters && j in t.waiters[x].keys {
        assert x in Members(s.byKey, j) <==> x in s.waiters && j in s.waiters[x].keys;
        assert w in Members(s.byKey, j) <==> j in s.waiters[w].keys;
      }
    }
  }

  // ---- Kicks

  /** A completion that takes a waiter across its threshold reports it. */
  lemma CrossingReported(s: State, k: Key, w: Id)
    requires Sound(s) && w in s.waiters
    requires |s.waiters[w].finished| < s.waiters[w].need <= |Complete(s, k).waiters[w].finished|
    ensures w in Kicks(s, k) && Complete(s, k).waiters[w].kicked
  {
  }

  /** The exact rule: the waiter was registered on the key, was not reported
      before, and is at its threshold now, whether this completion or an
      earlier mark took it there. */
  lemma KickedIff(s: State, k: Key, w: Id)
    requires Sound(s)
    ensures w in Kicks(s, k) <==>
              w in s.waiters && k in s.waiters[w].keys && !s.waiters[w].kicked && |s.waiters[w].finished + {k}| >= s.waiters[w].need
    ensures w in Kicks(s, k) ==> Complete(s, k).waiters[w].kicked
  {
    assert w in Members(s.byKey, k) <==> w in s.waiters && k in s.waiters[w].keys;
  }

  lemma EmptySound()
    ensures Sound(Empty)
  {
  }

  /** A waiter already marked past its threshold may still be kicked. */
  lemma MarkedMayBeKicked(w: Id, a: Key, b: Key, now: int)
    requires a != b
    ensures (var s := Mark(Register(Empty, w, [a, b], 1, now).0, w, a);
             |s.waiters[w].finished| >= s.waiters[w].need && w in Kicks(s, b))
  {
    hide Sound;
    var r := Register(Empty, w, [a, b], 1, now).0;
    assert Sound(Empty) by { EmptySound(); }
    RegisterSound(Empty, w, [a, b], 1, now);
    DistinctIs([a, b]);
    assert [a, b][..1] == [a] && [a][..0] == [];
    assert Distinct([a]) == [a];
    assert Distinct([a, b]) == [a, b];
    assert r.waiters[w] == Waiter([a, b], 1, {}, now, false);
    MarkSound(r, w, a);
    var s := Mark(r, w, a);
    assert w in Members(r.byKey, a);
    assert s.waiters[w].finished == {a};
    KickedIff(s, b, w);
  }

  /** The set in use: which registration of each waiter is current, and the
      registrations a kick was reported for. */
  datatype World = World(set0: State, current: map<Id, nat>, kicked: seq<(Id, nat)>)

  datatype Event =
    | Registers(w: Id, keys: seq<Key>, need: int, now: int)
    | Marks(w: Id, k: Key)
    | Completes(k: Key)
    | Removes(w: Id)

  function Current(x: World, w: Id): nat {
    if w in x.current then x.current[w] else 0
  }

  ghost predicate IsListing(s: seq<(Id, nat)>, ws: set<Id>, x: World) {
    && (forall i, j | 0 <= i < j < |s| :: s[i] != s[j])
    && (forall p | p in s :: p.0 in ws && p.1 == Current(x, p.0))
    && (forall w | w in ws :: (w, Current(x, w)) in s)
  }

  /** One event; a completion reports its kicks in any order. */
  ghost predicate Step(x: World, e: Event, y: World) {
    match e
    case Registers(w, keys, need, now) =>
      var (s, added) := Register(x.set0, w, keys, need, now);
      y == World(s, if added then x.current[w := Current(x, w) + 1] else x.current, x.kicked)
    case Marks(w, k) => y == x.(set0 := Mark(x.set0, w, k))
    case Completes(k) =>
      && y.set0 == Complete(x.set0, k) && y.current == x.current
      && x.kicked <= y.kicked && IsListing(y.kicked[|x.kicked|..], Kicks(x.set0, k), x)
    case Removes(w) => y == x.(set0 := Remove(x.set0, w))
  }

  /** Every report is of another registration, and a waiter's flag says
      whether its current one was reported. */
  ghost predicate OncePerRegistration(x: World) {
    && (forall i, j | 0 <= i < j < |x.kicked| :: x.kicked[i] != x.kicked[j])
    && (forall p | p in x.kicked :: p.1 <= Current(x, p.0))
    && (forall w | w in x.set0.waiters :: (w, Current(x, w)) in x.kicked <==> x.set0.waiters[w].kicked)
  }

  ghost predicate Good(x: World) {
    Sound(x.set0) && OncePerRegistration(x)
  }

  lemma StepGood(x: World, e: Event, y: World)
    requires Good(x) && Step(x, e, y)
    ensures Good(y)
  {
    match e
    case Registers(w, keys, need, now) =>
      RegisterSound(x.set0, w, keys, need, now);
      assert (w, Current(x, w) + 1) !in x.kicked;
    case Marks(w, k) => MarkSound(x.set0, w, k);
    case Completes(k) =>
      CompleteSound(x.set0, k);
      CompleteOnce(x, k, y);
    case Removes(w) => RemoveSound(x.set0, w);
  }

  lemma CompleteOnce(x: World, k: Key, y: World)
    requires Good(x) && Step(x, Completes(k), y)
    ensures OncePerRegistration(y)
  {
    var added := y.kicked[|x.kicked|..];
    assert y.kicked == x.kicked + added;
    forall p | p in added ensures p !in x.kicked {
      KickedIff(x.set0, k, p.0);
      assert p == (p.0, Current(x, p.0));
    }
    forall i, j | 0 <= i < j < |y.kicked| ensures y.kicked[i] != y.kicked[j] {
      if i < |x.kicked| <= j {
        assert y.kicked[j] in added && y.kicked[i] in x.kicked;
      } else if |x.kicked| <= i {
        assert y.kicked[i] == added[i - |x.kicked|] && y.kicked[j] == added[j - |x.kicked|];
      }
    }
    forall w | w in y.set0.waiters ensures (w, Current(y, w)) in y.kicked <==> y.set0.waiters[w].kicked {
      KickedIff(x.set0, k, w);
      assert (w, Current(x, w)) in added <==> w in Kicks(x.set0, k);
    }
  }

  ghost predicate Run(xs: seq<World>, es: seq<Event>) {
    |xs| == |es| + 1 && forall i | 0 <= i < |es| :: Step(xs[i], es[i], xs[i + 1])
  }

  /** At most one kick per registration, over every run. */
  lemma {:induction false} AtMostOneKick(xs: seq<World>, es: seq<Event>)
    requires Run(xs, es) && xs[0] == World(Empty, map[], [])
    ensures Good(xs[|es|])
    decreases |es|
  {
    if es != [] {
      var n := |es| - 1;
      AtMostOneKick(xs[..n + 1], es[..n]);
      StepGood(xs[n], es[n], xs[n + 1]);
    }
  }

  // ---- What was asked and marked

  /** A registration as its caller made it, and its keys observed done since. */
  datatype Asked = Asked(keys: seq<Key>, need: int, since: int, finished: set<Key>)

  function Noted(diary: map<Id, Asked>, e: Event): map<Id, Asked> {
    match e
    case Registers(w, keys, need, now) => if w in diary then diary else diary[w := Asked(keys, need, now, {})]
    case Marks(w, k) => if w in diary && k in diary[w].keys then diary[w := diary[w].(finished := diary[w].finished + {k})] else diary
    case Completes(k) =>
      map w | w in diary :: if k in diary[w].keys then diary[w].(finished := diary[w].finished + {k}) else diary[w]
    case Removes(w) => diary - {w}
  }

  function Diary(es: seq<Event>): map<Id, Asked> {
    if es == [] then map[] else Noted(Diary(es[..|es| - 1]), es[|es| - 1])
  }

  /** own lists the keys once each, in the order of their first mention. */
  ghost predicate FirstMentions(own: seq<Key>, keys: seq<Key>) {
    && NoRepeats(own)
    && (forall k :: k in own <==> k in keys)
    && forall i, j | 0 <= i < j < |own| :: exists m :: 0 <= m < |keys| && keys[m] == own[i] && own[j] !in keys[..m + 1]
  }

  /** The threshold asked for, brought between one and the number of keys;
      with no keys it is zero, and never met. */
  ghost predicate ThresholdOf(need: int, asked: int, n: nat) {
    && need <= n && (n > 0 ==> need >= 1)
    && (1 <= asked <= n ==> need == asked)
    && (asked < 1 && n > 0 ==> need == 1)
    && (asked > n ==> need == n)
  }

  ghost predicate Matches(s: State, diary: map<Id, Asked>) {
    && s.waiters.Keys == diary.Keys
    && forall w | w in diary ::
         && FirstMentions(s.waiters[w].keys, diary[w].keys)
         && ThresholdOf(s.waiters[w].need, diary[w].need, |s.waiters[w].keys|)
         && s.waiters[w].finished == diary[w].finished && s.waiters[w].since == diary[w].since
  }

  lemma {:induction false} DistinctMentions(keys: seq<Key>)
    ensures FirstMentions(Distinct(keys), keys)
  {
    DistinctIs(keys);
    if keys != [] {
      var n := |keys| - 1;
      DistinctMentions(keys[..n]);
      DistinctIs(keys[..n]);
      var own, before := Distinct(keys), Distinct(keys[..n]);
      forall i, j | 0 <= i < j < |own| ensures exists m :: 0 <= m < |keys| && keys[m] == own[i] && own[j] !in keys[..m + 1] {
        assert own[i] == before[i] && before[i] in keys[..n];
        if j < |before| {
          var m :| 0 <= m < n && keys[..n][m] == before[i] && before[j] !in keys[..n][..m + 1];
          assert keys[..n][..m + 1] == keys[..m + 1];
        } else {
          var m :| 0 <= m < n && keys[..n][m] == before[i];
          assert keys[n] !in keys[..n] && forall x | x in keys[..m + 1] :: x in keys[..n];
        }
      }
    }
  }

  lemma RegisterMatches(s: State, w: Id, keys: seq<Key>, need: int, now: int, diary: map<Id, Asked>)
    requires Matches(s, diary)
    ensures Matches(Register(s, w, keys, need, now).0, Noted(diary, Registers(w, keys, need, now)))
    ensures Register(s, w, keys, need, now).1 <==> w !in diary
  {
    hide FirstMentions, ThresholdOf, Indexed;
    DistinctMentions(keys);
    ClampedIs(need, |Distinct(keys)|);
  }

  lemma MarkMatches(s: State, w: Id, k: Key, diary: map<Id, Asked>)
    requires Sound(s) && Matches(s, diary)
    ensures Matches(Mark(s, w, k), Noted(diary, Marks(w, k)))
  {
    KeyMentioned(s, w, k, diary);
    hide FirstMentions, ThresholdOf, Members, Sound;
  }

  lemma CompleteMatches(s: State, k: Key, diary: map<Id, Asked>)
    requires Sound(s) && Matches(s, diary)
    ensures Matches(Complete(s, k), Noted(diary, Completes(k)))
  {
    forall w | w in diary ensures w in Members(s.byKey, k) <==> k in diary[w].keys {
      KeyMentioned(s, w, k, diary);
    }
    hide FirstMentions, ThresholdOf, Members, Sound;
  }

  /** Every event leaves the set what was asked of it; a registration is new
      exactly when the waiter has none. */
  lemma EventMatches(x: World, e: Event, y: World, diary: map<Id, Asked>)
    requires Good(x) && Step(x, e, y) && Matches(x.set0, diary)
    ensures Matches(y.set0, Noted(diary, e))
    ensures e.Registers? ==> (Register(x.set0, e.w, e.keys, e.need, e.now).1 <==> e.w !in diary)
  {
    hide Matches, Noted, Sound, OncePerRegistration, Register, Mark, Complete, Remove, IsListing;
    match e
    case Registers(w, keys, need, now) => RegisterMatches(x.set0, w, keys, need, now, diary);
    case Marks(w, k) => MarkMatches(x.set0, w, k, diary);
    case Completes(k) => CompleteMatches(x.set0, k, diary);
    case Removes(w) => RemoveMatches(x.set0, w, diary);
  }

  lemma RemoveMatches(s: State, w: Id, diary: map<Id, Asked>)
    requires Matches(s, diary)
    ensures Matches(Remove(s, w), Noted(diary, Removes(w)))
  {
    hide FirstMentions, ThresholdOf, Unindexed;
  }

  lemma ClampedIs(need: int, n: nat)
    ensures ThresholdOf(Clamped(need, n), need, n)
  {
  }

  lemma KeyMentioned(s: State, w: Id, k: Key, diary: map<Id, Asked>)
    requires Sound(s) && Matches(s, diary)
    ensures w in Members(s.byKey, k) <==> w in diary && k in diary[w].keys
  {
    assert w in Members(s.byKey, k) <==> w in s.waiters && k in s.waiters[w].keys;
  }

  /** Over every run, each waiter holds what it asked for: its keys in the
      order of first mention, its threshold clamped, its stamp, and exactly
      the keys marked or completed since it registered. */
  lemma {:induction false} RunsMatch(xs: seq<World>, es: seq<Event>)
    requires Run(xs, es) && xs[0] == World(Empty, map[], [])
    ensures Matches(xs[|es|].set0, Diary(es))
    decreases |es|
  {
    if es != [] {
      var n := |es| - 1;
      AtMostOneKick(xs[..n + 1], es[..n]);
      RunsMatch(xs[..n + 1], es[..n]);
      EventMatches(xs[n], es[n], xs[n + 1], Diary(es[..n]));
    }
  }

  lemma {:induction false} FilteredIs(keys: seq<Key>, finished: set<Key>)
    requires NoRepeats(keys)
    ensures NoRepeats(Filtered(keys, finished))
    ensures forall k :: k in Filtered(keys, finished) <==> k in keys && k in finished
    ensures forall i, j | 0 <= i < j < |Filtered(keys, finished)| :: Follows(keys, Filtered(keys, finished)[i], Filtered(keys, finished)[j])
  {
    if keys != [] {
      var n := |keys| - 1;
      FilteredIs(keys[..n], finished);
      var before, all := Filtered(keys[..n], finished), Filtered(keys, finished);
      assert keys == keys[..n] + [keys[n]];
      forall i, j | 0 <= i < j < |all| ensures Follows(keys, all[i], all[j]) {
        assert all[i] == before[i] && before[i] in keys[..n];
        if j < |before| {
          var a, b :| InOrder(keys[..n], a, b, before[i], before[j]);
          assert InOrder(keys, a, b, all[i], all[j]);
        } else {
          var a :| 0 <= a < n && keys[..n][a] == before[i];
          assert InOrder(keys, a, n, all[i], all[j]);
        }
      }
    }
  }

  ghost predicate InOrder(keys: seq<Key>, a: int, b: int, x: Key, y: Key) {
    0 <= a < b < |keys| && keys[a] == x && keys[b] == y
  }

  /** y stands after x. */
  ghost predicate Follows(keys: seq<Key>, x: Key, y: Key) {
    exists a, b :: InOrder(keys, a, b, x, y)
  }

  /** Done, over every run: none for a waiter not registered; else its keys
      observed done since it registered, in registration order. */
  lemma DoneSinceRegistration(xs: seq<World>, es: seq<Event>, w: Id)
    requires Run(xs, es) && xs[0] == World(Empty, map[], [])
    ensures DoneOf(xs[|es|].set0, w).Some? <==> w in Diary(es)
    ensures w in Diary(es) ==>
              var s, keys := xs[|es|].set0.waiters[w].keys, DoneOf(xs[|es|].set0, w).value;
              && FirstMentions(s, Diary(es)[w].keys) && NoRepeats(keys)
              && (forall k :: k in keys <==> k in Diary(es)[w].finished)
              && (forall i, j | 0 <= i < j < |keys| :: Follows(s, keys[i], keys[j]))
  {
    RunsMatch(xs, es);
    AtMostOneKick(xs, es);
    if w in Diary(es) {
      var x := xs[|es|].set0.waiters[w];
      assert WaiterSound(x);
      FilteredIs(x.keys, x.finished);
    }
  }

  /** The reports of one completion: each waiter once, in any order. */
  ghost predicate ListsOnce(kicks: seq<Id>, s: set<Id>) {
    && (forall w :: w in kicks <==> w in s)
    && forall i, j | 0 <= i < j < |kicks| :: kicks[i] != kicks[j]
  }

  // ---- The set, in place

  class Set {
    var waiters: map<Id, Waiter>
    var byKey: map<Key, set<Id>>

    ghost function View(): State
      reads this
    {
      State(waiters, byKey)
    }

    constructor ()
      ensures View() == Empty
    {
      waiters, byKey := map[], map[];
    }

    method RegisterWaiter(w: Id, keys: seq<Key>, need: int, now: int) returns (added: bool)
      requires Sound(View())
      modifies this
      ensures (View(), added) == Register(old(View()), w, keys, need, now)
    {
      if w in waiters {
        return false;
      }
      var own: seq<Key> := [];
      ghost var was := byKey;
      Unlisted(View(), w);
      var i := 0;
      while i < |keys|
        invariant i <= |keys| && waiters == old(waiters)
        invariant own == Distinct(keys[..i]) && byKey == Indexed(was, keys[..i], w)
      {
        var k := keys[i];
        assert keys[..i + 1][..i] == keys[..i] && keys[..i + 1] == keys[..i] + [k];
        var members := if k in byKey then byKey[k] else {};
        IndexedHas(was, keys[..i], w, k);
        if w !in members {
          byKey := byKey[k := members + {w}];
          own := own + [k];
        }
        IndexedNext(was, keys[..i], w, k);
        i := i + 1;
      }
      assert keys[..i] == keys;
      var least := if need < 1 then 1 else need;
      waiters := waiters[w := Waiter(own, if least < |own| then least else |own|, {}, now, false)];
      added := true;
    }

    method MarkDone(w: Id, k: Key)
      modifies this`waiters
      ensures View() == Mark(old(View()), w, k)
    {
      if w !in waiters || k !in byKey || w !in byKey[k] {
        return;
      }
      waiters := waiters[w := waiters[w].(finished := waiters[w].finished + {k})];
    }

    /** The loop over the key's members, in any order. */
    method CompleteKey(k: Key) returns (kicks: seq<Id>)
      requires Sound(View())
      modifies this`waiters
      ensures View() == Complete(old(View()), k)
      ensures ListsOnce(kicks, Kicks(old(View()), k))
    {
      hide Sound, Completed, ListsOnce;
      kicks := [];
      var todo := if k in byKey then byKey[k] else {};
      KeyMembers(View(), k);
      ListsNone();
      assert Kicks(View(), k) - todo == {};
      while todo != {}
        invariant todo <= Members(byKey, k) && waiters.Keys == old(waiters).Keys
        invariant forall w | w in waiters :: waiters[w] == if w in Members(byKey, k) && w !in todo then Completed(old(waiters)[w], k) else old(waiters)[w]
        invariant ListsOnce(kicks, Kicks(old(View()), k) - todo)
        decreases todo
      {
        var w :| w in todo;
        assert todo - {w} + {w} == todo;
        todo := todo - {w};
        CompletedIs(waiters[w], k);
        var x := waiters[w].(finished := waiters[w].finished + {k});
        ghost var left := Kicks(old(View()), k) - todo;
        if !x.kicked && x.need > 0 && |x.finished| >= x.need {
          x := x.(kicked := true);
          assert left == Kicks(old(View()), k) - (todo + {w}) + {w};
          ListsAdd(kicks, left - {w}, w);
          assert left - {w} + {w} == left;
          kicks := kicks + [w];
        } else {
          assert left == Kicks(old(View()), k) - (todo + {w});
        }
        waiters := waiters[w := x];
      }
      assert Kicks(old(View()), k) - {} == Kicks(old(View()), k);
    }

    method DoneKeys(w: Id) returns (r: Option<seq<Key>>)
      ensures r == DoneOf(View(), w)
    {
      if w !in waiters {
        return None;
      }
      var x, keys := waiters[w], [];
      var i := 0;
      while i < |x.keys|
        invariant i <= |x.keys| && keys == Filtered(x.keys[..i], x.finished)
      {
        assert x.keys[..i + 1][..i] == x.keys[..i];
        if x.keys[i] in x.finished {
          keys := keys + [x.keys[i]];
        }
        i := i + 1;
      }
      assert x.keys[..i] == x.keys;
      r := Some(keys);
    }

    method RemoveWaiter(w: Id) returns (since: Option<int>)
      requires Sound(View())
      modifies this
      ensures View() == Remove(old(View()), w)
      ensures since == if w in old(waiters) then Some(old(waiters)[w].since) else None
    {
      if w !in waiters {
        return None;
      }
      var x := waiters[w];
      ghost var was := byKey;
      Listed(View(), w);
      waiters := waiters - {w};
      var i := 0;
      while i < |x.keys|
        invariant i <= |x.keys| && byKey == Unindexed(was, w, x.keys[..i])
        invariant waiters == old(waiters) - {w} && NoRepeats(x.keys)
        invariant forall j | i <= j < |x.keys| :: x.keys[j] in byKey && byKey[x.keys[j]] == was[x.keys[j]]
      {
        var k := x.keys[i];
        assert x.keys[..i + 1] == x.keys[..i] + [k];
        var members := byKey[k] - {w};
        if members == {} {
          byKey := byKey - {k};
        } else {
          byKey := byKey[k := members];
        }
        i := i + 1;
      }
      assert x.keys[..i] == x.keys;
      since := Some(x.since);
    }
  }

  lemma ListsNone()
    ensures ListsOnce([], {})
  {
  }

  lemma ListsAdd(kicks: seq<Id>, s: set<Id>, w: Id)
    requires ListsOnce(kicks, s) && w !in s
    ensures ListsOnce(kicks + [w], s + {w})
  {
  }

  lemma KeyMembers(s: State, k: Key)
    requires Sound(s)
    ensures Members(s.byKey, k) <= s.waiters.Keys
  {
    forall w | w in Members(s.byKey, k) ensures w in s.waiters {
    }
  }

  lemma CompletedIs(x: Waiter, k: Key)
    ensures (var y := x.(finished := x.finished + {k}); Completed(x, k) == if Reached(y) then y.(kicked := true) else y)
  {
  }

  lemma Listed(s: State, w: Id)
    requires Sound(s) && w in s.waiters
    ensures forall k | k in s.waiters[w].keys :: k in s.byKey
    ensures NoRepeats(s.waiters[w].keys) && Unindexed(s.byKey, w, []) == s.byKey
  {
    forall k | k in s.waiters[w].keys ensures k in s.byKey {
      assert w in Members(s.byKey, k);
    }
  }

  lemma IndexedNone(byKey: map<Key, set<Id>>, w: Id)
    ensures Indexed(byKey, [], w) == byKey
  {
    var m := Indexed(byKey, [], w);
    assert m.Keys == byKey.Keys;
    forall k | k in byKey ensures m[k] == byKey[k] {
    }
  }

  lemma Unlisted(s: State, w: Id)
    requires Sound(s) && w !in s.waiters
    ensures forall k | k in s.byKey :: w !in s.byKey[k]
    ensures Indexed(s.byKey, [], w) == s.byKey
  {
    IndexedNone(s.byKey, w);
    forall k | k in s.byKey ensures w !in s.byKey[k] {
      assert w !in Members(s.byKey, k);
    }
  }

  lemma IndexedHas(byKey: map<Key, set<Id>>, keys: seq<Key>, w: Id, k: Key)
    requires forall j | j in byKey :: w !in byKey[j]
    ensures w in Members(Indexed(byKey, keys, w), k) <==> k in keys
    ensures Members(Indexed(byKey, keys, w), k) == Members(byKey, k) + (if k in keys then {w} else {})
  {
  }

  lemma IndexedNext(byKey: map<Key, set<Id>>, keys: seq<Key>, w: Id, k: Key)
    ensures Indexed(byKey, keys + [k], w) == if k in keys then Indexed(byKey, keys, w) else Indexed(byKey, keys, w)[k := Members(byKey, k) + {w}]
  {
  }
}
