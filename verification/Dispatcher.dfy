/** internal/dispatcher: one worker per key, a bound on concurrent Runs, and
    dispatches that are never lost. Callers and workers are goroutines; each
    locked section, channel operation and Run boundary is one step. */
module Dispatcher {
  import opened Bytes

  type Key = Id

  /** A Dispatch under way: before its locked section, or past it with the
      worker not yet spawned. */
  datatype Call = Calling(key: Key, delay: nat) | Arming(key: Key, delay: nat)

  datatype Phase =
    | Delaying(fired: bool)                // waits for the delay, a Wake or the end
    | Disarming(ending: bool)
    | Acquiring                            // waits for the budget or the end
    | Running
    | Releasing(again: bool, delay: nat)   // Run returned
    | Clearing(again: bool, delay: nat)    // the budget is given back

  datatype Worker = Worker(key: Key, phase: Phase)

  /** unserved: the keys dispatched, or asked for again by a Run that returned,
      since their last Run began. */
  datatype World = World(
    bound: nat, active: set<Key>, repoke: set<Key>, armed: set<Key>, sem: nat, stopped: bool,
    calls: map<nat, Call>, workers: map<nat, Worker>, unserved: set<Key>)

  datatype Event =
    | Dispatch(c: nat, key: Key, delay: nat)  // someone calls Dispatch
    | Admit(c: nat)                           // its locked section
    | Spawn(c: nat, w: nat)                   // the wake is armed, the worker started
    | Fire(key: Key)                          // Wake
    | Elapse(w: nat)                          // the delay is over
    | Receive(w: nat)                         // the wake is received
    | GiveUp(w: nat)                          // the context ended while waiting
    | Disarm(w: nat)
    | Begin(w: nat)                           // the budget admits the Run
    | Return(w: nat, again: bool, delay: nat)
    | Release(w: nat)
    | Clear(w: nat, c: nat)                   // clearActive, and the redispatch if any
    | Stop

  ghost predicate Can(x: World, e: Event) {
    match e
    case Dispatch(c, _, _) => c !in x.calls
    case Admit(c) => c in x.calls && x.calls[c].Calling?
    case Spawn(c, w) => c in x.calls && x.calls[c].Arming? && w !in x.workers
    case Fire(_) => true
    case Elapse(w) => w in x.workers && x.workers[w].phase.Delaying?
    case Receive(w) => w in x.workers && x.workers[w].phase == Delaying(true)
    case GiveUp(w) => w in x.workers && x.stopped && (x.workers[w].phase.Delaying? || x.workers[w].phase.Acquiring?)
    case Disarm(w) => w in x.workers && x.workers[w].phase.Disarming?
    case Begin(w) => w in x.workers && x.workers[w].phase.Acquiring? && (x.bound > 0 ==> x.sem < x.bound)
    case Return(w, _, _) => w in x.workers && x.workers[w].phase.Running?
    case Release(w) => w in x.workers && x.workers[w].phase.Releasing?
    case Clear(w, c) => w in x.workers && x.workers[w].phase.Clearing? && c !in x.calls
    case Stop => true
  }

  /** Dispatch's locked section: a duplicate is a re-poke. */
  function Entered(active: set<Key>, repoke: set<Key>, k: Key): (set<Key>, set<Key>, bool) {
    if k in active then (active, repoke + {k}, false) else (active + {k}, repoke, true)
  }

  /** clearActive, and whether a dispatch was suppressed meanwhile. */
  function Cleared(active: set<Key>, repoke: set<Key>, k: Key): (set<Key>, set<Key>, bool) {
    (active - {k}, repoke - {k}, k in repoke)
  }

  function At(x: World, w: nat, p: Phase): World
    requires w in x.workers
  {
    x.(workers := x.workers[w := x.workers[w].(phase := p)])
  }

  ghost function After(x: World, e: Event): World
    requires Can(x, e)
  {
    match e
    case Dispatch(c, k, delay) => x.(calls := x.calls[c := Calling(k, delay)])
    case Admit(c) =>
      var k := x.calls[c].key;
      var (active, repoke, spawn) := Entered(x.active, x.repoke, k);
      x.(active := active, repoke := repoke, unserved := x.unserved + {k},
         calls := if spawn then x.calls[c := Arming(k, x.calls[c].delay)] else x.calls - {c})
    case Spawn(c, w) =>
      var k := x.calls[c].key;
      if x.calls[c].delay > 0 then
        x.(armed := x.armed + {k}, calls := x.calls - {c}, workers := x.workers[w := Worker(k, Delaying(false))])
      else x.(calls := x.calls - {c}, workers := x.workers[w := Worker(k, Acquiring)])
    case Fire(k) =>
      if k in x.armed then
        x.(workers := map w | w in x.workers ::
             if x.workers[w].key == k && x.workers[w].phase.Delaying? then Worker(k, Delaying(true)) else x.workers[w])
      else x
    case Elapse(w) => At(x, w, Disarming(false))
    case Receive(w) => At(x, w, Disarming(false))
    case GiveUp(w) => At(x, w, if x.workers[w].phase.Delaying? then Disarming(true) else Clearing(false, 0))
    case Disarm(w) =>
      At(x.(armed := x.armed - {x.workers[w].key}), w, if x.workers[w].phase.ending then Clearing(false, 0) else Acquiring)
    case Begin(w) =>
      At(x.(sem := if x.bound > 0 then x.sem + 1 else x.sem, unserved := x.unserved - {x.workers[w].key}), w, Running)
    case Return(w, again, delay) =>
      At(if again then x.(unserved := x.unserved + {x.workers[w].key}) else x, w, Releasing(again, delay))
    case Release(w) =>
      At(x.(sem := if x.bound > 0 && x.sem > 0 then x.sem - 1 else x.sem), w, Clearing(x.workers[w].phase.again, x.workers[w].phase.delay))
    case Clear(w, c) =>
      var k, p := x.workers[w].key, x.workers[w].phase;
      var (active, repoke, poked) := Cleared(x.active, x.repoke, k);
      var y := x.(active := active, repoke := repoke, workers := x.workers - {w});
      if x.stopped then y
      else if poked then y.(calls := x.calls[c := Calling(k, 0)])
      else if p.again then y.(calls := x.calls[c := Calling(k, p.delay)])
      else y
    case Stop => x.(stopped := true)
  }

  // ---- The invariant

  predicate Waiting(p: Phase) {
    p.Delaying? || p.Disarming?
  }

  predicate Spends(p: Phase) {
    p.Running? || p.Releasing?
  }

  function Runs(x: World): set<nat> {
    set w | w in x.workers && x.workers[w].phase.Running?
  }

  /** The workers that hold a share of the budget. */
  function Spending(x: World): set<nat> {
    set w | w in x.workers && Spends(x.workers[w].phase)
  }

  /** Who owns a key: its worker, or the call about to spawn it. */
  datatype Owner = ByCall(c: nat) | ByWorker(w: nat)

  predicate Owns(x: World, o: Owner, k: Key) {
    match o
    case ByCall(c) => c in x.calls && x.calls[c].Arming? && x.calls[c].key == k
    case ByWorker(w) => w in x.workers && x.workers[w].key == k
  }

  ghost predicate Owned(x: World, k: Key) {
    exists o :: Owns(x, o, k)
  }

  /** The active keys are the owned ones, and each has one owner. */
  ghost predicate OneOwner(x: World) {
    && (forall k :: k in x.active <==> Owned(x, k))
    && (forall a, b, k :: Owns(x, a, k) && Owns(x, b, k) ==> a == b)
  }

  ghost predicate WaitsFor(x: World, k: Key) {
    exists w :: w in x.workers && x.workers[w].key == k && Waiting(x.workers[w].phase)
  }

  /** An armed wake is a live worker's, waiting. */
  ghost predicate ArmedLive(x: World) {
    forall k :: k in x.armed <==> WaitsFor(x, k)
  }

  ghost predicate WithinBudget(x: World) {
    x.bound > 0 ==> x.sem == |Spending(x)| && x.sem <= x.bound
  }

  /** A dispatch not yet followed by a Run is on its way to one. */
  ghost predicate OnItsWay(x: World, k: Key) {
    || k in x.repoke
    || (exists c :: c in x.calls && x.calls[c].key == k)
    || exists w :: w in x.workers && x.workers[w].key == k && (BeforeRun(x.workers[w].phase) || RunsAgain(x.workers[w].phase))
  }

  /** Its Run returned and asked to run again. */
  predicate RunsAgain(p: Phase) {
    (p.Releasing? || p.Clearing?) && p.again
  }

  predicate BeforeRun(p: Phase) {
    p.Delaying? || p == Disarming(false) || p.Acquiring?
  }

  ghost predicate NoneLost(x: World) {
    && x.repoke <= x.active
    && (!x.stopped ==> forall k | k in x.unserved :: OnItsWay(x, k))
    && (!x.stopped ==> forall w | w in x.workers :: x.workers[w].phase != Disarming(true))
  }

  ghost predicate Good(x: World) {
    OneOwner(x) && ArmedLive(x) && WithinBudget(x) && NoneLost(x)
  }

  // ---- Each step keeps it

  /** Steps that only move a worker from phase to phase. */
  predicate Moves(e: Event) {
    e.Elapse? || e.Receive? || e.GiveUp? || e.Disarm? || e.Begin? || e.Return? || e.Release? || e.Fire? || e.Stop?
  }

  lemma MovesKeep(x: World, e: Event)
    requires Can(x, e) && Moves(e)
    ensures (var y := After(x, e);
             && y.calls == x.calls && y.active == x.active && y.repoke == x.repoke && y.workers.Keys == x.workers.Keys
             && (forall w | w in x.workers :: y.workers[w].key == x.workers[w].key)
             && forall o, k :: Owns(y, o, k) <==> Owns(x, o, k))
  {
  }

  lemma OwnersSame(x: World, y: World)
    requires OneOwner(x) && y.active == x.active && forall o, k :: Owns(y, o, k) <==> Owns(x, o, k)
    ensures OneOwner(y)
  {
    forall k ensures Owned(y, k) <==> Owned(x, k) {
      if o :| Owns(y, o, k) {
        assert Owns(x, o, k);
      }
      if o :| Owns(x, o, k) {
        assert Owns(y, o, k);
      }
    }
  }

  lemma OwnerKept(x: World, e: Event)
    requires Good(x) && Can(x, e)
    ensures OneOwner(After(x, e))
  {
    hide ArmedLive, WithinBudget, NoneLost, OneOwner;
    var y := After(x, e);
    if Moves(e) {
      MovesKeep(x, e);
      hide After;
      OwnersSame(x, y);
    } else {
      match e
      case Dispatch(_, _, _) => OwnersSame(x, y);
      case Admit(c) => AdmitOwner(x, c);
      case Spawn(c, w) => SpawnOwner(x, c, w);
      case Clear(w, c) => ClearOwner(x, w, c);
    }
  }

  lemma AdmitOwner(x: World, c: nat)
    requires OneOwner(x) && Can(x, Admit(c))
    ensures OneOwner(After(x, Admit(c)))
  {
    var y, key := After(x, Admit(c)), x.calls[c].key;
    if key in x.active {
      OwnersSame(x, y);
    } else {
      forall o, k ensures Owns(y, o, k) <==> Owns(x, o, k) || (o == ByCall(c) && k == key) {
      }
      assert Owns(y, ByCall(c), key) && !Owned(x, key);
      OwnerAdded(x, y, ByCall(c), key);
    }
  }

  lemma OwnerAdded(x: World, y: World, a: Owner, key: Key)
    requires OneOwner(x) && key !in x.active && y.active == x.active + {key}
    requires forall o, k :: Owns(y, o, k) <==> Owns(x, o, k) || (o == a && k == key)
    ensures OneOwner(y)
  {
    assert !Owned(x, key);
    forall k ensures k in y.active <==> Owned(y, k) {
      assert k in x.active <==> Owned(x, k);
      assert Owns(y, a, key);
      if o :| Owns(x, o, k) {
        assert Owns(y, o, k);
      }
      if o :| Owns(y, o, k) {
        assert Owns(x, o, k) || k == key;
      }
    }
  }

  /** The key passes from the call to the worker it spawns. */
  lemma SpawnOwner(x: World, c: nat, w: nat)
    requires OneOwner(x) && Can(x, Spawn(c, w))
    ensures OneOwner(After(x, Spawn(c, w)))
  {
    var y, key := After(x, Spawn(c, w)), x.calls[c].key;
    assert Owns(x, ByCall(c), key);
    forall o, k ensures Owns(y, o, k) <==> (Owns(x, o, k) && o != ByCall(c)) || (o == ByWorker(w) && k == key) {
      SpawnOwns(x, c, w, o, k);
    }
    hide After;
    forall k ensures k in y.active <==> Owned(y, k) {
      assert k in x.active <==> Owned(x, k);
      assert Owns(y, ByWorker(w), key);
      if o :| Owns(x, o, k) {
        assert o != ByCall(c) ==> Owns(y, o, k);
      }
      if o :| Owns(y, o, k) {
        assert Owns(x, o, k) || k == key;
      }
    }
  }

  lemma SpawnOwns(x: World, c: nat, w: nat, o: Owner, k: Key)
    requires Can(x, Spawn(c, w))
    ensures Owns(After(x, Spawn(c, w)), o, k) <==> (Owns(x, o, k) && o != ByCall(c)) || (o == ByWorker(w) && k == x.calls[c].key)
    ensures After(x, Spawn(c, w)).active == x.active
  {
  }

  lemma ClearOwner(x: World, w: nat, c: nat)
    requires OneOwner(x) && Can(x, Clear(w, c))
    ensures OneOwner(After(x, Clear(w, c)))
  {
    var y, key := After(x, Clear(w, c)), x.workers[w].key;
    assert Owns(x, ByWorker(w), key);
    forall o, k ensures Owns(y, o, k) <==> Owns(x, o, k) && o != ByWorker(w) {
      ClearOwns(x, w, c, o, k);
    }
    assert y.active == x.active - {key};
    hide After;
    forall k ensures k in y.active <==> Owned(y, k) {
      assert k in x.active <==> Owned(x, k);
      if o :| Owns(x, o, k) {
        assert o != ByWorker(w) ==> Owns(y, o, k);
      }
      if o :| Owns(y, o, k) {
        assert Owns(x, o, k);
      }
    }
  }

  lemma ClearOwns(x: World, w: nat, c: nat, o: Owner, k: Key)
    requires Can(x, Clear(w, c))
    ensures Owns(After(x, Clear(w, c)), o, k) <==> Owns(x, o, k) && o != ByWorker(w)
  {
  }

  lemma ArmedSame(x: World, y: World)
    requires ArmedLive(x) && y.armed == x.armed
    requires forall w | w in y.workers && Waiting(y.workers[w].phase) :: w in x.workers && x.workers[w].key == y.workers[w].key && Waiting(x.workers[w].phase)
    requires forall w | w in x.workers && Waiting(x.workers[w].phase) :: w in y.workers && x.workers[w].key == y.workers[w].key && Waiting(y.workers[w].phase)
    ensures ArmedLive(y)
  {
    forall k ensures k in y.armed <==> WaitsFor(y, k) {
      assert k in x.armed <==> WaitsFor(x, k);
      if w :| w in x.workers && x.workers[w].key == k && Waiting(x.workers[w].phase) {
        assert w in y.workers;
      }
      if w :| w in y.workers && y.workers[w].key == k && Waiting(y.workers[w].phase) {
        assert w in x.workers;
      }
    }
  }

  lemma ArmedKept(x: World, e: Event)
    requires Good(x) && Can(x, e)
    ensures ArmedLive(After(x, e))
  {
    hide ArmedLive, WithinBudget, NoneLost, OneOwner;
    match e
    case Spawn(c, w) => SpawnArmed(x, c, w);
    case Disarm(w) => DisarmArmed(x, w);
    case _ => ArmedSame(x, After(x, e));
  }

  lemma SpawnArmed(x: World, c: nat, w: nat)
    requires Good(x) && Can(x, Spawn(c, w))
    ensures ArmedLive(After(x, Spawn(c, w)))
  {
    hide WithinBudget, NoneLost;
    var y := After(x, Spawn(c, w));
    forall k ensures k in y.armed <==> WaitsFor(y, k) {
      assert k in x.armed <==> WaitsFor(x, k);
      if v :| v in x.workers && x.workers[v].key == k && Waiting(x.workers[v].phase) {
        assert v in y.workers && y.workers[v] == x.workers[v];
      }
      if x.calls[c].delay > 0 {
        assert Waiting(y.workers[w].phase);
      }
    }
  }

  lemma DisarmArmed(x: World, w: nat)
    requires Good(x) && Can(x, Disarm(w))
    ensures ArmedLive(After(x, Disarm(w)))
  {
    hide WithinBudget, NoneLost;
    var y := After(x, Disarm(w));
    forall k ensures k in y.armed <==> WaitsFor(y, k) {
      assert k in x.armed <==> WaitsFor(x, k);
      if v :| v in x.workers && x.workers[v].key == k && Waiting(x.workers[v].phase) && v != w {
        assert v in y.workers && y.workers[v] == x.workers[v];
        assert Owns(x, ByWorker(v), k);
      }
      assert Owns(x, ByWorker(w), x.workers[w].key);
      if v :| v in y.workers && y.workers[v].key == k && Waiting(y.workers[v].phase) {
        assert v != w && x.workers[v] == y.workers[v] && Owns(x, ByWorker(v), k);
      }
    }
  }

  lemma SpendingSame(x: World, y: World)
    requires forall w | w in y.workers && Spends(y.workers[w].phase) :: w in x.workers && Spends(x.workers[w].phase)
    requires forall w | w in x.workers && Spends(x.workers[w].phase) :: w in y.workers && Spends(y.workers[w].phase)
    ensures Spending(y) == Spending(x)
  {
  }

  lemma BudgetKept(x: World, e: Event)
    requires Good(x) && Can(x, e)
    ensures WithinBudget(After(x, e))
  {
    hide OneOwner, ArmedLive, NoneLost, Spending;
    match e
    case Begin(w) => BeginSpends(x, w);
    case Release(w) => ReleaseSpends(x, w);
    case _ => SpendingSame(x, After(x, e));
  }

  lemma BeginSpends(x: World, w: nat)
    requires WithinBudget(x) && Can(x, Begin(w))
    ensures WithinBudget(After(x, Begin(w)))
  {
    var y := After(x, Begin(w));
    assert w !in Spending(x) && Spending(y) == Spending(x) + {w};
  }

  lemma ReleaseSpends(x: World, w: nat)
    requires WithinBudget(x) && Can(x, Release(w))
    ensures WithinBudget(After(x, Release(w)))
  {
    var y := After(x, Release(w));
    assert w in Spending(x) && Spending(y) == Spending(x) - {w};
  }

  lemma LossKept(x: World, e: Event)
    requires Good(x) && Can(x, e)
    ensures NoneLost(After(x, e))
  {
    hide ArmedLive, WithinBudget;
    var y := After(x, e);
    if !y.stopped {
      forall k | k in y.unserved ensures OnItsWay(y, k) {
        OnItsWayStill(x, e, k);
      }
    }
  }

  lemma OnItsWayStill(x: World, e: Event, k: Key)
    requires Good(x) && Can(x, e) && !After(x, e).stopped && k in After(x, e).unserved
    ensures OnItsWay(After(x, e), k)
  {
    hide ArmedLive, WithinBudget, Owned;
    var y := After(x, e);
    if e.Admit? && x.calls[e.c].key == k {
      if k !in x.active {
        assert y.calls[e.c].key == k;
      }
    } else if e.Return? && e.again && x.workers[e.w].key == k {
      assert y.workers[e.w].key == k && RunsAgain(y.workers[e.w].phase);
    } else {
      assert OnItsWay(x, k);
      if k in x.repoke {
        if e.Clear? && x.workers[e.w].key == k {
          assert y.calls[e.c].key == k;
        }
      } else if c :| c in x.calls && x.calls[c].key == k {
        if e.Spawn? && e.c == c {
          assert y.workers[e.w].key == k && BeforeRun(y.workers[e.w].phase);
        } else {
          assert c in y.calls && y.calls[c].key == k;
        }
      } else {
        var w :| w in x.workers && x.workers[w].key == k && (BeforeRun(x.workers[w].phase) || RunsAgain(x.workers[w].phase));
        if e.Clear? && e.w == w {
          assert y.calls[e.c].key == k;
        } else {
          assert w in y.workers && y.workers[w].key == k && (BeforeRun(y.workers[w].phase) || RunsAgain(y.workers[w].phase));
        }
      }
    }
  }

  lemma StepGood(x: World, e: Event)
    requires Good(x) && Can(x, e)
    ensures Good(After(x, e))
  {
    hide OneOwner, ArmedLive, WithinBudget, NoneLost;
    OwnerKept(x, e);
    ArmedKept(x, e);
    BudgetKept(x, e);
    LossKept(x, e);
  }

  // ---- Whole histories

  ghost predicate History(xs: seq<World>, es: seq<Event>) {
    |xs| == |es| + 1 && forall i | 0 <= i < |es| :: Can(xs[i], es[i]) && xs[i + 1] == After(xs[i], es[i])
  }

  const Nothing := World(0, {}, {}, {}, 0, false, map[], map[], {})

  lemma NothingGood(bound: nat)
    ensures Good(Nothing.(bound := bound))
  {
    var x := Nothing.(bound := bound);
    assert Spending(x) == {};
    forall k ensures !WaitsFor(x, k) {
    }
  }

  lemma SameBound(x: World, e: Event)
    requires Can(x, e)
    ensures After(x, e).bound == x.bound
  {
  }

  lemma {:induction false} HistoryGood(xs: seq<World>, es: seq<Event>, bound: nat)
    requires History(xs, es) && xs[0] == Nothing.(bound := bound)
    ensures Good(xs[|es|]) && xs[|es|].bound == bound
    decreases |es|
  {
    hide OneOwner, ArmedLive, WithinBudget, NoneLost, After, Can;
    if es == [] {
      NothingGood(bound);
    } else {
      var n := |es| - 1;
      HistoryGood(xs[..n + 1], es[..n], bound);
      StepGood(xs[n], es[n]);
      SameBound(xs[n], es[n]);
    }
  }

  /** At most one worker per key, and never more Runs at once than the bound. */
  lemma OneWorkerPerKey(xs: seq<World>, es: seq<Event>, bound: nat, v: nat, w: nat)
    requires History(xs, es) && xs[0] == Nothing.(bound := bound)
    requires v in xs[|es|].workers && w in xs[|es|].workers && xs[|es|].workers[v].key == xs[|es|].workers[w].key
    ensures v == w
    ensures bound > 0 ==> |Runs(xs[|es|])| <= bound
  {
    HistoryGood(xs, es, bound);
    var x := xs[|es|];
    assert Owns(x, ByWorker(v), x.workers[v].key) && Owns(x, ByWorker(w), x.workers[v].key);
    RunsWithin(x);
  }

  lemma Within(a: set<nat>, b: set<nat>)
    requires a <= b
    ensures |a| <= |b|
  {
    assert b == a + (b - a);
  }

  lemma RunsWithin(x: World)
    requires Good(x)
    ensures x.bound > 0 ==> |Runs(x)| <= x.bound
  {
    hide OneOwner, ArmedLive, NoneLost;
    Within(Runs(x), Spending(x));
  }

  /** Unless the context ended, a dispatcher at rest has followed every
      dispatch with a Run that began after it. */
  lemma EveryDispatchServed(xs: seq<World>, es: seq<Event>, bound: nat)
    requires History(xs, es) && xs[0] == Nothing.(bound := bound)
    requires xs[|es|].calls == map[] && xs[|es|].workers == map[] && !xs[|es|].stopped
    ensures xs[|es|].unserved == {} && xs[|es|].active == {} && xs[|es|].armed == {}
  {
    HistoryGood(xs, es, bound);
    var x := xs[|es|];
    forall k ensures k !in x.active && k !in x.unserved && k !in x.armed {
      assert !Owned(x, k) && !WaitsFor(x, k);
      assert k !in x.repoke && !OnItsWay(x, k);
    }
  }

  /** The dispatcher's own steps, and a Run in progress returning: no one
      dispatches, wakes or ends it. */
  predicate Own(e: Event) {
    !e.Dispatch? && !e.Fire? && !e.Stop?
  }

  /** es are steps of the dispatcher's own, possible one after the other, that
      end with a Run of k beginning. */
  ghost predicate Serves(x: World, es: seq<Event>, k: Key)
    decreases es
  {
    && es != [] && Can(x, es[0]) && Own(es[0])
    && (if |es| == 1 then es[0].Begin? && x.workers[es[0].w].key == k else Serves(After(x, es[0]), es[1..], k))
  }

  lemma After1(x: World, e: Event, es: seq<Event>, k: Key)
    requires Can(x, e) && Own(e) && Serves(After(x, e), es, k)
    ensures Serves(x, [e] + es, k)
  {
    hide Can, After;
    assert ([e] + es)[1..] == es;
  }

  /** The budget: free, or a Run that holds a share of it returns. */
  lemma ServeAcquiring(x: World, w: nat, k: Key) returns (es: seq<Event>)
    requires Good(x) && w in x.workers && x.workers[w] == Worker(k, Acquiring)
    ensures Serves(x, es, k) && |es| <= 3 && forall e | e in es :: !e.Elapse?
  {
    hide OneOwner, ArmedLive, NoneLost;
    if x.bound == 0 || x.sem < x.bound {
      es := [Begin(w)];
    } else {
      assert Spending(x) != {};
      var v :| v in Spending(x);
      if x.workers[v].phase.Running? {
        var y := After(x, Return(v, false, 0));
        assert Can(y, Release(v)) && Can(After(y, Release(v)), Begin(w));
        assert Serves(After(y, Release(v)), [Begin(w)], k);
        After1(y, Release(v), [Begin(w)], k);
        After1(x, Return(v, false, 0), [Release(v), Begin(w)], k);
        es := [Return(v, false, 0), Release(v), Begin(w)];
      } else {
        assert Can(After(x, Release(v)), Begin(w));
        assert Serves(After(x, Release(v)), [Begin(w)], k);
        After1(x, Release(v), [Begin(w)], k);
        es := [Release(v), Begin(w)];
      }
    }
  }

  /** A worker that has not run yet: its delay ends, by itself or woken. */
  lemma ServeWaiting(x: World, w: nat, k: Key) returns (es: seq<Event>)
    requires Good(x) && w in x.workers && x.workers[w].key == k && BeforeRun(x.workers[w].phase)
    ensures Serves(x, es, k) && |es| <= 5
    ensures x.workers[w].phase != Delaying(false) ==> forall e | e in es :: !e.Elapse?
  {
    hide Good;
    match x.workers[w].phase
    case Acquiring =>
      es := ServeAcquiring(x, w, k);
    case Disarming(_) =>
      es := ServeDisarming(x, w, k);
    case Delaying(fired) =>
      var e := if fired then Receive(w) else Elapse(w);
      StepGood(x, e);
      es := ServeDisarming(After(x, e), w, k);
      After1(x, e, es, k);
      es := [e] + es;
  }

  lemma ServeDisarming(x: World, w: nat, k: Key) returns (es: seq<Event>)
    requires Good(x) && w in x.workers && x.workers[w] == Worker(k, Disarming(false))
    ensures Serves(x, es, k) && |es| <= 4 && forall e | e in es :: !e.Elapse?
  {
    hide Good;
    StepGood(x, Disarm(w));
    es := ServeAcquiring(After(x, Disarm(w)), w, k);
    After1(x, Disarm(w), es, k);
    es := [Disarm(w)] + es;
  }

  lemma ServeArming(x: World, c: nat, k: Key) returns (es: seq<Event>)
    requires Good(x) && c in x.calls && x.calls[c].Arming? && x.calls[c].key == k
    ensures Serves(x, es, k) && |es| <= 6 && (x.calls[c].delay == 0 ==> |es| <= 4 && forall e | e in es :: !e.Elapse?)
  {
    hide Good;
    var w := Unused(x.workers.Keys);
    var e := Spawn(c, w);
    StepGood(x, e);
    if x.calls[c].delay == 0 {
      es := ServeAcquiring(After(x, e), w, k);
    } else {
      es := ServeWaiting(After(x, e), w, k);
    }
    After1(x, e, es, k);
    es := [e] + es;
  }

  lemma ServeCalling(x: World, c: nat, k: Key) returns (es: seq<Event>)
    requires Good(x) && c in x.calls && x.calls[c].Calling? && x.calls[c].key == k && k !in x.active
    ensures Serves(x, es, k) && |es| <= 7 && (x.calls[c].delay == 0 ==> |es| <= 5 && forall e | e in es :: !e.Elapse?)
  {
    hide Good;
    StepGood(x, Admit(c));
    es := ServeArming(After(x, Admit(c)), c, k);
    After1(x, Admit(c), es, k);
    es := [Admit(c)] + es;
  }

  /** A worker past its Run, its key re-poked or asked for again: it clears the
      key and dispatches it again, at once when re-poked. */
  lemma ServeCleared(x: World, w: nat, k: Key) returns (es: seq<Event>)
    requires Good(x) && !x.stopped && w in x.workers && x.workers[w].key == k && x.workers[w].phase.Clearing?
    requires k in x.repoke || x.workers[w].phase.again
    ensures Serves(x, es, k) && |es| <= 8 && (k in x.repoke ==> |es| <= 6 && forall e | e in es :: !e.Elapse?)
  {
    hide Good;
    var c := Unused(x.calls.Keys);
    StepGood(x, Clear(w, c));
    es := ServeCalling(After(x, Clear(w, c)), c, k);
    After1(x, Clear(w, c), es, k);
    es := [Clear(w, c)] + es;
  }

  lemma ServeReturned(x: World, w: nat, k: Key) returns (es: seq<Event>)
    requires Good(x) && !x.stopped && w in x.workers && x.workers[w].key == k && x.workers[w].phase.Releasing?
    requires k in x.repoke || x.workers[w].phase.again
    ensures Serves(x, es, k) && |es| <= 9 && (k in x.repoke ==> |es| <= 7 && forall e | e in es :: !e.Elapse?)
  {
    hide Good;
    StepGood(x, Release(w));
    es := ServeCleared(After(x, Release(w)), w, k);
    After1(x, Release(w), es, k);
    es := [Release(w)] + es;
  }

  /** A re-poked key has an owner, which runs it or runs it again; one past the
      beginning of its Run, without a delay. */
  lemma ServeRepoked(x: World, k: Key) returns (es: seq<Event>)
    requires Good(x) && !x.stopped && k in x.repoke
    ensures Serves(x, es, k) && |es| <= 8
    ensures (exists w :: w in x.workers && x.workers[w].key == k && Begun(x.workers[w].phase)) ==> forall e | e in es :: !e.Elapse?
  {
    var o := OwnerOf(x, k);
    hide Good;
    match o
    case ByCall(c) =>
      es := ServeArming(x, c, k);
      NoOtherOwner(x, o, k);
    case ByWorker(w) =>
      NoOtherOwner(x, o, k);
      match x.workers[w].phase {
        case Running =>
          StepGood(x, Return(w, false, 0));
          es := ServeReturned(After(x, Return(w, false, 0)), w, k);
          After1(x, Return(w, false, 0), es, k);
          es := [Return(w, false, 0)] + es;
        case Releasing(_, _) =>
          es := ServeReturned(x, w, k);
        case Clearing(_, _) =>
          es := ServeCleared(x, w, k);
        case _ =>
          es := ServeWaiting(x, w, k);
      }
  }

  predicate Begun(p: Phase) {
    p.Running? || p.Releasing? || p.Clearing?
  }

  lemma NoOtherOwner(x: World, o: Owner, k: Key)
    requires Good(x) && Owns(x, o, k)
    ensures forall w | w in x.workers && x.workers[w].key == k :: o == ByWorker(w)
  {
    hide ArmedLive, WithinBudget, NoneLost;
    forall w | w in x.workers && x.workers[w].key == k ensures o == ByWorker(w) {
      assert Owns(x, ByWorker(w), k);
    }
  }

  lemma OwnerOf(x: World, k: Key) returns (o: Owner)
    requires Good(x) && !x.stopped && k in x.repoke
    ensures Owns(x, o, k) && (o.ByWorker? ==> x.workers[o.w].phase != Disarming(true))
  {
    hide ArmedLive, WithinBudget;
    assert Owned(x, k);
    o :| Owns(x, o, k);
  }

  /** A dispatch is never lost, nor a Run's own request to run again: in any
      reachable dispatcher whose context has not ended, a Run of such a key
      that has not begun since can begin within nine steps, none of them a new
      dispatch, a wake or the end. */
  lemma DispatchLeadsToRun(xs: seq<World>, es: seq<Event>, bound: nat, k: Key) returns (next: seq<Event>)
    requires History(xs, es) && xs[0] == Nothing.(bound := bound) && k in xs[|es|].unserved && !xs[|es|].stopped
    ensures Serves(xs[|es|], next, k) && |next| <= 9
  {
    HistoryGood(xs, es, bound);
    var x := xs[|es|];
    assert OnItsWay(x, k);
    hide Good;
    if k in x.repoke {
      next := ServeRepoked(x, k);
    } else if w :| w in x.workers && x.workers[w].key == k && BeforeRun(x.workers[w].phase) {
      next := ServeWaiting(x, w, k);
    } else if w :| w in x.workers && x.workers[w].key == k && RunsAgain(x.workers[w].phase) {
      if x.workers[w].phase.Releasing? {
        next := ServeReturned(x, w, k);
      } else {
        next := ServeCleared(x, w, k);
      }
    } else {
      var c :| c in x.calls && x.calls[c].key == k;
      if x.calls[c].Arming? {
        next := ServeArming(x, c, k);
      } else if k !in x.active {
        next := ServeCalling(x, c, k);
      } else {
        StepGood(x, Admit(c));
        next := ServeRepoked(After(x, Admit(c)), k);
        After1(x, Admit(c), next, k);
        next := [Admit(c)] + next;
      }
    }
  }

  /** A dispatch that found its key running is urgent: the next Run can begin
      without any delay ending, whatever delay the running one asks for. */
  lemma RepokeIsUrgent(xs: seq<World>, es: seq<Event>, bound: nat, k: Key, w: nat) returns (next: seq<Event>)
    requires History(xs, es) && xs[0] == Nothing.(bound := bound) && k in xs[|es|].repoke && !xs[|es|].stopped
    requires w in xs[|es|].workers && xs[|es|].workers[w].key == k && Begun(xs[|es|].workers[w].phase)
    ensures Serves(xs[|es|], next, k) && forall e | e in next :: !e.Elapse?
  {
    HistoryGood(xs, es, bound);
    next := ServeRepoked(xs[|es|], k);
  }

  /** Waiting, or giving up as the context ends. */
  predicate StillWaits(p: Phase) {
    p.Delaying? || p == Disarming(true) || p == Clearing(false, 0)
  }

  lemma WaitsOn(x: World, e: Event, w: nat)
    requires Can(x, e) && w in x.workers && StillWaits(x.workers[w].phase)
    requires e != Elapse(w) && e != Receive(w)
    ensures w in After(x, e).workers ==> StillWaits(After(x, e).workers[w].phase)
  {
  }

  /** A delayed dispatch runs no sooner than its delay ends or a wake is
      received: until then its worker waits. */
  lemma {:induction false} DelayIsKept(xs: seq<World>, es: seq<Event>, i: nat, c: nat, w: nat)
    requires History(xs, es) && i < |es| && es[i] == Spawn(c, w) && xs[i].calls[c].delay > 0
    requires forall m | i < m < |es| :: es[m] != Elapse(w) && es[m] != Receive(w) && !(es[m].Spawn? && es[m].w == w)
    ensures w in xs[|es|].workers ==> StillWaits(xs[|es|].workers[w].phase)
    ensures !Can(xs[|es|], Begin(w))
    decreases |es|
  {
    var n := |es| - 1;
    assert xs[n + 1] == After(xs[n], es[n]);
    if i < n {
      DelayIsKept(xs[..n + 1], es[..n], i, c, w);
      if w in xs[n].workers {
        WaitsOn(xs[n], es[n], w);
      }
    }
  }

  /** A Wake issued once a delayed Dispatch has returned is never missed: the
      Run can begin without the delay ending. */
  lemma WakeCutsDelay(xs: seq<World>, es: seq<Event>, bound: nat, k: Key) returns (next: seq<Event>)
    requires History(xs, es) && xs[0] == Nothing.(bound := bound) && k in xs[|es|].armed && !xs[|es|].stopped
    ensures Serves(After(xs[|es|], Fire(k)), next, k) && forall e | e in next :: !e.Elapse?
  {
    HistoryGood(xs, es, bound);
    var x := xs[|es|];
    assert WaitsFor(x, k);
    var w :| w in x.workers && x.workers[w].key == k && Waiting(x.workers[w].phase);
    assert x.workers[w].phase != Disarming(true);
    StepGood(x, Fire(k));
    hide Good;
    next := ServeWaiting(After(x, Fire(k)), w, k);
  }

  lemma Unused(s: set<nat>) returns (n: nat)
    ensures n !in s
  {
    n := Above(s);
  }

  ghost function Above(s: set<nat>): (n: nat)
    ensures forall m | m in s :: m < n
    decreases |s|
  {
    if s == {} then 0
    else
      var m :| m in s;
      var rest := Above(s - {m});
      assert forall n | n in s :: n == m || n in s - {m};
      if m >= rest then m + 1 else rest
  }

  /** Even as the context ends: the waiting worker can receive it at once. */
  lemma WakeReceived(xs: seq<World>, es: seq<Event>, bound: nat, w: nat)
    requires History(xs, es) && xs[0] == Nothing.(bound := bound)
    requires w in xs[|es|].workers && xs[|es|].workers[w].phase.Delaying?
    ensures Can(After(xs[|es|], Fire(xs[|es|].workers[w].key)), Receive(w))
  {
    HistoryGood(xs, es, bound);
    var x := xs[|es|];
    assert Waiting(x.workers[w].phase);
    assert x.workers[w].key in x.armed;
  }

  // ---- The locked sections, in place

  class State {
    var active: set<Key>
    var repoke: set<Key>

    constructor ()
      ensures active == {} && repoke == {}
    {
      active, repoke := {}, {};
    }

    method Enter(k: Key) returns (spawn: bool)
      modifies this
      ensures (active, repoke, spawn) == Entered(old(active), old(repoke), k)
    {
      if k in active {
        repoke := repoke + {k};
        return false;
      }
      active := active + {k};
      spawn := true;
    }

    method ClearActive(k: Key) returns (poked: bool)
      modifies this
      ensures (active, repoke, poked) == Cleared(old(active), old(repoke), k)
    {
      active := active - {k};
      poked := k in repoke;
      repoke := repoke - {k};
    }
  }
}
