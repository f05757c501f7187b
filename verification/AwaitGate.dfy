/** The await gate over the join: parked Runs register, then read each target
    once; a target commits terminal, then completes its key. Every step of
    every worker may interleave with every other, and the engine may stop. */
module AwaitGate {
  import opened Bytes
  import opened Records
  import J = JoinSet

  /** A durable park; newAwait removes repeated targets (await.go:88-89). */
  datatype Park = Park(targets: seq<Id>, need: nat)

  /** Where a Run's worker is: not at the gate, about to enter it, reading
      targets (with one found done and not yet marked), or returned with the
      Run parked. */
  datatype Stage = Away | Entered | Reading(todo: set<Id>, found: Option<Id>) | Waiting

  /** over: the Runs that are terminal or absent, which never changes back.
      pending: those whose worker has yet to complete their key. owed: the
      Runs with a dispatch on its way. */
  datatype World = World(
    over: set<Id>, pending: set<Id>, owed: set<Id>, join: J.State, stages: map<Id, Stage>, parks: map<Id, Park>)

  function StageOf(x: World, w: Id): Stage {
    if w in x.stages then x.stages[w] else Away
  }

  predicate WellParked(p: Park) {
    p.targets != [] && J.Distinct(p.targets) == p.targets && 1 <= p.need <= |p.targets|
  }

  datatype Event =
    | ParkOn(w: Id, park: Park)      // parkAwait
    | Deliver(w: Id)                 // a dispatch reaches the Run
    | Enter(w: Id, now: int)         // the gate registers
    | Read(w: Id, t: Id)             // and reads each target
    | MarkFound(w: Id)
    | Check(w: Id, expired: bool)    // then counts what is done
    | Unpark(w: Id)                  // canceled, or invalid
    | Commit(t: Id)                  // a target's terminal commit
    | Finish(t: Id)                  // and its awaitTargetDone
    | Poke(w: Id)                    // a deadline, or any other dispatch
    | Restart(runs: set<Id>)         // the engine stops; the next dispatches every Run

  function DoneCount(x: World, w: Id): nat {
    if w in x.join.waiters then |x.join.waiters[w].finished| else 0
  }

  ghost predicate Can(x: World, e: Event) {
    match e
    case ParkOn(w, p) => StageOf(x, w).Away? && w !in x.parks && WellParked(p)
    case Deliver(w) => w in x.owed && (StageOf(x, w).Away? || StageOf(x, w).Waiting?)
    case Enter(w, _) => StageOf(x, w).Entered? && w in x.parks
    case Read(w, t) => StageOf(x, w).Reading? && StageOf(x, w).found.None? && t in StageOf(x, w).todo
    case MarkFound(w) => StageOf(x, w).Reading? && StageOf(x, w).found.Some?
    case Check(w, _) => StageOf(x, w) == Reading({}, None) && w in x.parks
    case Unpark(w) => StageOf(x, w).Entered? || StageOf(x, w).Reading?
    case Commit(t) => t !in x.over
    case Finish(t) => t in x.pending
    case Poke(_) => true
    case Restart(runs) => forall w | w in x.parks :: w in runs
  }

  ghost function After(x: World, e: Event): World
    requires Can(x, e)
  {
    match e
    case ParkOn(w, p) => x.(parks := x.parks[w := p], stages := x.stages[w := Entered])
    case Deliver(w) => x.(owed := x.owed - {w}, stages := x.stages[w := if w in x.parks then Entered else Away])
    case Enter(w, now) =>
      var p := x.parks[w];
      var (s, added) := J.Register(x.join, w, p.targets, p.need, now);
      x.(join := s, stages := x.stages[w := if added then Reading((set t | t in p.targets), None) else Reading({}, None)])
    case Read(w, t) =>
      x.(stages := x.stages[w := Reading(StageOf(x, w).todo - {t}, if t in x.over then Some(t) else None)])
    case MarkFound(w) =>
      x.(join := J.Mark(x.join, w, StageOf(x, w).found.value), stages := x.stages[w := Reading(StageOf(x, w).todo, None)])
    case Check(w, expired) =>
      if DoneCount(x, w) >= x.parks[w].need || expired then Left(x, w) else x.(stages := x.stages[w := Waiting])
    case Unpark(w) => Left(x, w)
    case Commit(t) => x.(over := x.over + {t}, pending := x.pending + {t})
    case Finish(t) => x.(pending := x.pending - {t}, join := J.Complete(x.join, t), owed := x.owed + J.Kicks(x.join, t))
    case Poke(w) => x.(owed := x.owed + {w})
    case Restart(runs) => World(x.over, {}, runs, J.Empty, map[], x.parks)
  }

  /** The park resolves: its registration and its record go. */
  function Left(x: World, w: Id): World {
    x.(join := J.Remove(x.join, w), parks := x.parks - {w}, stages := x.stages[w := Away])
  }

  // ---- The invariant

  /** What is still on its way to a registered waiter's done set. */
  function OnTheWay(x: World, w: Id): set<Id> {
    x.pending + match StageOf(x, w)
      case Reading(todo, found) => todo + (if found.Some? then {found.value} else {})
      case _ => {}
  }

  /** A registered Run misses no target that is over: it is marked done, or
      its key is yet to complete, or the gate is about to read or mark it. */
  ghost predicate MissesNone(x: World, w: Id) {
    w in x.join.waiters ==>
      forall t | t in x.join.waiters[w].keys && t in x.over :: t in x.join.waiters[w].finished || t in OnTheWay(x, w)
  }

  /** A registration is of the Run's park. */
  ghost predicate OfPark(x: World, w: Id) {
    w in x.join.waiters ==>
      && w in x.parks
      && x.join.waiters[w].keys == x.parks[w].targets && x.join.waiters[w].need == x.parks[w].need
      && !StageOf(x, w).Away?
  }

  /** A Run is away while it has no park. At the gate past registration, it
      is registered; parked at its threshold, it is owed a dispatch. */
  ghost predicate AtStage(x: World, w: Id) {
    && (w in x.parks ==> WellParked(x.parks[w]))
    && (StageOf(x, w).Reading? || StageOf(x, w).Waiting? ==> w in x.join.waiters)
    && (StageOf(x, w).Entered? ==> w in x.parks)
    && (StageOf(x, w).Away? && w in x.parks ==> w in x.owed)
    && (StageOf(x, w).Waiting? && w in x.join.waiters && DoneCount(x, w) >= x.join.waiters[w].need ==> w in x.owed)
  }

  ghost predicate Found(x: World, w: Id) {
    StageOf(x, w).Reading? && StageOf(x, w).found.Some? ==> StageOf(x, w).found.value in x.over
  }

  ghost predicate GoodFor(x: World, w: Id) {
    MissesNone(x, w) && OfPark(x, w) && AtStage(x, w) && Found(x, w)
  }

  ghost predicate Good(x: World) {
    J.Sound(x.join) && forall w :: GoodFor(x, w)
  }

  /** A Run an event does not touch. */
  ghost predicate SameFor(x: World, y: World, v: Id) {
    && (v in y.join.waiters <==> v in x.join.waiters)
    && (v in x.join.waiters ==> y.join.waiters[v] == x.join.waiters[v])
    && StageOf(y, v) == StageOf(x, v)
    && (v in y.parks <==> v in x.parks) && (v in x.parks ==> y.parks[v] == x.parks[v])
    && (v in x.owed ==> v in y.owed)
  }

  lemma Untouched(x: World, y: World, v: Id)
    requires GoodFor(x, v) && SameFor(x, y, v)
    requires x.over <= y.over && x.pending <= y.pending && forall t | t in y.over && t !in x.over :: t in y.pending
    ensures GoodFor(y, v)
  {
  }

  lemma ParkOnGood(x: World, w: Id, p: Park)
    requires Good(x) && Can(x, ParkOn(w, p))
    ensures Good(After(x, ParkOn(w, p)))
  {
    var y := After(x, ParkOn(w, p));
    forall v ensures GoodFor(y, v) {
      assert GoodFor(x, v);
      if v != w {
        Untouched(x, y, v);
      }
    }
  }

  lemma DeliverGood(x: World, w: Id)
    requires Good(x) && Can(x, Deliver(w))
    ensures Good(After(x, Deliver(w)))
  {
    var y := After(x, Deliver(w));
    forall v ensures GoodFor(y, v) {
      assert GoodFor(x, v);
      if v != w {
        Untouched(x, y, v);
      }
    }
  }

  lemma EnterGood(x: World, w: Id, now: int)
    requires Good(x) && Can(x, Enter(w, now))
    ensures Good(After(x, Enter(w, now)))
  {
    hide J.Sound, J.Indexed;
    var y := After(x, Enter(w, now));
    J.RegisterSound(x.join, w, x.parks[w].targets, x.parks[w].need, now);
    forall v ensures GoodFor(y, v) {
      assert GoodFor(x, v);
      if v != w {
        Untouched(x, y, v);
      }
    }
  }

  lemma ReadGood(x: World, w: Id, t: Id)
    requires Good(x) && Can(x, Read(w, t))
    ensures Good(After(x, Read(w, t)))
  {
    var y := After(x, Read(w, t));
    forall v ensures GoodFor(y, v) {
      assert GoodFor(x, v);
      if v != w {
        Untouched(x, y, v);
      }
    }
  }

  lemma MarkGood(x: World, w: Id)
    requires Good(x) && Can(x, MarkFound(w))
    ensures Good(After(x, MarkFound(w)))
  {
    var y, t := After(x, MarkFound(w)), StageOf(x, w).found.value;
    assert GoodFor(x, w);
    J.MarkSound(x.join, w, t);
    assert w in J.Members(x.join.byKey, t) <==> t in x.join.waiters[w].keys;
    forall v ensures GoodFor(y, v) {
      assert GoodFor(x, v);
      if v != w {
        Untouched(x, y, v);
      }
    }
  }

  lemma LeftGood(x: World, w: Id)
    requires Good(x)
    ensures Good(Left(x, w))
  {
    hide J.Sound, J.Unindexed;
    var y := Left(x, w);
    J.RemoveSound(x.join, w);
    forall v ensures GoodFor(y, v) {
      assert GoodFor(x, v);
      if v != w {
        Untouched(x, y, v);
      }
    }
  }

  lemma CheckGood(x: World, w: Id, expired: bool)
    requires Good(x) && Can(x, Check(w, expired))
    ensures Good(After(x, Check(w, expired)))
  {
    LeftGood(x, w);
    var y := After(x, Check(w, expired));
    if y != Left(x, w) {
      forall v ensures GoodFor(y, v) {
        assert GoodFor(x, v);
        if v != w {
          Untouched(x, y, v);
        }
      }
    }
  }

  lemma CommitGood(x: World, t: Id)
    requires Good(x) && Can(x, Commit(t))
    ensures Good(After(x, Commit(t)))
  {
    var y := After(x, Commit(t));
    forall v ensures GoodFor(y, v) {
      assert GoodFor(x, v);
      Untouched(x, y, v);
    }
  }

  lemma FinishGood(x: World, t: Id)
    requires Good(x) && Can(x, Finish(t))
    ensures Good(After(x, Finish(t)))
  {
    var y := After(x, Finish(t));
    J.CompleteSound(x.join, t);
    forall v ensures GoodFor(y, v) {
      FinishFor(x, t, v);
    }
  }

  lemma FinishFor(x: World, t: Id, v: Id)
    requires Good(x) && Can(x, Finish(t))
    ensures GoodFor(After(x, Finish(t)), v)
  {
    assert GoodFor(x, v);
    var y := After(x, Finish(t));
    if v in x.join.waiters {
      assert v in J.Members(x.join.byKey, t) <==> t in x.join.waiters[v].keys;
      J.KickedIff(x.join, t, v);
      if |x.join.waiters[v].finished| < x.join.waiters[v].need <= |y.join.waiters[v].finished| {
        J.CrossingReported(x.join, t, v);
      }
    }
  }

  lemma PokeGood(x: World, w: Id)
    requires Good(x)
    ensures Good(x.(owed := x.owed + {w}))
  {
    forall v ensures GoodFor(x.(owed := x.owed + {w}), v) {
      assert GoodFor(x, v);
      Untouched(x, x.(owed := x.owed + {w}), v);
    }
  }

  lemma RestartGood(x: World, runs: set<Id>)
    requires Good(x) && Can(x, Restart(runs))
    ensures Good(After(x, Restart(runs)))
  {
    J.EmptySound();
    forall v ensures GoodFor(After(x, Restart(runs)), v) {
      assert GoodFor(x, v);
    }
  }

  lemma EventGood(x: World, e: Event)
    requires Good(x) && Can(x, e)
    ensures Good(After(x, e))
  {
    hide Good;
    match e
    case ParkOn(w, p) => ParkOnGood(x, w, p);
    case Deliver(w) => DeliverGood(x, w);
    case Enter(w, now) => EnterGood(x, w, now);
    case Read(w, t) => ReadGood(x, w, t);
    case MarkFound(w) => MarkGood(x, w);
    case Check(w, expired) => CheckGood(x, w, expired);
    case Unpark(w) => LeftGood(x, w);
    case Commit(t) => CommitGood(x, t);
    case Finish(t) => FinishGood(x, t);
    case Poke(w) => PokeGood(x, w);
    case Restart(runs) => RestartGood(x, runs);
  }

  // ---- Whole histories

  ghost predicate History(xs: seq<World>, es: seq<Event>) {
    |xs| == |es| + 1 && forall i | 0 <= i < |es| :: Can(xs[i], es[i]) && xs[i + 1] == After(xs[i], es[i])
  }

  /** Nothing is parked yet; some Runs are over, or will never exist. */
  ghost predicate Fresh(x: World) {
    x.pending == {} && x.join == J.Empty && x.stages == map[] && x.parks == map[]
  }

  lemma {:induction false} HistoryGood(xs: seq<World>, es: seq<Event>)
    requires History(xs, es) && Fresh(xs[0])
    ensures Good(xs[|es|])
    decreases |es|
  {
    if es == [] {
      J.EmptySound();
    } else {
      var n := |es| - 1;
      HistoryGood(xs[..n + 1], es[..n]);
      EventGood(xs[n], es[n]);
    }
  }

  /** No wake is lost: at any moment of any history, a parked Run that is owed
      no dispatch has fewer targets over and completed than it needs. */
  lemma NoLostWake(xs: seq<World>, es: seq<Event>, w: Id)
    requires History(xs, es) && Fresh(xs[0])
    requires StageOf(xs[|es|], w).Waiting? && w !in xs[|es|].owed
    ensures (var x := xs[|es|];
             w in x.parks && |(set t | t in x.parks[w].targets && t in x.over && t !in x.pending)| < x.parks[w].need)
  {
    HistoryGood(xs, es);
    var x := xs[|es|];
    assert GoodFor(x, w);
    var over := set t | t in x.parks[w].targets && t in x.over && t !in x.pending;
    assert over <= x.join.waiters[w].finished;
    J.Grows(over, x.join.waiters[w].finished);
  }

  /** A done target is one that is over: a wake is never early. */
  ghost predicate DoneIsOver(x: World) {
    && (forall w, t | w in x.join.waiters && t in x.join.waiters[w].finished :: t in x.over)
    && x.pending <= x.over
  }

  lemma EventDoneIsOver(x: World, e: Event)
    requires Good(x) && DoneIsOver(x) && Can(x, e)
    ensures DoneIsOver(After(x, e))
  {
    hide J.Sound, J.Indexed, J.Unindexed, J.Members, GoodFor;
    if e.MarkFound? {
      FoundOver(x, e.w);
    }
  }

  lemma FoundOver(x: World, w: Id)
    requires Good(x)
    ensures Found(x, w)
  {
    assert GoodFor(x, w);
  }

  lemma {:induction false} HistoryDoneIsOver(xs: seq<World>, es: seq<Event>)
    requires History(xs, es) && Fresh(xs[0])
    ensures DoneIsOver(xs[|es|])
    decreases |es|
  {
    if es != [] {
      var n := |es| - 1;
      HistoryGood(xs[..n + 1], es[..n]);
      HistoryDoneIsOver(xs[..n + 1], es[..n]);
      EventDoneIsOver(xs[n], es[n]);
    }
  }

  /** The gate lets a Run through only when enough of its targets are over,
      or its deadline passed. */
  lemma NoEarlyWake(xs: seq<World>, es: seq<Event>, w: Id)
    requires History(xs, es) && Fresh(xs[0])
    requires Can(xs[|es|], Check(w, false)) && After(xs[|es|], Check(w, false)) == Left(xs[|es|], w) && w in xs[|es|].join.waiters
    ensures (var x := xs[|es|]; |(set t | t in x.parks[w].targets && t in x.over)| >= x.parks[w].need)
  {
    HistoryGood(xs, es);
    HistoryDoneIsOver(xs, es);
    var x := xs[|es|];
    assert GoodFor(x, w);
    var over := set t | t in x.parks[w].targets && t in x.over;
    assert J.WaiterSound(x.join.waiters[w]);
    assert x.join.waiters[w].finished <= over;
    J.Grows(x.join.waiters[w].finished, over);
    assert w !in Left(x, w).parks && w in x.parks;
  }
}
