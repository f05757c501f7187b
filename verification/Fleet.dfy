/** All the Runs of an engine over one store: each is a machine of RunMachine,
    and what they and the engine's sweeps ask of the store is one history of
    StageRefinement. */
module Fleet {
  import opened Bytes
  import opened Records
  import opened RunMachine
  import Mem = MemStore
  import View = StageView
  import Refinement = StageRefinement
  import opened RunStates
  import ConcurrentReads

  /** A Run since its creation. */
  datatype Life = Life(born: Machine, acts: seq<Action>)

  ghost predicate Lived(l: Life) {
    JustCreated(l.born) && Possible(l.born, l.acts)
  }

  ghost function Now(l: Life): Machine
    requires Lived(l)
  {
    Reached(l.born, l.acts)
  }

  /** The bbolt store, the reference store fed the same calls, and the Runs. */
  datatype Fleet = Fleet(view: View.View, mem: Mem.MemState, lives: map<Id, Life>)

  const Empty := Fleet(View.EmptyView, Mem.EmptyState, map[])

  datatype Event =
    | Schedule(rec: RunRecord, excluding: seq<Id>)
    | Work(id: Id, act: Action)
    | Reap(victims: set<Id>, before: Time, limit: int)
    | Drain(ids: set<Id>)

  function Born(rec: RunRecord): Machine {
    Machine(rec, None, Idle, [], [], [], [])
  }

  /** What the event asks of the store, if anything. */
  function Told(e: Event): seq<Refinement.Event> {
    match e
    case Schedule(rec, excluding) => [Refinement.ECreate(rec, excluding)]
    case Work(id, Apply(_, u)) => [Refinement.EApply(id, u)]
    case Work(id, Ask(req)) => [Refinement.ECancel(id, req)]
    case Work(_, _) => []
    case Reap(victims, before, limit) => [Refinement.EReap(victims, before, limit)]
    case Drain(ids) => [Refinement.EDrain(ids)]
  }

  /** RunIDs are fresh, each Run is a machine, and the sweeps take what bbolt's
      walks take. Nothing is assumed of a transition. */
  ghost predicate Can(f: Fleet, e: Event) {
    match e
    case Schedule(rec, _) => rec.runId !in f.mem.runs && JustCreated(Born(rec)) && rec.output == []
    case Work(id, a) => id in f.lives && Lived(f.lives[id]) && RunMachine.Can(Now(f.lives[id]), a)
    case Reap(victims, before, limit) => View.TakesOldest(f.view, victims, before, limit) && Refinement.TimesSound(f.view, before)
    case Drain(ids) => ids <= f.view.staged
  }

  function LivesAfter(f: Fleet, e: Event): map<Id, Life>
    requires e.Work? ==> e.id in f.lives
  {
    match e
    case Schedule(rec, excluding) =>
      if Mem.DoCreate(f.mem, rec, excluding).1.Created? then f.lives[rec.runId := Life(Born(rec), [])] else f.lives
    case Work(id, a) => f.lives[id := Life(f.lives[id].born, f.lives[id].acts + [a])]
    case Reap(victims, _, _) => f.lives - victims
    case Drain(_) => f.lives
  }

  ghost function After(f: Fleet, e: Event): Fleet
    requires Can(f, e)
  {
    Fleet(Refinement.RunView(f.view, Told(e)).0, Refinement.RunMem(f.mem, Told(e)).0, LivesAfter(f, e))
  }

  // ---- The invariant

  ghost predicate Kept(f: Fleet, id: Id)
    requires id in f.lives && id in f.mem.runs
  {
    && Lived(f.lives[id])
    && f.mem.runs[id] == Now(f.lives[id]).store
    && Mem.Lookup(f.mem.inflight, id) == Now(f.lives[id]).inflight
  }

  ghost predicate Good(f: Fleet) {
    && Refinement.Coupled(f.view, f.mem)
    && f.lives.Keys == f.mem.runs.Keys
    && forall id | id in f.lives :: Kept(f, id)
  }

  lemma OneTold(v: View.View, m: Mem.MemState, e: Refinement.Event)
    ensures Refinement.RunView(v, [e]).0 == Refinement.StepView(v, e).0
    ensures Refinement.RunMem(m, [e]).0 == Refinement.StepMem(m, e).0
    ensures Refinement.AllAdmissible(v, m, [e]) <==> Refinement.Admissible(v, m, e)
  {
    hide Refinement.StepView, Refinement.StepMem, Refinement.Admissible;
    assert [e][1..] == [];
  }

  lemma ScheduleTold(f: Fleet, e: Event)
    requires Good(f) && Can(f, e) && e.Schedule?
    ensures Refinement.AllAdmissible(f.view, f.mem, Told(e))
    ensures Refinement.Coupled(After(f, e).view, After(f, e).mem)
    ensures After(f, e).mem == Mem.DoCreate(f.mem, e.rec, e.excluding).0
  {
    hide Refinement.Coupled, Refinement.StepView, Refinement.Admissible, Refinement.RunView, Refinement.RunMem, Refinement.AllAdmissible;
    var t := Refinement.ECreate(e.rec, e.excluding);
    OneTold(f.view, f.mem, t);
    SeedAdmitted(f, e.rec, e.excluding);
    Refinement.StepRefines(f.view, f.mem, t);
  }

  lemma ScheduleGood(f: Fleet, e: Event)
    requires Good(f) && Can(f, e) && e.Schedule?
    ensures Refinement.AllAdmissible(f.view, f.mem, Told(e)) && Good(After(f, e))
  {
    hide Refinement.Coupled, Refinement.RunView, Refinement.RunMem, Refinement.AllAdmissible, JustCreated, Possible, Reached;
    ScheduleTold(f, e);
    var g := After(f, e);
    InflightThere(f);
    BornLives(e.rec);
    forall id | id in g.lives ensures Kept(g, id) {
      assert id in f.lives ==> Kept(f, id);
    }
  }

  lemma BornLives(rec: RunRecord)
    requires JustCreated(Born(rec))
    ensures !rec.Terminal() && Lived(Life(Born(rec), [])) && Now(Life(Born(rec), [])) == Born(rec)
  {
  }

  lemma SeedAdmitted(f: Fleet, rec: RunRecord, excluding: seq<Id>)
    requires Can(f, Schedule(rec, excluding))
    ensures Refinement.Admissible(f.view, f.mem, Refinement.ECreate(rec, excluding))
  {
  }

  lemma InflightThere(f: Fleet)
    requires Good(f)
    ensures forall id | id in f.mem.inflight :: id in f.mem.runs && !f.mem.runs[id].Terminal()
  {
  }

  /** A step of one Run's machine: its transition keeps the delta contract,
      the store takes it, and does to the record what the machine says. */
  lemma WorkTold(f: Fleet, e: Event)
    requires Good(f) && Can(f, e) && e.Work?
    ensures Refinement.AllAdmissible(f.view, f.mem, Told(e))
    ensures (var n, m := Act(Now(f.lives[e.id]), e.act), Refinement.RunMem(f.mem, Told(e)).0;
             && m.runs == f.mem.runs[e.id := n.store] && Mem.Lookup(m.inflight, e.id) == n.inflight
             && forall x | x != e.id :: Mem.Lookup(m.inflight, x) == Mem.Lookup(f.mem.inflight, x))
    ensures e.act.Apply? ==> Mem.DoApply(f.mem, e.id, e.act.u).1 == Mem.Ok(())
  {
    hide Refinement.Coupled, JustCreated, Possible, Reached, Refinement.KeepsContract, Mem.ApplyRecord, Mem.ApplyOutcome, CanTurn, Wrote, AfterTurn, Refinement.RunMem, Refinement.RunView;
    var id, a, l := e.id, e.act, f.lives[e.id];
    assert Kept(f, id);
    RunsKeepInv(l.born, l.acts);
    var m := Now(l);
    match a
    case Apply(t, u) =>
      AppliedRun(m, t, u);
      TurnKeepsContract(m, t, u);
      OneTold(f.view, f.mem, Refinement.EApply(id, u));
    case Ask(req) =>
      OneTold(f.view, f.mem, Refinement.ECancel(id, req));
      assert f.mem.runs[id := f.mem.runs[id]] == f.mem.runs;
    case _ =>
      NoneTold(f.view, f.mem);
      assert f.mem.runs[id := f.mem.runs[id]] == f.mem.runs;
  }

  lemma NoneTold(v: View.View, m: Mem.MemState)
    ensures Refinement.RunView(v, []).0 == v && Refinement.RunMem(m, []).0 == m && Refinement.AllAdmissible(v, m, [])
  {
  }

  lemma WorkGood(f: Fleet, e: Event)
    requires Good(f) && Can(f, e) && e.Work?
    ensures Good(After(f, e))
  {
    hide Refinement.Coupled, JustCreated, Possible, Reached, Refinement.RunMem, Refinement.RunView, RunMachine.Can, Act, Refinement.AllAdmissible;
    var l := f.lives[e.id];
    var next := Then(l.born, l.acts, e.act);
    WorkTold(f, e);
    Refinement.StoreRefines(f.view, f.mem, Told(e));
    var g := After(f, e);
    assert f.mem.runs[e.id := Now(g.lives[e.id]).store].Keys == f.mem.runs.Keys by {
      assert e.id in f.mem.runs;
    }
    forall x | x in g.lives ensures Kept(g, x) {
      assert Kept(f, x);
    }
  }

  lemma SweepGood(f: Fleet, e: Event)
    requires Good(f) && Can(f, e) && (e.Reap? || e.Drain?)
    ensures Refinement.AllAdmissible(f.view, f.mem, Told(e)) && Good(After(f, e))
  {
    hide Refinement.Coupled, Refinement.StepView, Lived, Now;
    OneTold(f.view, f.mem, Told(e)[0]);
    Refinement.StepRefines(f.view, f.mem, Told(e)[0]);
    var g := After(f, e);
    forall x | x in g.lives ensures Kept(g, x) {
      assert Kept(f, x);
    }
  }

  lemma StepGood(f: Fleet, e: Event)
    requires Good(f) && Can(f, e)
    ensures Refinement.AllAdmissible(f.view, f.mem, Told(e)) && Good(After(f, e))
  {
    hide Good, Can, After, Refinement.AllAdmissible;
    match e
    case Schedule(_, _) => ScheduleGood(f, e);
    case Work(_, _) => WorkTold(f, e); WorkGood(f, e);
    case _ => SweepGood(f, e);
  }

  // ---- Whole histories

  ghost predicate AllCan(f: Fleet, es: seq<Event>)
    decreases es
  {
    es == [] || (Can(f, es[0]) && AllCan(After(f, es[0]), es[1..]))
  }

  ghost function Ran(f: Fleet, es: seq<Event>): Fleet
    requires AllCan(f, es)
    decreases es
  {
    if es == [] then f else Ran(After(f, es[0]), es[1..])
  }

  function AllTold(es: seq<Event>): seq<Refinement.Event>
    decreases es
  {
    if es == [] then [] else Told(es[0]) + AllTold(es[1..])
  }

  lemma {:induction false} ToldOn(v: View.View, m: Mem.MemState, a: seq<Refinement.Event>, b: seq<Refinement.Event>)
    requires Refinement.AllAdmissible(v, m, a)
    ensures Refinement.AllAdmissible(v, m, a + b) <==> Refinement.AllAdmissible(Refinement.RunView(v, a).0, Refinement.RunMem(m, a).0, b)
    ensures Refinement.RunView(v, a + b).0 == Refinement.RunView(Refinement.RunView(v, a).0, b).0
    ensures Refinement.RunMem(m, a + b).0 == Refinement.RunMem(Refinement.RunMem(m, a).0, b).0
    decreases |a|
  {
    hide Refinement.StepView, Refinement.StepMem, Refinement.Admissible;
    if a == [] {
      assert a + b == b;
    } else {
      assert (a + b)[1..] == a[1..] + b;
      ToldOn(Refinement.StepView(v, a[0]).0, Refinement.StepMem(m, a[0]).0, a[1..], b);
    }
  }

  /** Whatever the Runs do, crashes, redeploys and cancels included, what the
      engine asks of the store is an admissible history. */
  lemma {:induction false} HistoryAdmissible(f: Fleet, es: seq<Event>)
    requires Good(f) && AllCan(f, es)
    ensures Refinement.AllAdmissible(f.view, f.mem, AllTold(es))
    ensures Ran(f, es).view == Refinement.RunView(f.view, AllTold(es)).0
    ensures Ran(f, es).mem == Refinement.RunMem(f.mem, AllTold(es)).0
    ensures Good(Ran(f, es))
    decreases |es|
  {
    hide Good, Can, Refinement.AllAdmissible, Refinement.RunView, Refinement.RunMem;
    if es == [] {
      NoneTold(f.view, f.mem);
    } else {
      StepGood(f, es[0]);
      HistoryAdmissible(After(f, es[0]), es[1..]);
      ToldOn(f.view, f.mem, Told(es[0]), AllTold(es[1..]));
    }
  }

  lemma EmptyGood()
    ensures Good(Empty)
  {
  }

  /** From an empty store, the engine and all its Runs keep the store's
      contract, so both stores answer alike to the end. */
  lemma EngineKeepsContract(es: seq<Event>)
    requires AllCan(Empty, es)
    ensures Refinement.AllAdmissible(View.EmptyView, Mem.EmptyState, AllTold(es))
    ensures Refinement.RunView(View.EmptyView, AllTold(es)).1 == Refinement.RunMem(Mem.EmptyState, AllTold(es)).1
  {
    EmptyGood();
    HistoryAdmissible(Empty, es);
    Refinement.StoreRefines(View.EmptyView, Mem.EmptyState, AllTold(es));
  }

  /** And what bbolt's rows spell out for a Run is its machine's record: the
      one its worker carries, but for a cancel it has not read. */
  lemma ReadsAreCarried(es: seq<Event>, id: Id)
    requires AllCan(Empty, es) && id in Ran(Empty, es).lives
    ensures (var f := Ran(Empty, es);
             && Lived(f.lives[id])
             && var m, r := Now(f.lives[id]), View.ReadRun(f.view, id);
                && r == Mem.Ok(m.store)
                && (!m.worker.Idle? ==>
                      && r.value.(cancel := m.worker.rec.cancel) == m.worker.rec
                      && (m.worker.rec.cancel.Some? ==> r.value.cancel == m.worker.rec.cancel)))
  {
    EmptyGood();
    HistoryAdmissible(Empty, es);
    var f := Ran(Empty, es);
    assert Kept(f, id);
    RunsKeepInv(f.lives[id].born, f.lives[id].acts);
  }

  /** No turn of a worker is refused by the store. */
  lemma NoTurnRefused(es: seq<Event>, e: Event)
    requires AllCan(Empty, es) && Can(Ran(Empty, es), e) && e.Work? && e.act.Apply?
    ensures View.ApplyTransition(Ran(Empty, es).view, e.id, e.act.u).1 == Mem.Ok(())
  {
    EmptyGood();
    HistoryAdmissible(Empty, es);
    var f := Ran(Empty, es);
    WorkTold(f, e);
    OneTold(f.view, f.mem, Refinement.EApply(e.id, e.act.u));
    Refinement.StepRefines(f.view, f.mem, Refinement.EApply(e.id, e.act.u));
  }

  /** A turn's writes name an operation once and replace no state the file
      holds: the blobs are immutable, as the caches need. */
  lemma TurnsWriteOnce(es: seq<Event>, e: Event)
    requires AllCan(Empty, es) && Can(Ran(Empty, es), e) && e.Work? && e.act.Apply?
    ensures e.id in Ran(Empty, es).view.stored && ConcurrentReads.StatesOnce(Ran(Empty, es).view.stored[e.id], e.act.u.ops)
  {
    EmptyGood();
    HistoryAdmissible(Empty, es);
    var f := Ran(Empty, es);
    assert Kept(f, e.id);
    LiveStage(f, e.id, e.act);
    var l, s := f.lives[e.id], f.view.stored[e.id];
    RunsWriteOnce(l.born, l.acts, e.act.turn, e.act.u);
    StagesAgree(s, e.act.u.ops);
  }

  lemma LiveStage(f: Fleet, id: Id, a: Action)
    requires Good(f) && id in f.lives && Lived(f.lives[id]) && a.Apply? && RunMachine.Can(Now(f.lives[id]), a)
    ensures id in f.view.stored && View.Assemble(f.view.stored[id]) == Now(f.lives[id]).store
  {
    hide Reached, Possible, JustCreated, View.Assemble;
    assert Kept(f, id);
    RunsKeepInv(f.lives[id].born, f.lives[id].acts);
    NotTerminal(Now(f.lives[id]));
    Refinement.SameRun(f.view, f.mem, id);
  }

  lemma StagesAgree(s: View.Stored, ops: seq<OpWrite>)
    requires WritesOnce(View.Assemble(s), ops)
    ensures ConcurrentReads.StatesOnce(s, ops)
  {
    forall i | 0 <= i < |ops| ensures View.Assemble(s).OpOf(ops[i].step, Fwd).state == ConcurrentReads.StateAt(s, ops[i].step) {
      Refinement.AssembledOp(s, ops[i].step, Fwd);
    }
  }
}
