/** The worker of one Run, in place: it carries a record, decides against the
    registered topology, and commits through the store. Every method is a
    step of the machine of RunMachine. */
module RunWorker {
  import opened Bytes
  import opened Records
  import M = MemStore
  import opened Ledger
  import opened Saga
  import opened Transitions
  import opened RunMachine
  import opened RunTurns

  /** What an attempt returned. */
  datatype Result =
    | Success(state: Blob)
    | Permanent(why: Why)
    | Awaiting(park: Await)
    | Ordinary(error: Blob, reason: Blob, next: Time)
    | Interrupted   // shutdown cut the attempt short
    | Violation     // the definition is at fault: the Run is invalid

  /** How the gates before an attempt answer; a gate that holds may ask to be
      tried again. */
  datatype Gates = Through(wake: Option<Wake>) | Held(again: bool)

  /** The cause a cancellation is recorded with. */
  function CancelCause(r: RunRecord, preempted: Option<Blob>): Blob {
    if r.cancel.Some? && r.cancel.value.cause != [] then r.cancel.value.cause
    else if preempted.Some? && preempted.value != [] then preempted.value
    else "canceled"
  }

  // ---- What a pass does

  /** The attempt's context was cut, and it did not succeed for all that. */
  predicate CutShort(h: Half, res: Result, preempted: Option<Blob>) {
    preempted.Some? && h.Fwd? && !res.Success? && !res.Violation?
  }

  /** What becomes of an attempt, by what its handler returned. */
  ghost predicate Concludes(r: RunRecord, h: Half, res: Result, preempted: Option<Blob>, reason: Blob, now: Time, a: Action) {
    if CutShort(h, res, preempted) then a.Apply? && a.turn == TCut(CancelCause(r, preempted), reason, now)
    else
      match res
      case Success(state) => a.Apply? && a.turn == TSucceed(state, now)
      case Permanent(why) => a.Apply? && a.turn == TFail(why, now)
      case Ordinary(error, why, next) => a.Apply? && a.turn == TRetry(next, error, why, now)
      case Awaiting(park) => a.Apply? && a.turn == TPark(park, now)
      case Interrupted => a.Crash?
      case Violation => a.Crash?
  }

  /** The gates let the Run through, with a wake exactly when it is parked. */
  predicate Opens(gates: Gates, r: RunRecord) {
    && gates.Through? && (gates.wake.Some? <==> r.awaiting.Some?)
    && (gates.wake.Some? ==> gates.wake.value.targets == r.awaiting.value.targets)
  }

  ghost predicate OnlyTurn(acts: seq<Action>, t: Turn) {
    |acts| == 1 && acts[0].Apply? && acts[0].turn == t
  }

  ghost predicate Attempted(r: RunRecord, topo: Topology, step: Id, h: Half, gates: Gates, during: Option<CancelRequest>, res: Result,
                            preempted: Option<Blob>, reason: Blob, now: Time, acts: seq<Action>)
    requires gates.Through?
  {
    && |acts| == (if during.Some? then 3 else 2)
    && acts[0].Apply? && acts[0].turn == TReserve(topo, step, gates.wake, now)
    && (during.Some? ==> acts[1] == Ask(during.value))
    && Concludes(r, h, res, preempted, reason, now, acts[|acts| - 1])
  }

  /** What a pass must do on the record it carries, under a decision of the
      ledger. */
  ghost predicate PassDoes(r: RunRecord, topo: Topology, d: Decision, draining: bool, gates: Gates, during: Option<CancelRequest>,
                           res: Result, preempted: Option<Blob>, reason: Blob, output: Option<Blob>, now: Time, acts: seq<Action>)
  {
    match d
    case Invalid(_) => acts == [Crash]
    case ForwardComplete => if output.Some? then OnlyTurn(acts, TComplete(topo, output.value, now)) else acts == [Crash]
    case UnwindComplete => if output.Some? then OnlyTurn(acts, TComplete(topo, output.value, now)) else acts == [Crash]
    case RunForward(step) =>
      if draining then acts == [Crash]
      else if r.cancel.Some? then OnlyTurn(acts, TCancel(topo, step, CancelCause(r, None), [], now))
      else if Opens(gates, r) then Attempted(r, topo, step, Fwd, gates, during, res, preempted, reason, now, acts)
      else acts == [Crash]
    case RunUnwind(step) =>
      if !draining && Opens(gates, r) then Attempted(r, topo, step, Unw, gates, during, res, preempted, reason, now, acts)
      else acts == [Crash]
  }

  /** The attempt a pass hands out, if any. */
  ghost function Hands(r: RunRecord, d: Decision, draining: bool, gates: Gates): seq<Handed> {
    if draining || !Opens(gates, r) then []
    else
      match d
      case RunForward(step) => if r.cancel.Some? then [] else [Handed(OpId(step, Fwd), r.OpOf(step, Fwd).attempts + 1)]
      case RunUnwind(step) => [Handed(OpId(step, Unw), r.OpOf(step, Unw).attempts + 1)]
      case _ => []
  }

  /** Whether the Run asks to be dispatched again: a gate held it for a time,
      or its attempt is to be retried. */
  predicate Redispatches(r: RunRecord, d: Decision, draining: bool, gates: Gates, res: Result, preempted: Option<Blob>) {
    && (d.RunForward? || d.RunUnwind?) && !draining && !(d.RunForward? && r.cancel.Some?)
    && (if Opens(gates, r) then res.Ordinary? && !CutShort(if d.RunForward? then Fwd else Unw, res, preempted)
        else gates.Held? && gates.again)
  }

  /** What a pass over r did, from a store and the attempts handed out to n:
      it gave the Run up when its pipeline is not registered, and did as the
      ledger decides otherwise. */
  ghost predicate Passed(store: RunRecord, handed: seq<Handed>, n: Machine, r: RunRecord, topo: Option<Topology>, draining: bool, gates: Gates,
                         during: Option<CancelRequest>, res: Result, preempted: Option<Blob>, reason: Blob, output: Option<Blob>,
                         now: Time, acts: seq<Action>, again: bool)
  {
    && (topo.None? || r.phase.PhaseDone? ==> acts == [Crash] && !again)
    && (acts == [Crash] ==> n.store == store && n.handed == handed)
    && forall d | topo.Some? && Decided(topo.value, r, d) ::
         && PassDoes(r, topo.value, d, draining, gates, during, res, preempted, reason, output, now, acts)
         && n.handed == handed + Hands(r, d, draining, gates)
         && again == Redispatches(r, d, draining, gates, res, preempted)
  }

  /** factsOf: the loop over the steps, in any order. */
  method FactsOfRecord(r: RunRecord) returns (f: Facts)
    ensures f == FactsOf(r)
  {
    f := Facts(map[], map[]);
    var todo := r.steps.Keys;
    while todo != {}
      invariant todo <= r.steps.Keys
      invariant f.forward == map id | id in r.steps && id !in todo :: r.steps[id].forward.status
      invariant f.unwind == map id | id in r.steps && id !in todo :: r.steps[id].unwind.status
      decreases todo
    {
      var id :| id in todo;
      todo := todo - {id};
      f := Facts(f.forward[id := r.steps[id].forward.status], f.unwind[id := r.steps[id].unwind.status]);
    }
  }

  /** Every step a record names is named. */
  ghost predicate NamedSteps(r: RunRecord) {
    NoId !in r.steps
  }

  method Decide(topo: Topology, r: RunRecord) returns (d: Option<Decision>)
    requires NamedSteps(r)
    ensures d.Some? ==> Decided(topo, r, d.value)
    ensures d.None? <==> r.phase.PhaseDone?
  {
    var f := FactsOfRecord(r);
    match r.phase
    case PhaseForward =>
      var e := NextForward(topo, f);
      d := Some(e);
    case PhaseUnwind =>
      var e := NextUnwind(topo, f);
      d := Some(e);
    case PhaseDone =>
      d := None;
  }

  /** What cancelOperation makes of the record. */
  method CancelRecord(r0: RunRecord, step: Id, preempted: Option<Blob>, reason: Blob, now: Time) returns (w: Write)
    ensures w == Canceled(r0, step, CancelCause(r0, preempted), reason, now)
  {
    hide OrderAfter, FailureFor;
    var cause := "canceled";
    if r0.cancel.Some? && r0.cancel.value.cause != [] {
      cause := r0.cancel.value.cause;
    } else if preempted.Some? && preempted.value != [] {
      cause := preempted.value;
    }
    var f := FailureFor(r0, OpId(step, Fwd), Why(cause, KindCanceled, reason), now);
    var op := r0.OpOf(step, Fwd).(status := OpFailed, failure := Some(f));
    var r := r0.WithOp(step, Fwd, op);
    var order := NextOrder(r);
    r := r.WithOp(step, Fwd, op.(order := order));
    r := r.(failure := Some(f), phase := PhaseUnwind, nextAttemptAt := Zero, awaiting := None, awaited := None);
    r := r.(lastError := [], lastReason := [], lastErrorAt := Zero);
    w := Write(r, Transition(IdleCursor(r), [OpWrite(step, Fwd, r.OpOf(step, Fwd))], Some(f), [], None));
  }

  class Worker {
    const id: Id
    const store: M.Store
    /** The carried record. */
    var rec: Option<RunRecord>
    ghost var m: Machine

    ghost predicate Valid()
      reads this, store
    {
      && id in store.runs && store.runs[id] == m.store && M.Lookup(store.inflight, id) == m.inflight
      && RunMachine.Inv(m) && NamedSteps(m.store)
      && (!m.worker.Idle? ==> rec == Some(m.worker.rec))
    }

    constructor (id: Id, store: M.Store)
      requires id in store.runs && id !in store.inflight
      requires store.runs[id].phase.PhaseForward? && store.runs[id].steps == map[] && store.runs[id].failure.None? && store.runs[id].outcome.None?
      ensures Valid() && this.id == id && this.store == store && JustCreated(m)
    {
      this.id, this.store, rec := id, store, None;
      m := Machine(store.runs[id], None, Idle, [], [], [], []);
      new;
      assert Reached(m, []) == m;
      RunsKeepInv(m, []);
    }

    /** The read of an iteration that carries no record, or finds the mark. */
    method Load() returns (terminal: bool)
      requires Valid() && !m.worker.Attempting?
      modifies this`rec, this`m
      ensures Valid()
      ensures terminal == old(m).store.Terminal()
      ensures !terminal ==> Can(old(m), RunMachine.Load) && m == Act(old(m), RunMachine.Load) && m.worker.Holding?
      ensures terminal ==> m == old(m)
    {
      var r := store.runs[id];
      terminal := r.Terminal();
      if !terminal {
        ActKeepsInv(m, RunMachine.Load);
        rec, m := Some(r), Act(m, RunMachine.Load);
      }
    }

    /** The worker returns, or the engine stops. */
    method Drop()
      requires Valid()
      modifies this`rec, this`m
      ensures Valid() && m == Act(old(m), Crash) && m.worker.Idle? && Can(old(m), Crash)
    {
      ActKeepsInv(m, Crash);
      rec, m := None, Act(m, Crash);
    }

    method AskCancel(req: CancelRequest) returns (r: M.Result<bool>)
      requires Valid()
      modifies this`m, store
      ensures Valid() && Can(old(m), Ask(req)) && m == Act(old(m), Ask(req)) && m.worker == old(m.worker)
      ensures r == M.DoCancel(old(store.View()), id, req).1
    {
      ActKeepsInv(m, Ask(req));
      r := store.RequestCancel(id, req);
      m := Act(m, Ask(req));
    }

    /** apply: stamp, flush the displaced operations, commit. */
    method Apply(t: Transition, now: Time, ghost turn: Turn) returns (ghost u: Transition)
      requires Valid0(turn) && rec.Some? && Wrote(m.worker, turn) == Stamp(Write(rec.value, t), now)
      modifies this, store
      ensures Valid()
      ensures Can(old(m), RunMachine.Apply(turn, u)) && m == Act(old(m), RunMachine.Apply(turn, u))
    {
      rec := Some(rec.value.(updatedAt := now));
      var stamped := t.(cursor := t.cursor.(updatedAt := now));
      var full := Flush(rec.value, stamped);
      u := full;
      ghost var a := RunMachine.Apply(turn, u);
      ActKeepsInv(m, a);
      TurnNames(m, turn, u);
      var r := store.ApplyTransition(id, full);
      AppliedRun(m, turn, u);
      m := Act(m, a);
    }

    /** Valid, but for the carried record, which a turn has begun to change. */
    ghost predicate Valid0(turn: Turn)
      reads this, store
    {
      && id in store.runs && store.runs[id] == m.store && M.Lookup(store.inflight, id) == m.inflight
      && RunMachine.Inv(m) && NamedSteps(m.store) && CanTurn(m.worker, turn)
    }

    // The turns

    /** The head of runForward and runUnwind. */
    method ReserveAttempt(step: Id, wake: Option<Wake>, now: Time, ghost topo: Topology) returns (ghost a: Action)
      requires Valid() && CanTurn(m.worker, TReserve(topo, step, wake, now))
      modifies this, store
      ensures Valid() && Can(old(m), a) && m == Act(old(m), a) && a.Apply? && a.turn == TReserve(topo, step, wake, now)
    {
      hide Decided, Carried, Linked, Counted, FailedOnce, InflightKnown, Registered, AfterTurn, NamedSteps, IsFlush, M.Lookup;
      ghost var turn := TReserve(topo, step, wake, now);
      var r := rec.value;
      if wake.Some? {
        r := r.(awaited := wake, awaiting := None);
      }
      var h := HalfOf(r.phase);
      var op := r.OpOf(step, h);
      op := op.(status := OpUnresolved, attempts := op.attempts + 1);
      r := r.WithOp(step, h, op);
      r := r.(nextAttemptAt := Zero);
      if r.startedAt.Zero? {
        r := r.(startedAt := now);
      }
      rec := Some(r);
      ghost var u := Apply(Transition(ActiveCursor(r, step, op.attempts), [], None, [], None), now, turn);
      a := RunMachine.Apply(turn, u);
    }

    method Succeed(step: Id, h: Half, state: Blob, now: Time) returns (ghost a: Action)
      requires Valid() && m.worker.Attempting? && m.worker.op == OpId(step, h)
      modifies this, store
      ensures Valid() && Can(old(m), a) && m == Act(old(m), a) && a.Apply? && a.turn == TSucceed(state, now)
    {
      hide Decided, Carried, Linked, Counted, FailedOnce, InflightKnown, Registered, AfterTurn, NamedSteps, IsFlush, M.Lookup;
      var r := rec.value;
      var op := r.OpOf(step, h).(status := OpSucceeded);
      if h.Fwd? {
        op := op.(state := state);
      }
      r := r.WithOp(step, h, op);
      var order := NextOrder(r);
      r := r.WithOp(step, h, op.(order := order));
      r := r.(awaited := None);
      r := r.(lastError := [], lastReason := [], lastErrorAt := Zero);
      rec := Some(r);
      ghost var u := Apply(Transition(IdleCursor(r), [OpWrite(step, h, r.OpOf(step, h))], None, [], None), now, TSucceed(state, now));
      a := RunMachine.Apply(TSucceed(state, now), u);
    }

    /** The permanent branches of runForward and runUnwind. */
    method Fail(step: Id, h: Half, why: Why, now: Time) returns (ghost a: Action)
      requires Valid() && m.worker.Attempting? && m.worker.op == OpId(step, h)
      modifies this, store
      ensures Valid() && Can(old(m), a) && m == Act(old(m), a) && a.Apply? && a.turn == TFail(why, now)
    {
      hide Decided, Carried, Linked, Counted, FailedOnce, InflightKnown, Registered, AfterTurn, NamedSteps, IsFlush, M.Lookup;
      var r := rec.value;
      var f := FailureFor(r, OpId(step, h), why, now);
      var op := r.OpOf(step, h).(status := OpFailed, failure := Some(f));
      r := r.WithOp(step, h, op);
      var order := NextOrder(r);
      r := r.WithOp(step, h, op.(order := order));
      r := r.(awaited := None);
      r := r.(lastError := [], lastReason := [], lastErrorAt := Zero);
      var runFailure := None;
      if h.Fwd? {
        r := r.(failure := Some(f), phase := PhaseUnwind);
        runFailure := Some(f);
      }
      rec := Some(r);
      ghost var u := Apply(Transition(IdleCursor(r), [OpWrite(step, h, r.OpOf(step, h))], runFailure, [], None), now, TFail(why, now));
      a := RunMachine.Apply(TFail(why, now), u);
    }

    /** cancelOperation, for a cut attempt or a dormant operation. */
    method CancelOperation(step: Id, preempted: Option<Blob>, reason: Blob, now: Time, ghost turn: Turn) returns (ghost a: Action)
      requires Valid() && CanTurn(m.worker, turn)
      requires || (turn.TCut? && m.worker.op.step == step && turn == TCut(CancelCause(m.worker.rec, preempted), reason, now))
               || (turn.TCancel? && turn == TCancel(turn.topo, step, CancelCause(m.worker.rec, preempted), reason, now))
      modifies this, store
      ensures Valid() && Can(old(m), a) && m == Act(old(m), a) && a.Apply? && a.turn == turn
    {
      hide Decided, Carried, Linked, Counted, FailedOnce, InflightKnown, Registered, AfterTurn, NamedSteps, IsFlush, M.Lookup;
      var w := CancelRecord(rec.value, step, preempted, reason, now);
      rec := Some(w.rec);
      ghost var u := Apply(w.t, now, turn);
      a := RunMachine.Apply(turn, u);
    }

    method Retry(step: Id, h: Half, error: Blob, reason: Blob, next: Time, now: Time) returns (ghost a: Action)
      requires Valid() && m.worker.Attempting? && m.worker.op == OpId(step, h)
      modifies this, store
      ensures Valid() && Can(old(m), a) && m == Act(old(m), a) && a.Apply? && a.turn == TRetry(next, error, reason, now)
    {
      hide Decided, Carried, Linked, Counted, FailedOnce, InflightKnown, Registered, AfterTurn, NamedSteps, IsFlush, M.Lookup;
      var r := rec.value.(nextAttemptAt := next, lastError := error, lastReason := reason, lastErrorAt := now);
      rec := Some(r);
      ghost var u := Apply(Transition(ActiveCursor(r, step, r.OpOf(step, h).attempts), [], None, [], None), now, TRetry(next, error, reason, now));
      a := RunMachine.Apply(TRetry(next, error, reason, now), u);
    }

    method ParkAwait(step: Id, h: Half, park: Await, now: Time) returns (ghost a: Action)
      requires Valid() && m.worker.Attempting? && m.worker.op == OpId(step, h)
      modifies this, store
      ensures Valid() && Can(old(m), a) && m == Act(old(m), a) && a.Apply? && a.turn == TPark(park, now)
    {
      hide Decided, Carried, Linked, Counted, FailedOnce, InflightKnown, Registered, AfterTurn, NamedSteps, IsFlush, M.Lookup;
      var r := rec.value.(awaiting := Some(park), awaited := None);
      rec := Some(r);
      ghost var u := Apply(Transition(ActiveCursor(r, step, r.OpOf(step, h).attempts), [], None, [], None), now, TPark(park, now));
      a := RunMachine.Apply(TPark(park, now), u);
    }

    /** reduceAndComplete and reduceFailureAndComplete, past the reducer. */
    method Complete(output: Blob, now: Time, ghost topo: Topology) returns (ghost a: Action)
      requires Valid() && CanTurn(m.worker, TComplete(topo, output, now))
      modifies this, store
      ensures Valid() && Can(old(m), a) && m == Act(old(m), a) && a.Apply? && a.turn == TComplete(topo, output, now)
    {
      hide Decided, Carried, Linked, Counted, FailedOnce, InflightKnown, Registered, AfterTurn, NamedSteps, IsFlush, M.Lookup;
      var r := rec.value;
      var outcome := if r.phase.PhaseForward? then OutcomeSuccess else OutcomeFailure;
      r := r.(output := output, outcome := Some(outcome), phase := PhaseDone);
      rec := Some(r);
      ghost var u := Apply(Transition(IdleCursor(r), [], None, output, Some(outcome)), now, TComplete(topo, output, now));
      a := RunMachine.Apply(TComplete(topo, output, now), u);
    }

    /** An attempt of the reserved operation resolves, retries, parks or is
        dropped, as the handler returned; again says whether the Run wants
        dispatching. */
    method Conclude(step: Id, h: Half, res: Result, preempted: Option<Blob>, reason: Blob, now: Time)
      returns (more: bool, again: bool, ghost a: Action)
      requires Valid() && m.worker.Attempting? && m.worker.op == OpId(step, h)
      modifies this, store
      ensures Valid() && Can(old(m), a) && m == Act(old(m), a)
      ensures if more then m.worker.Holding? else m.worker.Idle?
      ensures Concludes(old(m).worker.rec, h, res, preempted, reason, now, a)
      ensures again <==> res.Ordinary? && !CutShort(h, res, preempted)
      ensures m.handed == old(m).handed
      ensures Concluded(old(m).store, m.store, OpId(step, h), res, CutShort(h, res, preempted))
      ensures CutShort(h, res, preempted) ==> NamesCause(old(m).worker.rec, preempted, m.store.failure)
    {
      hide Decided, Carried, Linked, Counted, FailedOnce, InflightKnown, Registered, NamedSteps, IsFlush, Wrote, M.Lookup, AfterTurn, Concluded, NamesCause, Can, Act;
      ghost var m0 := m;
      again := false;
      if res.Violation? {
        Drop();
        a, more := Crash, false;
      } else if !res.Success? && preempted.Some? && h.Fwd? {
        CutTurns(m, TCut(CancelCause(m.worker.rec, preempted), reason, now));
        a := CancelOperation(step, preempted, reason, now, TCut(CancelCause(m.worker.rec, preempted), reason, now));
        more := true;
      } else {
        match res {
        case Success(state) =>
          a := Succeed(step, h, state, now);
          more := true;
        case Permanent(why) =>
          a := Fail(step, h, why, now);
          more := true;
        case Awaiting(park) =>
          a := ParkAwait(step, h, park, now);
          more := true;
        case Ordinary(error, why, next) =>
          a := Retry(step, h, error, why, next, now);
          more, again := false, true;
        case Interrupted =>
          Drop();
          a, more := Crash, false;
        case Violation =>
          assert false;
        }
      }
      ConcludedAs(m0, step, h, res, preempted, reason, now, a);
      if a.Apply? {
        WorkerOf(m0, a);
      }
    }

    /** One pass of processRun's loop, as the gates, the handler and the
        reducer answer: it reads afresh when it carries no record or dirty, the
        mark it took, is set, and a cancel request may land while the attempt
        runs. It does what the ledger decides on the record it then carries,
        and drops the Run when it cannot. */
    method Iterate(dirty: bool, topo: Option<Topology>, draining: bool, gates: Gates, during: Option<CancelRequest>, res: Result,
                   preempted: Option<Blob>, reason: Blob, output: Option<Blob>, now: Time)
      returns (more: bool, again: bool, ghost acts: seq<Action>)
      requires Valid() && !m.worker.Attempting? && (rec.Some? <==> m.worker.Holding?)
      requires topo.Some? ==> Registered(topo.value)
      modifies this, store
      ensures Valid() && !m.worker.Attempting? && (rec.Some? <==> m.worker.Holding?) && (more <==> m.worker.Holding?)
      ensures (var anew := dirty || old(rec).None?; var r := if anew then old(m).store else old(rec).value;
               if anew && r.Terminal() then acts == [] && m == old(m)
               else
                 var n := if anew then 1 else 0;
                 && (anew ==> |acts| > 0 && acts[0] == RunMachine.Load) && |acts| >= n
                 && Possible(old(m), acts) && m == Reached(old(m), acts)
                 && Passed(old(m).store, old(m).handed, m, r, topo, draining, gates, during, res, preempted, reason, output, now, acts[n..], again))
    {
      hide Can, Act, M.Lookup, Carried, Linked, Counted, FailedOnce, InflightKnown, NamedSteps, Registered, Passed;
      ghost var m0 := m;
      ghost var read := [];
      assert Possible(m0, read) && Reached(m0, read) == m0;
      if dirty || rec.None? {
        var terminal := Load();
        if terminal {
          TerminalIdle(m);
          rec := None;
          return false, false, read;
        }
        read := Then(m0, read, RunMachine.Load);
        LoadKeeps(m0);
      } else {
        CarriedLives(m0);
      }
      more, again, acts := Advance(topo, draining, gates, during, res, preempted, reason, output, now);
      Chain(m0, read, acts);
      ghost var pass := acts;
      acts := read + acts;
      assert acts[|read|..] == pass;
      if !more {
        rec := None;
      }
    }

    /** The pass on the record it carries. */
    method Advance(topo: Option<Topology>, draining: bool, gates: Gates, during: Option<CancelRequest>, res: Result,
                   preempted: Option<Blob>, reason: Blob, output: Option<Blob>, now: Time)
      returns (more: bool, again: bool, ghost acts: seq<Action>)
      requires Valid() && m.worker.Holding?
      requires topo.Some? ==> Registered(topo.value)
      modifies this, store
      ensures Valid() && Possible(old(m), acts) && m == Reached(old(m), acts)
      ensures !m.worker.Attempting? && (more <==> m.worker.Holding?)
      ensures Passed(old(m).store, old(m).handed, m, old(rec).value, topo, draining, gates, during, res, preempted, reason, output, now, acts, again)
    {
      hide RunMachine.Inv, Decided, NamedSteps, Registered, M.Lookup, Possible, Reached, PassDoes, Hands, Can, Act, Passed;
      var r := rec.value;
      var d: Option<Decision> := None;
      if topo.Some? {
        HeldNamed(m);
        d := Decide(topo.value, r);
      }
      if d.None? {
        acts := GiveUp();
        more, again := false, false;
        PassedOver(m, r, topo, draining, gates, during, res, preempted, reason, output, now);
      } else {
        ghost var m0 := m;
        more, again, acts := Follow(topo.value, d.value, draining, gates, during, res, preempted, reason, output, now);
        PassedAs(m0, m, r, topo.value, d.value, draining, gates, during, res, preempted, reason, output, now, acts, again);
      }
    }

    /** The pass under the ledger's decision. */
    method Follow(topo: Topology, d: Decision, draining: bool, gates: Gates, during: Option<CancelRequest>, res: Result,
                  preempted: Option<Blob>, reason: Blob, output: Option<Blob>, now: Time)
      returns (more: bool, again: bool, ghost acts: seq<Action>)
      requires Valid() && m.worker.Holding? && Registered(topo) && Decided(topo, rec.value, d)
      modifies this, store
      ensures Valid() && Possible(old(m), acts) && m == Reached(old(m), acts)
      ensures !m.worker.Attempting? && (more <==> m.worker.Holding?)
      ensures acts == [Crash] ==> m.store == old(m).store && m.handed == old(m).handed
      ensures PassDoes(old(rec).value, topo, d, draining, gates, during, res, preempted, reason, output, now, acts)
      ensures m.handed == old(m).handed + Hands(old(rec).value, d, draining, gates)
      ensures again == Redispatches(old(rec).value, d, draining, gates, res, preempted)
    {
      hide Decided, Carried, Linked, Counted, FailedOnce, InflightKnown, Registered, NamedSteps, IsFlush, Wrote, M.Lookup, Can, Act, Attempted, AfterTurn, Possible, Reached, OnlyTurn, CanTurn, CancelCause, PassDoes, Hands, Opens, CutShort, RunMachine.Inv;
      var r := rec.value;
      again := false;
      DecidedPhase(topo, r, d);
      MayEnd(m, topo, d, output, now);
      if d.RunForward? || d.RunUnwind? {
        more, again, acts := RunNext(topo, d, draining, gates, during, res, preempted, reason, output, now);
        return;
      }
      if d.Invalid? || output.None? {
        acts := GiveUp();
      } else {
        acts := Finish(topo, output.value, now);
      }
      more := false;
      PassMeans(r, topo, d, draining, gates, during, res, preempted, reason, output, now, acts);
    }

    /** An operation is to run: it is canceled, held back or attempted. */
    method RunNext(topo: Topology, d: Decision, draining: bool, gates: Gates, during: Option<CancelRequest>, res: Result,
                   preempted: Option<Blob>, reason: Blob, ghost output: Option<Blob>, now: Time)
      returns (more: bool, again: bool, ghost acts: seq<Action>)
      requires d.RunForward? || d.RunUnwind?
      requires Valid() && m.worker.Holding? && Registered(topo) && Decided(topo, rec.value, d)
      modifies this, store
      ensures Valid() && Possible(old(m), acts) && m == Reached(old(m), acts)
      ensures !m.worker.Attempting? && (more <==> m.worker.Holding?)
      ensures acts == [Crash] ==> m.store == old(m).store && m.handed == old(m).handed
      ensures PassDoes(old(rec).value, topo, d, draining, gates, during, res, preempted, reason, output, now, acts)
      ensures m.handed == old(m).handed + Hands(old(rec).value, d, draining, gates)
      ensures again == Redispatches(old(rec).value, d, draining, gates, res, preempted)
    {
      hide Decided, Carried, Linked, Counted, FailedOnce, InflightKnown, Registered, NamedSteps, IsFlush, Wrote, M.Lookup, Can, Act, Attempted, AfterTurn, Possible, Reached, OnlyTurn, CanTurn, CancelCause, PassDoes, Hands, Opens, CutShort, RunMachine.Inv;
      var r := rec.value;
      again := false;
      DecidedPhase(topo, r, d);
      if draining {
        acts := GiveUp();
        more := false;
      } else if d.RunForward? && r.cancel.Some? {
        MayEnd(m, topo, d, output, now);
        acts := CancelNext(topo, d.step, now);
        more := true;
      } else {
        more, again, acts := TryNext(topo, d, gates, during, res, preempted, reason, output, now);
        return;
      }
      PassMeans(r, topo, d, draining, gates, during, res, preempted, reason, output, now, acts);
    }

    /** Past the gates the operation is attempted. */
    method TryNext(topo: Topology, d: Decision, gates: Gates, during: Option<CancelRequest>, res: Result,
                   preempted: Option<Blob>, reason: Blob, ghost output: Option<Blob>, now: Time)
      returns (more: bool, again: bool, ghost acts: seq<Action>)
      requires d.RunForward? || d.RunUnwind?
      requires d.RunForward? ==> rec.Some? && rec.value.cancel.None?
      requires Valid() && m.worker.Holding? && Registered(topo) && Decided(topo, rec.value, d)
      modifies this, store
      ensures Valid() && Possible(old(m), acts) && m == Reached(old(m), acts)
      ensures !m.worker.Attempting? && (more <==> m.worker.Holding?)
      ensures acts == [Crash] ==> m.store == old(m).store && m.handed == old(m).handed
      ensures PassDoes(old(rec).value, topo, d, false, gates, during, res, preempted, reason, output, now, acts)
      ensures m.handed == old(m).handed + Hands(old(rec).value, d, false, gates)
      ensures again == Redispatches(old(rec).value, d, false, gates, res, preempted)
    {
      hide Decided, Carried, Linked, Counted, FailedOnce, InflightKnown, Registered, NamedSteps, IsFlush, Wrote, M.Lookup, Can, Act, Attempted, AfterTurn, Possible, Reached, OnlyTurn, CanTurn, CancelCause, PassDoes, Hands, Opens, CutShort, RunMachine.Inv;
      var r := rec.value;
      DecidedPhase(topo, r, d);
      var open := Pass(gates, r);
      if open {
        MayReserve(m, topo, d.step, gates.wake, now);
        more, again, acts := Attempt(d.step, HalfOf(r.phase), gates, during, res, preempted, reason, now, topo);
      } else {
        again := gates.Held? && gates.again;
        acts := GiveUp();
        more := false;
      }
      PassMeans(r, topo, d, false, gates, during, res, preempted, reason, output, now, acts);
    }

    /** The wake of a parked Run, and no other, lets it through. */
    method Pass(gates: Gates, r: RunRecord) returns (open: bool)
      ensures open == Opens(gates, r) && (open ==> gates.Through?)
    {
      if gates.Held? {
        return false;
      }
      open := r.awaiting.Some? == gates.wake.Some? && (gates.wake.None? || gates.wake.value.targets == r.awaiting.value.targets);
    }

    /** The next forward operation is canceled without an attempt. */
    method CancelNext(ghost topo: Topology, step: Id, now: Time) returns (ghost acts: seq<Action>)
      requires Valid() && m.worker.Holding? && CanTurn(m.worker, TCancel(topo, step, CancelCause(rec.value, None), [], now))
      modifies this, store
      ensures Valid() && Possible(old(m), acts) && m == Reached(old(m), acts) && m.worker.Holding?
      ensures m.handed == old(m).handed == old(m).handed + []
      ensures OnlyTurn(acts, TCancel(topo, step, CancelCause(old(rec).value, None), [], now)) && acts != [Crash]
      ensures m.store.phase == PhaseUnwind && m.store.awaiting == None && NamesCause(old(rec).value, None, m.store.failure)
    {
      hide Decided, Carried, Linked, Counted, FailedOnce, InflightKnown, Registered, NamedSteps, IsFlush, Wrote, M.Lookup, Can, Act, AfterTurn;
      ghost var m0 := m;
      ghost var a := CancelOperation(step, None, [], now, TCancel(topo, step, CancelCause(rec.value, None), [], now));
      CanceledAs(m0, a);
      OneAct(m0, a);
      WorkerOf(m0, a);
      acts := [a];
    }

    method Finish(ghost topo: Topology, output: Blob, now: Time) returns (ghost acts: seq<Action>)
      requires Valid() && m.worker.Holding? && CanTurn(m.worker, TComplete(topo, output, now))
      modifies this, store
      ensures Valid() && Possible(old(m), acts) && m == Reached(old(m), acts) && m.worker.Idle?
      ensures m.handed == old(m).handed == old(m).handed + []
      ensures OnlyTurn(acts, TComplete(topo, output, now)) && acts != [Crash] && m.store.Terminal() && m.store.output == output
      ensures m.store.outcome == Some(if old(m).store.phase.PhaseForward? then OutcomeSuccess else OutcomeFailure)
    {
      hide Decided, Carried, Linked, Counted, FailedOnce, InflightKnown, Registered, NamedSteps, IsFlush, Wrote, M.Lookup, Can, Act, AfterTurn;
      ghost var m0 := m;
      ghost var a := Complete(output, now, topo);
      OneAct(m0, a);
      WorkerOf(m0, a);
      CompletedAs(m0, a);
      acts := [a];
    }

    /** The worker returns without a turn. */
    method GiveUp() returns (ghost acts: seq<Action>)
      requires Valid()
      modifies this`rec, this`m
      ensures Valid() && acts == [Crash] && Possible(old(m), acts) && m == Reached(old(m), acts)
      ensures m.worker.Idle? && m.store == old(m).store && m.handed == old(m).handed == old(m).handed + []
    {
      hide Carried, Linked, Counted, FailedOnce, InflightKnown, NamedSteps;
      OneAct(m, Crash);
      Drop();
      acts := [Crash];
    }

    /** An attempt from its reservation on. */
    method Attempt(step: Id, h: Half, gates: Gates, during: Option<CancelRequest>, res: Result, preempted: Option<Blob>, reason: Blob,
                   now: Time, ghost topo: Topology)
      returns (more: bool, again: bool, ghost acts: seq<Action>)
      requires Valid() && gates.Through? && CanTurn(m.worker, TReserve(topo, step, gates.wake, now)) && h == HalfOf(m.worker.rec.phase)
      modifies this, store
      ensures Valid() && Possible(old(m), acts) && m == Reached(old(m), acts)
      ensures !m.worker.Attempting? && (more <==> m.worker.Holding?)
      ensures Attempted(old(m).worker.rec, topo, step, h, gates, during, res, preempted, reason, now, acts) && acts != [Crash]
      ensures m.handed == old(m).handed + [Handed(OpId(step, h), old(m).worker.rec.OpOf(step, h).attempts + 1)]
      ensures again <==> res.Ordinary? && !CutShort(h, res, preempted)
    {
      hide Decided, Carried, Linked, Counted, FailedOnce, InflightKnown, Registered, NamedSteps, IsFlush, Wrote, M.Lookup, Can, Act, CanTurn;
      ghost var m0 := m;
      acts := [];
      assert Possible(m0, acts) && Reached(m0, acts) == m0;
      ghost var a := ReserveAttempt(step, gates.wake, now, topo);
      ReservedAs(m0, a);
      acts := Then(m0, acts, a);
      if during.Some? {
        var asked := AskCancel(during.value);
        AskKeeps(Reached(m0, acts), during.value);
        acts := Then(m0, acts, Ask(during.value));
      }
      more, again, a := Conclude(step, h, res, preempted, reason, now);
      acts := Then(m0, acts, a);
    }
  }

  // ---- The methods' steps

  /** What the store holds once an attempt concluded. */
  ghost predicate Concluded(s: RunRecord, r: RunRecord, op: OpId, res: Result, cut: bool) {
    && (!cut && res.Success? ==>
          && r.OpOf(op.step, op.h).status == OpSucceeded && r.phase == s.phase && r.failure == s.failure
          && (op.h.Fwd? ==> r.OpOf(op.step, op.h).state == res.state))
    && (!cut && res.Permanent? ==>
          && r.OpOf(op.step, op.h).status == OpFailed && r.OpOf(op.step, op.h).failure.Some? && SaysWhy(r.OpOf(op.step, op.h).failure.value, res.why)
          && (if op.h.Fwd? then r.phase == PhaseUnwind && r.failure.Some? && SaysWhy(r.failure.value, res.why)
              else r.phase == s.phase && r.failure == s.failure))
    && (!cut && res.Ordinary? ==>
          && r.OpOf(op.step, op.h).status == OpUnresolved && r.phase == s.phase && r.failure == s.failure
          && r.nextAttemptAt == res.next && r.lastError == res.error && r.lastReason == res.reason)
    && (!cut && res.Awaiting? ==>
          r.OpOf(op.step, op.h).status == OpUnresolved && r.phase == s.phase && r.failure == s.failure && r.awaiting == Some(res.park))
    && (!cut && (res.Interrupted? || res.Violation?) ==> r == s)
    && (cut ==>
          && r.OpOf(op.step, op.h).status == OpFailed && r.phase == PhaseUnwind && r.awaiting == None
          && r.failure.Some? && r.failure.value.kind == KindCanceled && r.failure.value.step == op.step)
  }

  /** A cancellation names the cause of the request its worker read; without
      one, that of the preemption; without either, the bare fact. */
  ghost predicate NamesCause(r: RunRecord, preempted: Option<Blob>, f: Option<Failure>) {
    && f.Some? && f.value.kind == KindCanceled
    && (r.cancel.Some? && r.cancel.value.cause != [] ==> f.value.message == r.cancel.value.cause)
    && (preempted.Some? && preempted.value != [] && (r.cancel.None? || r.cancel.value.cause == []) ==> f.value.message == preempted.value)
    && ((preempted.None? || preempted.value == []) && (r.cancel.None? || r.cancel.value.cause == []) ==> f.value.message == "canceled")
  }

  ghost predicate SaysWhy(f: Failure, why: Why) {
    f.message == why.message && f.kind == why.kind && f.reason == why.reason
  }

  lemma CutTurns(m: Machine, t: Turn)
    requires m.worker.Attempting? && m.worker.op.h.Fwd? && t.TCut?
    ensures CanTurn(m.worker, t)
  {
  }

  lemma ConcludedAs(m: Machine, step: Id, h: Half, res: Result, preempted: Option<Blob>, reason: Blob, now: Time, a: Action)
    requires RunMachine.Inv(m) && m.worker.Attempting? && m.worker.op == OpId(step, h) && Can(m, a)
    requires Concludes(m.worker.rec, h, res, preempted, reason, now, a)
    ensures Concluded(m.store, Act(m, a).store, OpId(step, h), res, CutShort(h, res, preempted)) && Act(m, a).handed == m.handed
    ensures CutShort(h, res, preempted) ==> NamesCause(m.worker.rec, preempted, Act(m, a).store.failure)
  {
    hide Decided, Linked, Counted, FailedOnce, InflightKnown, IsFlush, Wrote, AfterTurn, Carried;
    if a.Apply? {
      match a.turn
      case TSucceed(_, _) => SucceedMeans(m, a.turn, a.u);
      case TFail(_, _) => FailMeans(m, a.turn, a.u);
      case TRetry(_, _, _, _) => RetryMeans(m, a.turn, a.u);
      case TPark(_, _) => ParkMeans(m, a.turn, a.u);
      case TCut(_, _, _) => CancelMeans(m, a.turn, a.u);
      case _ =>
    }
  }

  lemma CanceledAs(m: Machine, a: Action)
    requires RunMachine.Inv(m) && a.Apply? && a.turn.TCancel? && Can(m, a) && a.turn.message == CancelCause(m.worker.rec, None)
    ensures (var r := Act(m, a).store; r.phase == PhaseUnwind && r.awaiting == None && NamesCause(m.worker.rec, None, r.failure))
  {
    hide Decided, Linked, Counted, FailedOnce, InflightKnown, IsFlush, Wrote, AfterTurn, Carried;
    CancelMeans(m, a.turn, a.u);
  }

  lemma CompletedAs(m: Machine, a: Action)
    requires RunMachine.Inv(m) && a.Apply? && a.turn.TComplete? && Can(m, a)
    ensures (var r := Act(m, a).store;
             r.Terminal() && r.output == a.turn.output && r.outcome == Some(if m.store.phase.PhaseForward? then OutcomeSuccess else OutcomeFailure))
  {
    hide Decided, Linked, Counted, FailedOnce, InflightKnown, IsFlush, Wrote, AfterTurn, Carried;
    CompleteMeans(m, a.turn, a.u);
  }

  lemma MayEnd(m: Machine, topo: Topology, d: Decision, output: Option<Blob>, now: Time)
    requires m.worker.Holding? && Registered(topo) && Decided(topo, m.worker.rec, d)
    ensures m.worker.rec.phase.PhaseForward? || m.worker.rec.phase.PhaseUnwind?
    ensures (d.ForwardComplete? || d.UnwindComplete?) && output.Some? ==> CanTurn(m.worker, TComplete(topo, output.value, now))
    ensures d.RunForward? && m.worker.rec.cancel.Some? ==>
              CanTurn(m.worker, TCancel(topo, d.step, CancelCause(m.worker.rec, None), [], now))
  {
    hide ForwardDecision, UnwindDecision, Registered;
    DecidedPhase(topo, m.worker.rec, d);
  }

  /** The pass by the acts taken. */
  lemma PassMeans(r: RunRecord, topo: Topology, d: Decision, draining: bool, gates: Gates, during: Option<CancelRequest>, res: Result,
                  preempted: Option<Blob>, reason: Blob, output: Option<Blob>, now: Time, acts: seq<Action>)
    ensures PassDoes(r, topo, d, draining, gates, during, res, preempted, reason, output, now, acts) <==>
              if d.RunForward? && !draining && r.cancel.Some? then OnlyTurn(acts, TCancel(topo, d.step, CancelCause(r, None), [], now))
              else if (d.RunForward? || d.RunUnwind?) && !draining && Opens(gates, r) then
                Attempted(r, topo, d.step, if d.RunForward? then Fwd else Unw, gates, during, res, preempted, reason, now, acts)
              else if (d.ForwardComplete? || d.UnwindComplete?) && output.Some? then OnlyTurn(acts, TComplete(topo, output.value, now))
              else acts == [Crash]
    ensures draining || !Opens(gates, r) || (d.RunForward? && r.cancel.Some?) || !(d.RunForward? || d.RunUnwind?) ==> Hands(r, d, draining, gates) == []
    ensures !draining && Opens(gates, r) && d.RunForward? && r.cancel.None? ==>
              Hands(r, d, draining, gates) == [Handed(OpId(d.step, Fwd), r.OpOf(d.step, Fwd).attempts + 1)]
    ensures !draining && Opens(gates, r) && d.RunUnwind? ==>
              Hands(r, d, draining, gates) == [Handed(OpId(d.step, Unw), r.OpOf(d.step, Unw).attempts + 1)]
  {
    hide Attempted, OnlyTurn, CancelCause;
  }

  lemma ReservedAs(m: Machine, a: Action)
    requires RunMachine.Inv(m) && a.Apply? && a.turn.TReserve? && Can(m, a)
    ensures (var n, op := Act(m, a), OpId(a.turn.step, HalfOf(m.worker.rec.phase));
             && n.worker.Attempting? && n.worker.op == op && n.worker.rec.cancel == m.worker.rec.cancel
             && n.handed == m.handed + [Handed(op, m.worker.rec.OpOf(op.step, op.h).attempts + 1)])
  {
    hide Decided, Linked, Counted, FailedOnce, InflightKnown, IsFlush, Wrote, AfterTurn, Carried;
    NotTerminal(m);
    ReserveMeans(m, a.turn, a.u);
  }

  lemma AskKeeps(m: Machine, req: CancelRequest)
    ensures Act(m, Ask(req)).handed == m.handed && Act(m, Ask(req)).worker == m.worker
  {
  }

  lemma LoadKeeps(m: Machine)
    requires Can(m, RunMachine.Load)
    ensures (var n := Act(m, RunMachine.Load); n.store == m.store && n.handed == m.handed && n.worker == Holding(m.store))
  {
  }

  lemma CarriedLives(m: Machine)
    requires RunMachine.Inv(m) && m.worker.Holding?
    ensures !m.worker.rec.Terminal()
  {
  }

  lemma OneAct(m: Machine, a: Action)
    requires Can(m, a)
    ensures Possible(m, [a]) && Reached(m, [a]) == Act(m, a)
    ensures a == Crash ==> Act(m, a).store == m.store
    ensures !(a.Apply? && a.turn.TReserve?) ==> Act(m, a).handed == m.handed
  {
    assert [a][..0] == [];
    hide Wrote;
  }

  lemma PassedOver(n: Machine, r: RunRecord, topo: Option<Topology>, draining: bool, gates: Gates, during: Option<CancelRequest>, res: Result,
                   preempted: Option<Blob>, reason: Blob, output: Option<Blob>, now: Time)
    requires topo.None? || r.phase.PhaseDone?
    ensures Passed(n.store, n.handed, n, r, topo, draining, gates, during, res, preempted, reason, output, now, [Crash], false)
  {
    hide PassDoes, Hands;
  }

  lemma PassedAs(m: Machine, n: Machine, r: RunRecord, topo: Topology, d: Decision, draining: bool, gates: Gates, during: Option<CancelRequest>,
                 res: Result, preempted: Option<Blob>, reason: Blob, output: Option<Blob>, now: Time, acts: seq<Action>, again: bool)
    requires Decided(topo, r, d) && again == Redispatches(r, d, draining, gates, res, preempted)
    requires PassDoes(r, topo, d, draining, gates, during, res, preempted, reason, output, now, acts)
    requires n.handed == m.handed + Hands(r, d, draining, gates)
    requires acts == [Crash] ==> n.store == m.store && n.handed == m.handed
    ensures Passed(m.store, m.handed, n, r, Some(topo), draining, gates, during, res, preempted, reason, output, now, acts, again)
  {
    OneDecision(topo, r, d);
    hide PassDoes, Hands, ForwardDecision, UnwindDecision;
  }

  lemma OneDecision(topo: Topology, r: RunRecord, d: Decision)
    requires Decided(topo, r, d)
    ensures forall e | Decided(topo, r, e) :: e == d
  {
    hide ForwardDecision, UnwindDecision;
    forall e | Decided(topo, r, e) ensures e == d {
      if r.phase.PhaseForward? {
        ForwardDecided(topo, FactsOf(r), d, e);
      } else {
        UnwindDecided(topo, FactsOf(r), d, e);
      }
    }
  }

  lemma MayReserve(m: Machine, topo: Topology, step: Id, wake: Option<Wake>, now: Time)
    requires m.worker.Holding? && Registered(topo) && Decided(topo, m.worker.rec, RunOf(m.worker.rec.phase, step))
    requires m.worker.rec.phase.PhaseForward? ==> m.worker.rec.cancel.None?
    requires Opens(Through(wake), m.worker.rec)
    ensures CanTurn(m.worker, TReserve(topo, step, wake, now))
  {
  }

  lemma TerminalIdle(m: Machine)
    requires RunMachine.Inv(m) && m.store.Terminal()
    ensures m.worker.Idle?
  {
  }

  lemma HeldNamed(m: Machine)
    requires RunMachine.Inv(m) && NamedSteps(m.store) && m.worker.Holding?
    ensures NamedSteps(m.worker.rec)
  {
    NotTerminal(m);
  }

  lemma DecidedPhase(topo: Topology, r: RunRecord, d: Decision)
    requires Decided(topo, r, d)
    ensures d.RunForward? ==> r.phase.PhaseForward? && d == RunOf(r.phase, d.step)
    ensures d.RunUnwind? ==> r.phase.PhaseUnwind? && d == RunOf(r.phase, d.step)
    ensures d.ForwardComplete? ==> r.phase.PhaseForward?
    ensures d.UnwindComplete? ==> r.phase.PhaseUnwind?
  {
  }

  lemma WorkerOf(m: Machine, a: Action)
    requires a.Apply? && Can(m, a)
    ensures (var k, t := Act(m, a).worker, a.turn;
             && (t.TReserve? ==> k.Attempting? && k.op == OpId(t.step, HalfOf(m.worker.rec.phase)))
             && (t.TRetry? || t.TComplete? ==> k.Idle?)
             && (!t.TReserve? && !t.TRetry? && !t.TComplete? ==> k.Holding?))
  {
    hide Wrote, M.ApplyRecord, M.ApplyOutcome, Decided, IsFlush;
  }

  /** Steps stay named. */
  lemma TurnNames(m: Machine, t: Turn, u: Transition)
    requires Ready(m, t, u) && NamedSteps(m.store)
    ensures NamedSteps(AfterTurn(m, t, u).store)
  {
    hide Wrote, M.ApplyRecord, M.ApplyOutcome, Decided, IsFlush;
    NotTerminal(m);
    TurnStore(m, t, u);
    TurnOps(m, t);
    TurnRecord(m, t, u);
    if !t.TComplete? {
      TouchedNamed(m, t);
    }
  }
}
