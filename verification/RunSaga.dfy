/** Whole runs of the machine under one topology: the saga theorem, told of the
    durable record's own resolutions. */
module RunSaga {
  import opened Records
  import opened Ledger
  import opened Saga
  import opened SagaOrder
  import opened RunMachine
  import opened RunOrders

  /** Every decision of the run was taken under this topology. */
  ghost predicate AllUnder(acts: seq<Action>, topo: Topology) {
    forall a | a in acts :: a.Apply? && (a.turn.TReserve? || a.turn.TCancel? || a.turn.TComplete?) ==> a.turn.topo == topo
  }

  function DoneLog(log: seq<Resolution>): seq<Done> {
    seq(|log|, i requires 0 <= i < |log| => Done(log[i].op, log[i].ok))
  }

  lemma {:induction false} EventsUnder(m: Machine, acts: seq<Action>, topo: Topology)
    requires JustCreated(m) && Possible(m, acts) && AllUnder(acts, topo)
    ensures forall e | e in Reached(m, acts).events :: Under(topo, e)
  {
    if acts != [] {
      var before, a := acts[..|acts| - 1], acts[|acts| - 1];
      assert forall x | x in before :: x in acts;
      assert a in acts;
      EventsUnder(m, before, topo);
      EventAdded(Reached(m, before), a);
    }
  }

  lemma EventAdded(m: Machine, a: Action)
    requires Can(m, a)
    ensures forall e | e in Act(m, a).events :: e in m.events || e == Abandon || (a.Apply? && e == EventOf(a.turn))
  {
    hide Wrote, CanTurn, AfterTurn;
    if a.Apply? {
      TurnEvents(m, a.turn, a.u);
    }
  }

  lemma TurnEvents(m: Machine, t: Turn, u: Transition)
    requires CanTurn(m.worker, t)
    ensures AfterTurn(m, t, u).events == m.events + [EventOf(t)]
  {
    hide Wrote;
  }

  lemma LoggedDone(m: Machine)
    requires Linked(m)
    ensures After(Fresh, m.events).log == DoneLog(m.log)
  {
  }

  /** A Run that ended under one topology resolved every step in order, or
      resolved a prefix in order, failed one, and unwound exactly the executed
      steps that unwind, in reverse. */
  lemma RunsFollowSaga(m: Machine, acts: seq<Action>, topo: Topology)
    requires JustCreated(m) && Possible(m, acts) && AllUnder(acts, topo) && Distinct(topo)
    requires Reached(m, acts).store.Terminal()
    ensures (var log := DoneLog(Reached(m, acts).log);
             AheadLog(topo, log, |topo|) || exists n: nat, p: nat :: IsNext(topo, n, p) && FailedLog(topo, log, n, p))
  {
    var n := Reached(m, acts);
    RunsKeepInv(m, acts);
    EventsUnder(m, acts, topo);
    LoggedDone(n);
    FinishedRun(topo, n.events);
  }

  /** The worker never finds such a Run invalid: no decision on the record it
      carries is a refusal. */
  lemma RunsNeverInvalid(m: Machine, acts: seq<Action>, topo: Topology, d: Decision)
    requires JustCreated(m) && Possible(m, acts) && AllUnder(acts, topo) && Distinct(topo)
    requires !Reached(m, acts).worker.Idle? && Decided(topo, Reached(m, acts).worker.rec, d)
    ensures !d.Invalid?
  {
    var n := Reached(m, acts);
    EventsUnder(m, acts, topo);
    RunsKeepInv(m, acts);
    LinkedDecision(n, n.worker.rec, topo, d);
    NeverInvalid(topo, n.events, d);
  }

  /** Whatever was deployed before, the record a worker carries is refused
      forward exactly when its unresolved step left the topology, and in
      unwind exactly when two unwinds are unresolved. */
  lemma RunsInvalidIff(m: Machine, acts: seq<Action>, topo: Topology, d: Decision)
    requires JustCreated(m) && Possible(m, acts)
    requires !Reached(m, acts).worker.Idle? && Decided(topo, Reached(m, acts).worker.rec, d)
    ensures (var r := Reached(m, acts).worker.rec;
             d.Invalid? <==> if r.phase.PhaseForward? then exists id :: Pinned(FactsOf(r).forward, id) && !InTopology(topo, id)
                             else TwoUnresolved(FactsOf(r).unwind))
  {
    var n := Reached(m, acts);
    RunsKeepInv(m, acts);
    LinkedDecision(n, n.worker.rec, topo, d);
    EvolutionInvalidIff(n.events, topo, d);
    var g := After(Fresh, n.events);
    LinkedStates(n, n.worker.rec);
    SameScans(FactsOf(n.worker.rec).forward, g.facts.forward);
    SameScans(FactsOf(n.worker.rec).unwind, g.facts.unwind);
    SameScans(g.facts.unwind, FactsOf(n.worker.rec).unwind);
  }

  /** It resolves at most twice as often as the topology has steps, so its
      resolution orders are exact for any topology of fewer than 2^31 steps. */
  lemma RunsOrdersExact(m: Machine, acts: seq<Action>, topo: Topology)
    requires JustCreated(m) && Possible(m, acts) && AllUnder(acts, topo) && Distinct(topo) && |topo| <= 0x7FFF_FFFF
    ensures |Reached(m, acts).log| <= 2 * |topo| && OrdersExact(Reached(m, acts))
  {
    var n := Reached(m, acts);
    RunsKeepInv(m, acts);
    EventsUnder(m, acts, topo);
    LoggedDone(n);
    ResolutionsBounded(topo, n.events);
    RunsKeepOrders(m, acts);
  }
}
