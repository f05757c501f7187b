/** One topology from a Run's first event to its last: forward operations
    resolve in topology order, unwinds are the exact reverse, and the ledger
    is never refused. */
module SagaOrder {
  import opened Bytes
  import opened Records
  import opened Ledger
  import opened Saga

  /** The steps forward execution resolves among the first n. */
  function Ran(topo: Topology, n: nat): seq<Id>
    requires n <= |topo|
  {
    if n == 0 then [] else Ran(topo, n - 1) + (if topo[n - 1].retired then [] else [topo[n - 1].id])
  }

  /** The steps unwind resolves on its way down from hi to lo, in order. */
  function Undone(topo: Topology, lo: nat, hi: nat): seq<Id>
    requires lo <= hi <= |topo|
    decreases hi - lo
  {
    if lo == hi then [] else Undone(topo, lo + 1, hi) + (if Undoes(topo[lo]) then [topo[lo].id] else [])
  }

  predicate Undoes(s: Step) {
    !s.retired && s.unwind
  }

  /** The first step from n on that is not retired. */
  ghost predicate IsNext(topo: Topology, n: nat, i: nat) {
    n <= i < |topo| && !topo[i].retired && forall j | n <= j < i :: topo[j].retired
  }

  /** The last step below m that unwinds. */
  ghost predicate IsLast(topo: Topology, m: nat, i: nat) {
    i < m <= |topo| && Undoes(topo[i]) && forall j | i < j < m :: !Undoes(topo[j])
  }

  /** How far a Run has come: forward through the first n steps, or failed at
      p after them and unwound down to m. */
  datatype Mark = Ahead(n: nat) | Back(n: nat, p: nat, m: nat)

  ghost predicate OnlyTopology(topo: Topology, m: States) {
    forall id :: StateOf(m, id) != OpNone ==> InTopology(topo, id)
  }

  ghost predicate AheadFacts(topo: Topology, f: Facts, n: nat) {
    && n <= |topo| && OnlyTopology(topo, f.forward)
    && (forall id :: StateOf(f.unwind, id) == OpNone)
    && forall i | 0 <= i < |topo| ::
         if i < n && !topo[i].retired then StateOf(f.forward, topo[i].id) == OpSucceeded
         else StateOf(f.forward, topo[i].id) == OpNone || (StateOf(f.forward, topo[i].id) == OpUnresolved && IsNext(topo, n, i))
  }

  ghost predicate BackFacts(topo: Topology, f: Facts, n: nat, p: nat, m: nat) {
    && m <= n <= |topo| && IsNext(topo, n, p)
    && OnlyTopology(topo, f.forward) && OnlyTopology(topo, f.unwind)
    && (forall i | 0 <= i < |topo| ::
          StateOf(f.forward, topo[i].id) == if i < n && !topo[i].retired then OpSucceeded else if i == p then OpFailed else OpNone)
    && forall i | 0 <= i < |topo| ::
         if m <= i < n && Undoes(topo[i]) then Resolved(StateOf(f.unwind, topo[i].id))
         else StateOf(f.unwind, topo[i].id) == OpNone || (StateOf(f.unwind, topo[i].id) == OpUnresolved && IsLast(topo, m, i))
  }

  ghost predicate AheadLog(topo: Topology, log: seq<Done>, n: nat)
    requires n <= |topo|
  {
    |log| == |Ran(topo, n)| && forall i | 0 <= i < |log| :: log[i] == Done(OpId(Ran(topo, n)[i], Fwd), true)
  }

  ghost predicate BackLog(topo: Topology, log: seq<Done>, n: nat, p: nat, m: nat)
    requires m <= n <= |topo| && p < |topo|
  {
    var r, u := Ran(topo, n), Undone(topo, m, n);
    && |log| == |r| + 1 + |u|
    && AheadLog(topo, log[..|r|], n)
    && log[|r|] == Done(OpId(topo[p].id, Fwd), false)
    && forall i | 0 <= i < |u| :: log[|r| + 1 + i].op == OpId(u[i], Unw)
  }

  ghost predicate AheadShape(topo: Topology, s: Saga, n: nat) {
    && AheadFacts(topo, s.facts, n) && AheadLog(topo, s.log, n)
    && (s.running.Some? ==> exists i: nat :: IsNext(topo, n, i) && s.running.value == OpId(topo[i].id, Fwd))
  }

  ghost predicate BackShape(topo: Topology, s: Saga, n: nat, p: nat, m: nat) {
    && BackFacts(topo, s.facts, n, p, m) && BackLog(topo, s.log, n, p, m)
    && (s.running.Some? ==> exists i: nat :: IsLast(topo, m, i) && s.running.value == OpId(topo[i].id, Unw))
  }

  /** At the end nothing is left: every step of the topology ran, or every
      executed one that unwinds was unwound. */
  ghost predicate Shape(topo: Topology, s: Saga, k: Mark) {
    match s.phase
    case PhaseForward => k.Ahead? && AheadShape(topo, s, k.n)
    case PhaseUnwind => k.Back? && BackShape(topo, s, k.n, k.p, k.m)
    case PhaseDone => s.running.None? && (if k.Ahead? then k.n == |topo| && AheadShape(topo, s, k.n) else k.m == 0 && BackShape(topo, s, k.n, k.p, 0))
  }

  // ---- Decisions

  lemma {:induction false} RanNext(topo: Topology, n: nat, i: nat)
    requires IsNext(topo, n, i)
    ensures Ran(topo, i + 1) == Ran(topo, n) + [topo[i].id]
  {
    RanSame(topo, n, i);
  }

  lemma {:induction false} RanSame(topo: Topology, n: nat, i: nat)
    requires n <= i <= |topo| && forall j | n <= j < i :: topo[j].retired
    ensures Ran(topo, i) == Ran(topo, n)
  {
    if n < i {
      RanSame(topo, n, i - 1);
    }
  }

  lemma {:induction false} UndoneSame(topo: Topology, i: nat, m: nat, n: nat)
    requires i <= m <= n <= |topo| && forall j | i <= j < m :: !Undoes(topo[j])
    ensures Undone(topo, i, n) == Undone(topo, m, n)
    decreases m - i
  {
    if i < m {
      UndoneSame(topo, i + 1, m, n);
    }
  }

  lemma UndoneNext(topo: Topology, i: nat, m: nat, n: nat)
    requires IsLast(topo, m, i) && m <= n <= |topo|
    ensures Undone(topo, i, n) == Undone(topo, m, n) + [topo[i].id]
  {
    UndoneSame(topo, i + 1, m, n);
  }

  ghost predicate NoneLeft(topo: Topology, n: nat) {
    n <= |topo| && forall j | n <= j < |topo| :: topo[j].retired
  }

  lemma FactAt(topo: Topology, m: States, id: Id) returns (i: nat)
    requires OnlyTopology(topo, m) && StateOf(m, id) != OpNone
    ensures i < |topo| && topo[i].id == id
  {
    i :| 0 <= i < |topo| && topo[i].id == id;
  }

  lemma NextUnique(topo: Topology, n: nat, i: nat, j: nat)
    requires IsNext(topo, n, i) && IsNext(topo, n, j)
    ensures i == j
  {
  }

  lemma AheadOneUnresolved(topo: Topology, f: Facts, n: nat, a: Id, b: Id)
    requires AheadFacts(topo, f, n) && Pinned(f.forward, a) && Pinned(f.forward, b)
    ensures a == b
  {
    var i := FactAt(topo, f.forward, a);
    var j := FactAt(topo, f.forward, b);
    NextUnique(topo, n, i, j);
  }

  lemma AheadNoneFailed(topo: Topology, f: Facts, n: nat)
    requires AheadFacts(topo, f, n)
    ensures !SomeFailed(f.forward) && !TwoUnresolved(f.forward)
  {
    if a :| a in f.forward && f.forward[a] == OpFailed {
      var i := FactAt(topo, f.forward, a);
      assert false;
    }
    if a, b :| a in f.forward && b in f.forward && a != b && f.forward[a] == OpUnresolved && f.forward[b] == OpUnresolved {
      assert Pinned(f.forward, a) && Pinned(f.forward, b);
      AheadOneUnresolved(topo, f, n, a, b);
    }
  }

  /** Forward, the ledger runs the next step or is done; it never refuses. */
  lemma AheadDecides(topo: Topology, f: Facts, n: nat, d: Decision)
    requires Distinct(topo) && AheadFacts(topo, f, n) && ForwardDecision(topo, f, d)
    ensures (d.RunForward? && exists i: nat :: IsNext(topo, n, i) && d.step == topo[i].id) || (d.ForwardComplete? && NoneLeft(topo, n))
  {
    AheadNoneFailed(topo, f, n);
    if exists id :: Pinned(f.forward, id) {
      var id :| Pinned(f.forward, id) && d == (if InTopology(topo, id) then RunForward(id) else Invalid(PinnedAbsent(id)));
      var i := FactAt(topo, f.forward, id);
      assert IsNext(topo, n, i);
    } else if d.RunForward? {
      var i: nat :| FirstForward(topo, f.forward, i) && d.step == topo[i].id;
      FirstIsNext(topo, f, n, i);
    } else {
      forall j | n <= j < |topo| ensures topo[j].retired {
        SucceededBelow(topo, f, n, j);
      }
    }
  }

  lemma SucceededBelow(topo: Topology, f: Facts, n: nat, j: nat)
    requires AheadFacts(topo, f, n) && n <= j
    ensures !SucceededFrom(topo, f.forward, j)
  {
  }

  lemma FirstIsNext(topo: Topology, f: Facts, n: nat, i: nat)
    requires AheadFacts(topo, f, n) && FirstForward(topo, f.forward, i)
    ensures IsNext(topo, n, i)
  {
    assert n <= i;
    forall j | n <= j < i ensures topo[j].retired {
      SucceededBelow(topo, f, n, j);
    }
  }

  lemma LastUnique(topo: Topology, m: nat, i: nat, j: nat)
    requires IsLast(topo, m, i) && IsLast(topo, m, j)
    ensures i == j
  {
  }

  lemma BackOneUnresolved(topo: Topology, f: Facts, n: nat, p: nat, m: nat)
    requires BackFacts(topo, f, n, p, m)
    ensures !TwoUnresolved(f.unwind)
  {
    if a, b :| a in f.unwind && b in f.unwind && a != b && f.unwind[a] == OpUnresolved && f.unwind[b] == OpUnresolved {
      var i := FactAt(topo, f.unwind, a);
      var j := FactAt(topo, f.unwind, b);
      LastUnique(topo, m, i, j);
    }
  }

  /** Unwinding, it runs the last executed step left that unwinds, or is
      done. */
  lemma BackDecides(topo: Topology, f: Facts, n: nat, p: nat, m: nat, d: Decision)
    requires Distinct(topo) && BackFacts(topo, f, n, p, m) && UnwindDecision(topo, f, d)
    ensures (d.RunUnwind? && exists i: nat :: IsLast(topo, m, i) && d.step == topo[i].id)
            || (d.UnwindComplete? && forall j | 0 <= j < m :: !Undoes(topo[j]))
  {
    BackOneUnresolved(topo, f, n, p, m);
    forall j: nat | j < m ensures !ResolvedUpTo(topo, f.unwind, j) {
    }
    forall j | m <= j < n && Undoes(topo[j]) ensures ResolvedUpTo(topo, f.unwind, j) {
      assert Resolved(StateOf(f.unwind, topo[j].id));
    }
    forall j: nat | j < |topo| ensures Eligible(topo, f, j) <==> j < n && Undoes(topo[j]) {
    }
    if d.RunUnwind? {
      var i: nat :| FirstUnwind(topo, f, i) && d.step == topo[i].id;
      assert IsLast(topo, m, i);
    }
  }

  // ---- Events

  lemma AheadReserve(topo: Topology, s: Saga, n: nat, step: Id)
    requires Distinct(topo) && s.phase.PhaseForward? && AheadShape(topo, s, n) && Enabled(s, Reserve(topo, step))
    ensures AheadShape(topo, Happens(s, Reserve(topo, step)), n)
  {
    AheadDecides(topo, s.facts, n, RunForward(step));
    var i: nat :| IsNext(topo, n, i) && step == topo[i].id;
    var t := Happens(s, Reserve(topo, step));
    StatusAfter(s.facts, OpId(step, Fwd), OpUnresolved);
    assert t.facts.forward == s.facts.forward[step := OpUnresolved];
  }

  lemma AheadSucceeds(topo: Topology, s: Saga, n: nat, i: nat)
    requires Distinct(topo) && s.phase.PhaseForward? && AheadShape(topo, s, n) && IsNext(topo, n, i)
    ensures AheadShape(topo, Logged(s, Done(OpId(topo[i].id, Fwd), true)), i + 1)
  {
    RanNext(topo, n, i);
    var t := Logged(s, Done(OpId(topo[i].id, Fwd), true));
    assert t.facts.forward == s.facts.forward[topo[i].id := OpSucceeded];
    forall j | 0 <= j < |topo| && j != i ensures StateOf(t.facts.forward, topo[j].id) == StateOf(s.facts.forward, topo[j].id) {
      assert topo[j].id != topo[i].id;
    }
    forall j | 0 <= j < |topo| && StateOf(s.facts.forward, topo[j].id) == OpUnresolved ensures j == i {
      NextUnique(topo, n, i, j);
    }
  }

  lemma AheadFails(topo: Topology, s: Saga, n: nat, i: nat)
    requires Distinct(topo) && s.phase.PhaseForward? && AheadShape(topo, s, n) && IsNext(topo, n, i)
    ensures BackShape(topo, Logged(s, Done(OpId(topo[i].id, Fwd), false)), n, i, n)
  {
    var t := Logged(s, Done(OpId(topo[i].id, Fwd), false));
    assert t.facts.forward == s.facts.forward[topo[i].id := OpFailed] && t.facts.unwind == s.facts.unwind;
    forall j | 0 <= j < |topo| && j != i ensures StateOf(t.facts.forward, topo[j].id) == StateOf(s.facts.forward, topo[j].id) {
      assert topo[j].id != topo[i].id;
    }
    forall j | 0 <= j < |topo| && StateOf(s.facts.forward, topo[j].id) == OpUnresolved ensures j == i {
      NextUnique(topo, n, i, j);
    }
    assert t.log[..|Ran(topo, n)|] == s.log;
  }

  lemma BackReserve(topo: Topology, s: Saga, n: nat, p: nat, m: nat, step: Id)
    requires Distinct(topo) && s.phase.PhaseUnwind? && BackShape(topo, s, n, p, m) && Enabled(s, Reserve(topo, step))
    ensures BackShape(topo, Happens(s, Reserve(topo, step)), n, p, m)
  {
    BackDecides(topo, s.facts, n, p, m, RunUnwind(step));
    var i: nat :| IsLast(topo, m, i) && step == topo[i].id;
    var t := Happens(s, Reserve(topo, step));
    assert t.facts.unwind == s.facts.unwind[step := OpUnresolved] && t.facts.forward == s.facts.forward;
    forall j | 0 <= j < |topo| && j != i ensures StateOf(t.facts.unwind, topo[j].id) == StateOf(s.facts.unwind, topo[j].id) {
      assert topo[j].id != topo[i].id;
    }
  }

  lemma BackResolves(topo: Topology, s: Saga, n: nat, p: nat, m: nat, i: nat, ok: bool)
    requires Distinct(topo) && s.phase.PhaseUnwind? && BackShape(topo, s, n, p, m) && IsLast(topo, m, i)
    ensures BackShape(topo, Logged(s, Done(OpId(topo[i].id, Unw), ok)), n, p, i)
  {
    UndoneNext(topo, i, m, n);
    var t := Logged(s, Done(OpId(topo[i].id, Unw), ok));
    assert t.facts.unwind == s.facts.unwind[topo[i].id := if ok then OpSucceeded else OpFailed] && t.facts.forward == s.facts.forward;
    forall j | 0 <= j < |topo| && j != i ensures StateOf(t.facts.unwind, topo[j].id) == StateOf(s.facts.unwind, topo[j].id) {
      assert topo[j].id != topo[i].id;
    }
    forall j | 0 <= j < |topo| && StateOf(s.facts.unwind, topo[j].id) == OpUnresolved ensures j == i {
      LastUnique(topo, m, i, j);
    }
    assert t.log[..|Ran(topo, n)|] == s.log[..|Ran(topo, n)|];
  }

  predicate Under(topo: Topology, e: LedgerEvent) {
    (e.Reserve? || e.Cancel? || e.Finish?) ==> e.topo == topo
  }

  lemma StepShape(topo: Topology, s: Saga, e: LedgerEvent, k: Mark) returns (l: Mark)
    requires Distinct(topo) && Shape(topo, s, k) && Under(topo, e) && Enabled(s, e)
    ensures Shape(topo, Happens(s, e), l)
  {
    l := k;
    match e
    case Reserve(_, step) =>
      if k.Ahead? { AheadReserve(topo, s, k.n, step); } else { BackReserve(topo, s, k.n, k.p, k.m, step); }
    case Resolve(ok) =>
      if k.Ahead? {
        var i: nat :| IsNext(topo, k.n, i) && s.running.value == OpId(topo[i].id, Fwd);
        l := Forwarded(topo, s, k.n, i, ok);
      } else {
        var i: nat :| IsLast(topo, k.m, i) && s.running.value == OpId(topo[i].id, Unw);
        BackResolves(topo, s, k.n, k.p, k.m, i, ok);
        l := Back(k.n, k.p, i);
      }
    case Abandon =>
    case Cancel(_, step) =>
      AheadDecides(topo, s.facts, k.n, RunForward(step));
      var i: nat :| IsNext(topo, k.n, i) && step == topo[i].id;
      l := Forwarded(topo, s, k.n, i, false);
    case Finish(_) =>
      l := Finished(topo, s, k);
  }

  lemma Forwarded(topo: Topology, s: Saga, n: nat, i: nat, ok: bool) returns (l: Mark)
    requires Distinct(topo) && s.phase.PhaseForward? && AheadShape(topo, s, n) && IsNext(topo, n, i)
    ensures Shape(topo, Logged(s, Done(OpId(topo[i].id, Fwd), ok)), l)
  {
    if ok {
      AheadSucceeds(topo, s, n, i);
      l := Ahead(i + 1);
    } else {
      AheadFails(topo, s, n, i);
      l := Back(n, i, n);
    }
  }

  lemma Finished(topo: Topology, s: Saga, k: Mark) returns (l: Mark)
    requires Distinct(topo) && Shape(topo, s, k) && Enabled(s, Finish(topo))
    ensures Shape(topo, s.(phase := PhaseDone), l)
  {
    if k.Ahead? {
      AheadDecides(topo, s.facts, k.n, ForwardComplete);
      RanSame(topo, k.n, |topo|);
      l := Ahead(|topo|);
    } else {
      BackDecides(topo, s.facts, k.n, k.p, k.m, UnwindComplete);
      UndoneSame(topo, 0, k.m, k.n);
      l := Back(k.n, k.p, 0);
    }
  }

  /** The saga theorem: under one topology every reachable ledger has a shape.
      Forward operations resolved in topology order, at most once each; after
      a failure or cancel the unwinds are a prefix of the reversed executed
      steps that unwind, and all of them once the Run is done. */
  lemma {:induction false} SagaHasShape(topo: Topology, es: seq<LedgerEvent>) returns (k: Mark)
    requires Distinct(topo) && (forall e | e in es :: Under(topo, e)) && Allowed(Fresh, es)
    ensures Shape(topo, After(Fresh, es), k)
  {
    if es == [] {
      k := Ahead(0);
    } else {
      var n := |es| - 1;
      assert forall e | e in es[..n] :: e in es;
      k := SagaHasShape(topo, es[..n]);
      k := StepShape(topo, After(Fresh, es[..n]), es[n], k);
    }
  }

  /** No reachable ledger is refused. */
  lemma NeverInvalid(topo: Topology, es: seq<LedgerEvent>, d: Decision)
    requires Distinct(topo) && (forall e | e in es :: Under(topo, e)) && Allowed(Fresh, es)
    requires Decides(topo, After(Fresh, es), d)
    ensures !d.Invalid?
  {
    var k := SagaHasShape(topo, es);
    if k.Ahead? {
      AheadDecides(topo, After(Fresh, es).facts, k.n, d);
    } else {
      BackDecides(topo, After(Fresh, es).facts, k.n, k.p, k.m, d);
    }
  }

  // ---- What the shape says

  /** Where a step sits. */
  ghost predicate Climbs(topo: Topology, ids: seq<Id>, at: seq<nat>) {
    && |at| == |ids|
    && (forall i | 0 <= i < |at| :: at[i] < |topo| && topo[at[i]].id == ids[i])
    && forall i, j | 0 <= i < j < |at| :: at[i] < at[j]
  }

  /** Where the steps that ran sit. */
  function Spots(topo: Topology, n: nat): seq<nat>
    requires n <= |topo|
  {
    if n == 0 then [] else Spots(topo, n - 1) + (if topo[n - 1].retired then [] else [n - 1])
  }

  lemma {:induction false} SpotsAre(topo: Topology, n: nat)
    requires n <= |topo|
    ensures forall i :: i in Spots(topo, n) <==> 0 <= i < n && !topo[i].retired
  {
    if n > 0 {
      SpotsAre(topo, n - 1);
    }
  }

  /** Forward operations resolve at strictly increasing positions. */
  lemma {:induction false} RanClimbs(topo: Topology, n: nat)
    requires n <= |topo|
    ensures Climbs(topo, Ran(topo, n), Spots(topo, n))
  {
    if n > 0 {
      RanClimbs(topo, n - 1);
      SpotsAre(topo, n - 1);
      if !topo[n - 1].retired {
        ClimbsOn(topo, Ran(topo, n - 1), Spots(topo, n - 1), n - 1);
      }
    }
  }

  lemma ClimbsOn(topo: Topology, ids: seq<Id>, at: seq<nat>, n: nat)
    requires Climbs(topo, ids, at) && n < |topo| && forall i | i in at :: i < n
    ensures Climbs(topo, ids + [topo[n].id], at + [n])
  {
    var all := at + [n];
    forall i, j | 0 <= i < j < |all| ensures all[i] < all[j] {
      assert at[i] in at;
    }
  }

  function Reversed(s: seq<Id>): seq<Id> {
    if s == [] then [] else Reversed(s[1..]) + [s[0]]
  }

  /** The executed steps that unwind, as a filter of what ran. */
  function Unwinding(topo: Topology, ids: seq<Id>): seq<Id> {
    if ids == [] then []
    else Unwinding(topo, ids[..|ids| - 1]) + (if Declares(topo, ids[|ids| - 1]) then [ids[|ids| - 1]] else [])
  }

  predicate Declares(topo: Topology, id: Id) {
    exists i :: 0 <= i < |topo| && topo[i].id == id && topo[i].unwind
  }

  /** The complete unwind is the reverse of what ran and unwinds. */
  lemma {:induction false} UndoneIsReverse(topo: Topology, n: nat)
    requires n <= |topo| && Distinct(topo)
    ensures Undone(topo, 0, n) == Reversed(Unwinding(topo, Ran(topo, n)))
  {
    if n > 0 {
      UndoneIsReverse(topo, n - 1);
      UndoneAbove(topo, 0, n);
      hide Reversed, Unwinding, Undone, Declares;
      var x, u := topo[n - 1], Unwinding(topo, Ran(topo, n - 1));
      DeclaresAt(topo, n - 1);
      assert Undone(topo, 0, n) == (if Undoes(x) then [x.id] else []) + Reversed(u);
      assert Declares(topo, x.id) <==> x.unwind;
      if !x.retired {
        UnwindingSnoc(topo, Ran(topo, n - 1), x.id);
        if x.unwind {
          ReversedSnoc(u, x.id);
        } else {
          assert u + [] == u;
        }
      } else {
        assert Ran(topo, n) == Ran(topo, n - 1);
      }
    }
  }

  lemma DeclaresAt(topo: Topology, i: nat)
    requires i < |topo| && Distinct(topo)
    ensures Declares(topo, topo[i].id) <==> topo[i].unwind
  {
  }

  lemma UnwindingSnoc(topo: Topology, ids: seq<Id>, x: Id)
    ensures Unwinding(topo, ids + [x]) == Unwinding(topo, ids) + (if Declares(topo, x) then [x] else [])
  {
    assert (ids + [x])[..|ids|] == ids;
  }

  lemma {:induction false} UndoneAbove(topo: Topology, lo: nat, hi: nat)
    requires lo < hi <= |topo|
    ensures Undone(topo, lo, hi) == (if Undoes(topo[hi - 1]) then [topo[hi - 1].id] else []) + Undone(topo, lo, hi - 1)
    decreases hi - lo
  {
    if lo + 1 < hi {
      UndoneAbove(topo, lo + 1, hi);
    }
  }

  lemma {:induction false} ReversedSnoc(s: seq<Id>, x: Id)
    ensures Reversed(s + [x]) == [x] + Reversed(s)
  {
    if s != [] {
      ReversedSnoc(s[1..], x);
      assert (s + [x])[1..] == s[1..] + [x];
    }
  }

  /** A finished Run ran every step of the topology, or failed at one and
      then unwound all it had executed that unwinds, last first. */
  lemma FinishedRun(topo: Topology, es: seq<LedgerEvent>)
    requires Distinct(topo) && (forall e | e in es :: Under(topo, e)) && Allowed(Fresh, es)
    requires After(Fresh, es).phase.PhaseDone?
    ensures || AheadLog(topo, After(Fresh, es).log, |topo|)
            || exists n: nat, p: nat :: IsNext(topo, n, p) && FailedLog(topo, After(Fresh, es).log, n, p)
  {
    var k := SagaHasShape(topo, es);
    if k.Back? {
      UndoneIsReverse(topo, k.n);
      assert IsNext(topo, k.n, k.p) && FailedLog(topo, After(Fresh, es).log, k.n, k.p);
    }
  }

  ghost predicate FailedLog(topo: Topology, log: seq<Done>, n: nat, p: nat)
    requires IsNext(topo, n, p)
  {
    var r := Ran(topo, n);
    var u := Reversed(Unwinding(topo, r));
    && |log| == |r| + 1 + |u|
    && AheadLog(topo, log[..|r|], n)
    && log[|r|] == Done(OpId(topo[p].id, Fwd), false)
    && forall i | 0 <= i < |u| :: log[|r| + 1 + i].op == OpId(u[i], Unw)
  }

  /** What is left of a Run: the phase first, then the steps ahead or still
      to unwind. Every resolution lowers it, so there are at most twice as
      many as the topology has steps. */
  function Left(topo: Topology, k: Mark): (nat, int) {
    if k.Ahead? then (1, |topo| - k.n) else (0, k.m)
  }

  predicate Lower(a: (nat, int), b: (nat, int)) {
    a.0 < b.0 || (a.0 == b.0 && 0 <= a.1 < b.1)
  }

  lemma ResolutionLowers(topo: Topology, s: Saga, e: LedgerEvent, k: Mark) returns (l: Mark)
    requires Distinct(topo) && Shape(topo, s, k) && Under(topo, e) && Enabled(s, e) && Resolves(s, e).Some? && !s.phase.PhaseDone?
    ensures Shape(topo, Happens(s, e), l) && Lower(Left(topo, l), Left(topo, k))
  {
    if k.Ahead? {
      if e.Cancel? {
        AheadDecides(topo, s.facts, k.n, RunForward(e.step));
      }
      var i: nat :| IsNext(topo, k.n, i) && Resolves(s, e).value.op == OpId(topo[i].id, Fwd);
      if Resolves(s, e).value.ok {
        AheadSucceeds(topo, s, k.n, i);
        l := Ahead(i + 1);
      } else {
        AheadFails(topo, s, k.n, i);
        l := Back(k.n, i, k.n);
      }
    } else {
      var i: nat :| IsLast(topo, k.m, i) && s.running.value == OpId(topo[i].id, Unw);
      BackResolves(topo, s, k.n, k.p, k.m, i, e.ok);
      l := Back(k.n, k.p, i);
    }
  }

  lemma {:induction false} RanShort(topo: Topology, n: nat)
    requires n <= |topo|
    ensures |Ran(topo, n)| <= n
  {
    if n > 0 {
      RanShort(topo, n - 1);
    }
  }

  lemma {:induction false} UndoneShort(topo: Topology, lo: nat, hi: nat)
    requires lo <= hi <= |topo|
    ensures |Undone(topo, lo, hi)| <= hi - lo
    decreases hi - lo
  {
    if lo < hi {
      UndoneShort(topo, lo + 1, hi);
    }
  }

  lemma ResolutionsBounded(topo: Topology, es: seq<LedgerEvent>)
    requires Distinct(topo) && (forall e | e in es :: Under(topo, e)) && Allowed(Fresh, es)
    ensures |After(Fresh, es).log| <= 2 * |topo|
  {
    var k := SagaHasShape(topo, es);
    RanShort(topo, k.n);
    if k.Back? {
      UndoneShort(topo, k.m, k.n);
    }
  }
}
