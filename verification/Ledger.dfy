/** internal/ledger: reconciliation of a Run's facts with the current
    topology. The loops over the facts visit a map in any order; what they
    return is a function of the facts alone. */
module Ledger {
  import opened Bytes
  import opened Records

  datatype Step = Step(id: Id, unwind: bool, retired: bool)

  type Topology = seq<Step>

  type States = map<Id, OpStatus>

  datatype Facts = Facts(forward: States, unwind: States)

  datatype Reason =
    | MultipleForward(first: Id, second: Id)
    | ForwardFailed(step: Id)
    | PinnedAbsent(step: Id)
    | MultipleUnwind(first: Id, second: Id)

  datatype Decision =
    | RunForward(step: Id)
    | ForwardComplete
    | RunUnwind(step: Id)
    | UnwindComplete
    | Invalid(reason: Reason)

  /** Reading a map at an absent key gives the zero state. */
  function StateOf(m: States, id: Id): OpStatus {
    if id in m then m[id] else OpNone
  }

  /** Every registered step is named (engine/bind.go:95), so the empty string
      stands for no step at all. */
  predicate Named(m: States) {
    NoId !in m
  }

  // ---- The violation scans

  predicate TwoUnresolved(m: States) {
    exists a, b | a in m && b in m :: a != b && m[a] == OpUnresolved && m[b] == OpUnresolved
  }

  predicate SomeFailed(m: States) {
    exists a | a in m :: m[a] == OpFailed
  }

  function NameOf(id: Id): Bytes {
    id.name
  }

  function Names(m: States): set<Bytes> {
    set id | id in m :: NameOf(id)
  }

  lemma NamesIn(m: States, b: Bytes)
    ensures b in Names(m) <==> 0 !in b && Id(b) in m
  {
    if b in Names(m) {
      var id :| id in m && NameOf(id) == b;
      assert id == Id(b);
    }
    if 0 !in b {
      assert NameOf(Id(b)) == b;
    }
  }

  /** What the two scans report of forward facts: the two least unresolved
      operations with no failed one before the second, or the least failed
      operation with at most one unresolved before it. */
  ghost predicate LeastViolation(m: States, r: Reason) {
    match r
    case MultipleForward(a, b) =>
      && a in m && b in m && m[a] == OpUnresolved && m[b] == OpUnresolved && Less(a.name, b.name)
      && forall x | x in m && Less(x.name, b.name) :: x == a || (m[x] != OpUnresolved && m[x] != OpFailed)
    case ForwardFailed(b) =>
      && b in m && m[b] == OpFailed
      && (forall x | x in m && Less(x.name, b.name) :: m[x] != OpFailed)
      && (forall x, y | x in m && y in m && m[x] == OpUnresolved && m[y] == OpUnresolved && Less(x.name, b.name) && Less(y.name, b.name) :: x == y)
    case _ => false
  }

  ghost predicate LeastPair(m: States, r: Reason) {
    && r.MultipleUnwind?
    && r.first in m && r.second in m && m[r.first] == OpUnresolved && m[r.second] == OpUnresolved
    && Less(r.first.name, r.second.name)
    && forall x | x in m && Less(x.name, r.second.name) :: x == r.first || m[x] != OpUnresolved
  }

  /** The report does not depend on the order the map was visited in: the
      least violation is unique. */
  lemma LeastViolationUnique(m: States, r: Reason, s: Reason)
    requires LeastViolation(m, r) && LeastViolation(m, s)
    ensures r == s
  {
    var b := if r.MultipleForward? then r.second else r.step;
    var d := if s.MultipleForward? then s.second else s.step;
    LessTotal(b.name, d.name);
    LessIrreflexive(b.name);
    if r.MultipleForward? {
      LessIrreflexive(r.first.name);
      if Less(b.name, d.name) {
        LessTransitive(r.first.name, b.name, d.name);
      }
    }
    if s.MultipleForward? && Less(d.name, b.name) {
      LessIrreflexive(s.first.name);
      LessTransitive(s.first.name, d.name, b.name);
    }
  }

  lemma LeastPairUnique(m: States, r: Reason, s: Reason)
    requires LeastPair(m, r) && LeastPair(m, s)
    ensures r == s
  {
    LessTotal(r.second.name, s.second.name);
    LessIrreflexive(r.second.name);
    LessIrreflexive(s.second.name);
    LessIrreflexive(r.first.name);
    LessIrreflexive(s.first.name);
    if Less(r.second.name, s.second.name) {
      LessTransitive(r.first.name, r.second.name, s.second.name);
    } else if Less(s.second.name, r.second.name) {
      LessTransitive(s.first.name, s.second.name, r.second.name);
    }
  }

  /** What has been scanned of the sorted identifiers. */
  ghost predicate Scanned(m: States, ids: seq<Bytes>, n: nat) {
    && Ascending(ids) && n <= |ids|
    && (forall i | 0 <= i < |ids| :: 0 !in ids[i] && Id(ids[i]) in m)
    && (forall x | x in m :: x.name in ids)
  }

  lemma BeforeScanned(m: States, ids: seq<Bytes>, n: nat, x: Id)
    requires Scanned(m, ids, n) && n < |ids| && x in m
    ensures Less(x.name, ids[n]) <==> x.name in ids[..n]
  {
    var j :| 0 <= j < |ids| && ids[j] == x.name;
    LessIrreflexive(ids[n]);
    if j < n {
      assert ids[..n][j] == x.name;
    } else if Less(x.name, ids[n]) && n < j {
      LessTransitive(ids[j], ids[n], ids[j]);
      LessIrreflexive(ids[j]);
    }
    if x.name in ids[..n] {
      var i :| 0 <= i < n && ids[..n][i] == x.name;
    }
  }

  /** sortedIDs. */
  method SortedIds(m: States) returns (ids: seq<Bytes>)
    ensures Scanned(m, ids, 0)
  {
    ids := Sorted(Names(m));
    forall i | 0 <= i < |ids| ensures 0 !in ids[i] && Id(ids[i]) in m {
      assert ids[i] in ids;
      NamesIn(m, ids[i]);
    }
    forall x | x in m ensures x.name in ids {
      NamesIn(m, x.name);
    }
  }

  /** forwardViolation: it never vanishes on re-derivation. */
  method ForwardViolation(m: States) returns (r: Reason)
    requires Named(m)
    requires TwoUnresolved(m) || SomeFailed(m)
    ensures LeastViolation(m, r)
  {
    var ids := SortedIds(m);
    var unresolved := NoId;
    var i := 0;
    while i < |ids|
      invariant i <= |ids| && (i == |ids| ==> ids[..i] == ids)
      invariant forall x | x in m && x.name in ids[..i] :: m[x] != OpFailed && (m[x] == OpUnresolved <==> x == unresolved)
      invariant unresolved != NoId ==> unresolved in m && unresolved.name in ids[..i]
    {
      var id := Id(ids[i]);
      forall x | x in m ensures Less(x.name, ids[i]) <==> x.name in ids[..i] {
        BeforeScanned(m, ids, i, x);
      }
      assert ids[..i + 1] == ids[..i] + [ids[i]];
      match m[id] {
        case OpUnresolved =>
          if unresolved != NoId {
            return MultipleForward(unresolved, id);
          }
          unresolved := id;
        case OpFailed =>
          return ForwardFailed(id);
        case _ =>
      }
      i := i + 1;
    }
    assert false;
  }

  method UnwindViolation(m: States) returns (r: Reason)
    requires Named(m) && TwoUnresolved(m)
    ensures LeastPair(m, r)
  {
    var ids := SortedIds(m);
    var seen := NoId;
    var i := 0;
    while i < |ids|
      invariant i <= |ids| && (i == |ids| ==> ids[..i] == ids)
      invariant forall x | x in m && x.name in ids[..i] :: m[x] == OpUnresolved <==> x == seen
      invariant seen != NoId ==> seen in m && seen.name in ids[..i]
    {
      var id := Id(ids[i]);
      forall x | x in m ensures Less(x.name, ids[i]) <==> x.name in ids[..i] {
        BeforeScanned(m, ids, i, x);
      }
      assert ids[..i + 1] == ids[..i] + [ids[i]];
      if m[id] == OpUnresolved {
        if seen != NoId {
          return MultipleUnwind(seen, id);
        }
        seen := id;
      }
      i := i + 1;
    }
    assert false;
  }

  // ---- What each decision means

  predicate InTopology(topo: Topology, id: Id) {
    exists i :: 0 <= i < |topo| && topo[i].id == id
  }

  /** The step at i is what forward execution reaches first: nothing from i on
      succeeded, it never started, and every step before it is retired or has
      a success at or after it. */
  ghost predicate FirstForward(topo: Topology, m: States, i: nat) {
    && i < |topo| && !topo[i].retired
    && (forall j | i <= j < |topo| :: StateOf(m, topo[j].id) != OpSucceeded)
    && forall j | 0 <= j < i :: topo[j].retired || SucceededFrom(topo, m, j)
  }

  ghost predicate SucceededFrom(topo: Topology, m: States, j: int) {
    exists k :: j <= k < |topo| && 0 <= k && StateOf(m, topo[k].id) == OpSucceeded
  }

  predicate Resolved(st: OpStatus) {
    st == OpSucceeded || st == OpFailed
  }

  /** A step unwinds when it declares unwind and executed forward. */
  predicate Eligible(topo: Topology, f: Facts, i: nat)
    requires i < |topo|
  {
    topo[i].unwind && StateOf(f.forward, topo[i].id) == OpSucceeded
  }

  ghost predicate ResolvedUpTo(topo: Topology, m: States, j: int) {
    exists k :: 0 <= k <= j && k < |topo| && Resolved(StateOf(m, topo[k].id))
  }

  /** The step at i is what unwinding reaches first: it is eligible, nothing
      up to i has resolved, and every eligible step after it is past one that
      has. */
  ghost predicate FirstUnwind(topo: Topology, f: Facts, i: nat) {
    && i < |topo| && Eligible(topo, f, i) && !ResolvedUpTo(topo, f.unwind, i)
    && forall j | i < j < |topo| && Eligible(topo, f, j) :: ResolvedUpTo(topo, f.unwind, j)
  }

  ghost predicate Pinned(m: States, id: Id) {
    id in m && m[id] == OpUnresolved
  }

  /** NextForward's promise, case by case; the cases exclude each other. */
  ghost predicate ForwardDecision(topo: Topology, f: Facts, d: Decision) {
    var m := f.forward;
    if TwoUnresolved(m) || SomeFailed(m) then d.Invalid? && LeastViolation(m, d.reason)
    else if exists id :: Pinned(m, id) then
      exists id :: Pinned(m, id) && d == (if InTopology(topo, id) then RunForward(id) else Invalid(PinnedAbsent(id)))
    else
      || (d.RunForward? && exists i: nat :: FirstForward(topo, m, i) && d.step == topo[i].id)
      || (d.ForwardComplete? && forall i | 0 <= i < |topo| :: topo[i].retired || SucceededFrom(topo, m, i))
  }

  /** NextUnwind's promise. */
  ghost predicate UnwindDecision(topo: Topology, f: Facts, d: Decision) {
    if TwoUnresolved(f.unwind) then d.Invalid? && LeastPair(f.unwind, d.reason)
    else
      || (d.RunUnwind? && exists i: nat :: FirstUnwind(topo, f, i) && d.step == topo[i].id)
      || (d.UnwindComplete? && forall i | 0 <= i < |topo| && Eligible(topo, f, i) :: ResolvedUpTo(topo, f.unwind, i))
  }

  /** The facts and the topology leave one decision. */
  lemma ForwardDecided(topo: Topology, f: Facts, d: Decision, e: Decision)
    requires ForwardDecision(topo, f, d) && ForwardDecision(topo, f, e)
    ensures d == e
  {
    var m := f.forward;
    if TwoUnresolved(m) || SomeFailed(m) {
      LeastViolationUnique(m, d.reason, e.reason);
    } else if exists id :: Pinned(m, id) {
      var a :| Pinned(m, a) && d == (if InTopology(topo, a) then RunForward(a) else Invalid(PinnedAbsent(a)));
      var b :| Pinned(m, b) && e == (if InTopology(topo, b) then RunForward(b) else Invalid(PinnedAbsent(b)));
      assert a == b;
    } else if d.RunForward? && e.RunForward? {
      var i: nat :| FirstForward(topo, m, i) && d.step == topo[i].id;
      var j: nat :| FirstForward(topo, m, j) && e.step == topo[j].id;
      assert i == j;
    }
  }

  lemma UnwindDecided(topo: Topology, f: Facts, d: Decision, e: Decision)
    requires UnwindDecision(topo, f, d) && UnwindDecision(topo, f, e)
    ensures d == e
  {
    if TwoUnresolved(f.unwind) {
      LeastPairUnique(f.unwind, d.reason, e.reason);
    } else if d.RunUnwind? && e.RunUnwind? {
      var i: nat :| FirstUnwind(topo, f, i) && d.step == topo[i].id;
      var j: nat :| FirstUnwind(topo, f, j) && e.step == topo[j].id;
      if i < j { assert !ResolvedUpTo(topo, f.unwind, j); }
      if j < i { assert !ResolvedUpTo(topo, f.unwind, i); }
    }
  }

  /** Forward reconciliation is refused exactly when two operations are
      unresolved, one failed, or the pinned step left the topology. */
  lemma ForwardInvalidIff(topo: Topology, f: Facts, d: Decision)
    requires ForwardDecision(topo, f, d)
    ensures d.Invalid? <==> TwoUnresolved(f.forward) || SomeFailed(f.forward)
                            || exists id :: Pinned(f.forward, id) && !InTopology(topo, id)
  {
    if !TwoUnresolved(f.forward) && !SomeFailed(f.forward) && exists id :: Pinned(f.forward, id) {
      var a :| Pinned(f.forward, a) && d == (if InTopology(topo, a) then RunForward(a) else Invalid(PinnedAbsent(a)));
      assert forall id :: Pinned(f.forward, id) ==> id == a;
    }
  }

  // ---- The loops

  /** Topology.index. */
  method Index(topo: Topology, id: Id) returns (found: bool)
    ensures found == InTopology(topo, id)
  {
    for i := 0 to |topo|
      invariant forall j | 0 <= j < i :: topo[j].id != id
    {
      if topo[i].id == id {
        return true;
      }
    }
    found := false;
  }

  method NextForward(topo: Topology, f: Facts) returns (d: Decision)
    requires Named(f.forward)
    ensures ForwardDecision(topo, f, d)
  {
    var m := f.forward;
    var unresolved := NoId;
    var todo := m.Keys;
    while todo != {}
      invariant todo <= m.Keys
      invariant forall x | x in m && x !in todo :: m[x] != OpFailed && (m[x] == OpUnresolved <==> x == unresolved)
      invariant unresolved != NoId ==> unresolved in m && unresolved !in todo
      decreases todo
    {
      var id :| id in todo;
      todo := todo - {id};
      match m[id] {
        case OpUnresolved =>
          if unresolved != NoId {
            var r := ForwardViolation(m);
            return Invalid(r);
          }
          unresolved := id;
        case OpFailed =>
          var r := ForwardViolation(m);
          return Invalid(r);
        case _ =>
      }
    }
    assert !TwoUnresolved(m) && !SomeFailed(m);
    if unresolved != NoId {
      assert Pinned(m, unresolved);
      var found := Index(topo, unresolved);
      return if found then RunForward(unresolved) else Invalid(PinnedAbsent(unresolved));
    }
    assert forall id :: !Pinned(m, id);
    d := PastFrontier(topo, m);
  }

  /** The frontier and the first never-started step after it. Facts without a
      violation hold nothing else there. */
  method PastFrontier(topo: Topology, m: States) returns (d: Decision)
    requires forall x | x in m :: m[x] == OpNone || m[x] == OpSucceeded
    ensures || (d.RunForward? && exists i: nat :: FirstForward(topo, m, i) && d.step == topo[i].id)
            || (d.ForwardComplete? && forall i | 0 <= i < |topo| :: topo[i].retired || SucceededFrom(topo, m, i))
  {
    var frontier := -1;
    for i := 0 to |topo|
      invariant -1 <= frontier < i
      invariant frontier >= 0 ==> StateOf(m, topo[frontier].id) == OpSucceeded
      invariant forall j | frontier < j < i :: StateOf(m, topo[j].id) != OpSucceeded
    {
      if StateOf(m, topo[i].id) == OpSucceeded && i > frontier {
        frontier := i;
      }
    }
    assert forall j | 0 <= j <= frontier :: SucceededFrom(topo, m, j);
    var i := frontier + 1;
    while i < |topo|
      invariant frontier < i <= |topo|
      invariant forall j | frontier < j < i :: topo[j].retired
    {
      if !topo[i].retired {
        if StateOf(m, topo[i].id) != OpNone {
          assert false;
        }
        assert FirstForward(topo, m, i);
        return RunForward(topo[i].id);
      }
      i := i + 1;
    }
    d := ForwardComplete;
  }

  method NextUnwind(topo: Topology, f: Facts) returns (d: Decision)
    requires Named(f.unwind)
    ensures UnwindDecision(topo, f, d)
  {
    var m := f.unwind;
    var seen := NoId;
    var todo := m.Keys;
    while todo != {}
      invariant todo <= m.Keys
      invariant forall x | x in m && x !in todo :: m[x] == OpUnresolved <==> x == seen
      invariant seen != NoId ==> seen in m && seen !in todo
      decreases todo
    {
      var id :| id in todo;
      todo := todo - {id};
      if m[id] == OpUnresolved {
        if seen != NoId {
          var r := UnwindViolation(m);
          return Invalid(r);
        }
        seen := id;
      }
    }
    assert !TwoUnresolved(m);
    d := BelowFrontier(topo, f);
  }

  method BelowFrontier(topo: Topology, f: Facts) returns (d: Decision)
    ensures || (d.RunUnwind? && exists i: nat :: FirstUnwind(topo, f, i) && d.step == topo[i].id)
            || (d.UnwindComplete? && forall i | 0 <= i < |topo| && Eligible(topo, f, i) :: ResolvedUpTo(topo, f.unwind, i))
  {
    var frontier := |topo|;
    for i := 0 to |topo|
      invariant 0 <= frontier <= |topo|
      invariant frontier < |topo| ==> Resolved(StateOf(f.unwind, topo[frontier].id))
      invariant forall j | 0 <= j < i && j < frontier :: !Resolved(StateOf(f.unwind, topo[j].id))
    {
      if Resolved(StateOf(f.unwind, topo[i].id)) {
        if i < frontier {
          frontier := i;
        }
      }
    }
    assert forall j | frontier <= j < |topo| :: ResolvedUpTo(topo, f.unwind, j);
    var i := frontier - 1;
    while i >= 0
      invariant -1 <= i < frontier
      invariant forall j | i < j < frontier :: !Eligible(topo, f, j)
    {
      if topo[i].unwind && StateOf(f.forward, topo[i].id) == OpSucceeded {
        var st := StateOf(f.unwind, topo[i].id);
        if st == OpNone || st == OpUnresolved {
          assert FirstUnwind(topo, f, i);
          return RunUnwind(topo[i].id);
        }
      }
      i := i - 1;
    }
    d := UnwindComplete;
  }
}
