/** engine/engine.go:1331-1358: the walk of the await graph for a cycle back to
    the walker. The graph may change between any two views of the walk. */
module AwaitCycle {
  import opened Bytes

  const maxVisited: nat := 1024

  /** Whom each nonterminal parked Run awaits; the others have no entry. */
  type Graph = map<Id, seq<Id>>

  function Awaited(g: Graph, u: Id): seq<Id> {
    if u in g then g[u] else []
  }

  // ---- The walk

  /** The rest of the walk: views holds what each read from here on would
      see. */
  function Walk(self: Id, stack: seq<Id>, visited: set<Id>, views: seq<Graph>): bool
    requires |visited| <= maxVisited && |views| + |visited| >= maxVisited
    decreases maxVisited - |visited|, |stack|
  {
    if stack == [] || |visited| >= maxVisited then false
    else
      var cur, rest := stack[|stack| - 1], stack[..|stack| - 1];
      if cur == self then true
      else if cur in visited then Walk(self, rest, visited, views)
      else Walk(self, rest + Awaited(views[0], cur), visited + {cur}, views[1..])
  }

  method AwaitsItself(self: Id, targets: seq<Id>, views: seq<Graph>) returns (cycle: bool)
    requires |views| >= maxVisited
    ensures cycle == Walk(self, targets, {}, views)
  {
    var visited: set<Id> := {};
    var stack := targets;
    assert views[0..] == views;
    while |stack| > 0 && |visited| < maxVisited
      invariant |visited| <= maxVisited
      invariant Walk(self, stack, visited, views[|visited|..]) == Walk(self, targets, {}, views)
      decreases maxVisited - |visited|, |stack|
    {
      var cur := stack[|stack| - 1];
      stack := stack[..|stack| - 1];
      if cur == self {
        return true;
      }
      if cur !in visited {
        var head := Awaited(views[|visited|], cur);
        assert views[|visited|..][1..] == views[|visited| + 1..];
        visited := visited + {cur};
        stack := stack + head;
      }
    }
    cycle := false;
  }

  // ---- Reachability

  /** A path whose every edge some read could see. */
  ghost predicate EverPath(views: seq<Graph>, from: seq<Id>, p: seq<Id>) {
    && p != [] && p[0] in from
    && forall i | 0 <= i < |p| - 1 :: EverEdge(views, p[i], p[i + 1])
  }

  ghost predicate EverEdge(views: seq<Graph>, u: Id, v: Id) {
    exists i :: 0 <= i < |views| && v in Awaited(views[i], u)
  }

  /** A path whose every edge every read sees. */
  ghost predicate AlwaysPath(views: seq<Graph>, from: seq<Id>, p: seq<Id>) {
    && p != [] && p[0] in from
    && forall i | 0 <= i < |p| - 1 :: AlwaysEdge(views, p[i], p[i + 1])
  }

  ghost predicate AlwaysEdge(views: seq<Graph>, u: Id, v: Id) {
    forall i | 0 <= i < |views| :: v in Awaited(views[i], u)
  }

  ghost predicate EverReached(views: seq<Graph>, from: seq<Id>, x: Id) {
    exists p :: EverPath(views, from, p) && p[|p| - 1] == x
  }

  ghost predicate AlwaysReached(views: seq<Graph>, from: seq<Id>, x: Id) {
    exists p :: AlwaysPath(views, from, p) && p[|p| - 1] == x
  }

  lemma EverStart(views: seq<Graph>, from: seq<Id>, x: Id)
    requires x in from
    ensures EverReached(views, from, x)
  {
    assert EverPath(views, from, [x]);
  }

  lemma EverStep(views: seq<Graph>, from: seq<Id>, u: Id, v: Id)
    requires EverReached(views, from, u) && EverEdge(views, u, v)
    ensures EverReached(views, from, v)
  {
    var p :| EverPath(views, from, p) && p[|p| - 1] == u;
    var q := p + [v];
    forall i | 0 <= i < |q| - 1 ensures EverEdge(views, q[i], q[i + 1]) {
      if i < |p| - 1 {
        assert EverEdge(views, p[i], p[i + 1]);
      }
    }
    assert EverPath(views, from, q) && q[|q| - 1] == v;
  }

  /** The walk so far: everything on the stack or visited could be reached. */
  ghost predicate Reaching(all: seq<Graph>, from: seq<Id>, stack: seq<Id>, visited: set<Id>) {
    && (forall x | x in stack :: EverReached(all, from, x))
    && forall x | x in visited :: EverReached(all, from, x)
  }

  /** True only if the walker could be reached. */
  lemma {:induction false} TrueIsReached(all: seq<Graph>, from: seq<Id>, self: Id, stack: seq<Id>, visited: set<Id>)
    requires |visited| <= maxVisited <= |all| && Reaching(all, from, stack, visited)
    requires Walk(self, stack, visited, all[|visited|..])
    ensures EverReached(all, from, self)
    decreases maxVisited - |visited|, |stack|
  {
    hide Reaching, EverReached, EverEdge;
    var cur, rest := stack[|stack| - 1], stack[..|stack| - 1];
    assert stack == rest + [cur];
    if cur == self {
      TopReached(all, from, stack, visited);
    } else if cur in visited {
      PopReaching(all, from, rest, cur, visited);
      TrueIsReached(all, from, self, rest, visited);
    } else {
      assert all[|visited|..][0] == all[|visited|] && all[|visited|..][1..] == all[|visited| + 1..];
      StepReaching(all, from, rest, cur, visited);
      TrueIsReached(all, from, self, rest + Awaited(all[|visited|], cur), visited + {cur});
    }
  }

  lemma TopReached(all: seq<Graph>, from: seq<Id>, stack: seq<Id>, visited: set<Id>)
    requires stack != [] && Reaching(all, from, stack, visited)
    ensures EverReached(all, from, stack[|stack| - 1])
  {
    assert stack[|stack| - 1] in stack;
  }

  lemma PopReaching(all: seq<Graph>, from: seq<Id>, rest: seq<Id>, cur: Id, visited: set<Id>)
    requires Reaching(all, from, rest + [cur], visited)
    ensures Reaching(all, from, rest, visited)
  {
    assert forall x | x in rest :: x in rest + [cur];
  }

  /** What the walk owes: every target and every lasting edge out of a visited
      node leads to a visited node or one on the stack. */
  ghost predicate Closed(all: seq<Graph>, from: seq<Id>, stack: seq<Id>, visited: set<Id>) {
    && (forall x | x in from :: x in visited || x in stack)
    && forall u, v | u in visited && AlwaysEdge(all, u, v) :: v in visited || v in stack
  }

  /** How many nodes besides the walker could be reached is under the bound. */
  ghost predicate Few(all: seq<Graph>, from: seq<Id>, self: Id) {
    forall s: set<Id> :: (forall x | x in s :: x != self && EverReached(all, from, x)) ==> |s| < maxVisited
  }

  /** False only if the walker is not reached by edges that last, when fewer
      than 1024 others can be reached. */
  lemma {:induction false} FalseIsUnreached(all: seq<Graph>, from: seq<Id>, self: Id, stack: seq<Id>, visited: set<Id>)
    requires |visited| <= maxVisited <= |all| && Few(all, from, self)
    requires Reaching(all, from, stack, visited) && Closed(all, from, stack, visited) && self !in visited
    requires !Walk(self, stack, visited, all[|visited|..])
    ensures !AlwaysReached(all, from, self)
    decreases maxVisited - |visited|, |stack|
  {
    hide Few, Closed, Reaching, AlwaysEdge, EverEdge, EverReached;
    if stack == [] {
      if AlwaysReached(all, from, self) {
        var p :| AlwaysPath(all, from, p) && p[|p| - 1] == self;
        StaysVisited(all, from, visited, p, |p| - 1);
      }
    } else {
      FewVisited(all, from, self, stack, visited);
      var cur, rest := stack[|stack| - 1], stack[..|stack| - 1];
      assert stack == rest + [cur];
      if cur in visited {
        PopReaching(all, from, rest, cur, visited);
        PopSeen(all, from, rest, cur, visited);
        FalseIsUnreached(all, from, self, rest, visited);
      } else {
        assert all[|visited|..][0] == all[|visited|] && all[|visited|..][1..] == all[|visited| + 1..];
        StepReaching(all, from, rest, cur, visited);
        StepClosed(all, from, rest, cur, visited);
        FalseIsUnreached(all, from, self, rest + Awaited(all[|visited|], cur), visited + {cur});
      }
    }
  }

  lemma FewVisited(all: seq<Graph>, from: seq<Id>, self: Id, stack: seq<Id>, visited: set<Id>)
    requires Few(all, from, self) && Reaching(all, from, stack, visited) && self !in visited
    ensures |visited| < maxVisited
  {
  }

  lemma PopSeen(all: seq<Graph>, from: seq<Id>, rest: seq<Id>, cur: Id, visited: set<Id>)
    requires Closed(all, from, rest + [cur], visited) && cur in visited
    ensures Closed(all, from, rest, visited)
  {
    assert forall x | x in rest + [cur] :: x in rest || x == cur;
  }

  lemma StepReaching(all: seq<Graph>, from: seq<Id>, rest: seq<Id>, cur: Id, visited: set<Id>)
    requires Reaching(all, from, rest + [cur], visited) && |visited| < |all|
    ensures Reaching(all, from, rest + Awaited(all[|visited|], cur), visited + {cur})
  {
    var stack := rest + [cur];
    assert cur in stack && forall x | x in rest :: x in stack;
    forall x | x in Awaited(all[|visited|], cur) ensures EverReached(all, from, x) {
      assert EverEdge(all, cur, x);
      EverStep(all, from, cur, x);
    }
  }

  lemma StepClosed(all: seq<Graph>, from: seq<Id>, rest: seq<Id>, cur: Id, visited: set<Id>)
    requires Closed(all, from, rest + [cur], visited) && |visited| < |all|
    ensures Closed(all, from, rest + Awaited(all[|visited|], cur), visited + {cur})
  {
    var stack := rest + Awaited(all[|visited|], cur);
    forall u, v | u in visited + {cur} && AlwaysEdge(all, u, v) ensures v in visited + {cur} || v in stack {
      if u == cur {
        assert v in Awaited(all[|visited|], cur);
      } else {
        assert v in visited || v in rest + [cur];
      }
    }
  }

  lemma {:induction false} StaysVisited(all: seq<Graph>, from: seq<Id>, visited: set<Id>, p: seq<Id>, i: nat)
    requires Closed(all, from, [], visited) && AlwaysPath(all, from, p) && i < |p|
    ensures p[i] in visited
  {
    if i > 0 {
      StaysVisited(all, from, visited, p, i - 1);
      assert AlwaysEdge(all, p[i - 1], p[i - 1 + 1]);
    }
  }

  /** The walk, both ways. */
  lemma WalkSound(views: seq<Graph>, from: seq<Id>, self: Id)
    requires |views| >= maxVisited
    ensures Walk(self, from, {}, views) ==> EverReached(views, from, self)
    ensures Few(views, from, self) && AlwaysReached(views, from, self) ==> Walk(self, from, {}, views)
  {
    forall x | x in from ensures EverReached(views, from, x) {
      EverStart(views, from, x);
    }
    assert views[0..] == views;
    if Walk(self, from, {}, views) {
      TrueIsReached(views, from, self, from, {});
    } else if Few(views, from, self) {
      FalseIsUnreached(views, from, self, from, {});
    }
  }

  /** When the graph stands still the walk is exact, under the bound. */
  lemma StillWalkExact(g: Graph, views: seq<Graph>, from: seq<Id>, self: Id)
    requires |views| >= maxVisited && (forall i | 0 <= i < |views| :: views[i] == g) && Few(views, from, self)
    ensures Walk(self, from, {}, views) <==> AlwaysReached(views, from, self)
  {
    WalkSound(views, from, self);
    if EverReached(views, from, self) {
      var p :| EverPath(views, from, p) && p[|p| - 1] == self;
      forall i | 0 <= i < |p| - 1 ensures AlwaysEdge(views, p[i], p[i + 1]) {
        assert EverEdge(views, p[i], p[i + 1]);
      }
      assert AlwaysPath(views, from, p);
    }
  }

  // ---- Concurrent parkers

  /** An index past the end starts over. */
  function Around(i: nat, n: nat): nat
    requires i < 2 * n
    ensures Around(i, n) < n
  {
    if i < n then i else i - n
  }

  /** A cycle of parks, each lasting from the moment it is written: c[i]
      writes at[i], and awaits c[i + 1] from then on. */
  ghost predicate LastingCycle(timeline: seq<Graph>, c: seq<Id>, at: seq<nat>) {
    && |c| > 0 && |at| == |c|
    && forall i, now | 0 <= i < |c| && at[i] <= now < |timeline| :: c[Around(i + 1, |c|)] in Awaited(timeline[now], c[i])
  }

  /** The views of a walk, at these moments. */
  ghost predicate ReadsAt(timeline: seq<Graph>, views: seq<Graph>, times: seq<nat>) {
    && |times| == |views|
    && forall i | 0 <= i < |views| :: times[i] < |timeline| && views[i] == timeline[times[i]]
  }

  /** Since a parker walks after its own write, whoever wrote last of a cycle
      that lasts finds it, however the walks and writes interleave. */
  lemma LastWriterDetects(timeline: seq<Graph>, c: seq<Id>, at: seq<nat>, j: nat, targets: seq<Id>, views: seq<Graph>, times: seq<nat>)
    requires LastingCycle(timeline, c, at) && j < |c| && at[j] < |timeline|
    requires forall i | 0 <= i < |c| :: at[i] <= at[j]
    requires targets == Awaited(timeline[at[j]], c[j])
    requires ReadsAt(timeline, views, times) && |views| >= maxVisited
    requires forall i | 0 <= i < |times| :: at[j] <= times[i]
    requires Few(views, targets, c[j])
    ensures Walk(c[j], targets, {}, views)
  {
    hide Few, Walk, AlwaysEdge, ReadsAt;
    var p, n := Rotated(c, j), |c|;
    forall i | 0 <= i < n - 1 ensures AlwaysEdge(views, p[i], p[i + 1]) {
      RotatedNext(c, j, i);
      EdgeLasts(timeline, c, at, j, views, times, Around(j + 1 + i, n));
    }
    assert p[0] == c[Around(j + 1 + 0, n)];
    assert c[Around(j + 1, n)] in Awaited(timeline[at[j]], c[j]);
    assert Around(j + 1 + (n - 1), n) == j;
    assert AlwaysPath(views, targets, p) && p[|p| - 1] == c[j];
    WalkSound(views, targets, c[j]);
  }

  /** The cycle from the one after c[j] round to c[j]. */
  function Rotated(c: seq<Id>, j: nat): seq<Id>
    requires j < |c|
  {
    seq(|c|, i requires 0 <= i < |c| => c[Around(j + 1 + i, |c|)])
  }

  lemma RotatedNext(c: seq<Id>, j: nat, i: nat)
    requires j < |c| && i < |c| - 1
    ensures Rotated(c, j)[i] == c[Around(j + 1 + i, |c|)]
    ensures Rotated(c, j)[i + 1] == c[Around(Around(j + 1 + i, |c|) + 1, |c|)]
  {
    assert Around(Around(j + 1 + i, |c|) + 1, |c|) == Around(j + 1 + (i + 1), |c|);
  }

  lemma EdgeLasts(timeline: seq<Graph>, c: seq<Id>, at: seq<nat>, j: nat, views: seq<Graph>, times: seq<nat>, k: nat)
    requires LastingCycle(timeline, c, at) && j < |c| && k < |c| && at[k] <= at[j]
    requires ReadsAt(timeline, views, times) && forall i | 0 <= i < |times| :: at[j] <= times[i]
    ensures AlwaysEdge(views, c[k], c[Around(k + 1, |c|)])
  {
    forall r | 0 <= r < |views| ensures c[Around(k + 1, |c|)] in Awaited(views[r], c[k]) {
      assert at[k] <= times[r] < |timeline|;
    }
  }

  // ---- The bound

  function Node(i: nat): Id {
    Id([i + 1])
  }

  /** The walker awaits node 0, each node the next, and the last the walker. */
  ghost function Ring(n: nat, self: Id): Graph {
    map i | i in Nodes(n) :: [if i == Node(n - 1) then self else Id([i.name[0] + 1])]
  }

  ghost function Nodes(n: nat): set<Id> {
    set i | 0 <= i < n :: Node(i)
  }

  lemma {:induction false} NodesSize(n: nat)
    ensures |Nodes(n)| == n
    ensures forall i: nat :: Node(i) in Nodes(n) <==> i < n
  {
    if n > 0 {
      NodesSize(n - 1);
      assert Nodes(n) == Nodes(n - 1) + {Node(n - 1)};
    }
  }

  lemma {:induction false} RingWalk(n: nat, self: Id, k: nat, views: seq<Graph>)
    requires k < n && k <= maxVisited && |views| + k >= maxVisited && self !in Nodes(n)
    requires forall i | 0 <= i < |views| :: views[i] == Ring(n, self)
    ensures |Nodes(k)| == k
    ensures Walk(self, [Node(k)], Nodes(k), views) == (n < maxVisited)
    decreases n - k
  {
    hide Nodes, Ring;
    NodesSize(k);
    NodesSize(n);
    RingAt(n, self, k);
    if k < maxVisited {
      var g, visited := Ring(n, self), Nodes(k) + {Node(k)};
      NodesSize(k + 1);
      NodesNext(k);
      assert [Node(k)][..0] + Awaited(views[0], Node(k)) == Awaited(g, Node(k));
      if k + 1 < n {
        RingWalk(n, self, k + 1, views[1..]);
      } else {
        assert Awaited(g, Node(k)) == [self];
      }
    }
  }

  lemma NodesNext(k: nat)
    ensures Nodes(k) + {Node(k)} == Nodes(k + 1)
  {
  }

  lemma RingAt(n: nat, self: Id, k: nat)
    requires k < n && self !in Nodes(n)
    ensures Node(k) != self && Awaited(Ring(n, self), Node(k)) == [if k == n - 1 then self else Node(k + 1)]
  {
    NodesSize(n);
    assert Node(k) == Node(n - 1) <==> k == n - 1;
  }

  /** A ring through the walker and n others is detected exactly when n is
      under 1024: past the bound a real deadlock is missed. */
  lemma RingDetectedIff(n: nat, self: Id, views: seq<Graph>)
    requires n > 0 && |views| >= maxVisited && self !in Nodes(n) && forall i | 0 <= i < |views| :: views[i] == Ring(n, self)
    ensures AlwaysReached(views, [Node(0)], self)
    ensures Walk(self, [Node(0)], {}, views) <==> n < 1024
  {
    RingWalk(n, self, 0, views);
    assert Nodes(0) == {};
    RingReached(n, self, views);
  }

  lemma RingReached(n: nat, self: Id, views: seq<Graph>)
    requires n > 0 && self !in Nodes(n) && forall i | 0 <= i < |views| :: views[i] == Ring(n, self)
    ensures AlwaysReached(views, [Node(0)], self)
  {
    hide Nodes, Ring;
    var p := seq(n + 1, i requires 0 <= i <= n => if i == n then self else Node(i));
    forall i | 0 <= i < n ensures AlwaysEdge(views, p[i], p[i + 1]) {
      RingAt(n, self, i);
    }
    assert AlwaysPath(views, [Node(0)], p) && p[|p| - 1] == self;
  }
}
