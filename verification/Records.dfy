/** The durable records of a Run and the rules both stores share over them
    (kernel/kernel.go, store/driver/driver.go). A record is a value here: the
    store contract only ever hands out copies. An absent byte string and an
    empty one are the same value. */
module Records {
  import opened Bytes

  datatype Option<+T> = None | Some(value: T)

  /** Bytes and text the stores keep and never look inside. */
  type Blob = string

  type Int64 = x: int | -0x8000_0000_0000_0000 <= x < 0x8000_0000_0000_0000

  type Uint32 = x: int | 0 <= x < 0x1_0000_0000

  /** A time.Time: the zero time, or nanoseconds since the Unix epoch. */
  datatype Time = Zero | At(nanos: Int64) {
    /** t.Before(u); the zero time is year 1, before anything At can hold. */
    predicate Before(u: Time) {
      u.At? && (this.Zero? || nanos < u.nanos)
    }
  }

  datatype Phase = PhaseForward | PhaseUnwind | PhaseDone

  /** Which of a step's two operations. */
  datatype Half = Fwd | Unw

  /** One operation of a Run. */
  datatype OpId = OpId(step: Id, h: Half)

  /** RunRecord.Op: a phase addresses the unwind half or else the forward one. */
  function HalfOf(p: Phase): Half {
    if p.PhaseUnwind? then Unw else Fwd
  }

  datatype FailureKind = KindSystem | KindUser | KindCanceled

  datatype Failure = Failure(step: Id, phase: Phase, attempt: nat, message: Blob, at: Time,
                             kind: FailureKind, reason: Blob)

  datatype OpStatus = OpNone | OpUnresolved | OpSucceeded | OpFailed

  datatype Operation = Operation(status: OpStatus, attempts: nat, state: Blob,
                                 failure: Option<Failure>, order: Uint32)

  const NoOp := Operation(OpNone, 0, [], None, 0)

  datatype StepRecord = StepRecord(forward: Operation, unwind: Operation) {
    function Get(h: Half): Operation {
      if h.Unw? then unwind else forward
    }

    function With(h: Half, op: Operation): StepRecord {
      if h.Unw? then this.(unwind := op) else this.(forward := op)
    }
  }

  const NoStep := StepRecord(NoOp, NoOp)

  datatype AwaitMode = AwaitAll | AwaitAny

  datatype Await = Await(mode: AwaitMode, targets: seq<Id>, deadline: Time, cancelCascade: bool)

  datatype Wake = Wake(targets: seq<Id>, done: seq<Id>, expired: bool)

  datatype CancelRequest = CancelRequest(cause: Blob, at: Time)

  datatype Outcome = OutcomeSuccess | OutcomeFailure

  /** driver.Cursor; an empty step means no operation is in flight. */
  datatype Cursor = Cursor(phase: Phase, step: Id, attempts: nat, awaiting: Option<Await>,
                           awaited: Option<Wake>, nextAttemptAt: Time, lastError: Blob,
                           lastReason: Blob, lastErrorAt: Time, updatedAt: Time, startedAt: Time)

  datatype OpWrite = OpWrite(step: Id, half: Half, op: Operation)

  datatype Transition = Transition(cursor: Cursor, ops: seq<OpWrite>, failure: Option<Failure>,
                                   output: Blob, outcome: Option<Outcome>)

  datatype RunRecord = RunRecord(
    runId: Id, pipeline: Id, resource: Id, annotations: map<Blob, Blob>, input: Blob,
    phase: Phase, steps: map<Id, StepRecord>, failure: Option<Failure>, output: Blob,
    outcome: Option<Outcome>, nextAttemptAt: Time, awaiting: Option<Await>, awaited: Option<Wake>,
    lastError: Blob, lastReason: Blob, lastErrorAt: Time, cancel: Option<CancelRequest>,
    createdAt: Time, updatedAt: Time, startedAt: Time)
  {
    predicate Terminal() {
      outcome.Some?
    }

    /** The step's record, zero when the Run has none. */
    function StepOf(id: Id): StepRecord {
      if id in steps then steps[id] else NoStep
    }

    function OpOf(id: Id, h: Half): Operation {
      StepOf(id).Get(h)
    }

    /** Assigning through rec.Step(id).Op(phase), which creates the entry. */
    function WithOp(id: Id, h: Half, op: Operation): RunRecord {
      this.(steps := steps[id := StepOf(id).With(h, op)])
    }
  }

  /** Two records agree when they agree on every entry and every operation. */
  lemma StepsEqual(a: map<Id, StepRecord>, b: map<Id, StepRecord>)
    requires a.Keys == b.Keys
    requires forall id: Id | id in a :: a[id].Get(Fwd) == b[id].Get(Fwd) && a[id].Get(Unw) == b[id].Get(Unw)
    ensures a == b
  {
  }

  // ---- Terminal-stage retention

  predicate FailedUnwind(sr: StepRecord) {
    sr.unwind.status == OpFailed
  }

  /** What CompactTerminal keeps of the steps: the failed unwinds, each with
      its forward half zeroed. */
  function KeptSteps(steps: map<Id, StepRecord>): map<Id, StepRecord> {
    map id | id in steps && FailedUnwind(steps[id]) :: NoStep.(unwind := steps[id].unwind)
  }

  function Compact(r: RunRecord): RunRecord {
    r.(input := [], nextAttemptAt := Zero, lastErrorAt := Zero, lastError := [], lastReason := [],
       awaiting := None, awaited := None, steps := KeptSteps(r.steps))
  }

  /** RunRecord.CompactTerminal: the loop over the steps, in any order. */
  method CompactTerminal(r: RunRecord) returns (c: RunRecord)
    ensures c == Compact(r)
  {
    var kept: map<Id, StepRecord> := map[];
    var todo := r.steps.Keys;
    while todo != {}
      invariant todo <= r.steps.Keys
      invariant kept == map id | id in r.steps && id !in todo && FailedUnwind(r.steps[id]) :: NoStep.(unwind := r.steps[id].unwind)
      decreases |todo|
    {
      var id :| id in todo;
      todo := todo - {id};
      if r.steps[id].unwind.status == OpFailed {
        kept := kept[id := NoStep.(unwind := r.steps[id].unwind)];
      }
    }
    c := r.(input := [], nextAttemptAt := Zero, lastErrorAt := Zero, lastError := [], lastReason := [],
            awaiting := None, awaited := None, steps := kept);
  }

  // ---- Resolution orders

  /** No recorded order exceeds max, and max is recorded unless zero. */
  ghost predicate IsMaxOrder(steps: map<Id, StepRecord>, max: Uint32) {
    && (forall id, h | id in steps :: steps[id].Get(h).order <= max)
    && (max == 0 || exists id, h | id in steps :: steps[id].Get(h).order == max)
  }

  ghost function MaxOrder(steps: map<Id, StepRecord>): (max: Uint32)
    ensures IsMaxOrder(steps, max)
    decreases |steps|
  {
    if steps == map[] then 0 else
      var id :| id in steps;
      var rest := MaxOrder(steps - {id});
      var f, u := steps[id].forward.order, steps[id].unwind.order;
      var max: Uint32 := if f > rest then (if u > f then u else f) else (if u > rest then u else rest);
      assert IsMaxOrder(steps, max) by {
        forall x, h | x in steps ensures steps[x].Get(h).order <= max {
          assert x != id ==> x in steps - {id} && (steps - {id})[x] == steps[x];
        }
        if max == f || max == u {
          assert steps[id].Get(Fwd).order == f && steps[id].Get(Unw).order == u;
        } else if max != 0 {
          var x, h :| x in steps - {id} && (steps - {id})[x].Get(h).order == max;
          assert steps[x].Get(h).order == max;
        }
      }
      max
  }

  lemma MaxOrderUnique(steps: map<Id, StepRecord>, a: Uint32, b: Uint32)
    requires IsMaxOrder(steps, a) && IsMaxOrder(steps, b)
    ensures a == b
  {
  }

  /** One past the highest order; the counter is a uint32 and wraps. */
  ghost function OrderAfter(steps: map<Id, StepRecord>): Uint32 {
    (MaxOrder(steps) + 1) % 0x1_0000_0000
  }

  /** RunRecord.NextOrder: the loop over the steps, in any order. */
  method NextOrder(r: RunRecord) returns (next: Uint32)
    ensures next == OrderAfter(r.steps)
  {
    var m: Uint32 := 0;
    var todo := r.steps.Keys;
    while todo != {}
      invariant todo <= r.steps.Keys
      invariant forall id, h | id in r.steps && id !in todo :: r.steps[id].Get(h).order <= m
      invariant m == 0 || exists id, h | id in r.steps :: r.steps[id].Get(h).order == m
      decreases |todo|
    {
      var id :| id in todo;
      todo := todo - {id};
      var f, u := r.steps[id].forward.order, r.steps[id].unwind.order;
      assert f == r.steps[id].Get(Fwd).order && u == r.steps[id].Get(Unw).order;
      if f > m { m := f; }
      if u > m { m := u; }
    }
    MaxOrderUnique(r.steps, m, MaxOrder(r.steps));
    next := (m + 1) % 0x1_0000_0000;
  }

  /** A next order exceeds every recorded one exactly until the counter is
      exhausted; past its last value it wraps to zero. */
  lemma NextOrderFresh(steps: map<Id, StepRecord>)
    ensures (forall id, h | id in steps :: steps[id].Get(h).order < OrderAfter(steps))
            <==> MaxOrder(steps) < 0xFFFF_FFFF
  {
    var max := MaxOrder(steps);
    if max == 0xFFFF_FFFF {
      var id, h :| id in steps && steps[id].Get(h).order == max;
      assert !(steps[id].Get(h).order < OrderAfter(steps));
    }
  }

  // ---- Unwind failures in resolution order

  datatype Ranked = Ranked(order: Uint32, failure: Failure)

  /** The permanent unwind failures of a Run, by step. */
  function FailedUnwinds(steps: map<Id, StepRecord>): map<Id, Ranked> {
    map id | id in steps && FailedUnwind(steps[id]) && steps[id].unwind.failure.Some?
      :: Ranked(steps[id].unwind.order, steps[id].unwind.failure.value)
  }

  /** ids lists every step of found once, by ascending order. */
  ghost predicate ListsInOrder(found: map<Id, Ranked>, ids: seq<Id>) {
    && (forall id :: id in ids <==> id in found)
    && (forall i, j | 0 <= i < j < |ids| :: ids[i] != ids[j])
    && (forall i, j | 0 <= i < j < |ids| :: found[ids[i]].order <= found[ids[j]].order)
  }

  ghost predicate DistinctOrders(found: map<Id, Ranked>) {
    forall i, j | i in found && j in found && i != j :: found[i].order != found[j].order
  }

  function FailuresOf(found: map<Id, Ranked>, ids: seq<Id>): seq<Failure>
    requires forall id | id in ids :: id in found
  {
    seq(|ids|, i requires 0 <= i < |ids| => found[ids[i]].failure)
  }

  /** RunRecord.UnwindFailures: collect, then sort by order. */
  method UnwindFailures(r: RunRecord) returns (out: seq<Failure>, ids: seq<Id>)
    ensures ListsInOrder(FailedUnwinds(r.steps), ids)
    ensures out == FailuresOf(FailedUnwinds(r.steps), ids)
  {
    ids := [];
    var found: map<Id, Ranked> := map[];
    var todo := r.steps.Keys;
    while todo != {}
      invariant todo <= r.steps.Keys
      invariant found == FailedUnwinds(r.steps - todo)
      invariant ListsInOrder(found, ids)
      decreases |todo|
    {
      var id :| id in todo;
      assert todo == todo - {id} + {id};
      todo := todo - {id};
      if r.steps[id].unwind.status == OpFailed && r.steps[id].unwind.failure.Some? {
        var x := Ranked(r.steps[id].unwind.order, r.steps[id].unwind.failure.value);
        FailedUnwindsAdd(r.steps, todo, id);
        ids := InsertRanked(found, ids, id, x);
        found := found[id := x];
      } else {
        FailedUnwindsAdd(r.steps, todo, id);
      }
    }
    assert r.steps - {} == r.steps;
    out := FailuresOf(found, ids);
  }

  lemma FailedUnwindsAdd(steps: map<Id, StepRecord>, todo: set<Id>, id: Id)
    requires id in steps && id !in todo
    ensures FailedUnwinds(steps - todo) ==
      if id in FailedUnwinds(steps) then FailedUnwinds(steps - todo - {id})[id := FailedUnwinds(steps)[id]]
      else FailedUnwinds(steps - todo - {id})
    ensures steps - (todo + {id}) == steps - todo - {id}
  {
  }

  method InsertRanked(found: map<Id, Ranked>, ids: seq<Id>, id: Id, x: Ranked) returns (r: seq<Id>)
    requires ListsInOrder(found, ids) && id !in found
    ensures ListsInOrder(found[id := x], r)
  {
    var i := 0;
    while i < |ids| && found[ids[i]].order <= x.order
      invariant i <= |ids|
      invariant forall j | 0 <= j < i :: found[ids[j]].order <= x.order
    {
      i := i + 1;
    }
    InsertKeepsListing(found, ids, id, x, i);
    r := ids[..i] + [id] + ids[i..];
  }

  lemma InsertKeepsListing(found: map<Id, Ranked>, ids: seq<Id>, id: Id, x: Ranked, i: nat)
    requires ListsInOrder(found, ids) && id !in found && i <= |ids|
    requires forall j | 0 <= j < i :: found[ids[j]].order <= x.order
    requires i < |ids| ==> x.order < found[ids[i]].order
    ensures ListsInOrder(found[id := x], ids[..i] + [id] + ids[i..])
  {
    var l := ids[..i] + [id] + ids[i..];
    assert forall y :: y in ids <==> y in ids[..i] || y in ids[i..] by {
      assert ids == ids[..i] + ids[i..];
    }
    assert id !in ids;
    forall j | i <= j < |ids| ensures x.order <= found[ids[j]].order {
      assert found[ids[i]].order <= found[ids[j]].order;
    }
  }

  /** With distinct orders there is one such list, so the answer does not
      depend on how the steps were visited. */
  lemma {:induction false} UnwindFailuresUnique(found: map<Id, Ranked>, a: seq<Id>, b: seq<Id>)
    requires ListsInOrder(found, a) && ListsInOrder(found, b)
    requires DistinctOrders(found)
    ensures a == b
    decreases |a|
  {
    if a == [] {
      HeadListed(found, b);
    } else {
      HeadsAgree(found, a, b);
      TailLists(found, a);
      TailLists(found, b);
      UnwindFailuresUnique(found - {a[0]}, a[1..], b[1..]);
      assert a == [a[0]] + a[1..] && b == [b[0]] + b[1..];
    }
  }

  lemma HeadListed(found: map<Id, Ranked>, ids: seq<Id>)
    requires ListsInOrder(found, ids)
    ensures ids != [] ==> ids[0] in found
  {
    assert ids != [] ==> ids[0] in ids;
  }

  lemma HeadsAgree(found: map<Id, Ranked>, a: seq<Id>, b: seq<Id>)
    requires ListsInOrder(found, a) && ListsInOrder(found, b) && a != []
    requires DistinctOrders(found)
    ensures b != [] && a[0] == b[0]
  {
    assert a[0] in a;
    assert a[0] in b;
    assert b[0] in b;
    assert b[0] in a;
    HeadIsLeast(found, a, b[0]);
    HeadIsLeast(found, b, a[0]);
  }

  lemma HeadIsLeast(found: map<Id, Ranked>, ids: seq<Id>, id: Id)
    requires ListsInOrder(found, ids) && id in ids
    ensures ids[0] in found && id in found && found[ids[0]].order <= found[id].order
  {
    assert ids[0] in ids;
  }

  lemma TailLists(found: map<Id, Ranked>, ids: seq<Id>)
    requires ListsInOrder(found, ids) && ids != []
    ensures ListsInOrder(found - {ids[0]}, ids[1..])
    ensures DistinctOrders(found) ==> DistinctOrders(found - {ids[0]})
  {
    assert ids == [ids[0]] + ids[1..];
  }

  /** Compaction keeps exactly the unwind failures. */
  lemma CompactKeepsUnwindFailures(r: RunRecord)
    ensures FailedUnwinds(Compact(r).steps) == FailedUnwinds(r.steps)
    ensures Compact(r).steps.Keys == set id | id in r.steps && r.steps[id].unwind.status == OpFailed
    ensures Compact(Compact(r)) == Compact(r)
  {
    assert KeptSteps(KeptSteps(r.steps)) == KeptSteps(r.steps);
  }
}
