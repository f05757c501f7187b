/** engine/engine.go: what each turn of a Run does to the record its worker
    carries, and the transition it commits. */
module Transitions {
  import opened Bytes
  import opened Records
  import opened MemStore
  import opened StageView
  import opened StageRefinement

  /** activeCursor; with no step, idleCursor. */
  function ActiveCursor(r: RunRecord, step: Id, attempts: nat): Cursor {
    Cursor(r.phase, step, attempts, r.awaiting, r.awaited, r.nextAttemptAt, r.lastError, r.lastReason, r.lastErrorAt, Zero, r.startedAt)
  }

  function IdleCursor(r: RunRecord): Cursor {
    ActiveCursor(r, NoId, 0)
  }

  /** The record in memory after a turn, and the transition it hands to
      apply. */
  datatype Write = Write(rec: RunRecord, t: Transition)

  /** Why an attempt failed for good. */
  datatype Why = Why(message: Blob, kind: FailureKind, reason: Blob)

  function PhaseOf(h: Half): Phase {
    if h.Unw? then PhaseUnwind else PhaseForward
  }

  function FailureFor(r: RunRecord, op: OpId, why: Why, now: Time): Failure {
    Failure(op.step, PhaseOf(op.h), r.OpOf(op.step, op.h).attempts, why.message, now, why.kind, why.reason)
  }

  function ClearError(r: RunRecord): RunRecord {
    r.(lastError := [], lastReason := [], lastErrorAt := Zero)
  }

  function MarkStarted(r: RunRecord, now: Time): RunRecord {
    if r.startedAt.Zero? then r.(startedAt := now) else r
  }

  /** settleAwait, when the gate let a parked Run through. */
  function Settled(r: RunRecord, wake: Option<Wake>): RunRecord {
    if wake.Some? then r.(awaited := wake, awaiting := None) else r
  }

  /** The head of runForward and runUnwind: the attempt is reserved. */
  function Reserved(r0: RunRecord, op: OpId, wake: Option<Wake>, now: Time): Write {
    var r := Settled(r0, wake);
    var o := r.OpOf(op.step, op.h);
    var n := o.attempts + 1;
    var a := MarkStarted(r.WithOp(op.step, op.h, o.(status := OpUnresolved, attempts := n)).(nextAttemptAt := Zero), now);
    Write(a, Transition(ActiveCursor(a, op.step, n), [], None, [], None))
  }

  /** A resolved operation takes the next order. */
  ghost function Ordered(r: RunRecord, op: OpId): RunRecord {
    r.WithOp(op.step, op.h, r.OpOf(op.step, op.h).(order := OrderAfter(r.steps)))
  }

  ghost function Succeeded(r: RunRecord, op: OpId, state: Blob): Write {
    var o := r.OpOf(op.step, op.h).(status := OpSucceeded);
    var a := Ordered(r.WithOp(op.step, op.h, if op.h.Fwd? then o.(state := state) else o), op);
    var b := ClearError(a.(awaited := None));
    Write(b, Transition(IdleCursor(b), [OpWrite(op.step, op.h, b.OpOf(op.step, op.h))], None, [], None))
  }

  /** A permanent failure: forward it fails the Run and turns it to unwind. */
  ghost function Failed(r: RunRecord, op: OpId, why: Why, now: Time): Write {
    var f := FailureFor(r, op, why, now);
    var a := Ordered(r.WithOp(op.step, op.h, r.OpOf(op.step, op.h).(status := OpFailed, failure := Some(f))), op);
    var b := ClearError(a.(awaited := None));
    var c := if op.h.Fwd? then b.(failure := Some(f), phase := PhaseUnwind) else b;
    Write(c, Transition(IdleCursor(c), [OpWrite(op.step, op.h, c.OpOf(op.step, op.h))], if op.h.Fwd? then Some(f) else None, [], None))
  }

  /** cancelOperation: the forward operation resolves as canceled, whether
      its attempt was cut, waits to retry, is parked or never started. */
  ghost function Canceled(r: RunRecord, step: Id, message: Blob, reason: Blob, now: Time): Write {
    var op := OpId(step, Fwd);
    var f := FailureFor(r, op, Why(message, KindCanceled, reason), now);
    var a := Ordered(r.WithOp(step, Fwd, r.OpOf(step, Fwd).(status := OpFailed, failure := Some(f))), op);
    var b := ClearError(a.(awaiting := None, awaited := None, nextAttemptAt := Zero, failure := Some(f), phase := PhaseUnwind));
    Write(b, Transition(IdleCursor(b), [OpWrite(step, Fwd, b.OpOf(step, Fwd))], Some(f), [], None))
  }

  /** An ordinary error: the operation waits for its next attempt. */
  function Retried(r: RunRecord, op: OpId, next: Time, error: Blob, reason: Blob, now: Time): Write {
    var a := r.(nextAttemptAt := next, lastError := error, lastReason := reason, lastErrorAt := now);
    Write(a, Transition(ActiveCursor(a, op.step, a.OpOf(op.step, op.h).attempts), [], None, [], None))
  }

  /** parkAwait. */
  function Parked(r: RunRecord, op: OpId, park: Await): Write {
    var a := r.(awaiting := Some(park), awaited := None);
    Write(a, Transition(ActiveCursor(a, op.step, a.OpOf(op.step, op.h).attempts), [], None, [], None))
  }

  /** reduceAndComplete and reduceFailureAndComplete. */
  function Completed(r: RunRecord, outcome: Outcome, output: Blob): Write {
    var a := r.(output := output, outcome := Some(outcome), phase := PhaseDone);
    Write(a, Transition(IdleCursor(a), [], None, output, Some(outcome)))
  }

  // ---- apply

  function Stamp(w: Write, now: Time): Write {
    Write(w.rec.(updatedAt := now), w.t.(cursor := w.t.cursor.(updatedAt := now)))
  }

  /** An unresolved operation covered by neither the cursor nor a write. */
  predicate Displaced(r: RunRecord, t: Transition, step: Id, h: Half) {
    step in r.steps && step != t.cursor.step && r.OpOf(step, h).status == OpUnresolved && LastWrite(t.ops, step, h).None?
  }

  /** u is t with every displaced operation written as well, once. */
  ghost predicate IsFlush(r: RunRecord, t: Transition, u: Transition) {
    && u.(ops := t.ops) == t
    && (OneWriteEach(t.ops) ==> OneWriteEach(u.ops))
    && forall step, h :: LastWrite(u.ops, step, h) == if Displaced(r, t, step, h) then Some(r.OpOf(step, h)) else LastWrite(t.ops, step, h)
  }

  method IsCovered(ops: seq<OpWrite>, step: Id, h: Half) returns (covered: bool)
    ensures covered == LastWrite(ops, step, h).Some?
  {
    covered := false;
    var i := 0;
    while i < |ops|
      invariant i <= |ops|
      invariant covered == LastWrite(ops[..i], step, h).Some?
    {
      assert ops[..i + 1][..i] == ops[..i];
      if ops[i].step == step && ops[i].half == h {
        covered := true;
      }
      i := i + 1;
    }
    assert ops[..i] == ops;
  }

  /** The loop of apply over the record's steps, in any order. */
  method Flush(r: RunRecord, t: Transition) returns (u: Transition)
    ensures IsFlush(r, t, u)
  {
    u := t;
    var todo := r.steps.Keys;
    while todo != {}
      invariant todo <= r.steps.Keys && u.(ops := t.ops) == t && (OneWriteEach(t.ops) ==> OneWriteEach(u.ops))
      invariant forall step, h :: LastWrite(u.ops, step, h) == if step !in todo && Displaced(r, t, step, h) then Some(r.OpOf(step, h)) else LastWrite(t.ops, step, h)
      decreases todo
    {
      var id :| id in todo;
      todo := todo - {id};
      if id != t.cursor.step {
        u := FlushOne(r, t, u, id, Fwd);
        u := FlushOne(r, t, u, id, Unw);
      }
    }
  }

  lemma {:induction false} NotWritten(ops: seq<OpWrite>, step: Id, h: Half)
    requires LastWrite(ops, step, h).None?
    ensures forall i | 0 <= i < |ops| :: ops[i].step != step || ops[i].half != h
  {
    if ops != [] {
      NotWritten(ops[..|ops| - 1], step, h);
    }
  }

  method FlushOne(r: RunRecord, ghost t: Transition, u0: Transition, id: Id, h: Half) returns (u: Transition)
    requires id in r.steps && id != t.cursor.step && LastWrite(u0.ops, id, h) == LastWrite(t.ops, id, h)
    ensures u == u0.(ops := u.ops) && (OneWriteEach(u0.ops) ==> OneWriteEach(u.ops))
    ensures forall step, k :: LastWrite(u.ops, step, k) == if step == id && k == h && Displaced(r, t, id, h) then Some(r.OpOf(id, h)) else LastWrite(u0.ops, step, k)
  {
    u := u0;
    if r.OpOf(id, h).status == OpUnresolved {
      var covered := IsCovered(u.ops, id, h);
      if !covered {
        var ops := u.ops + [OpWrite(id, h, r.OpOf(id, h))];
        assert ops[..|ops| - 1] == u.ops;
        NotWritten(u.ops, id, h);
        u := u.(ops := ops);
      }
    }
  }

  // ---- The carried record is the store's record

  /** What the cursor, the failure and the outcome of a transition make of a
      record, its operations aside. */
  function Frame(r: RunRecord, t: Transition): RunRecord {
    var a := CursorFields(r, t.cursor).(steps := map[], failure := if t.failure.Some? then t.failure else r.failure);
    if t.outcome.Some? then a.(outcome := t.outcome, output := t.output) else a
  }

  /** The transition tells all of the turn: one operation changed, which the
      cursor or a write carries, or none did. */
  ghost predicate Tells(held: RunRecord, w: Write, op: Option<OpId>) {
    && w.rec.(steps := map[]) == Frame(held, w.t)
    && match op
       case None => w.rec.steps == held.steps && w.t.ops == [] && w.t.cursor.step == NoId
       case Some(o) =>
         && w.rec.steps == held.WithOp(o.step, o.h, w.rec.OpOf(o.step, o.h)).steps
         && if w.t.cursor.step == NoId then w.t.ops == [OpWrite(o.step, o.h, w.rec.OpOf(o.step, o.h))]
            else
              && w.t.ops == [] && InFlight(w.t.cursor, o.step, o.h)
              && w.rec.OpOf(o.step, o.h) == Overlaid(held.OpOf(o.step, o.h), w.t.cursor.attempts)
  }

  lemma OpsMirror(s: RunRecord, w: Write, u: Transition, op: Option<OpId>, step: Id, h: Half)
    requires Tells(s, w, op) && IsFlush(w.rec, w.t, u)
    ensures ApplyRecord(s, u).OpOf(step, h) == w.rec.OpOf(step, h)
  {
    ReferenceOp(s, u, step, h);
    assert u.cursor == w.t.cursor;
    OneWrite(w.t.ops, step, h);
    assert op.Some? && (step != op.value.step || h != op.value.h) ==> w.rec.OpOf(step, h) == s.OpOf(step, h);
  }

  lemma OneWrite(ops: seq<OpWrite>, step: Id, h: Half)
    requires |ops| <= 1
    ensures LastWrite(ops, step, h) == if |ops| == 1 && ops[0].step == step && ops[0].half == h then Some(ops[0].op) else None
  {
    if |ops| == 1 {
      assert ops[..0] == [];
    }
  }

  lemma KeysMirror(s: RunRecord, w: Write, u: Transition, op: Option<OpId>, step: Id)
    requires Tells(s, w, op) && IsFlush(w.rec, w.t, u)
    ensures step in ApplyRecord(s, u).steps <==> step in w.rec.steps
  {
    ReferenceOp(s, u, step, Fwd);
    WrittenSome(u.ops, step);
    OneWrite(w.t.ops, step, Fwd);
    OneWrite(w.t.ops, step, Unw);
    assert LastWrite(u.ops, step, Fwd) == if Displaced(w.rec, w.t, step, Fwd) then Some(w.rec.OpOf(step, Fwd)) else LastWrite(w.t.ops, step, Fwd);
    assert LastWrite(u.ops, step, Unw) == if Displaced(w.rec, w.t, step, Unw) then Some(w.rec.OpOf(step, Unw)) else LastWrite(w.t.ops, step, Unw);
    assert u.cursor == w.t.cursor;
    assert op.Some? ==> op.value.h.Fwd? || op.value.h.Unw?;
  }

  lemma FrameMirrors(s: RunRecord, t: Transition)
    ensures ApplyRecord(s, t.(outcome := None)).(steps := map[]) == Frame(s, t.(outcome := None))
    ensures ApplyRecord(s, t) == ApplyRecord(s, t.(outcome := None))
  {
    ApplyOpsKeeps(s, t.ops);
    CursorKeeps(ApplyOps(s, t.ops), t.cursor);
  }

  lemma RecordMirrors(s: RunRecord, w: Write, u: Transition, op: Option<OpId>)
    requires Tells(s, w, op) && IsFlush(w.rec, w.t, u)
    ensures ApplyRecord(s, u).steps == w.rec.steps
  {
    var a := ApplyRecord(s, u).steps;
    forall step ensures step in a <==> step in w.rec.steps {
      KeysMirror(s, w, u, op, step);
    }
    forall step, h | step in a ensures a[step].Get(h) == w.rec.steps[step].Get(h) {
      OpsMirror(s, w, u, op, step, h);
    }
    StepsEqual(a, w.rec.steps);
  }

  /** After a successful apply the record in memory is the store's, compacted
      if the Run ended; a cancel request the worker has not read is the one
      thing it may lack. */
  lemma ApplyMirrors(s: RunRecord, held: RunRecord, w: Write, u: Transition, op: Option<OpId>)
    requires s == held.(cancel := s.cancel) && !s.Terminal()
    requires Tells(held, w, op) && IsFlush(w.rec, w.t, u)
    ensures ApplyOutcome(ApplyRecord(s, u), u) == (if w.t.outcome.Some? then Compact(w.rec.(cancel := s.cancel)) else w.rec.(cancel := s.cancel))
  {
    var v := Write(w.rec.(cancel := s.cancel), w.t);
    assert Tells(s, v, op);
    assert IsFlush(v.rec, v.t, u) by {
      forall step, h ensures Displaced(v.rec, v.t, step, h) == Displaced(w.rec, w.t, step, h) && v.rec.OpOf(step, h) == w.rec.OpOf(step, h) {
      }
    }
    RecordMirrors(s, v, u, op);
    FrameMirrors(s, u);
    var r := ApplyRecord(s, u);
    assert Frame(s, u.(outcome := None)).(steps := v.rec.steps) == r;
    assert u.cursor == w.t.cursor && u.failure == w.t.failure && u.outcome == w.t.outcome && u.output == w.t.output;
    assert v.rec == Frame(s, w.t).(steps := v.rec.steps);
  }

  /** Every unresolved operation of the record is in the transition. */
  lemma FlushCovers(w: Write, u: Transition, held: RunRecord, op: Option<OpId>, step: Id, h: Half)
    requires Tells(held, w, op) && IsFlush(w.rec, w.t, u) && held.OpOf(step, h).status == OpUnresolved && step != NoId
    requires w.t.cursor.step == step ==> HalfOf(w.t.cursor.phase) == h
    ensures Covered(u, step, h)
  {
    OneWrite(w.t.ops, step, h);
    assert u.cursor == w.t.cursor;
    assert step in held.steps;
    assert LastWrite(u.ops, step, h) == if Displaced(w.rec, w.t, step, h) then Some(w.rec.OpOf(step, h)) else LastWrite(w.t.ops, step, h);
    if op.None? || op.value != OpId(step, h) {
      assert op.Some? ==> op.value == OpId(op.value.step, op.value.h);
      assert w.rec.OpOf(step, h) == held.OpOf(step, h) && step in w.rec.steps;
    }
  }

  // ---- Every turn tells all

  lemma ReservedTells(r: RunRecord, op: OpId, wake: Option<Wake>, now: Time)
    requires op.step != NoId && HalfOf(r.phase) == op.h && !r.Terminal()
    ensures Tells(r, Stamp(Reserved(r, op, wake, now), now), Some(op))
  {
  }

  lemma SucceededTells(r: RunRecord, op: OpId, state: Blob, now: Time)
    requires op.step != NoId && !r.Terminal()
    ensures Tells(r, Stamp(Succeeded(r, op, state), now), Some(op))
  {
    hide OrderAfter, FailureFor;
  }

  lemma FailedTells(r: RunRecord, op: OpId, why: Why, now: Time)
    requires op.step != NoId && !r.Terminal()
    ensures Tells(r, Stamp(Failed(r, op, why, now), now), Some(op))
  {
    hide OrderAfter, FailureFor;
  }

  lemma CanceledTells(r: RunRecord, step: Id, message: Blob, reason: Blob, now: Time)
    requires step != NoId && !r.Terminal()
    ensures Tells(r, Stamp(Canceled(r, step, message, reason, now), now), Some(OpId(step, Fwd)))
  {
    hide OrderAfter, FailureFor;
  }

  lemma RetriedTells(r: RunRecord, op: OpId, next: Time, error: Blob, reason: Blob, now: Time)
    requires op.step != NoId && HalfOf(r.phase) == op.h && !r.Terminal() && r.OpOf(op.step, op.h).status == OpUnresolved
    ensures Tells(r, Stamp(Retried(r, op, next, error, reason, now), now), Some(op))
  {
  }

  lemma ParkedTells(r: RunRecord, op: OpId, park: Await, now: Time)
    requires op.step != NoId && HalfOf(r.phase) == op.h && !r.Terminal() && r.OpOf(op.step, op.h).status == OpUnresolved
    ensures Tells(r, Stamp(Parked(r, op, park), now), Some(op))
  {
  }

  lemma CompletedTells(r: RunRecord, outcome: Outcome, output: Blob, now: Time)
    requires !r.Terminal()
    ensures Tells(r, Stamp(Completed(r, outcome, output), now), None)
  {
  }
}
