/** Cancelling a Run while its worker runs: the request writes the store, marks
    the Run dirty, preempts and dispatches; the worker takes the mark, reads,
    reserves, registers its attempt, runs it and unregisters. Every step may
    interleave with every other, and the engine may stop. */
module Cancellation {
  import opened Bytes
  import opened Records

  /** How far the accepted request has come. Past its lock it may hold a
      forward attempt to cut. */
  datatype Request = NotAsked | Written | Marked | Locked(victim: Option<nat>) | Preempted | Dispatched

  /** Where the worker is. seen says whether the record it carries has the
      cancel; n names the attempt's context. */
  datatype Worker =
    | Idle
    | Top(rec: Option<bool>)
    | Reading
    | Deciding(seen: bool)
    | Reserved(h: Half, seen: bool)
    | Registering(h: Half, seen: bool, n: nat, toCut: bool)
    | Running(h: Half, seen: bool, n: nat)
    | Returned(h: Half, seen: bool, n: nat, preempted: bool)
    | Resolving(h: Half, seen: bool, preempted: bool)

  datatype Handle = Handle(n: nat, h: Half)

  /** cancel, phase: the store's. dirty, pending, handle: the engine's maps at
      this Run. late: whether this pass took the mark after it was set.
      stuck: some pass found the Run invalid, or the engine draining. */
  datatype World = World(
    cancel: bool, phase: Phase, dirty: bool, pending: bool, handle: Option<Handle>, cut: set<nat>, next: nat,
    owed: bool, stuck: bool, late: bool, req: Request, worker: Worker)

  datatype Event =
    // requestCancel and preemptAttempt
    | AskStore
    | AskMark
    | AskLock
    | AskCut
    | AskDispatch
    // processRun
    | Poke
    | Begin
    | Take
    | ReadStore
    | CancelDormant
    | Gate(again: bool)          // parked, throttled, or waiting to retry
    | Refuse                     // invalid, or draining
    | Complete
    | Reserve
    // attemptContext and the attempt
    | Register
    | CutSelf
    | Return
    | Unregister
    | Misuse                     // the attempt misused its invocation: the Run is invalid
    | Succeed
    | Fail
    | CancelCut
    | Retry
    | ParkAgain
    | Interrupted
    // anywhere
    | ApplyFailed
    | Stop

  predicate Can(x: World, e: Event) {
    match e
    case AskStore => x.req.NotAsked? && !x.phase.PhaseDone?
    case AskMark => x.req.Written?
    case AskLock => x.req.Marked?
    case AskCut => x.req.Locked?
    case AskDispatch => x.req.Preempted?
    case Poke => true
    case Begin => x.worker.Idle? && x.owed
    case Take => x.worker.Top?
    case ReadStore => x.worker.Reading?
    case CancelDormant => x.worker.Deciding? && x.worker.seen && x.phase.PhaseForward?
    case Gate(_) => x.worker.Deciding? && (x.phase.PhaseForward? ==> !x.worker.seen)
    case Refuse => x.worker.Deciding?
    case Complete => x.worker.Deciding?
    case Reserve => x.worker.Deciding? && !x.phase.PhaseDone? && (x.phase.PhaseForward? ==> !x.worker.seen)
    case Register => x.worker.Reserved?
    case CutSelf => x.worker.Registering?
    case Return => x.worker.Running?
    case Unregister => x.worker.Returned?
    case Misuse => x.worker.Resolving?
    case CancelCut => x.worker.Resolving? && x.worker.h.Fwd? && x.worker.preempted
    case Succeed => x.worker.Resolving?
    case Fail => x.worker.Resolving? && !(x.worker.h.Fwd? && x.worker.preempted)
    case Retry => x.worker.Resolving? && !(x.worker.h.Fwd? && x.worker.preempted)
    case ParkAgain => x.worker.Resolving? && !(x.worker.h.Fwd? && x.worker.preempted)
    case Interrupted => x.worker.Resolving? && !(x.worker.h.Fwd? && x.worker.preempted)
    case ApplyFailed => x.worker.Deciding? || x.worker.Resolving? || x.worker.Reading?
    case Stop => true
  }

  /** The mark is set before preemption and stays until a pass takes it. */
  predicate PastMark(r: Request) {
    !r.NotAsked? && !r.Written?
  }

  /** attemptContext's locked section: the attempt is registered, and a
      preemption that came before it is taken. */
  function Registered(pending: bool, n: nat, h: Half): (Option<Handle>, bool, bool) {
    (Some(Handle(n, h)), false, pending && h.Fwd?)
  }

  /** preemptAttempt's: the forward attempt to cut, or, with none registered,
      a preemption left for the next. */
  function Struck(handle: Option<Handle>, pending: bool): (bool, Option<nat>) {
    if handle.None? then (true, None) else (pending, if handle.value.h.Fwd? then Some(handle.value.n) else None)
  }

  function After(x: World, e: Event): World
    requires Can(x, e)
  {
    match e
    case AskStore => x.(cancel := true, req := Written)
    case AskMark => x.(dirty := true, req := Marked)
    case AskLock =>
      var (pending, victim) := Struck(x.handle, x.pending);
      x.(pending := pending, req := Locked(victim))
    case AskCut => x.(cut := if x.req.victim.Some? then x.cut + {x.req.victim.value} else x.cut, req := Preempted)
    case AskDispatch => x.(owed := true, req := Dispatched)
    case Poke => x.(owed := true)
    case Begin => x.(owed := false, worker := Top(None))
    case Take =>
      x.(dirty := false, late := PastMark(x.req),
         worker := if x.dirty || x.worker.rec.None? then Reading else Deciding(x.worker.rec.value))
    case ReadStore => x.(worker := if x.phase.PhaseDone? then Idle else Deciding(x.cancel))
    case CancelDormant => x.(phase := PhaseUnwind, worker := Top(Some(true)))
    case Gate(again) => x.(worker := Idle, owed := x.owed || again)
    case Refuse => x.(worker := Idle, stuck := true)
    case Complete => x.(phase := PhaseDone, pending := false, worker := Idle)
    case Reserve => x.(worker := Reserved(if x.phase.PhaseUnwind? then Unw else Fwd, x.worker.seen))
    case Register =>
      var (handle, pending, toCut) := Registered(x.pending, x.next, x.worker.h);
      x.(handle := handle, next := x.next + 1, pending := pending,
         worker := Registering(x.worker.h, x.worker.seen, x.next, toCut))
    case CutSelf =>
      x.(cut := if x.worker.toCut then x.cut + {x.worker.n} else x.cut, worker := Running(x.worker.h, x.worker.seen, x.worker.n))
    case Return => x.(worker := Returned(x.worker.h, x.worker.seen, x.worker.n, x.worker.n in x.cut))
    case Unregister => x.(handle := None, worker := Resolving(x.worker.h, x.worker.seen, x.worker.preempted))
    case Misuse => x.(worker := Idle, stuck := true)
    case Succeed => x.(worker := Top(Some(x.worker.seen)))
    case Fail => x.(phase := PhaseUnwind, worker := Top(Some(x.worker.seen)))
    case CancelCut => x.(phase := PhaseUnwind, worker := Top(Some(x.worker.seen)))
    case Retry => x.(worker := Idle, owed := true)
    case ParkAgain => x.(worker := Top(Some(x.worker.seen)))
    case Interrupted => x.(worker := Idle)
    case ApplyFailed => x.(worker := Idle, owed := true)
    case Stop =>
      x.(dirty := false, pending := false, handle := None, owed := !x.phase.PhaseDone?, stuck := false, late := false,
         req := if x.req.NotAsked? then NotAsked else Dispatched, worker := Idle)
  }

  // ---- The invariant

  /** The record the worker carries, if any: whether it has the cancel. */
  function Seen(k: Worker): Option<bool> {
    match k
    case Idle => None
    case Reading => None
    case Top(rec) => rec
    case Deciding(seen) => Some(seen)
    case Reserved(_, seen) => Some(seen)
    case Registering(_, seen, _, _) => Some(seen)
    case Running(_, seen, _) => Some(seen)
    case Returned(_, seen, _, _) => Some(seen)
    case Resolving(_, seen, _) => Some(seen)
  }

  function HalfAt(k: Worker): Option<Half> {
    match k
    case Reserved(h, _) => Some(h)
    case Registering(h, _, _, _) => Some(h)
    case Running(h, _, _) => Some(h)
    case Returned(h, _, _, _) => Some(h)
    case Resolving(h, _, _) => Some(h)
    case _ => None
  }

  function ContextOf(k: Worker): Option<nat> {
    match k
    case Registering(_, _, n, _) => Some(n)
    case Running(_, _, n) => Some(n)
    case Returned(_, _, n, _) => Some(n)
    case _ => None
  }

  /** Once the mark is set it is there, or the worker knows or will read. */
  predicate Informed(x: World) {
    && (x.cancel <==> !x.req.NotAsked?)
    && (Seen(x.worker) == Some(true) ==> x.cancel)
    && (PastMark(x.req) && !x.dirty ==> Seen(x.worker) != Some(false))
  }

  /** A forward attempt runs on a record without the cancel, and its context
      is the one registered. */
  predicate InStep(x: World) {
    && (HalfAt(x.worker) == Some(Fwd) ==> x.phase.PhaseForward? && Seen(x.worker) == Some(false))
    && (HalfAt(x.worker) == Some(Unw) ==> x.phase.PhaseUnwind?)
    && (x.handle == match ContextOf(x.worker) case Some(n) => Some(Handle(n, HalfAt(x.worker).value)) case None => None)
    && (Seen(x.worker).Some? ==> !x.phase.PhaseDone?)
  }

  predicate PastLock(r: Request) {
    r.Locked? || r.Preempted? || r.Dispatched?
  }

  /** Past the request's lock, the one forward attempt that may still run
      without having seen the cancel is cut, about to be cut, or will be cut
      when it registers. */
  predicate WillBeCut(x: World) {
    PastLock(x.req) ==>
      match x.worker
      case Deciding(seen) => seen || x.phase.PhaseUnwind? || x.pending
      case Reserved(h, _) => h.Unw? || x.pending
      case Registering(h, _, n, toCut) => h.Unw? || toCut || n in x.cut || x.req == Locked(Some(n))
      case Running(h, _, n) => h.Unw? || n in x.cut || x.req == Locked(Some(n))
      case _ => true
  }

  /** Past the request's dispatch a Run still forward is dispatched, or its
      worker knows or will read. */
  predicate Reached(x: World) {
    x.req.Dispatched? && x.phase.PhaseForward? && !x.stuck ==> x.owed || (!x.worker.Idle? && Seen(x.worker) != Some(false))
  }

  /** A late pass knows once it decides. */
  predicate Late(x: World) {
    x.late ==> PastMark(x.req) && (x.worker.Deciding? ==> x.worker.seen) && HalfAt(x.worker) != Some(Fwd)
  }

  predicate Answered(x: World) {
    Reached(x) && Late(x)
  }

  predicate Good(x: World) {
    Informed(x) && InStep(x) && WillBeCut(x) && Answered(x)
  }

  lemma StepGood(x: World, e: Event)
    requires Good(x) && Can(x, e)
    ensures Good(After(x, e))
  {
    hide Informed, InStep, WillBeCut, Answered;
    StepInformed(x, e);
    StepInStep(x, e);
    StepWillBeCut(x, e);
    StepAnswered(x, e);
  }

  lemma StepInformed(x: World, e: Event)
    requires Good(x) && Can(x, e)
    ensures Informed(After(x, e))
  {
    hide WillBeCut, Answered;
  }

  lemma StepInStep(x: World, e: Event)
    requires Good(x) && Can(x, e)
    ensures InStep(After(x, e))
  {
    hide WillBeCut, Answered;
  }

  lemma StepWillBeCut(x: World, e: Event)
    requires Good(x) && Can(x, e)
    ensures WillBeCut(After(x, e))
  {
    hide Answered;
  }

  lemma StepAnswered(x: World, e: Event)
    requires Good(x) && Can(x, e)
    ensures Answered(After(x, e))
  {
    hide WillBeCut;
    assert e.Interrupted? ==> x.worker.h.Fwd? || x.worker.h.Unw?;
  }

  // ---- Whole histories

  ghost predicate History(xs: seq<World>, es: seq<Event>) {
    |xs| == |es| + 1 && forall i | 0 <= i < |es| :: Can(xs[i], es[i]) && xs[i + 1] == After(xs[i], es[i])
  }

  predicate Fresh(x: World) {
    && !x.cancel && x.phase.PhaseForward? && !x.dirty && !x.pending && x.handle.None? && x.cut == {}
    && !x.late && x.req.NotAsked? && x.worker.Idle?
  }

  lemma {:induction false} HistoryGood(xs: seq<World>, es: seq<Event>)
    requires History(xs, es) && Fresh(xs[0])
    ensures Good(xs[|es|])
    decreases |es|
  {
    if es != [] {
      var n := |es| - 1;
      HistoryGood(xs[..n + 1], es[..n]);
      StepGood(xs[n], es[n]);
    }
  }

  /** The forward attempt came back after its context was cut. */
  predicate CutShort(k: Worker) {
    (k.Returned? || k.Resolving?) && k.h.Fwd? && k.preempted
  }

  /** How such an attempt may end: canceled, or with a success that still
      commits, or leaving its Run invalid, or with the engine's store or the
      engine itself failing. It does not fail, retry or park. */
  predicate EndsCut(e: Event) {
    e.CancelCut? || e.Succeed? || e.Misuse? || e.ApplyFailed? || e.Stop?
  }

  /** Every forward attempt in flight at the preempt step, or registered after
      it, has its context cut, and nothing but those ends it, whatever else
      happens meanwhile. */
  lemma {:induction false} CutOnceAsked(xs: seq<World>, es: seq<Event>, i: nat)
    requires History(xs, es) && Fresh(xs[0]) && i <= |es|
    requires xs[i].req.Preempted? || xs[i].req.Dispatched?
    requires xs[i].worker.Running? && xs[i].worker.h.Fwd?
    requires forall j | i <= j < |es| :: !EndsCut(es[j])
    ensures xs[i].worker.n in xs[|es|].cut
    ensures xs[|es|].worker == xs[i].worker || CutShort(xs[|es|].worker)
    ensures CutShort(xs[|es|].worker) && xs[|es|].worker.Resolving? ==>
              Can(xs[|es|], CancelCut) && After(xs[|es|], CancelCut).phase.PhaseUnwind?
    decreases |es|
  {
    if i == |es| {
      HistoryGood(xs, es);
    } else {
      var n := |es| - 1;
      assert xs[..n + 1][i] == xs[i];
      CutOnceAsked(xs[..n + 1], es[..n], i);
      assert xs[n + 1] == After(xs[n], es[n]);
    }
  }

  /** A pass that takes the mark after it was set resolves the next forward
      operation as canceled: it reserves no attempt. */
  lemma LatePassCancels(xs: seq<World>, es: seq<Event>)
    requires History(xs, es) && Fresh(xs[0])
    requires xs[|es|].late && xs[|es|].worker.Deciding? && xs[|es|].phase.PhaseForward?
    ensures Can(xs[|es|], CancelDormant) && !Can(xs[|es|], Reserve) && forall again :: !Can(xs[|es|], Gate(again))
  {
    HistoryGood(xs, es);
  }

  /** And such a pass comes: once the request is done, a Run still forward is
      dispatched, or its worker reads the cancel this time around, unless it
      is invalid or the engine drains. */
  lemma RequestIsAnswered(xs: seq<World>, es: seq<Event>)
    requires History(xs, es) && Fresh(xs[0])
    requires xs[|es|].req.Dispatched? && xs[|es|].phase.PhaseForward? && !xs[|es|].stuck && xs[|es|].worker.Idle?
    ensures xs[|es|].owed
  {
    HistoryGood(xs, es);
  }

  /** An unwind attempt is never cut by its Run's cancellation. */
  ghost predicate CutsForward(x: World, halves: map<nat, Half>) {
    && (forall n | n in x.cut :: n in halves && halves[n].Fwd?)
    && (x.req.Locked? && x.req.victim.Some? ==> x.req.victim.value in halves && halves[x.req.victim.value].Fwd?)
    && (ContextOf(x.worker).Some? ==> ContextOf(x.worker).value in halves && halves[ContextOf(x.worker).value] == HalfAt(x.worker).value)
    && (forall n | n in halves :: n < x.next)
    && (x.worker.Registering? && x.worker.toCut ==> x.worker.h.Fwd?)
  }

  function Halves(x: World, e: Event, halves: map<nat, Half>): map<nat, Half>
    requires Can(x, e)
  {
    if e.Register? then halves[x.next := x.worker.h] else halves
  }

  lemma UnwindNeverCut(x: World, e: Event, halves: map<nat, Half>)
    requires Good(x) && Can(x, e) && CutsForward(x, halves)
    ensures CutsForward(After(x, e), Halves(x, e, halves))
  {
    hide Informed, WillBeCut, Answered;
  }

  lemma {:induction false} HistoryCuts(xs: seq<World>, es: seq<Event>) returns (halves: map<nat, Half>)
    requires History(xs, es) && Fresh(xs[0])
    ensures CutsForward(xs[|es|], halves)
    decreases |es|
  {
    if es == [] {
      halves := map[];
    } else {
      var n := |es| - 1;
      var before := HistoryCuts(xs[..n + 1], es[..n]);
      HistoryGood(xs[..n + 1], es[..n]);
      UnwindNeverCut(xs[n], es[n], before);
      halves := Halves(xs[n], es[n], before);
    }
  }

  lemma UnwindRunsOn(xs: seq<World>, es: seq<Event>)
    requires History(xs, es) && Fresh(xs[0]) && xs[|es|].worker.Running? && xs[|es|].worker.h.Unw?
    ensures xs[|es|].worker.n !in xs[|es|].cut
  {
    var halves := HistoryCuts(xs, es);
  }

  // ---- The engine's maps, in place

  class Attempts {
    var handles: map<Id, Handle>
    var pendingPreempt: map<Id, Blob>
    var cut: map<nat, Blob>
    var next: nat

    constructor ()
      ensures handles == map[] && pendingPreempt == map[] && cut == map[] && next == 0
    {
      handles, pendingPreempt, cut, next := map[], map[], map[], 0;
    }

    /** attemptContext. */
    method Register(id: Id, h: Half) returns (n: nat)
      modifies this
      ensures n == old(next) && next == n + 1
      ensures (var (handle, pending, toCut) := Registered(id in old(pendingPreempt), n, h);
               && handles == old(handles)[id := handle.value]
               && pendingPreempt == old(pendingPreempt) - {id} && pending == (id in pendingPreempt)
               && cut == if toCut then old(cut)[n := old(pendingPreempt)[id]] else old(cut))
    {
      n := next;
      next := next + 1;
      handles := handles[id := Handle(n, h)];
      var cause := if id in pendingPreempt then Some(pendingPreempt[id]) else None;
      pendingPreempt := pendingPreempt - {id};
      if cause.Some? && h.Fwd? {
        cut := cut[n := cause.value];
      }
    }

    method Unregister(id: Id)
      modifies this`handles
      ensures handles == old(handles) - {id}
    {
      handles := handles - {id};
    }

    /** preemptAttempt. */
    method Preempt(id: Id, cause: Blob)
      modifies this`pendingPreempt, this`cut
      ensures (var (pending, victim) := Struck(if id in handles then Some(handles[id]) else None, id in old(pendingPreempt));
               && pendingPreempt == (if id in handles then old(pendingPreempt) else old(pendingPreempt)[id := cause])
               && pending == (id in pendingPreempt)
               && cut == if victim.Some? then old(cut)[victim.value := cause] else old(cut))
    {
      if id !in handles {
        pendingPreempt := pendingPreempt[id := cause];
        return;
      }
      if handles[id].h.Fwd? {
        cut := cut[handles[id].n := cause];
      }
    }
  }
}
