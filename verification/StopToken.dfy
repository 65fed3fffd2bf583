/**
 The scheduler and its contexts, one step per atomic operation. Submitters turn a flag on, add to
 the token and push. Workers run their loop: tasks register and unregister waits, start I/O and
 submit locally; an idle worker tests its waits, tests its queue, turns its flag off and subtracts
 from the token. Hand-offs push a task to a context that counts it as waiting.
 */
module StopToken {
  import opened Counting

  datatype SubmitPc =
    | Away
    | TurnedOn(c: nat, add: bool)      // the flag is set; add says that it was clear before
    | Added(c: nat)                    // the token is updated; about to push

  datatype LoopPc =
    | Top                              // loop test
    | Batch(left: nat)                 // process_work: tasks of this pass still to run
    | Running(left: nat)               // inside a task
    | NoWaits                          // empty_wait_task() was true; about to test the queue
    | FoundIdle                        // the queue was empty; about to clear the flag
    | TurnedOff(sub: bool)             // the flag is clear; sub says that it was set before
    | Poll                             // poll_work

  datatype Ctx = Ctx(queue: nat, waits: nat, io: nat, pc: LoopPc)

  datatype Fine = Fine(
    ctxs: seq<Ctx>,
    flags: set<nat>,                   // contexts whose flag is 1
    token: int,
    submit: map<nat, SubmitPc>,
    stops: nat)                        // how often stop_impl was called

  datatype Label =
    | FetchOr(a: nat, c: nat)
    | FetchAdd(a: nat)
    | Push(a: nat)
    | HandOff(c: nat)                  // a suspended task of c is resumed, by anybody
    | Snapshot(c: nat)
    | StartTask(c: nat)
    | RegisterWait(c: nat)
    | UnregisterWait(c: nat)
    | StartIo(c: nat)
    | SubmitLocal(c: nat)
    | EndTask(c: nat)
    | TestWaits(c: nat)
    | TestQueue(c: nat)
    | FetchAnd(c: nat)
    | FetchSub(c: nat)
    | PollDone(c: nat, handled: nat)

  function SubmitOf(f: Fine, a: nat): SubmitPc {
    if a in f.submit then f.submit[a] else Away
  }

  predicate OfSubmitter(l: Label) {
    l.FetchOr? || l.FetchAdd? || l.Push?
  }

  /** Popping waits for a task to be there. */
  predicate CtxEnabled(x: Ctx, l: Label) {
    match l
    case HandOff(_) => x.waits > 0
    case Snapshot(_) => x.pc.Top?
    case StartTask(_) => x.pc.Batch? && x.pc.left > 0 && x.queue > 0
    case RegisterWait(_) => x.pc.Running?
    case UnregisterWait(_) => x.pc.Running? && x.waits > 0
    case StartIo(_) => x.pc.Running?
    case SubmitLocal(_) => x.pc.Running?
    case EndTask(_) => x.pc.Running?
    case TestWaits(_) => x.pc == Batch(0)
    case TestQueue(_) => x.pc.NoWaits?
    case FetchAnd(_) => x.pc.FoundIdle?
    case FetchSub(_) => x.pc.TurnedOff?
    case PollDone(_, k) => x.pc.Poll? && k <= x.io
    case _ => false
  }

  predicate Enabled(f: Fine, l: Label) {
    match l
    case FetchOr(a, c) => c < |f.ctxs| && SubmitOf(f, a).Away?
    case FetchAdd(a) => SubmitOf(f, a).TurnedOn?
    case Push(a) => SubmitOf(f, a).Added? && SubmitOf(f, a).c < |f.ctxs|
    case _ => l.c < |f.ctxs| && CtxEnabled(f.ctxs[l.c], l)
  }

  /** What a step of the worker, or a hand-off, does to its context; on says that its flag is set. */
  function CtxDo(x: Ctx, on: bool, l: Label): Ctx
    requires CtxEnabled(x, l)
  {
    match l
    case HandOff(_) => x.(queue := x.queue + 1)
    case Snapshot(_) => x.(pc := Batch(x.queue))
    case StartTask(_) => x.(queue := x.queue - 1, pc := Running(x.pc.left - 1))
    case RegisterWait(_) => x.(waits := x.waits + 1)
    case UnregisterWait(_) => x.(waits := x.waits - 1)
    case StartIo(_) => x.(io := x.io + 1)
    case SubmitLocal(_) => x.(queue := x.queue + 1)
    case EndTask(_) => x.(pc := Batch(x.pc.left))
    case TestWaits(_) => x.(pc := if x.waits == 0 && x.io == 0 then NoWaits else Poll)
    case TestQueue(_) => x.(pc := if x.queue == 0 then FoundIdle else Top)
    case FetchAnd(_) => x.(pc := TurnedOff(on))
    case FetchSub(_) => x.(pc := Poll)
    case PollDone(_, k) => x.(io := x.io - k, queue := x.queue + k, pc := Top)
  }

  function SubmitDo(f: Fine, l: Label): Fine
    requires Enabled(f, l) && OfSubmitter(l)
  {
    match l
    case FetchOr(a, c) => f.(flags := f.flags + {c}, submit := f.submit[a := TurnedOn(c, c !in f.flags)])
    case FetchAdd(a) =>
      f.(token := f.token + Bit(SubmitOf(f, a).add), submit := f.submit[a := Added(SubmitOf(f, a).c)])
    case Push(a) =>
      var c := SubmitOf(f, a).c;
      f.(ctxs := f.ctxs[c := f.ctxs[c].(queue := f.ctxs[c].queue + 1)], submit := f.submit[a := Away])
  }

  function Do(f: Fine, l: Label): Fine
    requires Enabled(f, l)
  {
    if OfSubmitter(l) then SubmitDo(f, l)
    else
      var x := f.ctxs[l.c];
      var g := f.(ctxs := f.ctxs[l.c := CtxDo(x, l.c in f.flags, l)]);
      match l
      case FetchAnd(c) => g.(flags := f.flags - {c})
      case FetchSub(c) =>
        var cnt := Bit(x.pc.sub);
        g.(token := f.token - cnt, stops := f.stops + if f.token == cnt then 1 else 0)
      case _ => g
  }

  /** Submitters between their flag and their push, bound for context c. */
  function InFlight(f: Fine, c: nat): set<nat> {
    set a | a in f.submit && !f.submit[a].Away? && f.submit[a].c == c
  }

  /** History: the contexts whose last idle window, from the queue test to the clearing of the flag,
      was overlapped by a submission to them. No step reads it. */
  datatype State = State(f: Fine, hit: set<nat>)

  function Note(s: State, l: Label): set<nat>
    requires Enabled(s.f, l)
  {
    match l
    case FetchOr(_, c) => if s.f.ctxs[c].pc.FoundIdle? then s.hit + {c} else s.hit
    case TestQueue(c) =>
      if s.f.ctxs[c].queue > 0 then s.hit
      else if InFlight(s.f, c) == {} then s.hit - {c}
      else s.hit + {c}
    case _ => s.hit
  }

  function Step(s: State, l: Label): State
    requires Enabled(s.f, l)
  {
    State(Do(s.f, l), Note(s, l))
  }

  function Fresh(): Ctx {
    Ctx(0, 0, 0, Top)
  }

  function Start(n: nat): State {
    State(Fine(seq(n, _ => Fresh()), Contexts(n), n, map[], 0), {})
  }

  // ---- the token law ----

  predicate IsAdding(p: SubmitPc) {
    p.TurnedOn? && p.add
  }

  predicate IsSubtracting(p: LoopPc) {
    p.TurnedOff? && p.sub
  }

  /** Submitters that turned a flag on and have not yet added. */
  function Adding(f: Fine): set<nat> {
    set a | a in f.submit && IsAdding(f.submit[a])
  }

  /** Contexts that turned their flag off and have not yet subtracted. */
  function Subtracting(f: Fine): set<nat> {
    set c | 0 <= c < |f.ctxs| && IsSubtracting(f.ctxs[c].pc)
  }

  ghost predicate Law(f: Fine) {
    f.token + |Adding(f)| - |Subtracting(f)| == |f.flags|
  }

  lemma AddingStep(f: Fine, g: Fine, a: nat, p: SubmitPc)
    requires g.submit == f.submit[a := p]
    ensures |Adding(g)| == |Adding(f)| + Bit(IsAdding(p)) - Bit(IsAdding(SubmitOf(f, a)))
  {
    assert Adding(g) - {a} == Adding(f) - {a};
    assert (a in Adding(f) <==> IsAdding(SubmitOf(f, a))) && (a in Adding(g) <==> IsAdding(p));
    OneMoves(Adding(f), Adding(g), a);
  }

  lemma SubtractingStep(f: Fine, g: Fine, c: nat, x: Ctx)
    requires c < |f.ctxs| && g.ctxs == f.ctxs[c := x]
    ensures |Subtracting(g)| == |Subtracting(f)| + Bit(IsSubtracting(x.pc)) - Bit(IsSubtracting(f.ctxs[c].pc))
  {
    assert Subtracting(g) - {c} == Subtracting(f) - {c};
    assert (c in Subtracting(f) <==> IsSubtracting(f.ctxs[c].pc)) && (c in Subtracting(g) <==> IsSubtracting(x.pc));
    OneMoves(Subtracting(f), Subtracting(g), c);
  }

  lemma SubmitterLaw(f: Fine, l: Label)
    requires Law(f) && Enabled(f, l) && OfSubmitter(l)
    ensures Law(Do(f, l))
  {
    var g := Do(f, l);
    AddingStep(f, g, l.a, g.submit[l.a]);
    if l.Push? {
      SubtractingStep(f, g, SubmitOf(f, l.a).c, g.ctxs[SubmitOf(f, l.a).c]);
    } else {
      assert Subtracting(g) == Subtracting(f);
    }
    if l.FetchOr? { OneMoves(f.flags, g.flags, l.c); }
  }

  lemma WorkerLaw(f: Fine, l: Label)
    requires Law(f) && Enabled(f, l) && !OfSubmitter(l)
    ensures Law(Do(f, l))
  {
    var g := Do(f, l);
    assert Adding(g) == Adding(f);
    SubtractingStep(f, g, l.c, g.ctxs[l.c]);
    if l.FetchAnd? { OneMoves(f.flags, g.flags, l.c); }
  }

  lemma LawStep(f: Fine, l: Label)
    requires Law(f) && Enabled(f, l)
    ensures Law(Do(f, l))
  {
    if OfSubmitter(l) { SubmitterLaw(f, l); } else { WorkerLaw(f, l); }
  }

  // ---- what a clear flag means ----

  predicate Idle(x: Ctx) {
    x.queue == 0 && x.waits == 0 && x.io == 0 && !x.pc.Running? && (x.pc.Batch? ==> x.pc.left == 0)
  }

  predicate InIdleTest(p: LoopPc) {
    p.NoWaits? || p.FoundIdle? || p.TurnedOff?
  }

  /** Between the queue test and the clearing of the flag, an overlapping submission is one that has
      pushed or is about to; a clear flag without one leaves nothing behind. */
  predicate CtxOk(x: Ctx, on: bool, flying: set<nat>, hit: bool) {
    && (InIdleTest(x.pc) ==> x.waits == 0 && x.io == 0)
    && (x.pc.Batch? || x.pc.Running? ==> x.pc.left <= x.queue)
    && (x.pc.FoundIdle? ==> (hit <==> x.queue > 0 || flying != {}))
    && (x.pc.TurnedOff? && hit ==> x.queue > 0 || flying != {})
    && (!on && !hit ==> Idle(x) && flying == {})
  }

  ghost predicate Settled(s: State, c: nat)
    requires c < |s.f.ctxs|
  {
    CtxOk(s.f.ctxs[c], c in s.f.flags, InFlight(s.f, c), c in s.hit)
  }

  ghost predicate InvCtxs(s: State) {
    forall c: nat :: c < |s.f.ctxs| ==> Settled(s, c)
  }

  /** Indices are those of contexts, and a token that has reached zero has called stop. */
  ghost predicate Bounds(f: Fine) {
    && (forall c :: c in f.flags ==> c < |f.ctxs|)
    && (forall a :: a in f.submit && !f.submit[a].Away? ==> f.submit[a].c < |f.ctxs|)
    && (f.token <= 0 && f.ctxs != [] ==> f.stops > 0)
  }

  ghost predicate Inv(s: State) {
    Law(s.f) && InvCtxs(s) && Bounds(s.f)
  }

  lemma FlyingStep(f: Fine, l: Label, c: nat)
    requires Enabled(f, l)
    ensures var g := Do(f, l);
            match l
            case FetchOr(a, d) => InFlight(g, c) == if c == d then InFlight(f, c) + {a} else InFlight(f, c)
            case Push(a) => InFlight(g, c) == InFlight(f, c) - {a}
            case _ => InFlight(g, c) == InFlight(f, c)
  {
  }

  lemma SubmitterCtx(s: State, l: Label, c: nat)
    requires Enabled(s.f, l) && OfSubmitter(l) && c < |s.f.ctxs| && Settled(s, c)
    ensures Settled(Step(s, l), c)
  {
    FlyingStep(s.f, l, c);
    if l.Push? && SubmitOf(s.f, l.a).c == c { assert l.a in InFlight(s.f, c); }
  }

  lemma WorkerCtx(s: State, l: Label, c: nat)
    requires Enabled(s.f, l) && !OfSubmitter(l) && c < |s.f.ctxs| && Settled(s, c)
    ensures Settled(Step(s, l), c)
  {
    FlyingStep(s.f, l, c);
  }

  lemma BoundsStep(f: Fine, l: Label)
    requires Bounds(f) && Enabled(f, l)
    ensures Bounds(Do(f, l))
  {
  }

  lemma StepInv(s: State, l: Label)
    requires Inv(s) && Enabled(s.f, l)
    ensures Inv(Step(s, l))
  {
    LawStep(s.f, l);
    BoundsStep(s.f, l);
    forall c: nat | c < |s.f.ctxs| ensures Settled(Step(s, l), c) {
      if OfSubmitter(l) { SubmitterCtx(s, l, c); } else { WorkerCtx(s, l, c); }
    }
  }

  lemma StartInv(n: nat)
    ensures Inv(Start(n))
  {
    var f := Start(n).f;
    assert Adding(f) == {} && Subtracting(f) == {};
  }
}
