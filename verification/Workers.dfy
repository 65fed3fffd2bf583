/**
 Several workers with their engines. A task that hands over or submits to another context pushes to
 that context's queue and then writes to its eventfd; the stop callback of the last context to go
 idle requests a stop of every context in turn, itself included, and writes to its eventfd. Each of
 these writes blocks the worker that performs it while the counter is full.
 */
module Workers {
  import opened Counting
  import opened Engine
  import opened EngineProgress

  /** What a worker does besides the steps of its own engine. */
  datatype Inside =
    | Waking(j: nat)            // has pushed to context j, about to write to its eventfd
    | Asking(j: nat)            // in stop_impl, about to request a stop of context j
    | Stopping(j: nat)          // has requested it, about to write to its eventfd

  /** Worker i writes as thread i; threads that are not workers have larger numbers. */
  datatype Fleet = Fleet(engs: seq<EngState>, inside: map<nat, Inside>, flags: set<nat>, token: int)

  datatype FLabel =
    | Own(i: nat, l: Label)     // a step of worker i, of its kernel, or of an outside thread
    | PushTo(i: nat, j: nat)
    | WakeUp(i: nat)
    | Schedule(j: nat)          // a submitter turns context j's flag on and adds to the token
    | Callback(i: nat)          // the idle test succeeds and the stop callback runs
    | Ask(i: nat)
    | WakeToStop(i: nat)

  predicate ByThread(l: Label) {
    l.PushTask? || l.WakeTask? || l.RequestStop? || l.WakeStop?
  }

  predicate FEnabled(f: Fleet, l: FLabel) {
    match l
    case Own(i, l) =>
      && i < |f.engs| && Enabled(f.engs[i], l)
      && (OfWorker(l) ==> i !in f.inside) && (ByThread(l) ==> l.a >= |f.engs|)
    case PushTo(i, j) =>
      && i < |f.engs| && j < |f.engs| && i != j && i !in f.inside
      && f.engs[i].e.pc.Exec? && Enabled(f.engs[j], PushTask(i))
    case WakeUp(i) =>
      i in f.inside && f.inside[i].Waking? && f.inside[i].j < |f.engs| && Enabled(f.engs[f.inside[i].j], WakeTask(i))
    case Schedule(j) => j < |f.engs|
    case Callback(i) =>
      && i < |f.engs| && i !in f.inside && Enabled(f.engs[i], EndPass(false))
      && f.engs[i].e.queue == 0 && f.engs[i].e.waiting == 0 && f.engs[i].e.running == 0
    case Ask(i) =>
      i in f.inside && f.inside[i].Asking? && f.inside[i].j < |f.engs| && Enabled(f.engs[f.inside[i].j], RequestStop(i))
    case WakeToStop(i) =>
      i in f.inside && f.inside[i].Stopping? && f.inside[i].j < |f.engs| && Enabled(f.engs[f.inside[i].j], WakeStop(i))
  }

  function OnEngine(f: Fleet, j: nat, l: Label): Fleet
    requires j < |f.engs| && Enabled(f.engs[j], l)
  {
    f.(engs := f.engs[j := Step(f.engs[j], l)])
  }

  function FDo(f: Fleet, l: FLabel): Fleet
    requires FEnabled(f, l)
  {
    match l
    case Own(i, l) => OnEngine(f, i, l)
    case PushTo(i, j) => OnEngine(f, j, PushTask(i)).(inside := f.inside[i := Waking(j)])
    case WakeUp(i) => OnEngine(f, f.inside[i].j, WakeTask(i)).(inside := f.inside - {i})
    case Schedule(j) => f.(flags := f.flags + {j}, token := f.token + 1 - Bit(j in f.flags))
    case Callback(i) =>
      var cnt := Bit(i in f.flags);
      OnEngine(f, i, EndPass(false)).(
        flags := f.flags - {i}, token := f.token - cnt,
        inside := if f.token == cnt then f.inside[i := Asking(0)] else f.inside)
    case Ask(i) =>
      var j := f.inside[i].j;
      OnEngine(f, j, RequestStop(i)).(inside := f.inside[i := Stopping(j)])
    case WakeToStop(i) =>
      var j := f.inside[i].j;
      OnEngine(f, j, WakeStop(i)).(inside := if j + 1 < |f.engs| then f.inside[i := Asking(j + 1)] else f.inside - {i})
  }

  function FStart(n: nat): Fleet {
    Fleet(seq(n, _ => Start()), map[], Contexts(n), n)
  }

  // ---- the invariant ----

  ghost predicate Engines(f: Fleet) {
    forall k :: 0 <= k < |f.engs| ==> Inv(f.engs[k])
  }

  /** A worker that does something else is inside a task, or between its idle test and its poll. */
  ghost predicate Places(f: Fleet) {
    forall i :: i in f.inside ==>
      && i < |f.engs| && f.inside[i].j < |f.engs|
      && (f.engs[i].e.pc.Exec? || f.engs[i].e.pc.Poll?)
  }

  /** Worker i is between push, or request, and write exactly where it says. */
  ghost predicate Threads(f: Fleet) {
    forall i: nat, k: nat :: i < |f.engs| && k < |f.engs| ==> ThreadOk(f, i, k)
  }

  predicate ThreadOk(f: Fleet, i: nat, k: nat)
    requires k < |f.engs|
  {
    && (i in f.engs[k].e.wakers <==> i in f.inside && f.inside[i] == Waking(k))
    && (i in f.engs[k].e.stoppers <==> i in f.inside && f.inside[i] == Stopping(k))
  }

  ghost predicate FInv(f: Fleet) {
    Engines(f) && Places(f) && Threads(f)
  }

  lemma EngineStep(f: Fleet, j: nat, l: Label)
    requires Engines(f) && j < |f.engs| && Enabled(f.engs[j], l)
    ensures Engines(OnEngine(f, j, l))
  {
    StepInv(f.engs[j], l);
  }

  lemma EnginesStep(f: Fleet, l: FLabel)
    requires Engines(f) && FEnabled(f, l)
    ensures Engines(FDo(f, l))
  {
    match l
    case Own(i, k) => EngineStep(f, i, k);
    case PushTo(i, j) => EngineStep(f, j, PushTask(i));
    case WakeUp(i) => EngineStep(f, f.inside[i].j, WakeTask(i));
    case Schedule(_) =>
    case Callback(i) => EngineStep(f, i, EndPass(false));
    case Ask(i) => EngineStep(f, f.inside[i].j, RequestStop(i));
    case WakeToStop(i) => EngineStep(f, f.inside[i].j, WakeStop(i));
  }

  lemma PlacesStep(f: Fleet, l: FLabel)
    requires Places(f) && FEnabled(f, l)
    ensures Places(FDo(f, l))
  {
  }

  lemma ThreadStep(f: Fleet, l: FLabel, i: nat, k: nat)
    requires FEnabled(f, l) && i < |f.engs| && k < |f.engs| && ThreadOk(f, i, k)
    ensures ThreadOk(FDo(f, l), i, k)
  {
  }

  lemma FStepInv(f: Fleet, l: FLabel)
    requires FInv(f) && FEnabled(f, l)
    ensures FInv(FDo(f, l)) && |FDo(f, l).engs| == |f.engs|
  {
    EnginesStep(f, l);
    PlacesStep(f, l);
    forall i: nat, k: nat | i < |f.engs| && k < |f.engs| ensures ThreadOk(FDo(f, l), i, k) { ThreadStep(f, l, i, k); }
  }

  lemma FStartInv(n: nat)
    ensures FInv(FStart(n))
  {
  }
}
