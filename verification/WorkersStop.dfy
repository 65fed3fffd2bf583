/** How stop reaches the contexts, when it is called, and what tasks each worker has. */
module WorkersStop {
  import opened Counting
  import opened Engine
  import opened EngineProgress
  import opened Workers
  import opened WorkersProgress

  /** A worker inside stop_impl has asked every context it has gone past. */
  ghost predicate Asked(f: Fleet) {
    forall i :: i in f.inside ==> AskedBy(f, f.inside[i])
  }

  ghost predicate AskedBy(f: Fleet, p: Inside) {
    match p
    case Waking(_) => true
    case Asking(j) => forall k :: 0 <= k < j && k < |f.engs| ==> f.engs[k].e.stop
    case Stopping(j) => forall k :: 0 <= k <= j && k < |f.engs| ==> f.engs[k].e.stop
  }

  lemma StopStays(f: Fleet, l: FLabel, k: nat)
    requires FEnabled(f, l) && k < |f.engs| && f.engs[k].e.stop
    ensures k < |FDo(f, l).engs| && FDo(f, l).engs[k].e.stop
  {
  }

  lemma AskedStep(f: Fleet, l: FLabel)
    requires FInv(f) && Asked(f) && FEnabled(f, l)
    ensures Asked(FDo(f, l))
  {
    var g := FDo(f, l);
    forall k: nat | k < |f.engs| && f.engs[k].e.stop ensures k < |g.engs| && g.engs[k].e.stop { StopStays(f, l, k); }
    forall i | i in g.inside ensures AskedBy(g, g.inside[i]) {
      if i in f.inside { assert AskedBy(f, f.inside[i]); }
      AskedOne(f, l, i);
    }
  }

  lemma AskedOne(f: Fleet, l: FLabel, i: nat)
    requires FEnabled(f, l) && i in FDo(f, l).inside
    requires i in f.inside ==> AskedBy(f, f.inside[i])
    requires forall k: nat :: k < |f.engs| && f.engs[k].e.stop ==> k < |FDo(f, l).engs| && FDo(f, l).engs[k].e.stop
    ensures AskedBy(FDo(f, l), FDo(f, l).inside[i])
  {
  }

  lemma {:induction false} AskedRun(f: Fleet, ls: seq<FLabel>)
    requires FInv(f) && Asked(f) && CanRun(f, ls)
    ensures Asked(Run(f, ls))
    decreases |ls|
  {
    if ls != [] {
      Unfolds(f, ls);
      FStepInv(f, ls[0]);
      AskedStep(f, ls[0]);
      AskedRun(FDo(f, ls[0]), ls[1..]);
    }
  }

  /** In every reachable state: a worker inside stop_impl has asked every context before the one it is
      at, and when it comes out of it every context has been asked to stop. */
  lemma StopReachesAll(n: nat, f: Fleet, i: nat, l: FLabel)
    requires Reached(n, f) && i in f.inside
    ensures |f.engs| == n && AskedBy(f, f.inside[i])
    ensures f.inside[i].Stopping? && FEnabled(f, l) && i !in FDo(f, l).inside ==>
              forall k :: 0 <= k < n ==> FDo(f, l).engs[k].e.stop
  {
    var ls :| CanRun(FStart(n), ls) && f == Run(FStart(n), ls);
    FStartInv(n);
    AskedRun(FStart(n), ls);
    EveryRun(n, f);
    if f.inside[i].Stopping? && FEnabled(f, l) && i !in FDo(f, l).inside { LeavesLast(f, i, l); }
  }

  /** Only the write to the last context ends the loop. */
  lemma LeavesLast(f: Fleet, i: nat, l: FLabel)
    requires i in f.inside && f.inside[i].Stopping? && AskedBy(f, f.inside[i]) && f.inside[i].j < |f.engs|
    requires FEnabled(f, l) && i !in FDo(f, l).inside
    ensures l == WakeToStop(i) && f.inside[i].j + 1 == |f.engs|
    ensures forall k :: 0 <= k < |f.engs| ==> FDo(f, l).engs[k].e.stop
  {
    forall k | 0 <= k < |f.engs| ensures FDo(f, l).engs[k].e.stop { StopStays(f, l, k); }
  }

  // ---- when stop is called ----

  /** Among the steps ls from f there is an outside request, or a callback that found the token equal
      to its own share. */
  ghost predicate Causes(f: Fleet, ls: seq<FLabel>)
    requires CanRun(f, ls)
    decreases |ls|
  {
    ls != [] && (CausesStop(f, ls[0]) || Causes(FDo(f, ls[0]), ls[1..]))
  }

  predicate CausesStop(f: Fleet, l: FLabel) {
    (l.Own? && l.l.RequestStop?) || (l.Callback? && f.token == Bit(l.i in f.flags))
  }

  ghost predicate NobodyStops(f: Fleet) {
    && (forall k :: 0 <= k < |f.engs| ==> !f.engs[k].e.stop)
    && (forall i :: i in f.inside ==> f.inside[i].Waking?)
  }

  lemma QuietStep(f: Fleet, l: FLabel)
    requires NobodyStops(f) && FEnabled(f, l) && !CausesStop(f, l)
    ensures NobodyStops(FDo(f, l))
  {
  }

  lemma {:induction false} StopHasACause(f: Fleet, ls: seq<FLabel>)
    requires NobodyStops(f) && CanRun(f, ls) && !Causes(f, ls)
    ensures NobodyStops(Run(f, ls))
    decreases |ls|
  {
    if ls != [] {
      Unfolds(f, ls);
      QuietStep(f, ls[0]);
      StopHasACause(FDo(f, ls[0]), ls[1..]);
    }
  }

  lemma {:induction false} TokenRun(f: Fleet, ls: seq<FLabel>)
    requires f.token == |f.flags| && CanRun(f, ls)
    ensures Run(f, ls).token == |Run(f, ls).flags|
    decreases |ls|
  {
    if ls != [] {
      var g := FDo(f, ls[0]);
      Unfolds(f, ls);
      if ls[0].Schedule? { OneMoves(f.flags, g.flags, ls[0].j); }
      if ls[0].Callback? { OneMoves(f.flags, g.flags, ls[0].i); }
      TokenRun(g, ls[1..]);
    }
  }

  /** The callback of an idle context calls stop exactly if no other context's flag is set. */
  lemma StopCalledExactly(n: nat, f: Fleet, i: nat)
    requires Reached(n, f) && FEnabled(f, Callback(i))
    ensures i in FDo(f, Callback(i)).inside <==> f.flags <= {i}
    ensures FDo(f, Callback(i)).flags == f.flags - {i}
  {
    var ls :| CanRun(FStart(n), ls) && f == Run(FStart(n), ls);
    TokenRun(FStart(n), ls);
    AtMostOneFlag(f.flags, i);
  }

  // ---- tasks ----

  /** The tasks a step brings to worker k, less those it takes. */
  function Brought(l: FLabel, k: nat): int {
    match l
    case Own(i, x) => if i == k then Bit(x.PushTask? || x.OwnPush? || x.HandlePush?) - Bit(x.PopTask?) else 0
    case PushTo(_, j) => Bit(j == k)
    case _ => 0
  }

  function AllBrought(ls: seq<FLabel>, k: nat): int {
    if ls == [] then 0 else Brought(ls[0], k) + AllBrought(ls[1..], k)
  }

  /** Over every run of any number of workers, each queue holds what was pushed and not popped. */
  lemma {:induction false} TasksConserved(f: Fleet, ls: seq<FLabel>, k: nat)
    requires CanRun(f, ls) && k < |f.engs|
    ensures k < |Run(f, ls).engs| && Run(f, ls).engs[k].e.queue == f.engs[k].e.queue + AllBrought(ls, k)
    decreases |ls|
  {
    if ls != [] {
      Unfolds(f, ls);
      TaskStep(f, ls[0], k);
      TasksConserved(FDo(f, ls[0]), ls[1..], k);
    }
  }

  lemma TaskStep(f: Fleet, l: FLabel, k: nat)
    requires FEnabled(f, l) && k < |f.engs|
    ensures k < |FDo(f, l).engs| && FDo(f, l).engs[k].e.queue == f.engs[k].e.queue + Brought(l, k)
  {
  }
}
