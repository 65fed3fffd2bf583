/** When workers can move, and when they never will again. */
module WorkersProgress {
  import opened Counting
  import opened Engine
  import opened EngineProgress
  import opened Workers

  ghost predicate CanRun(f: Fleet, ls: seq<FLabel>)
    decreases |ls|
  {
    ls == [] || (FEnabled(f, ls[0]) && CanRun(FDo(f, ls[0]), ls[1..]))
  }

  ghost function Run(f: Fleet, ls: seq<FLabel>): Fleet
    requires CanRun(f, ls)
    decreases |ls|
  {
    if ls == [] then f else Run(FDo(f, ls[0]), ls[1..])
  }

  lemma Unfolds(f: Fleet, ls: seq<FLabel>)
    requires ls != [] && FEnabled(f, ls[0])
    ensures CanRun(f, ls) <==> CanRun(FDo(f, ls[0]), ls[1..])
    ensures CanRun(f, ls) ==> Run(f, ls) == Run(FDo(f, ls[0]), ls[1..])
  {
  }

  lemma {:induction false} RunInv(f: Fleet, ls: seq<FLabel>)
    requires FInv(f) && CanRun(f, ls)
    ensures FInv(Run(f, ls)) && |Run(f, ls).engs| == |f.engs|
    decreases |ls|
  {
    if ls != [] {
      Unfolds(f, ls);
      FStepInv(f, ls[0]);
      RunInv(FDo(f, ls[0]), ls[1..]);
    }
  }

  /** Some run of n workers leads to f. */
  ghost predicate Reached(n: nat, f: Fleet) {
    exists ls :: CanRun(FStart(n), ls) && f == Run(FStart(n), ls)
  }

  lemma EveryRun(n: nat, f: Fleet)
    requires Reached(n, f)
    ensures FInv(f) && |f.engs| == n
  {
    var ls :| CanRun(FStart(n), ls) && f == Run(FStart(n), ls);
    FStartInv(n);
    RunInv(FStart(n), ls);
  }

  // ---- who can move ----

  /** Worker i is about to write to context j's eventfd. */
  predicate Writes(f: Fleet, i: nat, j: nat)
    requires i < |f.engs|
  {
    if i in f.inside then f.inside[i] == Waking(j) || f.inside[i] == Stopping(j)
    else i == j && Mid(f.engs[i].e.pc)
  }

  /** A step of worker i. */
  predicate OfThread(l: FLabel, i: nat) {
    match l
    case Own(k, x) => k == i && OfWorker(x)
    case Schedule(_) => false
    case _ => l.i == i
  }

  /** Nothing but the outside keeps worker i from its next step. */
  predicate Free(f: Fleet, i: nat)
    requires i < |f.engs|
  {
    && !f.engs[i].e.pc.Done?
    && !(i !in f.inside && f.engs[i].e.pc.Wait? && f.engs[i].e.efd == 0)
    && forall j :: 0 <= j < |f.engs| && Writes(f, i, j) ==> RoomToWake(f.engs[j].e)
  }

  lemma StepMeansFree(f: Fleet, i: nat, l: FLabel)
    requires FInv(f) && i < |f.engs| && FEnabled(f, l) && OfThread(l, i)
    ensures Free(f, i)
  {
    if l.Own? { Moves(f.engs[i], l.l); }
  }

  lemma FreeMeansStep(f: Fleet, i: nat)
    requires FInv(f) && i < |f.engs| && Free(f, i)
    ensures exists l :: OfThread(l, i) && FEnabled(f, l)
  {
    if i in f.inside {
      var j := f.inside[i].j;
      assert ThreadOk(f, i, j);
      match f.inside[i]
      case Waking(_) => assert Writes(f, i, j) && FEnabled(f, WakeUp(i));
      case Asking(_) => assert FEnabled(f, Ask(i));
      case Stopping(_) => assert Writes(f, i, j) && FEnabled(f, WakeToStop(i));
    } else {
      assert Mid(f.engs[i].e.pc) ==> Writes(f, i, i);
      SomeMove(f.engs[i]);
      var l :| OfWorker(l) && Enabled(f.engs[i], l);
      assert FEnabled(f, Own(i, l)) && OfThread(Own(i, l), i);
    }
  }

  /** In every reachable state of any number of workers: a worker can move exactly if it has not left
      its loop, is not waiting for somebody to raise its counter, and is not about to write to a
      counter, its own or another's, with 2^20 - 1 unread wake-ups. */
  lemma WorkerMovesExactly(n: nat, f: Fleet, i: nat)
    requires Reached(n, f) && i < n
    ensures |f.engs| == n
    ensures (exists l :: OfThread(l, i) && FEnabled(f, l)) <==>
            && !f.engs[i].e.pc.Done?
            && !(i !in f.inside && f.engs[i].e.pc.Wait? && f.engs[i].e.efd == 0)
            && forall j :: 0 <= j < n && Writes(f, i, j) ==> f.engs[j].t.wakes < FULL
  {
    EveryRun(n, f);
    forall j | 0 <= j < n ensures RoomToWake(f.engs[j].e) <==> f.engs[j].t.wakes < FULL { RoomWhen(f.engs[j]); }
    forall l | OfThread(l, i) && FEnabled(f, l) ensures Free(f, i) { StepMeansFree(f, i, l); }
    if Free(f, i) { FreeMeansStep(f, i); }
  }

  // ---- who never moves again ----

  /** Each worker of the set has left its loop, or is about to write to the full counter of one. */
  ghost predicate Jam(f: Fleet, group: set<nat>) {
    forall i :: i in group ==> i < |f.engs| && (f.engs[i].e.pc.Done? || exists j :: WritesFull(f, i, j, group))
  }

  predicate WritesFull(f: Fleet, i: nat, j: nat, group: set<nat>)
    requires i < |f.engs|
  {
    j in group && j < |f.engs| && Writes(f, i, j) && !RoomToWake(f.engs[j].e)
  }

  lemma JamStays(f: Fleet, group: set<nat>, i: nat, l: FLabel)
    requires FInv(f) && Jam(f, group) && i in group && FEnabled(f, l)
    ensures !OfThread(l, i)
  {
    if !f.engs[i].e.pc.Done? {
      var j :| WritesFull(f, i, j, group);
    }
    if OfThread(l, i) { StepMeansFree(f, i, l); }
  }

  /** Only its worker's read makes room in a counter. */
  lemma OthersStep(f: Fleet, l: FLabel, i: nat)
    requires Places(f) && FEnabled(f, l) && i < |f.engs| && !OfThread(l, i)
    ensures var g := FDo(f, l);
            && g.engs[i].e.pc == f.engs[i].e.pc
            && (!RoomToWake(f.engs[i].e) ==> !RoomToWake(g.engs[i].e))
            && (i in g.inside <==> i in f.inside) && (i in f.inside ==> g.inside[i] == f.inside[i])
  {
  }

  lemma JamStep(f: Fleet, group: set<nat>, l: FLabel)
    requires FInv(f) && Jam(f, group) && FEnabled(f, l)
    ensures Jam(FDo(f, l), group)
  {
    var g := FDo(f, l);
    forall i | i in group ensures i < |g.engs| && (g.engs[i].e.pc.Done? || exists j :: WritesFull(g, i, j, group)) {
      JamStays(f, group, i, l);
      OthersStep(f, l, i);
      if !f.engs[i].e.pc.Done? {
        var j :| WritesFull(f, i, j, group);
        JamStays(f, group, j, l);
        OthersStep(f, l, j);
        assert WritesFull(g, i, j, group);
      }
    }
  }

  /** A jam is for good: in every continuation each of its workers stands where it stood. */
  lemma {:induction false} JamForever(f: Fleet, group: set<nat>, ls: seq<FLabel>, i: nat)
    requires FInv(f) && Jam(f, group) && i in group && CanRun(f, ls)
    ensures i < |f.engs| == |Run(f, ls).engs|
    ensures Run(f, ls).engs[i].e.pc == f.engs[i].e.pc
    ensures i in Run(f, ls).inside <==> i in f.inside
    ensures i in f.inside ==> Run(f, ls).inside[i] == f.inside[i]
    decreases |ls|
  {
    if ls != [] {
      Unfolds(f, ls);
      var g := FDo(f, ls[0]);
      FStepInv(f, ls[0]);
      JamStep(f, group, ls[0]);
      JamStays(f, group, i, ls[0]);
      OthersStep(f, ls[0], i);
      JamForever(g, group, ls[1..], i);
    }
  }
}
