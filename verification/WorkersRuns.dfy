/**
 Runs, for every number of workers, in which workers block for good on full counters: one that
 submits to itself, one that calls stop, and one that hands a task to a blocked one.
 */
module WorkersRuns {
  import opened Counting
  import opened Engine
  import opened EngineProgress
  import opened Workers
  import opened WorkersProgress

  lemma {:induction false} OneMore(f: Fleet, ls: seq<FLabel>, l: FLabel)
    requires CanRun(f, ls) && FEnabled(Run(f, ls), l)
    ensures CanRun(f, ls + [l]) && Run(f, ls + [l]) == FDo(Run(f, ls), l)
    decreases |ls|
  {
    var both := ls + [l];
    if ls == [] {
      assert both == [l] && [l][1..] == [];
      assert CanRun(FDo(f, l), []);
    } else {
      assert both[0] == ls[0] && both[1..] == ls[1..] + [l];
      Unfolds(f, ls);
      OneMore(FDo(f, ls[0]), ls[1..], l);
      Unfolds(f, both);
    }
  }

  lemma Next(n: nat, f: Fleet, l: FLabel)
    requires Reached(n, f) && FEnabled(f, l)
    ensures Reached(n, FDo(f, l))
  {
    var ls :| CanRun(FStart(n), ls) && f == Run(FStart(n), ls);
    OneMore(FStart(n), ls, l);
  }

  /** Engine i stands at s. */
  function With(f: Fleet, i: nat, s: EngState): Fleet
    requires i < |f.engs|
  {
    f.(engs := f.engs[i := s])
  }

  /** A step of engine i, with its outcome written out. */
  lemma Then(n: nat, f: Fleet, i: nat, s: EngState, l: Label, t: EngState)
    requires i < |f.engs| == n && Reached(n, With(f, i, s)) && Enabled(s, l) && Step(s, l) == t
    requires (OfWorker(l) ==> i !in f.inside) && (ByThread(l) ==> l.a >= n)
    ensures Reached(n, With(f, i, t))
  {
    Next(n, With(f, i, s), Own(i, l));
    assert FDo(With(f, i, s), Own(i, l)) == With(f, i, t);
  }

  /** An engine with k unread wake-ups and no I/O. */
  function Fed(k: nat, queue: nat, pc: Pc): EngState {
    EngState(Eng(queue, TASK_FLAG * k, {}, false, {}, 0, 0, 0, 0, 0, pc), Tally(0, 0, 0, k, 0, 0))
  }

  // ---- a task that submits itself again and again ----

  /** A first task is submitted from outside. */
  lemma Begins(n: nat, f: Fleet, i: nat)
    requires i < |f.engs| == n && Reached(n, With(f, i, Fed(0, 0, Top)))
    ensures Reached(n, With(f, i, Fed(1, 1, Top)))
  {
    var s := Fed(0, 0, Top);
    var pushed := s.(e := s.e.(queue := 1, wakers := {n}));
    assert {} + {n} == {n} && {n} - {n} == {};
    Then(n, f, i, s, PushTask(n), pushed);
    assert Step(pushed, WakeTask(n)) == Fed(1, 1, Top);
    Then(n, f, i, pushed, WakeTask(n), Fed(1, 1, Top));
  }

  lemma TakesTask(n: nat, f: Fleet, i: nat, k: nat)
    requires i < |f.engs| == n && i !in f.inside && Reached(n, With(f, i, Fed(k, 1, Top)))
    ensures Reached(n, With(f, i, Fed(k, 0, Exec(0))))
  {
    Then(n, f, i, Fed(k, 1, Top), Snapshot, Fed(k, 1, Batch(1)));
    Then(n, f, i, Fed(k, 1, Batch(1)), PopTask, Fed(k, 0, Exec(0)));
  }

  /** No wait and no I/O, but a task: the loop continues without reading the counter. */
  lemma SkipsRead(n: nat, f: Fleet, i: nat, k: nat)
    requires i < |f.engs| == n && i !in f.inside && k < FULL && Reached(n, With(f, i, Fed(k, 0, Exec(0))))
    ensures Reached(n, With(f, i, Fed(k + 1, 1, Top)))
  {
    Then(n, f, i, Fed(k, 0, Exec(0)), OwnPush, Fed(k, 1, ExecMid(0)));
    Then(n, f, i, Fed(k, 1, ExecMid(0)), OwnWake, Fed(k + 1, 1, Exec(0)));
    Then(n, f, i, Fed(k + 1, 1, Exec(0)), EndTask, Fed(k + 1, 1, Batch(0)));
    Then(n, f, i, Fed(k + 1, 1, Batch(0)), EndPass(true), Fed(k + 1, 1, Top));
  }

  /** The task submits itself once more. */
  lemma Round(n: nat, f: Fleet, i: nat, k: nat)
    requires i < |f.engs| == n && i !in f.inside && k < FULL && Reached(n, With(f, i, Fed(k, 1, Top)))
    ensures FedTo(n, f, i, k + 1)
  {
    TakesTask(n, f, i, k);
    SkipsRead(n, f, i, k);
  }

  ghost predicate FedTo(n: nat, f: Fleet, i: nat, k: nat)
    requires i < |f.engs|
  {
    Reached(n, With(f, i, Fed(k, 1, Top)))
  }

  lemma {:induction false} Climbs(p: nat -> bool, k: nat)
    requires 1 <= k <= FULL && p(1) && forall j: nat :: 1 <= j < FULL && p(j) ==> p(j + 1)
    ensures p(k)
  {
    if k > 1 { Climbs(p, k - 1); }
  }

  lemma Rounds(n: nat, f: Fleet, i: nat)
    requires i < |f.engs| == n && i !in f.inside && FedTo(n, f, i, 1)
    ensures FedTo(n, f, i, FULL)
  {
    forall j: nat | 1 <= j < FULL && FedTo(n, f, i, j) ensures FedTo(n, f, i, j + 1) { Round(n, f, i, j); }
    Climbs((j: nat) => FedTo(n, f, i, j), FULL);
  }

  lemma RunsFull(n: nat, f: Fleet, i: nat)
    requires i < |f.engs| == n && i !in f.inside && Reached(n, With(f, i, Fed(0, 0, Top)))
    ensures Reached(n, With(f, i, Fed(FULL, 0, Exec(0))))
  {
    Begins(n, f, i);
    Rounds(n, f, i);
    TakesTask(n, f, i, FULL);
  }

  lemma StartsFresh(n: nat, i: nat)
    requires i < n
    ensures Reached(n, FStart(n)) && FStart(n) == With(FStart(n), i, Fed(0, 0, Top))
  {
    assert CanRun(FStart(n), []) && Run(FStart(n), []) == FStart(n);
    assert FStart(n).engs[i := Fed(0, 0, Top)] == FStart(n).engs;
  }

  /** Worker 0 of n is about to write to its own full counter. */
  function SelfBlocked(n: nat): Fleet
    requires n > 0
  {
    With(FStart(n), 0, Fed(FULL, 1, ExecMid(0)))
  }

  lemma FillsItself(n: nat)
    requires n > 0
    ensures Reached(n, SelfBlocked(n))
  {
    var f := FStart(n);
    StartsFresh(n, 0);
    RunsFull(n, f, 0);
    Then(n, f, 0, Fed(FULL, 0, Exec(0)), OwnPush, Fed(FULL, 1, ExecMid(0)));
  }

  /** A single task that submits itself again each time it runs fills the counter, because the loop
      never reads it; its worker then blocks on its own write for good, with the task queued. */
  lemma SelfSubmissionBlocks(n: nat)
    requires n > 0
    ensures exists f :: Reached(n, f) && f.engs != [] && f.engs[0].e.queue == 1 && f.engs[0].t.wakes == FULL &&
                        forall ls :: CanRun(f, ls) ==> Run(f, ls).engs != [] && Run(f, ls).engs[0].e.pc == ExecMid(0)
  {
    var f := SelfBlocked(n);
    FillsItself(n);
    EveryRun(n, f);
    RoomWhen(f.engs[0]);
    assert WritesFull(f, 0, 0, {0});
    forall ls | CanRun(f, ls) ensures Run(f, ls).engs != [] && Run(f, ls).engs[0].e.pc == ExecMid(0) {
      JamForever(f, {0}, ls, 0);
    }
  }

  // ---- a worker that hands a task to a blocked one ----

  /** Worker 1 runs a task and has pushed one to worker 0, which is blocked. */
  function BothBlocked(n: nat): Fleet
    requires n > 1
  {
    var f := With(SelfBlocked(n), 1, Fed(1, 0, Exec(0)));
    var s := f.engs[0];
    With(f, 0, s.(e := s.e.(queue := 2, wakers := {1}))).(inside := map[1 := Waking(0)])
  }

  lemma HandsToBlocked(n: nat)
    requires n > 1
    ensures Reached(n, BothBlocked(n))
  {
    var f := SelfBlocked(n);
    FillsItself(n);
    assert With(f, 1, Fed(0, 0, Top)).engs == f.engs;
    Begins(n, f, 1);
    TakesTask(n, f, 1, 1);
    var g := With(f, 1, Fed(1, 0, Exec(0)));
    Next(n, g, PushTo(1, 0));
    assert {} + {1} == {1} && map[][1 := Waking(0)] == map[1 := Waking(0)];
    assert FDo(g, PushTo(1, 0)) == BothBlocked(n);
  }

  /** In every continuation worker i is about to do p. */
  ghost predicate ForeverInside(f: Fleet, i: nat, p: Inside) {
    forall ls :: CanRun(f, ls) ==> i in Run(f, ls).inside && Run(f, ls).inside[i] == p
  }

  lemma JamInside(f: Fleet, group: set<nat>, i: nat, p: Inside)
    requires FInv(f) && Jam(f, group) && i in group && i in f.inside && f.inside[i] == p
    ensures ForeverInside(f, i, p)
  {
    forall ls | CanRun(f, ls) ensures i in Run(f, ls).inside && Run(f, ls).inside[i] == p {
      JamForever(f, group, ls, i);
    }
  }

  /** One worker blocked on its own counter blocks, for good, any worker that hands it a task. */
  lemma OneBlocksAnother(n: nat)
    requires n > 1
    ensures exists f :: Reached(n, f) && |f.engs| == n && f.engs[0].e.pc == ExecMid(0) && f.engs[0].t.wakes == FULL &&
                        ForeverInside(f, 1, Waking(0))
  {
    HandsToBlocked(n);
    BothJam(n);
    BothForever(n, BothBlocked(n));
  }

  lemma BothForever(n: nat, f: Fleet)
    requires Reached(n, f) && Jam(f, {0, 1}) && f.inside == map[1 := Waking(0)]
    ensures ForeverInside(f, 1, Waking(0))
  {
    EveryRun(n, f);
    JamInside(f, {0, 1}, 1, Waking(0));
  }

  lemma BothJam(n: nat)
    requires n > 1
    ensures Jam(BothBlocked(n), {0, 1}) && BothBlocked(n).inside == map[1 := Waking(0)]
    ensures |BothBlocked(n).engs| == n && BothBlocked(n).engs[0].e.pc == ExecMid(0)
    ensures BothBlocked(n).engs[0].t.wakes == FULL
  {
    var f := BothBlocked(n);
    assert !RoomToWake(f.engs[0].e);
    assert WritesFull(f, 0, 0, {0, 1}) && WritesFull(f, 1, 0, {0, 1});
  }

  // ---- a worker that calls stop ----

  /** The first m contexts have not started; the others went idle one after the other. */
  ghost predicate Remaining(f: Fleet, n: nat, m: nat) {
    && 0 < m <= n == |f.engs| && f.inside == map[] && f.flags == Contexts(m) && f.token == m
    && (forall i :: 0 <= i < m ==> f.engs[i] == Fed(0, 0, Top))
    && (forall i :: 0 <= i < n ==> !f.engs[i].e.stop)
  }

  lemma GoesIdle(n: nat, f: Fleet, m: nat) returns (g: Fleet)
    requires Reached(n, f) && Remaining(f, n, m) && m > 1
    ensures Reached(n, g) && Remaining(g, n, m - 1)
  {
    var i := m - 1;
    assert With(f, i, Fed(0, 0, Top)).engs == f.engs;
    Then(n, f, i, Fed(0, 0, Top), Snapshot, Fed(0, 0, Batch(0)));
    var h := With(f, i, Fed(0, 0, Batch(0)));
    Next(n, h, Callback(i));
    g := FDo(h, Callback(i));
    assert Contexts(m) - {i} == Contexts(i);
  }

  lemma {:induction false} OnlyFirst(n: nat, f: Fleet, m: nat) returns (g: Fleet)
    requires Reached(n, f) && Remaining(f, n, m)
    ensures Reached(n, g) && Remaining(g, n, 1)
    decreases m
  {
    g := f;
    if m > 1 {
      g := GoesIdle(n, f, m);
      g := OnlyFirst(n, g, m - 1);
    }
  }

  /** Nobody but worker 0 does anything besides its loop, and no other context is asked to stop. */
  ghost predicate FirstAlone(f: Fleet, n: nat, p: Inside) {
    0 < n == |f.engs| && f.inside == map[0 := p] && forall i :: 0 < i < n ==> !f.engs[i].e.stop
  }

  /** The last task of worker 0 returns without submitting; the worker finds itself idle, with a full
      counter, and is the last context to do so. */
  lemma CallsStop(n: nat, f: Fleet) returns (g: Fleet)
    requires Remaining(f, n, 1) && Reached(n, With(f, 0, Fed(FULL, 0, Exec(0))))
    ensures Reached(n, g) && FirstAlone(g, n, Asking(0)) && g.engs[0] == Fed(FULL, 0, Poll)
  {
    Then(n, f, 0, Fed(FULL, 0, Exec(0)), EndTask, Fed(FULL, 0, Batch(0)));
    g := With(f, 0, Fed(FULL, 0, Batch(0)));
    LastCallback(n, g);
    Next(n, g, Callback(0));
    g := FDo(g, Callback(0));
  }

  lemma LastCallback(n: nat, f: Fleet)
    requires 0 < n == |f.engs| && f.inside == map[] && f.flags == Contexts(1) && f.token == 1
    requires f.engs[0] == Fed(FULL, 0, Batch(0)) && forall i :: 0 < i < n ==> !f.engs[i].e.stop
    ensures FEnabled(f, Callback(0))
    ensures var g := FDo(f, Callback(0)); FirstAlone(g, n, Asking(0)) && g.engs[0] == Fed(FULL, 0, Poll)
  {
    assert 0 in Contexts(1);
    assert Step(Fed(FULL, 0, Batch(0)), EndPass(false)) == Fed(FULL, 0, Poll);
    assert FDo(f, Callback(0)).inside == map[0 := Asking(0)];
  }

  lemma AsksItself(n: nat, f: Fleet) returns (g: Fleet)
    requires Reached(n, f) && FirstAlone(f, n, Asking(0)) && f.engs[0] == Fed(FULL, 0, Poll)
    ensures Reached(n, g) && FirstAlone(g, n, Stopping(0))
    ensures g.engs[0].e.stop && g.engs[0].e.queue == 0 && g.engs[0].t.wakes == FULL && !RoomToWake(g.engs[0].e)
  {
    Next(n, f, Ask(0));
    g := FDo(f, Ask(0));
    assert g.engs[0] == Step(Fed(FULL, 0, Poll), RequestStop(0));
  }

  /** When the last context finds itself idle with a full counter, stop asks that very context first
      and blocks in the write: it never returns, and no other context is ever told. */
  lemma StopHangs(n: nat)
    requires n > 0
    ensures exists f :: Reached(n, f) && FirstAlone(f, n, Stopping(0)) && f.engs[0].e.stop && f.engs[0].e.queue == 0 &&
                        ForeverInside(f, 0, Stopping(0))
  {
    StartsFresh(n, 0);
    var f := OnlyFirst(n, FStart(n), n);
    assert With(f, 0, Fed(0, 0, Top)).engs == f.engs;
    RunsFull(n, f, 0);
    f := CallsStop(n, f);
    f := AsksItself(n, f);
    EveryRun(n, f);
    assert WritesFull(f, 0, 0, {0});
    JamInside(f, {0}, 0, Stopping(0));
  }
}
