/**
 What a context's queue and counters are made of, read off the steps of a run of the scheduler.
 */
module StopLedger {
  import opened Counting
  import opened StopToken
  import opened StopTheorems

  /** The tasks a step brings to context c: a submission begins, a suspended task is handed over, a
      task submits locally, or completions are handled; and the tasks it takes. */
  function Brought(l: Label, c: nat): int {
    match l
    case FetchOr(_, d) => Bit(d == c)
    case HandOff(d) => Bit(d == c)
    case SubmitLocal(d) => Bit(d == c)
    case PollDone(d, k) => if d == c then k else 0
    case StartTask(d) => -Bit(d == c)
    case _ => 0
  }

  function WaitsBy(l: Label, c: nat): int {
    match l
    case RegisterWait(d) => Bit(d == c)
    case UnregisterWait(d) => -Bit(d == c)
    case _ => 0
  }

  function IoBy(l: Label, c: nat): int {
    match l
    case StartIo(d) => Bit(d == c)
    case PollDone(d, k) => if d == c then 0 - k else 0
    case _ => 0
  }

  function AllBrought(ls: seq<Label>, c: nat): int {
    if ls == [] then 0 else Brought(ls[0], c) + AllBrought(ls[1..], c)
  }

  function AllWaits(ls: seq<Label>, c: nat): int {
    if ls == [] then 0 else WaitsBy(ls[0], c) + AllWaits(ls[1..], c)
  }

  function AllIo(ls: seq<Label>, c: nat): int {
    if ls == [] then 0 else IoBy(ls[0], c) + AllIo(ls[1..], c)
  }

  lemma FlyingSize(f: Fine, l: Label, c: nat)
    requires Enabled(f, l)
    ensures |InFlight(Do(f, l), c)| == |InFlight(f, c)| +
              match l
              case FetchOr(_, d) => Bit(d == c)
              case Push(a) => -Bit(SubmitOf(f, a).c == c)
              case _ => 0
  {
    FlyingStep(f, l, c);
    match l
    case FetchOr(a, d) => OneMoves(InFlight(f, c), InFlight(Do(f, l), c), a);
    case Push(a) => OneMoves(InFlight(f, c), InFlight(Do(f, l), c), a);
    case _ =>
  }

  lemma TaskStep(f: Fine, l: Label, c: nat)
    requires Enabled(f, l) && c < |f.ctxs|
    ensures var g := Do(f, l);
            && |g.ctxs| == |f.ctxs|
            && g.ctxs[c].queue + |InFlight(g, c)| == f.ctxs[c].queue + |InFlight(f, c)| + Brought(l, c)
            && g.ctxs[c].waits == f.ctxs[c].waits + WaitsBy(l, c)
            && g.ctxs[c].io == f.ctxs[c].io + IoBy(l, c)
  {
    FlyingSize(f, l, c);
  }

  /** Over every run: what is queued at a context or on its way to it is what was brought there and
      not taken; its waits and its I/O are those begun and not ended. */
  lemma {:induction false} TasksConserved(s: State, ls: seq<Label>, c: nat)
    requires CanRun(s, ls) && c < |s.f.ctxs|
    ensures var f, g := s.f, Run(s, ls).f;
            && |g.ctxs| == |f.ctxs|
            && g.ctxs[c].queue + |InFlight(g, c)| == f.ctxs[c].queue + |InFlight(f, c)| + AllBrought(ls, c)
            && g.ctxs[c].waits == f.ctxs[c].waits + AllWaits(ls, c)
            && g.ctxs[c].io == f.ctxs[c].io + AllIo(ls, c)
    decreases |ls|
  {
    if ls != [] {
      var t := Step(s, ls[0]);
      Unfolds(s, t, ls);
      TaskStep(s.f, ls[0], c);
      TasksConserved(t, ls[1..], c);
    }
  }

  // ---- when a worker polls ----

  /** A worker goes to poll exactly after an idle test that found waits or I/O, or after its stop
      callback; it goes back to the loop test exactly after finding a task in its idle test, or after
      a poll. */
  lemma PollsExactly(f: Fine, l: Label, c: nat)
    requires Enabled(f, l) && c < |f.ctxs|
    ensures var x, y := f.ctxs[c], Do(f, l).ctxs[c];
            && (!x.pc.Poll? ==> (y.pc.Poll? <==> l == FetchSub(c) || (l == TestWaits(c) && (x.waits > 0 || x.io > 0))))
            && (!x.pc.Top? ==> (y.pc.Top? <==> (l.PollDone? && l.c == c) || (l == TestQueue(c) && x.queue > 0)))
  {
  }

  // ---- a pass runs what was there ----

  function Taken(ls: seq<Label>, c: nat): int {
    if ls == [] then 0 else Bit(ls[0] == StartTask(c)) + Taken(ls[1..], c)
  }

  predicate InPass(x: Ctx) {
    x.pc.Batch? || x.pc.Running?
  }

  lemma PassStep(f: Fine, l: Label, c: nat)
    requires Enabled(f, l) && c < |f.ctxs| && InPass(f.ctxs[c]) && l != TestWaits(c)
    ensures var g := Do(f, l);
            c < |g.ctxs| && InPass(g.ctxs[c]) && g.ctxs[c].pc.left == f.ctxs[c].pc.left - Bit(l == StartTask(c))
  {
  }

  lemma {:induction false} PassCounts(s: State, ls: seq<Label>, c: nat)
    requires CanRun(s, ls) && c < |s.f.ctxs| && InPass(s.f.ctxs[c]) && TestWaits(c) !in ls
    ensures var g := Run(s, ls).f;
            c < |g.ctxs| && InPass(g.ctxs[c]) && g.ctxs[c].pc.left == s.f.ctxs[c].pc.left - Taken(ls, c)
    decreases |ls|
  {
    if ls != [] {
      var t := Step(s, ls[0]);
      assert ls[0] in ls && forall l :: l in ls[1..] ==> l in ls;
      Unfolds(s, t, ls);
      PassStep(s.f, ls[0], c);
      PassCounts(t, ls[1..], c);
    }
  }

  /** Between the start of a pass and the idle test that follows it, the worker runs exactly as many
      tasks as were queued when the pass began. */
  lemma PassTakesAll(s: State, ls: seq<Label>, c: nat)
    requires Enabled(s.f, Snapshot(c)) && CanRun(Step(s, Snapshot(c)), ls) && TestWaits(c) !in ls
    requires Enabled(Run(Step(s, Snapshot(c)), ls).f, TestWaits(c))
    ensures Taken(ls, c) == s.f.ctxs[c].queue
  {
    PassCounts(Step(s, Snapshot(c)), ls, c);
  }
}
