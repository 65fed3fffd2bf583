/**
 Runs in which a submission (flag, token and push) is undivided, and so is a context's idle test
 together with its stop callback. They are runs of the atomic steps in which no submission overlaps
 an idle window, so stop needs no further condition.
 */
module Quiescence {
  import opened Counting
  import opened StopToken
  import opened StopTheorems

  datatype Block = Single(l: Label) | Submission(a: nat, c: nat) | IdleTest(c: nat)

  predicate BEnabled(s: State, b: Block) {
    match b
    case Single(l) =>
      Enabled(s.f, l) && !OfSubmitter(l) && !l.TestWaits? && !l.TestQueue? && !l.FetchAnd? && !l.FetchSub?
    case Submission(a, c) => Enabled(s.f, FetchOr(a, c))
    case IdleTest(c) => c < |s.f.ctxs| && Enabled(s.f, TestWaits(c))
  }

  /** The atomic steps of a block. */
  function Steps(f: Fine, b: Block): seq<Label>
    requires BEnabled(State(f, {}), b)
  {
    match b
    case Single(l) => [l]
    case Submission(a, c) => [FetchOr(a, c), FetchAdd(a), Push(a)]
    case IdleTest(c) =>
      if f.ctxs[c].waits > 0 || f.ctxs[c].io > 0 then [TestWaits(c)]
      else if f.ctxs[c].queue > 0 then [TestWaits(c), TestQueue(c)]
      else [TestWaits(c), TestQueue(c), FetchAnd(c), FetchSub(c)]
  }

  lemma TwoSteps(s: State, l: Label, k: Label)
    requires Enabled(s.f, l) && Enabled(Step(s, l).f, k)
    ensures CanRun(s, [l, k]) && Run(s, [l, k]) == Step(Step(s, l), k)
  {
    var t := Step(s, l);
    assert [l, k][1..] == [k] && [k][1..] == [];
    assert CanRun(Step(t, k), []) && CanRun(t, [k]) && Run(t, [k]) == Step(t, k);
  }

  lemma {:induction false} Joins(s: State, ls: seq<Label>, ks: seq<Label>)
    requires CanRun(s, ls) && CanRun(Run(s, ls), ks)
    ensures CanRun(s, ls + ks) && Run(s, ls + ks) == Run(Run(s, ls), ks)
    decreases |ls|
  {
    var both := ls + ks;
    if ls == [] {
      assert both == ks;
    } else {
      var t, rest := Step(s, ls[0]), ls[1..];
      assert both[0] == ls[0] && both[1..] == rest + ks;
      Unfolds(s, t, ls);
      Joins(t, rest, ks);
      Unfolds(s, t, both);
    }
  }

  /** Nobody is submitting or in the middle of an idle test, and no window was overlapped. */
  ghost predicate Calm(s: State) {
    && s.hit == {} && (forall a :: SubmitOf(s.f, a).Away?)
    && forall c :: 0 <= c < |s.f.ctxs| ==> !InIdleTest(s.f.ctxs[c].pc)
  }

  /** What a block does between two calm states. */
  ghost predicate Does(s: State, b: Block, t: State)
    requires BEnabled(s, b)
  {
    && Calm(t) && |t.f.ctxs| == |s.f.ctxs|
    && (t.f.stops > s.f.stops <==>
          b.IdleTest? && Idle(s.f.ctxs[b.c]) && s.f.token == Bit(b.c in s.f.flags))
    && (t.f.stops > s.f.stops ==> t.f.token == 0)
  }

  lemma SingleDoes(s: State, b: Block)
    requires Calm(s) && BEnabled(s, b) && b.Single?
    ensures CanRun(s, Steps(s.f, b)) && Does(s, b, Run(s, Steps(s.f, b)))
  {
    var t := Step(s, b.l);
    assert [b.l][1..] == [] && CanRun(t, []);
    assert Run(s, Steps(s.f, b)) == t;
    forall a ensures SubmitOf(t.f, a).Away? { assert SubmitOf(s.f, a).Away?; }
  }

  lemma SubmissionDoes(s: State, b: Block)
    requires Calm(s) && BEnabled(s, b) && b.Submission?
    ensures CanRun(s, Steps(s.f, b)) && Does(s, b, Run(s, Steps(s.f, b)))
  {
    var s1 := Step(s, FetchOr(b.a, b.c));
    var s2 := Step(s1, FetchAdd(b.a));
    var t := Step(s2, Push(b.a));
    TwoSteps(s, FetchOr(b.a, b.c), FetchAdd(b.a));
    assert [Push(b.a)][1..] == [] && CanRun(t, []) && CanRun(s2, [Push(b.a)]);
    Joins(s, [FetchOr(b.a, b.c), FetchAdd(b.a)], [Push(b.a)]);
    assert [FetchOr(b.a, b.c), FetchAdd(b.a)] + [Push(b.a)] == Steps(s.f, b);
    forall a ensures SubmitOf(t.f, a).Away? { assert SubmitOf(s.f, a).Away?; }
  }

  lemma IdleTestDoes(s: State, b: Block)
    requires Calm(s) && BEnabled(s, b) && b.IdleTest?
    ensures CanRun(s, Steps(s.f, b)) && Does(s, b, Run(s, Steps(s.f, b)))
  {
    var c := b.c;
    var x := s.f.ctxs[c];
    var s1 := Step(s, TestWaits(c));
    forall a ensures SubmitOf(s1.f, a).Away? { assert SubmitOf(s.f, a).Away?; }
    if x.waits > 0 || x.io > 0 {
      assert [TestWaits(c)][1..] == [] && CanRun(s1, []);
    } else if x.queue > 0 {
      TwoSteps(s, TestWaits(c), TestQueue(c));
      var s2 := Step(s1, TestQueue(c));
      forall a ensures SubmitOf(s2.f, a).Away? { assert SubmitOf(s.f, a).Away?; }
    } else {
      IdleContextDoes(s, b);
    }
  }

  lemma IdleContextDoes(s: State, b: Block)
    requires Calm(s) && BEnabled(s, b) && b.IdleTest? && Idle(s.f.ctxs[b.c])
    ensures CanRun(s, Steps(s.f, b)) && Does(s, b, Run(s, Steps(s.f, b)))
  {
    var c := b.c;
    FindsNothing(s, c);
    TwoSteps(s, TestWaits(c), TestQueue(c));
    var s2 := Run(s, [TestWaits(c), TestQueue(c)]);
    assert s2 == s.(f := s.f.(ctxs := s.f.ctxs[c := Ctx(0, 0, 0, FoundIdle)]));
    forall a ensures SubmitOf(s2.f, a).Away? { assert SubmitOf(s.f, a).Away?; }
    CallsBack(s2, c);
    Joins(s, [TestWaits(c), TestQueue(c)], [FetchAnd(c), FetchSub(c)]);
    assert [TestWaits(c), TestQueue(c)] + [FetchAnd(c), FetchSub(c)] == Steps(s.f, b);
  }

  lemma FindsNothing(s: State, c: nat)
    requires Calm(s) && c < |s.f.ctxs| && s.f.ctxs[c] == Ctx(0, 0, 0, Batch(0))
    ensures var s1 := Step(s, TestWaits(c));
            Enabled(s1.f, TestQueue(c)) &&
            Step(s1, TestQueue(c)) == s.(f := s.f.(ctxs := s.f.ctxs[c := Ctx(0, 0, 0, FoundIdle)]))
  {
    var s1 := Step(s, TestWaits(c));
    forall a ensures a !in InFlight(s1.f, c) { assert SubmitOf(s.f, a).Away?; }
    assert InFlight(s1.f, c) == {};
    assert Step(s1, TestQueue(c)).f.ctxs == s.f.ctxs[c := Ctx(0, 0, 0, FoundIdle)];
  }

  /** The callback of an idle context, with nobody submitting. */
  lemma CallsBack(s: State, c: nat)
    requires c < |s.f.ctxs| && s.f.ctxs[c] == Ctx(0, 0, 0, FoundIdle) && s.hit == {}
    requires forall a :: SubmitOf(s.f, a).Away?
    requires forall d :: 0 <= d < |s.f.ctxs| && d != c ==> !InIdleTest(s.f.ctxs[d].pc)
    ensures var ls := [FetchAnd(c), FetchSub(c)];
            CanRun(s, ls) &&
            var t := Run(s, ls);
            && Calm(t) && |t.f.ctxs| == |s.f.ctxs|
            && (t.f.stops > s.f.stops <==> s.f.token == Bit(c in s.f.flags))
            && (t.f.stops > s.f.stops ==> t.f.token == 0)
  {
    TwoSteps(s, FetchAnd(c), FetchSub(c));
    var t := Run(s, [FetchAnd(c), FetchSub(c)]);
    forall a ensures SubmitOf(t.f, a).Away? { assert SubmitOf(s.f, a).Away?; }
  }

  lemma BlockDoes(s: State, b: Block)
    requires Calm(s) && BEnabled(s, b)
    ensures CanRun(s, Steps(s.f, b)) && Does(s, b, Run(s, Steps(s.f, b)))
  {
    match b
    case Single(_) => SingleDoes(s, b);
    case Submission(_, _) => SubmissionDoes(s, b);
    case IdleTest(_) => IdleTestDoes(s, b);
  }

  // ---- runs of blocks ----

  ghost predicate CanRunBlocks(s: State, bs: seq<Block>)
    decreases |bs|
  {
    bs == [] ||
    (BEnabled(s, bs[0]) && CanRun(s, Steps(s.f, bs[0])) && CanRunBlocks(Run(s, Steps(s.f, bs[0])), bs[1..]))
  }

  ghost function RunBlocks(s: State, bs: seq<Block>): State
    requires CanRunBlocks(s, bs)
    decreases |bs|
  {
    if bs == [] then s else RunBlocks(Run(s, Steps(s.f, bs[0])), bs[1..])
  }

  /** Runs of blocks are runs of atomic steps, and calm in between. */
  lemma {:induction false} BlocksAreRuns(n: nat, s: State, bs: seq<Block>)
    requires Reached(n, s) && Calm(s) && CanRunBlocks(s, bs)
    ensures Reached(n, RunBlocks(s, bs)) && Calm(RunBlocks(s, bs))
    decreases |bs|
  {
    if bs != [] {
      BlockDoes(s, bs[0]);
      var ls :| CanRun(Start(n), ls) && s == Run(Start(n), ls);
      Joins(Start(n), ls, Steps(s.f, bs[0]));
      BlocksAreRuns(n, Run(s, Steps(s.f, bs[0])), bs[1..]);
    }
  }

  lemma StartCalm(n: nat)
    ensures Reached(n, Start(n)) && Calm(Start(n))
  {
    assert CanRun(Start(n), []) && Run(Start(n), []) == Start(n);
  }

  /** A block calls stop exactly if it is the test of an idle context and every other flag is clear;
      and then every context is idle and nobody is submitting. */
  lemma StopMeansAllIdle(n: nat, bs: seq<Block>, b: Block)
    requires CanRunBlocks(Start(n), bs) && BEnabled(RunBlocks(Start(n), bs), b)
    ensures var s := RunBlocks(Start(n), bs);
            && CanRun(s, Steps(s.f, b))
            && var t := Run(s, Steps(s.f, b));
               && (t.f.stops > s.f.stops <==> b.IdleTest? && Idle(s.f.ctxs[b.c]) && s.f.flags <= {b.c})
               && (t.f.stops > s.f.stops ==> AllQuiet(t.f))
               && forall c: nat :: c < n && c !in t.f.flags ==> c < |t.f.ctxs| && Idle(t.f.ctxs[c])
  {
    StartCalm(n);
    BlocksAreRuns(n, Start(n), bs);
    var s := RunBlocks(Start(n), bs);
    BlockDoes(s, b);
    var t := Run(s, Steps(s.f, b));
    var ls :| CanRun(Start(n), ls) && s == Run(Start(n), ls);
    Joins(Start(n), ls, Steps(s.f, b));
    CalmToken(n, s);
    CalmToken(n, t);
    if b.IdleTest? { AtMostOneFlag(s.f.flags, b.c); }
    forall c: nat | c < n && c !in t.f.flags ensures c < |t.f.ctxs| && Idle(t.f.ctxs[c]) {
      ClearFlagMeansIdle(n, t, c);
    }
    if t.f.stops > s.f.stops { FlagsClear(t); }
  }

  lemma CalmToken(n: nat, s: State)
    requires Reached(n, s) && Calm(s)
    ensures Inv(s) && |s.f.ctxs| == n && s.f.token == |s.f.flags| && (s.f.token == 0 ==> s.f.flags == {})
  {
    EveryRun(n, s);
    forall a ensures a !in Adding(s.f) { assert SubmitOf(s.f, a).Away?; }
    assert Adding(s.f) == {} && Subtracting(s.f) == {};
  }
}
