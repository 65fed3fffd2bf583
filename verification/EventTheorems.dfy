/** What the event guarantees over every run. */
module EventTheorems {
  import opened Sync
  import opened Counting
  import opened Event

  ghost predicate ECan(ctx: nat -> nat, e: EMem, ls: seq<ELabel>)
    decreases |ls|
  {
    ls == [] || (EEnabled(e, ls[0]) && ECan(ctx, EDo(ctx, e, ls[0]), ls[1..]))
  }

  ghost function ERun(ctx: nat -> nat, s: EState, ls: seq<ELabel>): EState
    requires ECan(ctx, s.e, ls)
    decreases |ls|
  {
    if ls == [] then s else ERun(ctx, EStep(ctx, s, ls[0]), ls[1..])
  }

  lemma {:induction false} ERunInv(ctx: nat -> nat, initial: bool, s: EState, ls: seq<ELabel>)
    requires EInv(ctx, initial, s) && ECan(ctx, s.e, ls)
    ensures EInv(ctx, initial, ERun(ctx, s, ls))
    decreases |ls|
  {
    if ls != [] {
      EStepInv(ctx, initial, s, ls[0]);
      ERunInv(ctx, initial, EStep(ctx, s, ls[0]), ls[1..]);
    }
  }

  ghost predicate Reached(ctx: nat -> nat, initial: bool, s: EState) {
    exists ls :: ECan(ctx, EInit(initial), ls) && s == ERun(ctx, EStart(initial), ls)
  }

  lemma EveryRun(ctx: nat -> nat, initial: bool, s: EState)
    requires Reached(ctx, initial, s)
    ensures EInv(ctx, initial, s)
  {
    var ls :| ECan(ctx, EInit(initial), ls) && s == ERun(ctx, EStart(initial), ls);
    EStartInv(ctx, initial);
    ERunInv(ctx, initial, EStart(initial), ls);
  }

  /** Resumed at most once, resumed exactly when it slept and was released, never resumed when it
      observed the set state itself. */
  lemma ExactlyOnce(ctx: nat -> nat, initial: bool, s: EState, w: nat)
    requires Reached(ctx, initial, s)
    ensures var p, n := PcOf(s.e, w), multiset(s.h.resumed)[w];
            && (p.Queued? || (p.Finished? && p.resumed) ==> n == 1)
            && (!p.Queued? && !(p.Finished? && p.resumed) ==> n == 0)
  {
    EveryRun(ctx, initial, s);
    ResumedOnce(s, w);
  }

  lemma ResumedOnce(s: EState, w: nat)
    requires Order(s)
    ensures multiset(s.h.resumed)[w] == if w in s.h.resumed then 1 else 0
  {
    var r, q := s.h.resumed, s.h.pushed;
    forall i, j | 0 <= i < j < |r| ensures r[i] != r[j] {
      assert r[i] == q[|q| - 1 - i] && r[j] == q[|q| - 1 - j];
    }
    DistinctOnce(r, w);
    assert w in r <==> w in multiset(r);
  }

  lemma {:induction false} DistinctOnce(r: seq<nat>, w: nat)
    requires Distinct(r)
    ensures multiset(r)[w] <= 1
  {
    if r != [] {
      var n := |r| - 1;
      assert r == r[..n] + [r[n]];
      DistinctOnce(r[..n], w);
      assert r[n] !in r[..n];
    }
  }

  /** Nobody stops waiting before the event is set. */
  lemma NeverBeforeSet(ctx: nat -> nat, initial: bool, s: EState, w: nat)
    requires Reached(ctx, initial, s) && !s.e.word.IsSet?
    ensures s.h.resumed == [] && !PcOf(s.e, w).Observed? && !PcOf(s.e, w).Queued? && !PcOf(s.e, w).Finished?
  {
    EveryRun(ctx, initial, s);
  }

  /** Only the call that found the event unset resumes anybody, the newest first, and when it has
      returned nobody is left asleep. */
  lemma FirstSetResumesAll(ctx: nat -> nat, initial: bool, s: EState, n: nat, w: nat)
    requires Reached(ctx, initial, s)
    ensures SetterOf(s.e, n).Draining? || SetterOf(s.e, n).Moving? ==> s.h.first == Some(n)
    ensures SetterOf(s.e, n).Draining? && SetterOf(s.e, n).cur.Some? ==> PcOf(s.e, SetterOf(s.e, n).cur.v).Asleep?
    ensures s.h.first == Some(n) && (SetterOf(s.e, n).Calm? || SetterOf(s.e, n).Stored?) ==>
              !PcOf(s.e, w).Asleep? && s.h.resumed == Newest(s.h.pushed)
  {
    EveryRun(ctx, initial, s);
    assert SetterOk(s, n);
    if SetterOf(s.e, n).Draining? && SetterOf(s.e, n).cur.Some? { NextIsAsleep(s, n); }
    if s.h.first == Some(n) && (SetterOf(s.e, n).Calm? || SetterOf(s.e, n).Stored?) {
      AllResumed(s, w);
    }
  }

  function Newest(q: seq<nat>): (r: seq<nat>)
    ensures |r| == |q|
  {
    seq(|q|, i requires 0 <= i < |q| => q[|q| - 1 - i])
  }

  lemma AllResumed(s: EState, w: nat)
    requires Stages(s) && Order(s) && |s.h.resumed| == |s.h.pushed|
    ensures s.h.resumed == Newest(s.h.pushed) && !PcOf(s.e, w).Asleep?
  {
    var q := s.h.pushed;
    if w in q {
      var i :| 0 <= i < |q| && q[i] == w;
      assert s.h.resumed[|q| - 1 - i] == w;
    }
  }

  /** Once set the event stays set: no later run pushes anybody or changes which call set it, and
      any number of further calls resumes nobody a second time. */
  lemma {:induction false} SetIsFinal(ctx: nat -> nat, s: EState, ls: seq<ELabel>)
    requires s.e.word.IsSet? && ECan(ctx, s.e, ls)
    ensures var s' := ERun(ctx, s, ls);
            s'.e.word.IsSet? && s'.h.pushed == s.h.pushed && s'.h.first == s.h.first && s.h.resumed <= s'.h.resumed
    decreases |ls|
  {
    if ls != [] { SetIsFinal(ctx, EStep(ctx, s, ls[0]), ls[1..]); }
  }

  /** When the event is set and only new calls could still do something, every awaiter that ever
      started has finished. */
  lemma NobodyIsForgotten(ctx: nat -> nat, initial: bool, s: EState, w: nat)
    requires Reached(ctx, initial, s) && s.e.word.IsSet?
    requires forall l :: EEnabled(s.e, l) ==> l.Count? || l.Store?
    ensures PcOf(s.e, w).Fresh? || PcOf(s.e, w).Finished?
  {
    EveryRun(ctx, initial, s);
    assert !EEnabled(s.e, Test(w)) && !EEnabled(s.e, LoadState(w)) && !EEnabled(s.e, SwapFail(w)) &&
        !EEnabled(s.e, Finish(w));
    if PcOf(s.e, w).Asleep? {
      assert w in s.h.pushed;
      var n := s.h.first.v;
      assert !EEnabled(s.e, TakeAll(n)) && !EEnabled(s.e, Submit(n)) && !EEnabled(s.e, Advance(n));
      AllResumed(s, w);
    }
  }

  /** Once the event is set, a waiter that has not slept can only find that out: its test and its load
      each let it go on, and its exchange cannot succeed. While the event is unset neither does. */
  lemma FindsOutExactly(ctx: nat -> nat, s: EState, l: ELabel)
    requires EEnabled(s.e, l) && (l.Test? || l.LoadState? || l.SwapOk?)
    ensures s.e.word.IsSet? <==> PcOf(EDo(ctx, s.e, l), l.w).Observed?
    ensures l.SwapOk? ==> PcOf(EDo(ctx, s.e, l), l.w).Asleep?
  {
  }

  // ---- values ----

  /** In every run an awaiter that has finished was shown a value that some step stored. */
  ghost predicate ShowsValues(ctx: nat -> nat, initial: bool) {
    forall ls, w: nat :: ECan(ctx, EInit(initial), ls) && PcOf(ERun(ctx, EStart(initial), ls).e, w).Finished? ==>
      Shown(ls, PcOf(ERun(ctx, EStart(initial), ls).e, w).got)
  }

  ghost predicate Shown(ls: seq<ELabel>, got: Opt<int>) {
    got.Some? && exists n :: Store(n, got.v) in ls
  }

  lemma {:induction false} ValuesAreArguments(ctx: nat -> nat, s: EState, ls: seq<ELabel>, v: int)
    requires ECan(ctx, s.e, ls) && v in ERun(ctx, s, ls).h.values
    ensures v in s.h.values || exists n :: Store(n, v) in ls
    decreases |ls|
  {
    if ls != [] {
      ValuesAreArguments(ctx, EStep(ctx, s, ls[0]), ls[1..], v);
      if v in EStep(ctx, s, ls[0]).h.values && v !in s.h.values {
        assert ls[0] == Store(ls[0].n, v) && ls[0] in ls;
      } else if v !in s.h.values {
        var n :| Store(n, v) in ls[1..];
        assert Store(n, v) in ls;
      }
    }
  }

  /** Every awaiter is shown a value that was passed to `set`, exactly for events that are not
      constructed set. */
  lemma ValuesShownExactlyIfUnset(ctx: nat -> nat, initial: bool)
    ensures ShowsValues(ctx, initial) <==> !initial
  {
    if initial {
      ShowsNothing(ctx);
    } else {
      forall ls, w: nat | ECan(ctx, EInit(false), ls) && PcOf(ERun(ctx, EStart(false), ls).e, w).Finished?
        ensures Shown(ls, PcOf(ERun(ctx, EStart(false), ls).e, w).got)
      {
        var s := ERun(ctx, EStart(false), ls);
        assert Reached(ctx, false, s);
        EveryRun(ctx, false, s);
        ValuesAreArguments(ctx, EStart(false), ls, PcOf(s.e, w).got.v);
      }
    }
  }

  /** An awaiter of an event constructed set finishes before anything is stored. */
  lemma ShowsNothing(ctx: nat -> nat)
    ensures !ShowsValues(ctx, true)
  {
    var ls := [Count(0), Test(0), Finish(0)];
    var s0 := EStart(true);
    var s1 := EStep(ctx, s0, Count(0));
    var s2 := EStep(ctx, s1, Test(0));
    var s3 := EStep(ctx, s2, Finish(0));
    assert ls[1..] == [Test(0), Finish(0)] && ls[1..][1..] == [Finish(0)] && ls[1..][1..][1..] == [];
    assert ECan(ctx, s3.e, []) && ECan(ctx, s2.e, [Finish(0)]) && ECan(ctx, s1.e, [Test(0), Finish(0)]);
    assert ERun(ctx, s0, ls) == s3 && PcOf(s3.e, 0) == Finished(false, None);
    assert ECan(ctx, EInit(true), ls) && !Shown(ls, PcOf(ERun(ctx, EStart(true), ls).e, 0).got);
  }

  /** The argument of the last store among the steps ls. */
  function LastStored(ls: seq<ELabel>): Opt<int> {
    if ls == [] then None
    else if ls[|ls| - 1].Store? then Some(ls[|ls| - 1].v)
    else LastStored(ls[..|ls| - 1])
  }

  lemma LastStoredFirst(l: ELabel, ls: seq<ELabel>)
    ensures LastStored([l] + ls) ==
            if LastStored(ls).Some? then LastStored(ls) else if l.Store? then Some(l.v) else None
    decreases |ls|
  {
    var all := [l] + ls;
    if ls == [] {
      assert all[..0] == [];
    } else {
      assert all[..|all| - 1] == [l] + ls[..|ls| - 1] && all[|all| - 1] == ls[|ls| - 1];
      LastStoredFirst(l, ls[..|ls| - 1]);
    }
  }

  lemma {:induction false} ValueIsLast(ctx: nat -> nat, s: EState, ls: seq<ELabel>)
    requires ECan(ctx, s.e, ls)
    ensures ERun(ctx, s, ls).e.value == if LastStored(ls).Some? then LastStored(ls) else s.e.value
    decreases |ls|
  {
    if ls != [] {
      ValueIsLast(ctx, EStep(ctx, s, ls[0]), ls[1..]);
      LastStoredFirst(ls[0], ls[1..]);
      assert [ls[0]] + ls[1..] == ls;
    }
  }

  /** An awaiter that finishes is shown the argument of the last `set` that has stored by then, and
      nothing exactly if none has. */
  lemma ShownIsLastStored(ctx: nat -> nat, initial: bool, ls: seq<ELabel>, w: nat)
    requires ECan(ctx, EInit(initial), ls) && EEnabled(ERun(ctx, EStart(initial), ls).e, Finish(w))
    ensures var p := PcOf(EDo(ctx, ERun(ctx, EStart(initial), ls).e, Finish(w)), w);
            p.Finished? && p.got == LastStored(ls)
  {
    ValueIsLast(ctx, EStart(initial), ls);
  }

  /** What it was shown stays. */
  lemma {:induction false} ShownStays(ctx: nat -> nat, initial: bool, s: EState, ls: seq<ELabel>, w: nat)
    requires EInv(ctx, initial, s) && ECan(ctx, s.e, ls) && PcOf(s.e, w).Finished?
    ensures PcOf(ERun(ctx, s, ls).e, w) == PcOf(s.e, w)
    decreases |ls|
  {
    if ls != [] {
      EStepInv(ctx, initial, s, ls[0]);
      if ls[0].Submit? && SetterOf(s.e, ls[0].n).cur.Some? { NextIsAsleep(s, ls[0].n); }
      ShownStays(ctx, initial, EStep(ctx, s, ls[0]), ls[1..], w);
    }
  }

  // ---- wait counters ----

  lemma FinishCounts(ctx: nat -> nat, initial: bool, s: EState, w: nat)
    requires EInv(ctx, initial, s) && EEnabled(s.e, Finish(w))
    ensures Get(s.e.count, ctx(w)) >= 1
  {
    assert w in Waiters(ctx, s.e, ctx(w));
    SubsetSize({w}, Waiters(ctx, s.e, ctx(w)));
    assert Get(s.e.count, ctx(w)) == |Waiters(ctx, s.e, ctx(w))|;
  }

  lemma NobodyCounted(ctx: nat -> nat, initial: bool, s: EState, w: nat)
    requires EInv(ctx, initial, s) && Get(s.e.count, ctx(w)) == 0
    ensures !Between(PcOf(s.e, w))
  {
    assert Get(s.e.count, ctx(w)) == |Waiters(ctx, s.e, ctx(w))|;
    assert w !in Waiters(ctx, s.e, ctx(w));
  }
}
