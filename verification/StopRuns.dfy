/**
 Runs, for every number of contexts, in which stop is called beside a submission. They bound what
 module StopTheorems can promise.
 */
module StopRuns {
  import opened Counting
  import opened StopToken
  import opened StopTheorems

  lemma {:induction false} OneMore(s: State, ls: seq<Label>, l: Label)
    requires CanRun(s, ls) && Enabled(Run(s, ls).f, l)
    ensures CanRun(s, ls + [l]) && Run(s, ls + [l]) == Step(Run(s, ls), l)
    decreases |ls|
  {
    if ls == [] {
      assert [] + [l] == [l] && [l][1..] == [];
    } else {
      assert (ls + [l])[0] == ls[0] && (ls + [l])[1..] == ls[1..] + [l];
      OneMore(Step(s, ls[0]), ls[1..], l);
    }
  }

  lemma Next(n: nat, s: State, l: Label) returns (t: State)
    requires Reached(n, s) && Enabled(s.f, l)
    ensures t == Step(s, l) && Reached(n, t)
  {
    var ls :| CanRun(Start(n), ls) && s == Run(Start(n), ls);
    OneMore(Start(n), ls, l);
    t := Step(s, l);
  }

  /** The first m contexts have not started; the others went idle one after the other. */
  ghost predicate Remaining(s: State, n: nat, m: nat) {
    && 0 < m <= n && |s.f.ctxs| == n
    && (forall c :: 0 <= c < n ==> s.f.ctxs[c] == if c < m then Fresh() else Ctx(0, 0, 0, Poll))
    && s.f.flags == Contexts(m) && s.f.token == m && s.f.submit == map[] && s.f.stops == 0 && s.hit == {}
  }

  lemma PassesEmpty(n: nat, s: State, m: nat, c: nat) returns (t: State)
    requires Reached(n, s) && Remaining(s, n, m) && c < m
    ensures Reached(n, t) && t == s.(f := s.f.(ctxs := s.f.ctxs[c := Ctx(0, 0, 0, NoWaits)]))
  {
    t := Next(n, s, Snapshot(c));
    assert t == s.(f := s.f.(ctxs := s.f.ctxs[c := Ctx(0, 0, 0, Batch(0))]));
    t := Next(n, t, TestWaits(c));
    assert t.f.ctxs == s.f.ctxs[c := Ctx(0, 0, 0, NoWaits)];
  }

  /** Context c, not started, has found its queue empty. */
  lemma FindsIdle(n: nat, s: State, m: nat, c: nat) returns (t: State)
    requires Reached(n, s) && Remaining(s, n, m) && c < m
    ensures Reached(n, t) && t == s.(f := s.f.(ctxs := s.f.ctxs[c := Ctx(0, 0, 0, FoundIdle)]))
  {
    t := PassesEmpty(n, s, m, c);
    assert InFlight(t.f, c) == {};
    t := Next(n, t, TestQueue(c));
    assert t.f.ctxs == s.f.ctxs[c := Ctx(0, 0, 0, FoundIdle)] && t.hit == {};
  }

  lemma OneLess(m: nat)
    requires m > 0
    ensures Contexts(m) - {m - 1} == Contexts(m - 1) && m - 1 in Contexts(m)
  {
  }

  lemma ClearsFlag(n: nat, m: nat, ctxs: seq<Ctx>)
    requires 1 < m <= |ctxs| && ctxs[m - 1] == Ctx(0, 0, 0, FoundIdle)
    requires Reached(n, State(Fine(ctxs, Contexts(m), m, map[], 0), {}))
    ensures Reached(n, State(Fine(ctxs[m - 1 := Ctx(0, 0, 0, TurnedOff(true))], Contexts(m - 1), m, map[], 0), {}))
  {
    var s := State(Fine(ctxs, Contexts(m), m, map[], 0), {});
    OneLess(m);
    var t := Next(n, s, FetchAnd(m - 1));
    assert t.f.ctxs == ctxs[m - 1 := Ctx(0, 0, 0, TurnedOff(true))];
  }

  lemma Subtracts(n: nat, m: nat, ctxs: seq<Ctx>)
    requires 1 < m <= |ctxs| && ctxs[m - 1] == Ctx(0, 0, 0, TurnedOff(true))
    requires Reached(n, State(Fine(ctxs, Contexts(m - 1), m, map[], 0), {}))
    ensures Reached(n, State(Fine(ctxs[m - 1 := Ctx(0, 0, 0, Poll)], Contexts(m - 1), m - 1, map[], 0), {}))
  {
    var t := Next(n, State(Fine(ctxs, Contexts(m - 1), m, map[], 0), {}), FetchSub(m - 1));
    assert t.f.ctxs == ctxs[m - 1 := Ctx(0, 0, 0, Poll)];
  }

  lemma Clears(n: nat, s: State, m: nat, ctxs: seq<Ctx>) returns (t: State)
    requires Reached(n, s) && 1 < m <= |ctxs| && ctxs[m - 1] == Ctx(0, 0, 0, FoundIdle)
    requires s == State(Fine(ctxs, Contexts(m), m, map[], 0), {})
    ensures Reached(n, t)
    ensures t == State(Fine(ctxs[m - 1 := Ctx(0, 0, 0, Poll)], Contexts(m - 1), m - 1, map[], 0), {})
  {
    ClearsFlag(n, m, ctxs);
    var off := ctxs[m - 1 := Ctx(0, 0, 0, TurnedOff(true))];
    Subtracts(n, m, off);
    assert off[m - 1 := Ctx(0, 0, 0, Poll)] == ctxs[m - 1 := Ctx(0, 0, 0, Poll)];
    t := State(Fine(ctxs[m - 1 := Ctx(0, 0, 0, Poll)], Contexts(m - 1), m - 1, map[], 0), {});
  }

  lemma GoesIdle(n: nat, s: State, m: nat) returns (t: State)
    requires Reached(n, s) && Remaining(s, n, m) && m > 1
    ensures Reached(n, t) && Remaining(t, n, m - 1)
  {
    t := FindsIdle(n, s, m, m - 1);
    t := Clears(n, t, m, t.f.ctxs);
  }

  /** Everybody but the first context has gone idle. */
  lemma {:induction false} OnlyFirst(n: nat, s: State, m: nat) returns (t: State)
    requires Reached(n, s) && Remaining(s, n, m)
    ensures Reached(n, t) && Remaining(t, n, 1)
    decreases m
  {
    t := s;
    if m > 1 {
      t := GoesIdle(n, s, m);
      t := OnlyFirst(n, t, m - 1);
    }
  }

  /** Context 0 is at x, submitter 0 at p, and nobody else is submitting. */
  ghost predicate First(s: State, x: Ctx, p: SubmitPc, flags: set<nat>, token: int, hit: set<nat>) {
    && s.f.ctxs != [] && s.f.ctxs[0] == x && s.f.flags == flags && s.f.token == token && s.hit == hit
    && SubmitOf(s.f, 0) == p && forall a :: a != 0 ==> SubmitOf(s.f, a).Away?
  }

  lemma FirstFindsIdle(n: nat) returns (t: State)
    requires n > 0
    ensures Reached(n, t) && First(t, Ctx(0, 0, 0, FoundIdle), Away, {0}, 1, {})
  {
    t := Start(n);
    assert CanRun(t, []) && Run(t, []) == t;
    t := OnlyFirst(n, t, n);
    assert Contexts(1) == {0};
    t := FindsIdle(n, t, 1, 0);
  }

  lemma TurnsOn(n: nat, s: State, x: Ctx, flags: set<nat>, token: int) returns (t: State)
    requires Reached(n, s) && First(s, x, Away, flags, token, {})
    ensures Reached(n, t)
    ensures First(t, x, TurnedOn(0, 0 !in flags), flags + {0}, token, if x.pc.FoundIdle? then {0} else {})
  {
    t := Next(n, s, FetchOr(0, 0));
    forall a | a != 0 ensures SubmitOf(t.f, a).Away? { assert SubmitOf(s.f, a).Away?; }
  }

  lemma Adds(n: nat, s: State, x: Ctx, add: bool, flags: set<nat>, token: int, hit: set<nat>) returns (t: State)
    requires Reached(n, s) && First(s, x, TurnedOn(0, add), flags, token, hit)
    ensures Reached(n, t) && First(t, x, Added(0), flags, token + (if add then 1 else 0), hit)
    ensures t.f.stops == s.f.stops
  {
    t := Next(n, s, FetchAdd(0));
    forall a | a != 0 ensures SubmitOf(t.f, a).Away? { assert SubmitOf(s.f, a).Away?; }
  }

  lemma Pushes(n: nat, s: State, x: Ctx, flags: set<nat>, token: int, hit: set<nat>) returns (t: State)
    requires Reached(n, s) && First(s, x, Added(0), flags, token, hit)
    ensures Reached(n, t) && First(t, x.(queue := x.queue + 1), Away, flags, token, hit)
    ensures t.f.stops == s.f.stops
  {
    t := Next(n, s, Push(0));
    forall a | a != 0 ensures SubmitOf(t.f, a).Away? { assert SubmitOf(s.f, a).Away?; }
  }

  lemma TurnsOff(n: nat, s: State, x: Ctx, hit: set<nat>) returns (t: State)
    requires Reached(n, s) && First(s, x, Away, {0}, 1, hit) && x.pc.FoundIdle?
    ensures Reached(n, t) && First(t, x.(pc := TurnedOff(true)), Away, {}, 1, hit)
  {
    t := Next(n, s, FetchAnd(0));
    forall a | a != 0 ensures SubmitOf(t.f, a).Away? { assert SubmitOf(s.f, a).Away?; }
  }

  /** A task is queued, every flag is clear and nobody is submitting. */
  ghost predicate MissedTask(f: Fine) {
    f.ctxs != [] && f.ctxs[0].queue > 0 && f.flags == {} && forall a :: SubmitOf(f, a).Away?
  }

  /** For every number of contexts: a submission that falls between a context's queue test and the
      clearing of its flag is seen by neither, and stop is called with its task queued, every flag
      clear and nobody submitting. */
  lemma StopCanMissATask(n: nat)
    requires n > 0
    ensures exists s, l :: Reached(n, s) && Enabled(s.f, l) && Stops(s.f, l) && s.hit == {0} && MissedTask(Do(s.f, l))
  {
    var x := Ctx(0, 0, 0, FoundIdle);
    var s := FirstFindsIdle(n);
    s := TurnsOn(n, s, x, {0}, 1);
    s := Adds(n, s, x, false, {0}, 1, {0});
    s := Pushes(n, s, x, {0}, 1, {0});
    s := TurnsOff(n, s, x.(queue := 1), {0});
    var g := Do(s.f, FetchSub(0));
    forall a ensures SubmitOf(g, a).Away? { assert SubmitOf(s.f, a).Away?; }
    assert MissedTask(g);
  }

  /** Stop has been called, a task is queued and nobody is submitting. */
  ghost predicate LateTask(s: State) {
    s.f.stops > 0 && s.f.ctxs != [] && s.f.ctxs[0].queue > 0 && s.hit == {} && forall a :: SubmitOf(s.f, a).Away?
  }

  /** For every number of contexts: a submission that begins after the flag is cleared and adds after
      the subtraction comes too late, although it overlapped no window. */
  lemma StopCanPrecedeAddition(n: nat)
    requires n > 0
    ensures exists s, l :: Reached(n, s) && Enabled(s.f, l) && Stops(s.f, l) && s.hit == {} && Adding(s.f) == {0}
    ensures exists t :: Reached(n, t) && LateTask(t)
  {
    var x := Ctx(0, 0, 0, FoundIdle);
    var s := FirstFindsIdle(n);
    s := TurnsOff(n, s, x, {});
    s := TurnsOn(n, s, x.(pc := TurnedOff(true)), {}, 1);
    OneAdds(s);
    ComesTooLate(n, s);
  }

  lemma OneAdds(s: State)
    requires First(s, Ctx(0, 0, 0, TurnedOff(true)), TurnedOn(0, true), {0}, 1, {})
    ensures Adding(s.f) == {0} && Enabled(s.f, FetchSub(0)) && Stops(s.f, FetchSub(0))
  {
    forall a ensures a in Adding(s.f) <==> a == 0 { assert a in Adding(s.f) <==> IsAdding(SubmitOf(s.f, a)); }
  }

  lemma ComesTooLate(n: nat, s: State)
    requires Reached(n, s) && First(s, Ctx(0, 0, 0, TurnedOff(true)), TurnedOn(0, true), {0}, 1, {})
    ensures exists t :: Reached(n, t) && LateTask(t)
  {
    var t := Next(n, s, FetchSub(0));
    assert t.f.stops > 0;
    forall a | a != 0 ensures SubmitOf(t.f, a).Away? { assert SubmitOf(s.f, a).Away?; }
    var x := Ctx(0, 0, 0, Poll);
    t := Adds(n, t, x, true, {0}, 0, {});
    t := Pushes(n, t, x, {0}, 1, {});
    assert LateTask(t);
  }
}
