/** What the stop flags and the stop token guarantee over every run of atomic steps. */
module StopTheorems {
  import opened StopToken

  ghost predicate CanRun(s: State, ls: seq<Label>)
    decreases |ls|
  {
    ls == [] || (Enabled(s.f, ls[0]) && CanRun(Step(s, ls[0]), ls[1..]))
  }

  ghost function Run(s: State, ls: seq<Label>): State
    requires CanRun(s, ls)
    decreases |ls|
  {
    if ls == [] then s else Run(Step(s, ls[0]), ls[1..])
  }

  lemma Unfolds(s: State, t: State, ls: seq<Label>)
    requires ls != [] && Enabled(s.f, ls[0]) && t == Step(s, ls[0])
    ensures CanRun(s, ls) <==> CanRun(t, ls[1..])
    ensures CanRun(s, ls) ==> Run(s, ls) == Run(t, ls[1..])
  {
  }

  lemma {:induction false} RunInv(s: State, ls: seq<Label>)
    requires Inv(s) && CanRun(s, ls)
    ensures Inv(Run(s, ls)) && |Run(s, ls).f.ctxs| == |s.f.ctxs|
    decreases |ls|
  {
    if ls != [] {
      var t := Step(s, ls[0]);
      Unfolds(s, t, ls);
      StepInv(s, ls[0]);
      RunInv(t, ls[1..]);
    }
  }

  /** Some run of a scheduler with n contexts leads to s. */
  ghost predicate Reached(n: nat, s: State) {
    exists ls :: CanRun(Start(n), ls) && s == Run(Start(n), ls)
  }

  lemma EveryRun(n: nat, s: State)
    requires Reached(n, s)
    ensures Inv(s) && |s.f.ctxs| == n
  {
    var ls :| CanRun(Start(n), ls) && s == Run(Start(n), ls);
    StartInv(n);
    RunInv(Start(n), ls);
  }

  /** After every atomic step: token + pending additions - pending subtractions = set flags. */
  lemma TokenLaw(n: nat, s: State)
    requires Reached(n, s)
    ensures s.f.token + |Adding(s.f)| - |Subtracting(s.f)| == |s.f.flags|
  {
    EveryRun(n, s);
  }

  /** Nothing is queued, waiting, running or in I/O anywhere, and nobody is submitting. */
  ghost predicate AllQuiet(f: Fine) {
    (forall c :: 0 <= c < |f.ctxs| ==> Idle(f.ctxs[c])) && (forall a :: SubmitOf(f, a).Away?)
  }

  // ---- clearing a flag ----

  /** A context clears its flag with nothing left behind, and nobody about to push to it, exactly if
      no submission to it overlapped its idle window. */
  lemma ClearsExactly(n: nat, s: State, c: nat)
    requires Reached(n, s) && Enabled(s.f, FetchAnd(c))
    ensures var g := Do(s.f, FetchAnd(c));
            Idle(g.ctxs[c]) && InFlight(g, c) == {} <==> c !in s.hit
  {
    EveryRun(n, s);
    assert Settled(s, c);
    FlyingStep(s.f, FetchAnd(c), c);
  }

  /** For as long as the flag stays clear that remains so. */
  lemma ClearFlagMeansIdle(n: nat, s: State, c: nat)
    requires Reached(n, s) && c < n && c !in s.f.flags && c !in s.hit
    ensures c < |s.f.ctxs| && Idle(s.f.ctxs[c]) && InFlight(s.f, c) == {}
  {
    EveryRun(n, s);
    assert Settled(s, c);
  }

  // ---- stop ----

  predicate Stops(f: Fine, l: Label)
    requires Enabled(f, l)
  {
    Do(f, l).stops > f.stops
  }

  /** A step calls stop exactly if it is a subtraction after which set flags and pending
      subtractions balance the pending additions. */
  lemma StopExactly(n: nat, s: State, l: Label)
    requires Reached(n, s) && Enabled(s.f, l)
    ensures var g := Do(s.f, l);
            Stops(s.f, l) <==> l.FetchSub? && |g.flags| + |Subtracting(g)| == |Adding(g)|
  {
    EveryRun(n, s);
    LawStep(s.f, l);
  }

  /** Context d has recovered from an overlapped window. */
  predicate Recovered(f: Fine, d: nat) {
    d < |f.ctxs| ==> Idle(f.ctxs[d]) && InFlight(f, d) == {}
  }

  /** Stop leaves everything quiet exactly if no submission is between its flag and its addition, none
      overlapped the window of the context that calls it, and every other context whose window was
      overlapped has since run what it missed; without pending additions every flag is clear. */
  lemma StopLeavesQuietExactly(n: nat, s: State, l: Label)
    requires Reached(n, s) && Enabled(s.f, l) && Stops(s.f, l)
    ensures var g := Do(s.f, l);
            && (AllQuiet(g) <==> Adding(g) == {} && l.c !in s.hit && forall d :: d in s.hit ==> Recovered(g, d))
            && (Adding(g) == {} ==> g.flags == {})
  {
    StopExactly(n, s, l);
    EveryRun(n, s);
    StepInv(s, l);
    var t := Step(s, l);
    assert Adding(t.f) == {} ==> |t.f.flags| == 0;
    if Adding(t.f) == {} && l.c !in s.hit && forall d :: d in s.hit ==> Recovered(t.f, d) { AllRecovered(t); }
    if AllQuiet(t.f) {
      NothingPends(t);
      FlyingStep(s.f, l, l.c);
      assert Settled(s, l.c);
    }
  }

  lemma AllRecovered(s: State)
    requires Inv(s) && s.f.flags == {} && forall d :: d in s.hit ==> Recovered(s.f, d)
    ensures AllQuiet(s.f)
  {
    forall c: nat | c < |s.f.ctxs| ensures Idle(s.f.ctxs[c]) && InFlight(s.f, c) == {} { assert Settled(s, c); }
    forall a ensures SubmitOf(s.f, a).Away? {
      assert !SubmitOf(s.f, a).Away? ==> a in InFlight(s.f, SubmitOf(s.f, a).c);
    }
  }

  lemma FlagsClear(s: State)
    requires Inv(s) && s.f.flags == {} && s.hit == {}
    ensures AllQuiet(s.f)
  {
    AllRecovered(s);
  }

  lemma NothingPends(s: State)
    requires Inv(s) && AllQuiet(s.f)
    ensures Adding(s.f) == {} && forall c: nat :: InFlight(s.f, c) == {}
  {
    forall a ensures a !in Adding(s.f) { assert SubmitOf(s.f, a).Away?; }
    forall c: nat, a ensures a !in InFlight(s.f, c) { assert SubmitOf(s.f, a).Away?; }
  }

  /** Once everything is quiet with all flags clear, stop has been called, and until somebody submits
      again, which src/scheduler.cpp:60 forbids, everything stays quiet whatever else happens. */
  lemma {:induction false} StaysIdle(s: State, ls: seq<Label>)
    requires Inv(s) && s.f.ctxs != [] && s.f.flags == {} && s.hit == {} && CanRun(s, ls)
    requires forall i :: 0 <= i < |ls| ==> !ls[i].FetchOr?
    ensures AllQuiet(Run(s, ls).f) && Run(s, ls).f.flags == {} && (Subtracting(s.f) == {} ==> s.f.stops > 0)
    decreases |ls|
  {
    FlagsClear(s);
    NothingPends(s);
    if ls != [] {
      StepInv(s, ls[0]);
      assert SubmitOf(s.f, 0).Away?;
      QuietStep(s, ls[0]);
      StaysIdle(Step(s, ls[0]), ls[1..]);
    }
  }

  lemma QuietStep(s: State, l: Label)
    requires AllQuiet(s.f) && s.f.flags == {} && s.hit == {} && Enabled(s.f, l) && !l.FetchOr?
    requires forall c: nat :: InFlight(s.f, c) == {}
    ensures Step(s, l).f.flags == {} && Step(s, l).hit == {} && Step(s, l).f.ctxs != []
  {
    var a := if OfSubmitter(l) then l.a else 0;
    assert SubmitOf(s.f, a).Away?;
  }
}
