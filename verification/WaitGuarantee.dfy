/**
 What a task may rely on when it continues after a predicate wait, for arbitrary predicates over
 arbitrary shared data. The holder of the mutex changes the data at will; others change it only
 as the relation env allows (the channel's lock-free close is such a change).
 */
module WaitGuarantee {
  import opened Sync
  import opened SyncInv

  /** back: tasks that have come back from a predicate wait, with its awaiter, and have not yet run
      any code of their own. */
  datatype PState<D> = PState(s: State, d: D, back: map<nat, Aw>)

  datatype PLabel<D> = Sy(l: Label) | Continue(t: nat) | Write(t: nat, d: D) | Outside(d: D)

  /** The code of a task that has come back runs only after it continues. */
  predicate Held<D>(p: PState<D>, l: Label) {
    match l
    case Wait(t, _, _) => t in p.back
    case Unlock(t) => t in p.back
    case StartNotify(a, _, _) => a.Coro? && a.t in p.back
    case _ => false
  }

  /** Every evaluation of an awaiter's predicate uses the data at that moment. */
  ghost predicate PEnabled<D(!new)>(pred: (Aw, D) -> bool, env: (D, D) -> bool, p: PState<D>, l: PLabel<D>) {
    match l
    case Sy(l) =>
      && Enabled(p.s.m, l) && !Held(p, l)
      && (l.Wait? ==> l.holds == pred(CvAw(l.t, l.cv), p.d))
      && (l.Resume? && At(p.s.m, l.a).w.CvAw? ==> l.holds == pred(At(p.s.m, l.a).w, p.d))
    case Continue(t) => t in p.back
    case Write(t, _) => At(p.s.m, Coro(t)).Crit? && t !in p.back
    case Outside(d) => env(p.d, d)
  }

  /** A wait ends at once if its predicate holds, and otherwise with the `await_resume` of the
      resumed task. */
  function Back<D>(p: PState<D>, l: Label): map<nat, Aw>
    requires Enabled(p.s.m, l)
  {
    match l
    case Wait(t, cv, holds) => if holds then p.back[t := CvAw(t, cv)] else p.back
    case Enter(t) => if At(p.s.m, Coro(t)).w.CvAw? then p.back[t := At(p.s.m, Coro(t)).w] else p.back
    case _ => p.back
  }

  ghost function PStep<D(!new)>(pred: (Aw, D) -> bool, env: (D, D) -> bool, p: PState<D>, l: PLabel<D>): PState<D>
    requires PEnabled(pred, env, p, l)
  {
    match l
    case Sy(l) => p.(s := Step(p.s, l), back := Back(p, l))
    case Continue(t) => p.(back := p.back - {t})
    case Write(_, d) => p.(d := d)
    case Outside(d) => p.(d := d)
  }

  ghost predicate Leads<D(!new)>(pred: (Aw, D) -> bool, env: (D, D) -> bool, p: PState<D>, ls: seq<PLabel<D>>,
                                 q: PState<D>)
    decreases |ls|
  {
    if ls == [] then p == q
    else PEnabled(pred, env, p, ls[0]) && Leads(pred, env, PStep(pred, env, p, ls[0]), ls[1..], q)
  }

  /** Some run, from some initial data, leads to q. */
  ghost predicate Reached<D(!new)>(pred: (Aw, D) -> bool, env: (D, D) -> bool, q: PState<D>) {
    exists ls, d :: Leads(pred, env, PState(Start(), d, map[]), ls, q)
  }

  /** Nobody without the mutex can turn a predicate from true to false. */
  ghost predicate Monotone<D(!new)>(pred: (Aw, D) -> bool, env: (D, D) -> bool) {
    forall w: Aw, d, e :: w.CvAw? && env(d, e) && pred(w, d) ==> pred(w, e)
  }

  /** The predicate wait that task t has just ended, or ends when it runs again. */
  function Ending<D>(p: PState<D>, t: nat): Opt<Aw> {
    var x := At(p.s.m, Coro(t));
    if t in p.back then Some(p.back[t]) else if x.Granted? && x.w.CvAw? then Some(x.w) else None
  }

  /** A task that is about to continue after a predicate wait, whether it was suspended or not, is the
      only thread in charge of the mutex, and its predicate is true. */
  ghost predicate Guaranteed<D(!new)>(pred: (Aw, D) -> bool, p: PState<D>) {
    forall t: nat :: Ending(p, t).Some? ==>
      pred(Ending(p, t).v, p.d) && forall a :: HasToken(At(p.s.m, a)) <==> a == Coro(t)
  }

  ghost predicate PInv<D(!new)>(pred: (Aw, D) -> bool, p: PState<D>) {
    Inv(p.s) && forall t: nat :: EndsWith(pred, p, t)
  }

  ghost predicate EndsWith<D(!new)>(pred: (Aw, D) -> bool, p: PState<D>, t: nat) {
    && (t in p.back ==> At(p.s.m, Coro(t)).Crit? && p.back[t].CvAw?)
    && (Ending(p, t).Some? ==> pred(Ending(p, t).v, p.d))
  }

  /** Who is granted after a step was granted before, or was resumed with a true predicate. */
  lemma GrantedAfter(m: Mem, l: Label, t: nat)
    requires Enabled(m, l) && At(Do(m, l), Coro(t)).Granted? && At(Do(m, l), Coro(t)).w.CvAw?
    requires forall a :: WellFormed(a, At(m, a))
    ensures At(m, Coro(t)) == At(Do(m, l), Coro(t)) ||
            (l.Resume? && l.holds && At(m, l.a).w == At(Do(m, l), Coro(t)).w)
  {
    assert WellFormed(Coro(t), At(m, Coro(t)));
  }

  /** A task that has come back stays where it is until it continues. */
  lemma BackStays<D>(p: PState<D>, l: Label, t: nat)
    requires Hands(p.s) && Sleepers(p.s) && Enabled(p.s.m, l) && !Held(p, l) && t in p.back && At(p.s.m, Coro(t)).Crit?
    ensures At(Do(p.s.m, l), Coro(t)).Crit?
  {
    if l.Resume? { assert HandOf(At(p.s.m, l.a)) == Some(At(p.s.m, l.a).w); }
    CritStays(p.s.m, l, t);
  }

  lemma CritStays(m: Mem, l: Label, t: nat)
    requires Enabled(m, l) && At(m, Coro(t)).Crit?
    requires (l.Wait? || l.Unlock? ==> l.t != t) && (l.StartNotify? ==> l.a != Coro(t))
    requires l.Resume? ==> At(m, l.a).w.task != t
    ensures At(Do(m, l), Coro(t)).Crit?
  {
  }

  /** Only the two ends of a wait bring a task back. */
  lemma BackAfter<D>(p: PState<D>, l: Label, t: nat)
    requires Enabled(p.s.m, l) && t in Back(p, l)
    ensures || (t in p.back && Back(p, l)[t] == p.back[t])
            || (l.Wait? && l.t == t && l.holds && Back(p, l)[t] == CvAw(t, l.cv))
            || (l.Enter? && l.t == t && Back(p, l)[t] == At(p.s.m, Coro(t)).w && At(p.s.m, Coro(t)).w.CvAw?)
    ensures t !in p.back ==> At(Do(p.s.m, l), Coro(t)).Crit?
  {
  }

  lemma SyncEnds<D(!new)>(pred: (Aw, D) -> bool, env: (D, D) -> bool, p: PState<D>, l: Label, t: nat)
    requires PInv(pred, p) && PEnabled(pred, env, p, Sy(l))
    ensures EndsWith(pred, PStep(pred, env, p, Sy(l)), t)
  {
    var q := PStep(pred, env, p, Sy(l));
    assert EndsWith(pred, p, t);
    if t in q.back {
      BackAfter(p, l, t);
      if t in p.back { BackStays(p, l, t); }
    } else if At(q.s.m, Coro(t)).Granted? && At(q.s.m, Coro(t)).w.CvAw? {
      GrantedAfter(p.s.m, l, t);
    }
  }

  lemma PStepInv<D(!new)>(pred: (Aw, D) -> bool, env: (D, D) -> bool, p: PState<D>, l: PLabel<D>)
    requires Monotone(pred, env) && PInv(pred, p) && PEnabled(pred, env, p, l)
    ensures PInv(pred, PStep(pred, env, p, l))
  {
    var q := PStep(pred, env, p, l);
    if l.Sy? { StepInv(p.s, l.l); }
    forall t: nat ensures EndsWith(pred, q, t) {
      assert EndsWith(pred, p, t);
      match l
      case Sy(k) => SyncEnds(pred, env, p, k, t);
      case Continue(_) =>
      case Write(u, _) => assert HasToken(At(p.s.m, Coro(u))) && (HasToken(At(p.s.m, Coro(t))) <==> t == u);
      case Outside(_) =>
    }
  }

  lemma {:induction false} RunInv<D(!new)>(pred: (Aw, D) -> bool, env: (D, D) -> bool, p: PState<D>,
                                           ls: seq<PLabel<D>>, q: PState<D>)
    requires Monotone(pred, env) && PInv(pred, p) && Leads(pred, env, p, ls, q)
    ensures PInv(pred, q)
    decreases |ls|
  {
    if ls != [] {
      PStepInv(pred, env, p, ls[0]);
      RunInv(pred, env, PStep(pred, env, p, ls[0]), ls[1..], q);
    }
  }

  lemma MonotoneIsEnough<D(!new)>(pred: (Aw, D) -> bool, env: (D, D) -> bool, q: PState<D>)
    requires Monotone(pred, env) && Reached(pred, env, q)
    ensures Guaranteed(pred, q)
  {
    var ls, d :| Leads(pred, env, PState(Start(), d, map[]), ls, q);
    StartInv();
    RunInv(pred, env, PState(Start(), d, map[]), ls, q);
    forall t: nat | Ending(q, t).Some?
      ensures pred(Ending(q, t).v, q.d) && forall a :: HasToken(At(q.s.m, a)) <==> a == Coro(t)
    {
      assert EndsWith(pred, q, t) && HasToken(At(q.s.m, Coro(t)));
    }
  }

  // ---- a predicate that an outsider can falsify ----

  lemma {:induction false} OneMore<D(!new)>(pred: (Aw, D) -> bool, env: (D, D) -> bool, p: PState<D>,
                                            ls: seq<PLabel<D>>, q: PState<D>, l: PLabel<D>)
    requires Leads(pred, env, p, ls, q) && PEnabled(pred, env, q, l)
    ensures Leads(pred, env, p, ls + [l], PStep(pred, env, q, l))
    decreases |ls|
  {
    var r := PStep(pred, env, q, l);
    if ls == [] {
      assert [l][1..] == [] && Leads(pred, env, r, [], r) && [] + [l] == [l];
    } else {
      assert (ls + [l])[0] == ls[0] && (ls + [l])[1..] == ls[1..] + [l];
      OneMore(pred, env, PStep(pred, env, p, ls[0]), ls[1..], q, l);
    }
  }

  lemma Next<D(!new)>(pred: (Aw, D) -> bool, env: (D, D) -> bool, p: PState<D>, l: PLabel<D>) returns (q: PState<D>)
    requires Reached(pred, env, p) && PEnabled(pred, env, p, l)
    ensures q == PStep(pred, env, p, l) && Reached(pred, env, q)
  {
    var ls, d :| Leads(pred, env, PState(Start(), d, map[]), ls, p);
    OneMore(pred, env, PState(Start(), d, map[]), ls, p, l);
    q := PStep(pred, env, p, l);
  }

  lemma SyncNext<D(!new)>(pred: (Aw, D) -> bool, env: (D, D) -> bool, p: PState<D>, l: Label) returns (q: PState<D>)
    requires Reached(pred, env, p) && PEnabled(pred, env, p, Sy(l))
    ensures Reached(pred, env, q) && q.d == p.d && q.s.m == Do(p.s.m, l) && q.back == Back(p, l)
  {
    q := Next(pred, env, p, Sy(l));
  }

  /** A reachable state in which nobody has just come back from a wait. */
  ghost predicate Fresh<D(!new)>(pred: (Aw, D) -> bool, env: (D, D) -> bool, p: PState<D>) {
    Reached(pred, env, p) && p.back == map[]
  }

  /** w sleeps alone on its condition variable, b stands at y, everybody else is at rest. */
  ghost predicate Asleep(m: Mem, w: Aw, word: Word, b: Agent, y: Act) {
    && w.CvAw? && m.word == word && m.resume == None && b != Coro(w.task)
    && Ptr(m.head, w.cv) == Some(w) && Ptr(m.next, w) == None
    && forall a :: At(m, a) == if a == Coro(w.task) then Blocked(w) else if a == b then y else Idle
  }

  lemma AsleepStep(m: Mem, m': Mem, w: Aw, b: Agent, y: Act, b': Agent, y': Act)
    requires Asleep(m, w, m.word, b, y) && (b == b' || y == Idle) && b' != Coro(w.task)
    requires m' == m.(word := m'.word, act := m.act[b' := y'])
    ensures Asleep(m', w, m'.word, b', y')
  {
    forall a ensures At(m', a) == if a == Coro(w.task) then Blocked(w) else if a == b' then y' else Idle {
      assert At(m, a) == if a == Coro(w.task) then Blocked(w) else if a == b then y else Idle;
    }
  }

  lemma FindsFalse<D(!new)>(pred: (Aw, D) -> bool, env: (D, D) -> bool, w: Aw, d: D) returns (q: PState<D>)
    requires w.CvAw? && !pred(w, d)
    ensures Fresh(pred, env, q) && q.d == d
    ensures q.s.m == Init().(word := Locked(None), act := map[Coro(w.task) := Reg(w, Own)])
  {
    q := PState(Start(), d, map[]);
    assert Leads(pred, env, q, [], q);
    q := SyncNext(pred, env, q, TryLock(w.task));
    assert q.s.m == Init().(word := Locked(None), act := map[Coro(w.task) := Crit]);
    q := SyncNext(pred, env, q, Wait(w.task, w.cv, false));
  }

  /** A task finds its predicate false and goes to sleep. */
  lemma FallsAsleep<D(!new)>(pred: (Aw, D) -> bool, env: (D, D) -> bool, w: Aw, d: D) returns (q: PState<D>)
    requires w.CvAw? && !pred(w, d)
    ensures Fresh(pred, env, q) && q.d == d && Asleep(q.s.m, w, Locked(None), Helper(0), UEntry(One(ToIdle)))
  {
    q := FindsFalse(pred, env, w, d);
    q := SyncNext(pred, env, q, Register(Coro(w.task), 0));
    var act := map[Coro(w.task) := Blocked(w), Helper(0) := UEntry(One(ToIdle))];
    assert q.s.m == Mem(Locked(None), None, map[w := None], map[w.cv := Some(w)], map[w.cv := Some(w)], act);
  }

  /** An unlock that finds no waiter. */
  lemma Frees<D(!new)>(pred: (Aw, D) -> bool, env: (D, D) -> bool, w: Aw, p: PState<D>, a: Agent) returns (q: PState<D>)
    requires Fresh(pred, env, p) && Asleep(p.s.m, w, Locked(None), a, UEntry(One(ToIdle)))
    ensures Fresh(pred, env, q) && q.d == p.d && Asleep(q.s.m, w, NoLocked, a, Idle)
  {
    q := SyncNext(pred, env, p, ReadResume(a));
    AsleepStep(p.s.m, q.s.m, w, a, UEntry(One(ToIdle)), a, UCas(One(ToIdle)));
    var m := q.s.m;
    q := SyncNext(pred, env, q, TryFree(a));
    AsleepStep(m, q.s.m, w, a, UCas(One(ToIdle)), a, Idle);
  }

  /** Another task takes the mutex, makes the predicate true and is about to leave. */
  lemma OtherWrites<D(!new)>(pred: (Aw, D) -> bool, env: (D, D) -> bool, w: Aw, p: PState<D>, a: Agent, d: D)
    returns (q: PState<D>)
    requires Fresh(pred, env, p) && Asleep(p.s.m, w, NoLocked, a, Idle)
    ensures Fresh(pred, env, q) && q.d == d && Asleep(q.s.m, w, Locked(None), Coro(w.task + 1), UEntry(One(ToIdle)))
  {
    var u := w.task + 1;
    q := SyncNext(pred, env, p, TryLock(u));
    AsleepStep(p.s.m, q.s.m, w, a, Idle, Coro(u), Crit);
    q := Next(pred, env, q, Write(u, d));
    q := OtherLeaves(pred, env, w, q);
  }

  lemma OtherLeaves<D(!new)>(pred: (Aw, D) -> bool, env: (D, D) -> bool, w: Aw, p: PState<D>) returns (q: PState<D>)
    requires Fresh(pred, env, p) && Asleep(p.s.m, w, Locked(None), Coro(w.task + 1), Crit)
    ensures Fresh(pred, env, q) && q.d == p.d && Asleep(q.s.m, w, Locked(None), Coro(w.task + 1), UEntry(One(ToIdle)))
  {
    q := SyncNext(pred, env, p, Unlock(w.task + 1));
    AsleepStep(p.s.m, q.s.m, w, Coro(w.task + 1), Crit, Coro(w.task + 1), UEntry(One(ToIdle)));
  }

  /** A notification finds the mutex free. */
  lemma Notified<D(!new)>(pred: (Aw, D) -> bool, env: (D, D) -> bool, w: Aw, p: PState<D>, b: Agent)
    returns (q: PState<D>)
    requires Fresh(pred, env, p) && Asleep(p.s.m, w, NoLocked, b, Idle)
    ensures Fresh(pred, env, q) && q.d == p.d && q.s.m.word == NoLocked && At(q.s.m, Helper(0)) == Load(w, One(ToIdle))
  {
    var a := Helper(0);
    q := SyncNext(pred, env, p, StartNotify(a, w.cv, false));
    AsleepStep(p.s.m, q.s.m, w, b, Idle, a, Notify(w.cv, ToIdle));
    q := SyncNext(pred, env, q, PopOne(a));
  }

  /** The awaiter in its hand takes the free mutex. */
  lemma TakesFree<D(!new)>(pred: (Aw, D) -> bool, env: (D, D) -> bool, w: Aw, p: PState<D>) returns (q: PState<D>)
    requires Fresh(pred, env, p) && p.s.m.word == NoLocked && At(p.s.m, Helper(0)) == Load(w, One(ToIdle))
    ensures Fresh(pred, env, q) && q.d == p.d && At(q.s.m, Helper(0)) == Res(w, One(ToIdle))
  {
    var a := Helper(0);
    q := SyncNext(pred, env, p, LoadWord(a));
    assert At(q.s.m, a) == Cas(w, NoLocked, One(ToIdle)) && q.s.m.word == NoLocked;
    q := SyncNext(pred, env, q, CasOk(a));
  }

  /** Its predicate is true. */
  lemma WokenWith<D(!new)>(pred: (Aw, D) -> bool, env: (D, D) -> bool, w: Aw, p: PState<D>) returns (q: PState<D>)
    requires Fresh(pred, env, p) && pred(w, p.d) && w.CvAw? && At(p.s.m, Helper(0)) == Res(w, One(ToIdle))
    ensures Fresh(pred, env, q) && q.d == p.d && At(q.s.m, Coro(w.task)) == Granted(w)
  {
    q := SyncNext(pred, env, p, Resume(Helper(0), true));
  }

  /** The guarantee holds in every run exactly for predicates that non-owners can only make true. */
  lemma GuaranteedExactlyIfMonotone<D(!new)>(pred: (Aw, D) -> bool, env: (D, D) -> bool)
    ensures (forall q :: Reached(pred, env, q) ==> Guaranteed(pred, q)) <==> Monotone(pred, env)
  {
    if Monotone(pred, env) {
      forall q | Reached(pred, env, q) ensures Guaranteed(pred, q) { MonotoneIsEnough(pred, env, q); }
    } else {
      var w: Aw, d, e :| w.CvAw? && env(d, e) && pred(w, d) && !pred(w, e);
      var p := FallsAsleep(pred, env, w, e);
      p := Frees(pred, env, w, p, Helper(0));
      p := OtherWrites(pred, env, w, p, Helper(0), d);
      p := Frees(pred, env, w, p, Coro(w.task + 1));
      p := Notified(pred, env, w, p, Coro(w.task + 1));
      p := TakesFree(pred, env, w, p);
      p := WokenWith(pred, env, w, p);
      p := Next(pred, env, p, Outside(e));
      assert At(p.s.m, Coro(w.task)) == Granted(w) && !pred(w, p.d);
    }
  }
}
