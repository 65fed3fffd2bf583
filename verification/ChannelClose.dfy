/**
 When `close` leaves nobody asleep: exactly if nobody is between a false evaluation of its predicate
 and its registration at the moment of the store.
 */
module ChannelClose {
  import opened Sync
  import opened SyncInv
  import opened Channel
  import opened ChannelInv
  import opened ChannelTheorems

  /** Close call n has detached the producers' queue, or both queues. */
  predicate PastProducers(c: Chan, n: nat) {
    n in c.closers && (c.closers[n].InConsumers? || (c.closers[n].InProducers? && !At(c.m, Helper(n)).Detach?))
  }

  predicate PastConsumers(c: Chan, n: nat) {
    n in c.closers && c.closers[n].InConsumers? && !At(c.m, Helper(n)).Detach?
  }

  // ---- a store with nobody about to register ----

  /** Nobody is about to sleep, and the queues that close call n has gone past are empty. */
  ghost predicate Swept(s: CState, n: nat) {
    && Closed(s.c) && NobodyRegisters(s) && n in s.c.closers
    && (PastProducers(s.c, n) ==> L(s.g.h, InCv(PRODUCERS)) == [])
    && (PastConsumers(s.c, n) ==> L(s.g.h, InCv(CONSUMERS)) == [])
  }

  /** Going past a queue means detaching it. */
  lemma GoesPast(s: CState, l: Label, n: nat)
    requires Helpers(s) && CEnabled(s.c, SyncStep(l)) && n in s.c.closers
    ensures var c' := CDo(s.c, SyncStep(l));
            && (PastProducers(c', n) ==> PastProducers(s.c, n) || (l.DetachAll? && At(s.c.m, l.a).cv == PRODUCERS))
            && (PastConsumers(c', n) ==> PastConsumers(s.c, n) || (l.DetachAll? && At(s.c.m, l.a).cv == CONSUMERS))
  {
    assert HelperFits(s.c, n, At(s.c.m, Helper(n)));
    HelperPast(s.c, l, n);
  }

  lemma SweptSync(s: CState, l: Label, n: nat)
    requires Token(S(s)) && Tasks(s) && Helpers(s) && Swept(s, n) && CEnabled(s.c, SyncStep(l))
    ensures Swept(CStep(s, SyncStep(l)), n)
  {
    NobodyElseRegisters(s, l);
    GoesPast(s, l, n);
    AdvanceFrame(s.c, l);
    QueueChanges(S(s), l, PRODUCERS);
    QueueChanges(S(s), l, CONSUMERS);
  }

  lemma SweptStep(s: CState, l: CLabel, n: nat)
    requires Token(S(s)) && Tasks(s) && Helpers(s) && Swept(s, n) && CEnabled(s.c, l)
    ensures Swept(CStep(s, l), n)
  {
    if l.SyncStep? {
      SweptSync(s, l.l, n);
    } else {
      assert NobodyRegisters(CStep(s, l)) <==> NobodyRegisters(s);
    }
  }

  lemma {:induction false} SweptRun(s: CState, ls: seq<CLabel>, n: nat)
    requires CInv(s) && Swept(s, n) && CanRun(s.c, ls)
    ensures CInv(Run(s, ls)) && Swept(Run(s, ls), n)
    decreases |ls|
  {
    if ls != [] {
      CStepInv(s, ls[0]);
      SweptStep(s, ls[0], n);
      SweptRun(CStep(s, ls[0]), ls[1..], n);
    }
  }

  // ---- a store with somebody about to register ----

  /** Some run leads from s to t. */
  ghost predicate Goes(s: CState, t: CState) {
    exists ls :: CanRun(s.c, ls) && Run(s, ls) == t
  }

  ghost predicate Reached(cap: nat, s: CState) {
    Goes(CStart(cap), s)
  }

  lemma ReachedGood(cap: nat, s: CState)
    requires Reached(cap, s)
    ensures CInv(s)
  {
    var ls :| CanRun(CStart(cap).c, ls) && Run(CStart(cap), ls) == s;
    EveryRun(cap, ls);
  }

  lemma Stays(s: CState)
    ensures Goes(s, s)
  {
    assert CanRun(s.c, []) && Run(s, []) == s;
  }

  lemma {:induction false} OneMore(s: CState, ls: seq<CLabel>, l: CLabel)
    requires CanRun(s.c, ls) && CEnabled(Run(s, ls).c, l)
    ensures CanRun(s.c, ls + [l]) && Run(s, ls + [l]) == CStep(Run(s, ls), l)
    decreases |ls|
  {
    var both := ls + [l];
    if ls == [] {
      assert both == [l] && [l][1..] == [];
      assert CanRun(CDo(s.c, l), []);
    } else {
      assert both[0] == ls[0] && both[1..] == ls[1..] + [l];
      OneMore(CStep(s, ls[0]), ls[1..], l);
    }
  }

  lemma GoesOn(cap: nat, r: CState, s: CState, l: CLabel)
    requires Reached(cap, s) && Goes(r, s) && CEnabled(s.c, l)
    ensures Reached(cap, CStep(s, l)) && Goes(r, CStep(s, l))
  {
    var ls :| CanRun(r.c, ls) && Run(r, ls) == s;
    OneMore(r, ls, l);
    ls :| CanRun(CStart(cap).c, ls) && Run(CStart(cap), ls) == s;
    OneMore(CStart(cap), ls, l);
  }

  /** Close call n stands at x, in phase p, while a holds the mutex and is about to register. */
  ghost predicate Sweeping(s: CState, n: nat, p: ClosePc, x: Act, a: Agent) {
    && At(s.c.m, a).Reg? && a != Helper(n)
    && n in s.c.closers && s.c.closers[n] == p && At(s.c.m, Helper(n)) == x
  }

  /** A step of close call n's notify_all. */
  predicate OfLoop(l: Label) {
    l.DetachAll? || l.WalkNext? || l.LoadWord? || l.CasOk?
  }

  /** It disturbs nobody else. */
  lemma LoopStep(c: Chan, n: nat, a: Agent, l: Label)
    requires CEnabled(c, SyncStep(l)) && OfLoop(l) && l.a == Helper(n) && a != Helper(n)
    ensures At(CDo(c, SyncStep(l)).m, a) == At(c.m, a) && CDo(c, SyncStep(l)).closers == c.closers
  {
    OnlyActors(c.m, l, a);
  }

  lemma Next(cap: nat, r: CState, s: CState, n: nat, p: ClosePc, x: Act, a: Agent, l: Label) returns (t: CState)
    requires Reached(cap, s) && Goes(r, s) && Sweeping(s, n, p, x, a)
    requires CEnabled(s.c, SyncStep(l)) && OfLoop(l) && l.a == Helper(n)
    ensures t == CStep(s, SyncStep(l)) && Reached(cap, t) && Goes(r, t)
    ensures Sweeping(t, n, p, At(Do(s.c.m, l), Helper(n)), a)
  {
    GoesOn(cap, r, s, SyncStep(l));
    LoopStep(s.c, n, a, l);
    t := CStep(s, SyncStep(l));
  }

  lemma Starts(c: Chan, n: nat, a: Agent, cv: nat)
    requires CEnabled(c, SyncStep(StartNotify(Helper(n), cv, true))) && a != Helper(n) && At(c.m, Helper(n)).Idle?
    ensures var d := CDo(c, SyncStep(StartNotify(Helper(n), cv, true)));
            && At(d.m, a) == At(c.m, a) && At(d.m, Helper(n)) == Detach(cv, ToIdle)
            && d.closers == c.closers[n := if cv == PRODUCERS then InProducers else InConsumers]
  {
  }

  /** Close goes on to the next queue. */
  predicate Follows(p: ClosePc, q: ClosePc, cv: nat) {
    (p.AfterStore? && cv == PRODUCERS && q.InProducers?) || (p.InProducers? && cv == CONSUMERS && q.InConsumers?)
  }

  lemma Begins(cap: nat, r: CState, s: CState, n: nat, p: ClosePc, a: Agent, q: ClosePc, cv: nat) returns (t: CState)
    requires Reached(cap, s) && Goes(r, s) && Sweeping(s, n, p, Idle, a) && Follows(p, q, cv)
    ensures Reached(cap, t) && Goes(r, t) && Sweeping(t, n, q, Detach(cv, ToIdle), a)
  {
    var l := StartNotify(Helper(n), cv, true);
    GoesOn(cap, r, s, SyncStep(l));
    Starts(s.c, n, a, cv);
    t := CStep(s, SyncStep(l));
  }

  lemma WordHeld(cap: nat, s: CState, a: Agent)
    requires Reached(cap, s) && At(s.c.m, a).Reg?
    ensures s.c.m.word.Locked?
  {
    ReachedGood(cap, s);
    assert HasToken(At(s.c.m, a));
  }

  /** The mutex is held, so the awaiter in n's hand is pushed at once. */
  lemma PushEffect(s: State, a: Agent)
    requires At(s.m, a).Load? && At(s.m, a).k.Loop? && s.m.word.Locked?
    ensures var t, k := Step(s, LoadWord(a)), At(s.m, a).k;
            && Enabled(t.m, CasOk(a)) && t.m.word == s.m.word && At(t.m, a) == Cas(At(s.m, a).w, s.m.word, k)
            && At(Do(t.m, CasOk(a)), a) == Walk(k.nxt, k.b)
            && L(Note(t, CasOk(a)), InChain(a)) == L(s.h, InChain(a))
  {
  }

  lemma Pushes(cap: nat, r: CState, s: CState, n: nat, p: ClosePc, a: Agent, w: Aw, k: Cont) returns (t: CState)
    requires Reached(cap, s) && Goes(r, s) && Sweeping(s, n, p, Load(w, k), a) && k.Loop?
    ensures Reached(cap, t) && Goes(r, t) && Sweeping(t, n, p, Walk(k.nxt, k.b), a)
    ensures L(t.g.h, InChain(Helper(n))) == L(s.g.h, InChain(Helper(n)))
  {
    WordHeld(cap, s, a);
    PushEffect(S(s), Helper(n));
    var m := Next(cap, r, s, n, p, Load(w, k), a, LoadWord(Helper(n)));
    t := Next(cap, r, m, n, p, Cas(w, s.c.m.word, k), a, CasOk(Helper(n)));
  }

  /** The loop variable is the first of the nodes still to visit. */
  lemma ChainSeen(cap: nat, s: CState, n: nat)
    requires Reached(cap, s) && At(s.c.m, Helper(n)).Walk?
    ensures At(s.c.m, Helper(n)).cur == First(L(s.g.h, InChain(Helper(n))))
  {
    ReachedGood(cap, s);
    var p := InChain(Helper(n));
    assert Linked(s.c.m.next, HeadOf(S(s), p), L(s.g.h, p));
  }

  lemma WalkEffect(s: State, a: Agent)
    requires At(s.m, a).Walk? && At(s.m, a).cur == First(L(s.h, InChain(a))) && At(s.m, a).b.ToIdle?
    ensures var x, q, y := At(s.m, a), L(s.h, InChain(a)), At(Do(s.m, WalkNext(a)), a);
            if q == [] then y == Idle
            else y == Load(q[0], Loop(Ptr(s.m.next, q[0]), ToIdle)) && L(Note(s, WalkNext(a)), InChain(a)) == q[1..]
  {
  }

  lemma {:induction false} Visits(cap: nat, r: CState, s: CState, n: nat, p: ClosePc, a: Agent, cur: Opt<Aw>)
    returns (t: CState)
    requires Reached(cap, s) && Goes(r, s) && Sweeping(s, n, p, Walk(cur, ToIdle), a)
    ensures Reached(cap, t) && Goes(r, t) && Sweeping(t, n, p, Idle, a)
    decreases |L(s.g.h, InChain(Helper(n)))|
  {
    ChainSeen(cap, s, n);
    WalkEffect(S(s), Helper(n));
    t := Next(cap, r, s, n, p, Walk(cur, ToIdle), a, WalkNext(Helper(n)));
    if cur.Some? {
      var k := Loop(Ptr(s.c.m.next, cur.v), ToIdle);
      t := Pushes(cap, r, t, n, p, a, cur.v, k);
      t := Visits(cap, r, t, n, p, a, k.nxt);
    }
  }

  lemma Sweeps(cap: nat, r: CState, s: CState, n: nat, p: ClosePc, a: Agent, q: ClosePc, cv: nat) returns (t: CState)
    requires Reached(cap, s) && Goes(r, s) && Sweeping(s, n, p, Idle, a) && Follows(p, q, cv)
    ensures Reached(cap, t) && Goes(r, t) && Sweeping(t, n, q, Idle, a)
  {
    t := Begins(cap, r, s, n, p, a, q, cv);
    var cur := Ptr(t.c.m.head, cv);
    t := Next(cap, r, t, n, q, Detach(cv, ToIdle), a, DetachAll(Helper(n)));
    t := Visits(cap, r, t, n, q, a, cur);
  }

  /** Helper threads are not bounded. */
  lemma FreshHelper(c: Chan) returns (n: nat)
    ensures n !in c.closers && At(c.m, Helper(n)).Idle?
  {
    var used := set a | a in c.m.act && a.Helper? :: a.n;
    n := Above(c.closers.Keys + used);
    forall a | a in c.m.act && a.Helper? ensures a.n < n { assert a.n in used; }
  }

  lemma {:induction false} Above(used: set<nat>) returns (n: nat)
    ensures forall y :: y in used ==> y < n
  {
    n := 0;
    if used != {} {
      var x :| x in used;
      var m := Above(used - {x});
      n := if x < m then m else x + 1;
      forall y | y in used ensures y < n { assert y == x || y in used - {x}; }
    }
  }

  /** Somebody is asleep on one of the two condition variables. */
  predicate SomebodyAsleep(c: Chan) {
    Ptr(c.m.head, PRODUCERS).Some? || Ptr(c.m.head, CONSUMERS).Some?
  }

  /** The queue that a is about to join is one of the two. */
  lemma RegistersWhere(cap: nat, s: CState, a: Agent)
    requires Reached(cap, s) && At(s.c.m, a).Reg?
    ensures At(s.c.m, a).w.CvAw? && At(s.c.m, a).w.cv in {PRODUCERS, CONSUMERS}
  {
    ReachedGood(cap, s);
    assert RegFits(s, At(s.c.m, a));
    RegisteredKind(s, a);
  }

  lemma AsleepSeen(cap: nat, s: CState, cv: nat)
    requires Reached(cap, s) && L(s.g.h, InCv(cv)) != []
    ensures Ptr(s.c.m.head, cv).Some?
  {
    ReachedGood(cap, s);
    QueueSeen(s, cv);
  }

  lemma Joins(s: State, a: Agent, i: nat)
    requires Enabled(s.m, Register(a, i))
    ensures L(Note(s, Register(a, i)), InCv(At(s.m, a).w.cv)) != []
  {
  }

  /** Close has returned; now the sleeper registers. */
  lemma RegistersLate(cap: nat, r: CState, s: CState, n: nat, a: Agent) returns (t: CState)
    requires Reached(cap, s) && Goes(r, s) && Sweeping(s, n, InConsumers, Idle, a)
    ensures Goes(r, t) && CloseReturned(t.c, n) && SomebodyAsleep(t.c)
  {
    RegistersWhere(cap, s, a);
    var i := FreshHelper(s.c);
    var l := Register(a, i);
    GoesOn(cap, r, s, SyncStep(l));
    t := CStep(s, SyncStep(l));
    OnlyActors(s.c.m, l, Helper(n));
    Joins(S(s), a, i);
    AsleepSeen(cap, t, At(s.c.m, a).w.cv);
  }

  lemma MissesSomebody(cap: nat, s: CState, n: nat, a: Agent) returns (t: CState)
    requires Reached(cap, s) && CEnabled(s.c, CloseStore(n)) && At(s.c.m, a).Reg?
    ensures Goes(CStep(s, CloseStore(n)), t) && CloseReturned(t.c, n) && SomebodyAsleep(t.c)
  {
    var r := CStep(s, CloseStore(n));
    Stays(s);
    GoesOn(cap, s, s, CloseStore(n));
    Stays(r);
    t := Sweeps(cap, r, r, n, AfterStore, a, InProducers, PRODUCERS);
    t := Sweeps(cap, r, t, n, InProducers, a, InConsumers, CONSUMERS);
    t := RegistersLate(cap, r, t, n, a);
  }

  // ---- the boundary ----

  /** Whenever close call n has returned, nobody is asleep. */
  ghost predicate LeavesNobody(r: CState, n: nat) {
    forall ls :: CanRun(r.c, ls) && CloseReturned(Run(r, ls).c, n) ==> !SomebodyAsleep(Run(r, ls).c)
  }

  /** In every reachable state: a close call that stores now leaves nobody asleep, in every
      continuation in which it has returned, exactly if nobody is about to register now. */
  lemma CloseLeavesNobodyExactly(cap: nat, s: CState, n: nat)
    requires Reached(cap, s) && CEnabled(s.c, CloseStore(n))
    ensures LeavesNobody(CStep(s, CloseStore(n)), n) <==> NobodyRegisters(s)
  {
    var r := CStep(s, CloseStore(n));
    if NobodyRegisters(s) {
      SweepsAll(cap, s, n);
    } else {
      var a :| At(s.c.m, a).Reg?;
      var t := MissesSomebody(cap, s, n, a);
      var ls :| CanRun(r.c, ls) && Run(r, ls) == t;
    }
  }

  lemma SweepsAll(cap: nat, s: CState, n: nat)
    requires Reached(cap, s) && CEnabled(s.c, CloseStore(n)) && NobodyRegisters(s)
    ensures LeavesNobody(CStep(s, CloseStore(n)), n)
  {
    var r := CStep(s, CloseStore(n));
    ReachedGood(cap, s);
    CStepInv(s, CloseStore(n));
    assert NobodyRegisters(r) <==> NobodyRegisters(s);
    forall ls | CanRun(r.c, ls) && CloseReturned(Run(r, ls).c, n) ensures !SomebodyAsleep(Run(r, ls).c) {
      SweptRun(r, ls, n);
      QueueSeen(Run(r, ls), PRODUCERS);
      QueueSeen(Run(r, ls), CONSUMERS);
    }
  }
}
