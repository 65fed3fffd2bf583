/**
 What the channel guarantees over every run of any number of send, recv and close calls.
 */
module ChannelTheorems {
  import opened Sync
  import opened SyncInv
  import opened Channel
  import opened ChannelInv

  /** The calls can perform the steps ls, in this order, from c. */
  ghost predicate CanRun(c: Chan, ls: seq<CLabel>)
    decreases |ls|
  {
    ls == [] || (CEnabled(c, ls[0]) && CanRun(CDo(c, ls[0]), ls[1..]))
  }

  ghost function Run(s: CState, ls: seq<CLabel>): CState
    requires CanRun(s.c, ls)
    decreases |ls|
  {
    if ls == [] then s else Run(CStep(s, ls[0]), ls[1..])
  }

  // ---- what calls return ----

  predicate Returns(g: Log, k: Task) {
    match k.pc
    case ToNotify(r) => if k.op.Send? then r == Sent(true) else r.Got?
    case Notifying(r) => if k.op.Send? then r == Sent(true) else r.Got?
    case Leaving(r) => if k.op.Send? then r == Sent(false) else r == Nothing && g.ended
    case Finished(r) => if k.op.Send? then r.Sent? else r.Got? || (r == Nothing && g.ended)
    case _ => true
  }

  ghost predicate Results(s: CState) {
    forall t :: t in s.c.tasks ==> Returns(s.g, s.c.tasks[t])
  }

  ghost predicate Good(s: CState) {
    CInv(s) && Results(s)
  }

  lemma SyncResult(c: Chan, g: Log, l: Label, t: nat)
    requires CEnabled(c, SyncStep(l)) && t in c.tasks && Returns(g, c.tasks[t])
    ensures t in Advance(c, l).tasks && Returns(g, Advance(c, l).tasks[t])
  {
    AdvanceFrame(c, l);
  }

  lemma StepResults(s: CState, l: CLabel)
    requires Data(s) && Guards(s) && Results(s) && CEnabled(s.c, l)
    ensures Results(CStep(s, l))
  {
    var s' := CStep(s, l);
    if l.SyncStep? { AdvanceFrame(s.c, l.l); }
    forall t | t in s'.c.tasks ensures Returns(s'.g, s'.c.tasks[t]) {
      if l.SyncStep? {
        SyncResult(s.c, s.g, l.l, t);
      } else if t in s.c.tasks {
        assert Returns(s.g, s.c.tasks[t]) && Relies(s, s.c.tasks[t], At(s.c.m, Coro(t)));
      }
    }
  }

  lemma {:induction false} RunGood(s: CState, ls: seq<CLabel>)
    requires Good(s) && CanRun(s.c, ls)
    ensures Good(Run(s, ls))
    decreases |ls|
  {
    if ls != [] {
      CStepInv(s, ls[0]);
      StepResults(s, ls[0]);
      RunGood(CStep(s, ls[0]), ls[1..]);
    }
  }

  lemma EveryRun(cap: nat, ls: seq<CLabel>)
    requires CanRun(CInit(cap), ls)
    ensures Good(Run(CStart(cap), ls))
  {
    CStartInv(cap);
    RunGood(CStart(cap), ls);
  }

  // ---- no lost wake-ups ----

  lemma QueueSeen(s: CState, cv: nat)
    requires Inv(S(s))
    ensures Ptr(s.c.m.head, cv).Some? <==> L(s.g.h, InCv(cv)) != []
  {
    assert Linked(s.c.m.next, HeadOf(S(s), InCv(cv)), L(s.g.h, InCv(cv)));
  }

  /** When the mutex is free nobody is engaged and no notification is owed. */
  lemma FreeMeansNobodyEngaged(s: CState, cv: nat)
    requires Inv(S(s)) && s.c.m.word.NoLocked?
    ensures Due(s, cv) == 0
  {
    assert Linked(s.c.m.next, HeadOf(S(s), InStack), L(s.g.h, InStack));
    assert Linked(s.c.m.next, HeadOf(S(s), InRest), L(s.g.h, InRest));
    assert Linked(s.c.m.next, HeadOf(S(s), InRes), L(s.g.h, InRes));
    assert Holds(s.g.h.loc, InStack, []) && Holds(s.g.h.loc, InRest, []) && Holds(s.g.h.loc, InRes, []);
    forall t ensures !Engaged(s, t) {
      if At(s.c.m, Coro(t)).Blocked? {
        var w := At(s.c.m, Coro(t)).w;
        assert !Is(s.g.h.loc, w, InStack) && !Is(s.g.h.loc, w, InRest) && !Is(s.g.h.loc, w, InRes);
      }
    }
    assert EngagedOn(s, cv) == {};
  }

  /** In every reachable state: while a receiver sleeps, the buffered values are at most the
      receivers queued on or holding the mutex that have not yet taken, plus one if a sender is
      between its store and its notification; with the mutex free, no receiver sleeps beside a
      value. */
  lemma ReceiversNeverStranded(cap: nat, ls: seq<CLabel>)
    requires CanRun(CInit(cap), ls)
    ensures var s := Run(CStart(cap), ls);
            Ptr(s.c.m.head, CONSUMERS).Some? ==>
              && |s.c.buf| <= |EngagedOn(s, CONSUMERS)| + (if Pending(s, CONSUMERS) then 1 else 0)
              && (s.c.m.word.NoLocked? ==> s.c.buf == [])
  {
    EveryRun(cap, ls);
    var s := Run(CStart(cap), ls);
    QueueSeen(s, CONSUMERS);
    if s.c.m.word.NoLocked? { FreeMeansNobodyEngaged(s, CONSUMERS); }
  }

  /** The same for senders and free slots, except between the store of the first close call and
      the moment a close call detaches the producers' queue. */
  lemma SendersNeverStranded(cap: nat, ls: seq<CLabel>)
    requires CanRun(CInit(cap), ls)
    ensures var s := Run(CStart(cap), ls);
            Ptr(s.c.m.head, PRODUCERS).Some? && (Closed(s.c) ==> s.g.drainedP) ==>
              && cap - |s.c.buf| <= |EngagedOn(s, PRODUCERS)| + (if Pending(s, PRODUCERS) then 1 else 0)
              && (s.c.m.word.NoLocked? ==> |s.c.buf| == cap)
  {
    EveryRun(cap, ls);
    var s := Run(CStart(cap), ls);
    QueueSeen(s, PRODUCERS);
    CapKept(CStart(cap), ls);
    if s.c.m.word.NoLocked? { FreeMeansNobodyEngaged(s, PRODUCERS); }
  }

  lemma {:induction false} CapKept(s: CState, ls: seq<CLabel>)
    requires CanRun(s.c, ls)
    ensures Run(s, ls).c.cap == s.c.cap
    decreases |ls|
  {
    if ls != [] {
      CapKept(CStep(s, ls[0]), ls[1..]);
    }
  }

  // ---- conservation ----

  /** Nothing is lost, duplicated or reordered, and the buffer never exceeds its capacity. */
  lemma Conservation(cap: nat, ls: seq<CLabel>)
    requires CanRun(CInit(cap), ls)
    ensures var s := Run(CStart(cap), ls);
            s.g.accepted == s.g.received + s.c.buf && |s.c.buf| <= cap
  {
    EveryRun(cap, ls);
    CapKept(CStart(cap), ls);
  }

  // ---- a task that continues after its wait ----

  /** A call that continues after `co_await cv.wait` is the only thread in charge of the mutex and
      its predicate is true, whoever evaluated it. */
  lemma ContinuesWithPredicate(cap: nat, ls: seq<CLabel>, t: nat, a: Agent)
    requires CanRun(CInit(cap), ls) && PcIs(Run(CStart(cap), ls).c, t, Body)
    ensures var s := Run(CStart(cap), ls);
            && Pred(s.c, s.c.tasks[t].op)
            && (HasToken(At(s.c.m, a)) <==> a == Coro(t))
  {
    EveryRun(cap, ls);
    var s := Run(CStart(cap), ls);
    assert TaskFits(s.c, t) && Relies(s, s.c.tasks[t], At(s.c.m, Coro(t)));
    assert HasToken(At(s.c.m, Coro(t)));
  }

  /** Every access to the buffer is in bounds: a store finds room and a take finds a value. */
  lemma BufferAccessInBounds(cap: nat, ls: seq<CLabel>, t: nat)
    requires CanRun(CInit(cap), ls)
    ensures var s := Run(CStart(cap), ls);
            && (PcIs(s.c, t, Put) ==> |s.c.buf| < cap)
            && (PcIs(s.c, t, TakeOut) ==> s.c.buf != [])
  {
    EveryRun(cap, ls);
    var s := Run(CStart(cap), ls);
    CapKept(CStart(cap), ls);
    assert t in s.c.tasks ==> Relies(s, s.c.tasks[t], At(s.c.m, Coro(t)));
  }

  // ---- the end of the channel ----

  /** A call that began after the channel ended never stores or takes, and returns accordingly. */
  predicate Late(k: Task) {
    match k.pc
    case Put => false
    case TakeOut => false
    case ToNotify(_) => false
    case Notifying(_) => false
    case Leaving(r) => r == if k.op.Send? then Sent(false) else Nothing
    case Finished(r) => r == if k.op.Send? then Sent(false) else Nothing
    case _ => true
  }

  /** After a recv has returned nullopt: nothing is stored or taken any more. */
  lemma EndedStep(s: CState, l: CLabel)
    requires Good(s) && s.g.ended && CEnabled(s.c, l)
    ensures var s' := CStep(s, l);
            && s'.g.ended && s'.g.accepted == s.g.accepted && s'.g.received == s.g.received
            && !l.Store? && !l.Remove?
            && (forall t :: t in s.c.tasks && Late(s.c.tasks[t]) ==> t in s'.c.tasks && Late(s'.c.tasks[t]))
            && (forall t :: t !in s.c.tasks && t in s'.c.tasks ==> Late(s'.c.tasks[t]))
  {
    assert (l.Store? || l.Remove?) ==> Relies(s, s.c.tasks[l.t], At(s.c.m, Coro(l.t)));
    EndedLate(s, l);
  }

  lemma SyncLate(c: Chan, l: Label, t: nat)
    requires CEnabled(c, SyncStep(l)) && t in c.tasks && Late(c.tasks[t])
    ensures t in Advance(c, l).tasks && Late(Advance(c, l).tasks[t])
  {
    AdvanceFrame(c, l);
  }

  lemma EndedLate(s: CState, l: CLabel)
    requires Data(s) && Guards(s) && s.g.ended && CEnabled(s.c, l)
    ensures var s' := CStep(s, l);
            && (forall t :: t in s.c.tasks && Late(s.c.tasks[t]) ==> t in s'.c.tasks && Late(s'.c.tasks[t]))
            && (forall t :: t !in s.c.tasks && t in s'.c.tasks ==> Late(s'.c.tasks[t]))
  {
    var s' := CStep(s, l);
    if l.SyncStep? { AdvanceFrame(s.c, l.l); }
    forall t | t in s.c.tasks && Late(s.c.tasks[t]) ensures t in s'.c.tasks && Late(s'.c.tasks[t]) {
      if l.SyncStep? { SyncLate(s.c, l.l, t); } else { assert Relies(s, s.c.tasks[t], At(s.c.m, Coro(t))); }
    }
  }

  lemma {:induction false} EndedForever(s: CState, ls: seq<CLabel>, t: nat)
    requires Good(s) && s.g.ended && CanRun(s.c, ls)
    requires t in s.c.tasks ==> Late(s.c.tasks[t])
    ensures var s' := Run(s, ls);
            && s'.g.ended && s'.g.accepted == s.g.accepted && s'.g.received == s.g.received
            && (t in s'.c.tasks ==> Late(s'.c.tasks[t]))
    decreases |ls|
  {
    if ls != [] {
      CStepInv(s, ls[0]);
      StepResults(s, ls[0]);
      EndedStep(s, ls[0]);
      EndedForever(CStep(s, ls[0]), ls[1..], t);
    }
  }

  /** Once any recv has returned nullopt, every accepted value has been received, no send is ever
      accepted again, and a call made later returns false or nullopt, however often the channel is
      closed again. */
  lemma NulloptIsFinal(cap: nat, ls: seq<CLabel>, more: seq<CLabel>, r: nat, t: nat)
    requires CanRun(CInit(cap), ls)
    requires var s := Run(CStart(cap), ls);
             && r in s.c.tasks && s.c.tasks[r] == Task(Recv, Finished(Nothing))
             && t !in s.c.tasks && CanRun(s.c, more)
    ensures var s := Run(CStart(cap), ls);
            var s' := Run(s, more);
            && s.g.received == s.g.accepted
            && s'.g.accepted == s.g.accepted && s'.g.received == s.g.accepted
            && (t in s'.c.tasks && s'.c.tasks[t].pc.Finished? ==>
                  s'.c.tasks[t].pc.r == if s'.c.tasks[t].op.Send? then Sent(false) else Nothing)
  {
    EveryRun(cap, ls);
    var s := Run(CStart(cap), ls);
    assert Returns(s.g, s.c.tasks[r]);
    EndedForever(s, more, t);
  }

  // ---- close ----

  /** No task whose predicate is evaluated after the close store ever goes to sleep: after a step
      from a closed channel, whoever is about to register was about to register before. */
  lemma ClosedNeverSleeps(c: Chan, l: CLabel, a: Agent)
    requires CEnabled(c, l) && Closed(c) && At(CDo(c, l).m, a).Reg?
    ensures At(c.m, a).Reg? && At(c.m, a).w == At(CDo(c, l).m, a).w
  {
    if l.SyncStep? { BecomesReg(c.m, l.l, a); }
  }

  /** A close call has returned. */
  predicate CloseReturned(c: Chan, n: nat) {
    n in c.closers && c.closers[n].InConsumers? && At(c.m, Helper(n)).Idle?
  }

  /** When close returns, every task it found on either condition variable has been resumed, or
      is queued on the mutex, or is in the hand of the thread that is resuming it. */
  lemma CloseWakes(cap: nat, ls: seq<CLabel>, n: nat, w: Aw)
    requires CanRun(CInit(cap), ls)
    requires var s := Run(CStart(cap), ls); CloseReturned(s.c, n) && w in Woken(s.g, n)
    ensures var s := Run(CStart(cap), ls);
            || At(s.c.m, Coro(w.task)) != Blocked(w)
            || (w in s.g.h.loc &&
                var p := s.g.h.loc[w]; p.InStack? || p.InRest? || p.InRes? || p.InHand?)
  {
    EveryRun(cap, ls);
    var s := Run(CStart(cap), ls);
    assert AwakeAt(s, n, w);
    ChainVisited(S(s), Helper(n), w);
  }

  /** A thread that is not inside a notify_all loop has nobody left to visit. */
  lemma ChainVisited(s: State, a: Agent, w: Aw)
    requires Places(s) && Links(s) && Sleepers(s) && At(s.m, a).Idle?
    ensures !Is(s.h.loc, w, InChain(a))
    ensures At(s.m, Coro(w.task)) == Blocked(w) ==> w in s.h.loc
  {
    assert Linked(s.m.next, HeadOf(s, InChain(a)), L(s.h, InChain(a)));
    assert Holds(s.h.loc, InChain(a), L(s.h, InChain(a)));
  }

  /** Once a close call has returned, at most one task is asleep on the two condition variables
      together: the one that held the mutex, its predicate already evaluated, at the store. */
  lemma AtMostOneStraggler(cap: nat, ls: seq<CLabel>, n: nat)
    requires CanRun(CInit(cap), ls) && CloseReturned(Run(CStart(cap), ls).c, n)
    ensures var s := Run(CStart(cap), ls);
            |L(s.g.h, InCv(PRODUCERS))| + |L(s.g.h, InCv(CONSUMERS))| <= 1
  {
    EveryRun(cap, ls);
  }
}
