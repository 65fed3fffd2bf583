/**
 What the synchronisation stack guarantees over every run: mutual exclusion, one place per
 awaiter, well-formed lists, and refinement of a plain FIFO lock.
 */
module SyncTheorems {
  import opened Sync
  import opened SyncInv

  // ---- runs ----

  /** The program can perform the steps ls, in this order, from memory m. */
  ghost predicate CanRun(m: Mem, ls: seq<Label>)
    decreases |ls|
  {
    ls == [] || (Enabled(m, ls[0]) && CanRun(Do(m, ls[0]), ls[1..]))
  }

  ghost function Run(s: State, ls: seq<Label>): State
    requires CanRun(s.m, ls)
    decreases |ls|
  {
    if ls == [] then s else Run(Step(s, ls[0]), ls[1..])
  }

  lemma {:induction false} RunInv(s: State, ls: seq<Label>)
    requires Inv(s) && CanRun(s.m, ls)
    ensures Inv(Run(s, ls))
    decreases |ls|
  {
    if ls != [] {
      StepInv(s, ls[0]);
      RunInv(Step(s, ls[0]), ls[1..]);
    }
  }

  /** Every run of the program from the initial memory ends in a state that meets the invariant. */
  lemma EveryRun(ls: seq<Label>)
    requires CanRun(Init(), ls)
    ensures Inv(Run(Start(), ls))
  {
    StartInv();
    RunInv(Start(), ls);
  }

  // ---- mutual exclusion, and the assertions of unlock ----

  lemma MutualExclusion(ls: seq<Label>, a: Agent, b: Agent)
    requires CanRun(Init(), ls)
    requires var m := Run(Start(), ls).m; HasToken(At(m, a)) && HasToken(At(m, b))
    ensures a == b
  {
    EveryRun(ls);
  }

  /** The assertions at src/comp/mutex.cpp:66, 78 and 90 hold whenever they are reached: the mutex
      is locked at entry, the word taken heads a waiter, and there is somebody to resume. */
  lemma UnlockAsserts(ls: seq<Label>, a: Agent)
    requires CanRun(Init(), ls)
    ensures var m := Run(Start(), ls).m;
            && (At(m, a).UEntry? ==> m.word != NoLocked)
            && (At(m, a).UXchg? ==> m.word != NoLocked && m.word != Locked(None))
            && (At(m, a).UPop? ==> exists t :: At(m, Coro(t)).Blocked? && At(m, Coro(t)).w == At(m, a).first)
  {
    EveryRun(ls);
    var s := Run(Start(), ls);
    if At(s.m, a).UEntry? { assert HasToken(At(s.m, a)); }
    if At(s.m, a).UXchg? { ExchangeFindsWaiters(s, a); }
    if At(s.m, a).UPop? {
      assert HasToken(At(s.m, a));
      var w := At(s.m, a).first;
      assert Linked(s.m.next, HeadOf(s, InRes), L(s.h, InRes)) && Holds(s.h.loc, InRes, L(s.h, InRes));
      assert w in L(s.h, InRes) && Is(s.h.loc, w, InRes);
      assert At(s.m, Coro(w.task)) == Blocked(w);
    }
  }

  // ---- the single link ----

  /** Starting at p, following `next` n times. */
  ghost function Follow(next: map<Aw, Opt<Aw>>, p: Opt<Aw>, n: nat): Opt<Aw>
    decreases n
  {
    if n == 0 || p.None? then p else Follow(next, Ptr(next, p.v), n - 1)
  }

  lemma {:induction false} FollowLinked(next: map<Aw, Opt<Aw>>, p: Opt<Aw>, s: seq<Aw>, n: nat)
    requires Linked(next, p, s)
    ensures Follow(next, p, n) == if n < |s| then Some(s[n]) else None
    decreases n
  {
    if n > 0 && p.Some? {
      LinkedDrop(next, p, s);
      FollowLinked(next, Ptr(next, p.v), s[1..], n - 1);
    }
  }

  /** In every reachable memory, two walks that start at the heads of two lists, or at two depths
      of one list, never meet, and every walk ends at null. */
  lemma LinksNeverShared(ls: seq<Label>, p: Place, i: nat, q: Place, j: nat)
    requires CanRun(Init(), ls) && !p.InHand? && !q.InHand?
    requires var s := Run(Start(), ls);
             && Follow(s.m.next, HeadOf(s, p), i).Some?
             && Follow(s.m.next, HeadOf(s, p), i) == Follow(s.m.next, HeadOf(s, q), j)
    ensures p == q && i == j
  {
    EveryRun(ls);
    var s := Run(Start(), ls);
    assert Linked(s.m.next, HeadOf(s, p), L(s.h, p)) && Linked(s.m.next, HeadOf(s, q), L(s.h, q));
    assert Holds(s.h.loc, p, L(s.h, p)) && Holds(s.h.loc, q, L(s.h, q));
    FollowLinked(s.m.next, HeadOf(s, p), L(s.h, p), i);
    FollowLinked(s.m.next, HeadOf(s, q), L(s.h, q), j);
    assert L(s.h, p)[i] in L(s.h, p) && L(s.h, q)[j] in L(s.h, q);
  }

  /** Every list is acyclic and ends at null after its last node. */
  lemma ListsEnd(ls: seq<Label>, p: Place)
    requires CanRun(Init(), ls) && !p.InHand?
    ensures var s := Run(Start(), ls);
            Follow(s.m.next, HeadOf(s, p), |L(s.h, p)|) == None
  {
    EveryRun(ls);
    var s := Run(Start(), ls);
    assert Linked(s.m.next, HeadOf(s, p), L(s.h, p));
    FollowLinked(s.m.next, HeadOf(s, p), L(s.h, p), |L(s.h, p)|);
  }

  /** The tail pointer of a condition variable is the last node of the head's chain. */
  lemma TailIsLast(ls: seq<Label>, cv: nat)
    requires CanRun(Init(), ls)
    ensures var m := Run(Start(), ls).m;
            && (Ptr(m.tail, cv).None? <==> Ptr(m.head, cv).None?)
            && (Ptr(m.tail, cv).Some? ==>
                  && Ptr(m.next, Ptr(m.tail, cv).v).None?
                  && exists n :: Follow(m.next, Ptr(m.head, cv), n) == Ptr(m.tail, cv))
  {
    EveryRun(ls);
    var s := Run(Start(), ls);
    var q := L(s.h, InCv(cv));
    assert Linked(s.m.next, HeadOf(s, InCv(cv)), q);
    if q != [] {
      FollowLinked(s.m.next, Ptr(s.m.head, cv), q, |q| - 1);
      assert Ptr(s.m.next, q[|q| - 1]) == Succ(q, |q| - 1);
    }
  }

  /** A task is suspended exactly when its awaiter is on one list or in one hand. */
  lemma NobodyIsLost(ls: seq<Label>, w: Aw)
    requires CanRun(Init(), ls) && At(Run(Start(), ls).m, Coro(w.task)) == Blocked(w)
    ensures var s := Run(Start(), ls);
            || (exists p: Place, n :: !p.InHand? && Follow(s.m.next, HeadOf(s, p), n) == Some(w))
            || (exists a :: HandOf(At(s.m, a)) == Some(w))
  {
    EveryRun(ls);
    var s := Run(Start(), ls);
    assert w in s.h.loc;
    var p := s.h.loc[w];
    if p.InHand? {
      assert Is(s.h.loc, w, InHand(p.a));
    } else {
      assert Holds(s.h.loc, p, L(s.h, p)) && Is(s.h.loc, w, p) && Linked(s.m.next, HeadOf(s, p), L(s.h, p));
      var n :| 0 <= n < |L(s.h, p)| && L(s.h, p)[n] == w;
      FollowLinked(s.m.next, HeadOf(s, p), L(s.h, p), n);
    }
  }

  // ---- refinement of a FIFO lock ----

  /** The specification: a lock with one queue. */
  datatype Fifo = Fifo(held: bool, queue: seq<Aw>)

  ghost predicate Arrive(f: Fifo, f': Fifo, w: Aw) {
    f.held && w !in f.queue && f' == f.(queue := f.queue + [w])
  }

  ghost predicate GrantHead(f: Fifo, f': Fifo, w: Aw) {
    f.held && f.queue != [] && w == f.queue[0] && f' == f.(queue := f.queue[1..])
  }

  ghost predicate Free(f: Fifo, f': Fifo) {
    f.held && f.queue == [] && f' == Fifo(false, [])
  }

  ghost predicate Take(f: Fifo, f': Fifo) {
    !f.held && f.queue == [] && f' == Fifo(true, [])
  }

  function Reverse(s: seq<Aw>): seq<Aw> {
    if s == [] then [] else Reverse(s[1..]) + [s[0]]
  }

  /** The queue hidden in the word's stack, the half-reversed list and the owner's list. */
  function Queue(h: Hist): seq<Aw> {
    Reverse(L(h, InRest)) + L(h, InRes) + Reverse(L(h, InStack))
  }

  function Abs(s: State): Fifo {
    Fifo(s.m.word.Locked?, Queue(s.h))
  }

  lemma {:induction false} InReverse(s: seq<Aw>, w: Aw)
    ensures w in Reverse(s) <==> w in s
  {
    if s != [] {
      InReverse(s[1..], w);
      assert s == [s[0]] + s[1..];
    }
  }

  lemma QueueMembers(s: State, w: Aw)
    requires Places(s)
    ensures w in Queue(s.h) <==> w in s.h.loc && (s.h.loc[w].InStack? || s.h.loc[w].InRest? || s.h.loc[w].InRes?)
  {
    assert Holds(s.h.loc, InStack, L(s.h, InStack)) && Holds(s.h.loc, InRest, L(s.h, InRest)) &&
        Holds(s.h.loc, InRes, L(s.h, InRes));
    assert w in L(s.h, InStack) <==> Is(s.h.loc, w, InStack);
    assert w in L(s.h, InRest) <==> Is(s.h.loc, w, InRest);
    assert w in L(s.h, InRes) <==> Is(s.h.loc, w, InRes);
    InReverse(L(s.h, InStack), w);
    InReverse(L(s.h, InRest), w);
  }

  lemma RestOnlyWhileReversing(s: State)
    requires Inv(s)
    ensures !(s.h.holder.Some? && At(s.m, s.h.holder.v).URev?) ==> L(s.h, InRest) == []
    ensures s.h.holder.None? ==> Queue(s.h) == []
    ensures s.h.holder.Some? && At(s.m, s.h.holder.v).UCas? ==> (Queue(s.h) == [] <==> s.m.word == Locked(None))
  {
    assert Linked(s.m.next, HeadOf(s, InRest), L(s.h, InRest));
    assert Linked(s.m.next, HeadOf(s, InRes), L(s.h, InRes));
    assert Linked(s.m.next, HeadOf(s, InStack), L(s.h, InStack));
    if L(s.h, InStack) != [] {
      InReverse(L(s.h, InStack), L(s.h, InStack)[0]);
    }
  }

  /** A waiter is queued at the back the instant its exchange succeeds. */
  lemma PushArrives(s: State, a: Agent)
    requires Inv(s) && Enabled(s.m, CasOk(a)) && s.m.word.Locked?
    ensures Arrive(Abs(s), Abs(Step(s, CasOk(a))), At(s.m, a).w)
  {
    LoadPrivate(s, a);
    QueueMembers(s, At(s.m, a).w);
    PushQueue(s.h, At(s.m, a).w);
    assert Queue(Step(s, CasOk(a)).h) == Queue(PutFirst(s.h, InStack, At(s.m, a).w));
  }

  lemma PushQueue(h: Hist, w: Aw)
    ensures Queue(PutFirst(h, InStack, w)) == Queue(h) + [w]
  {
    var st, h' := L(h, InStack), PutFirst(h, InStack, w);
    assert L(h', InStack) == [w] + st && ([w] + st)[1..] == st;
    assert L(h', InRest) == L(h, InRest) && L(h', InRes) == L(h, InRes);
  }

  /** The lock is taken only when it is free, and then nobody is queued: nobody is overtaken. */
  lemma TakeOvertakesNobody(s: State, l: Label)
    requires Inv(s) && Enabled(s.m, l) && s.m.word.NoLocked? && (l.CasOk? || l.TryLock?)
    ensures Take(Abs(s), Abs(Step(s, l)))
  {
    RestOnlyWhileReversing(s);
    assert Queue(Step(s, l).h) == Queue(s.h);
  }

  lemma TakeFromQueue(h: Hist, w: Aw, a: Agent)
    requires L(h, InRest) == [] && First(L(h, InRes)) == Some(w)
    ensures Queue(h) == [w] + Queue(TakeFirst(h, InRes, w, InHand(a)))
  {
    var h' := TakeFirst(h, InRes, w, InHand(a));
    assert L(h', InRest) == [] && L(h', InStack) == L(h, InStack) && L(h, InRes) == [w] + L(h', InRes);
  }

  lemma PopGrantsHead(s: State, a: Agent)
    requires Inv(s) && Enabled(s.m, Pop(a))
    ensures GrantHead(Abs(s), Abs(Step(s, Pop(a))), At(s.m, a).first)
  {
    var w := At(s.m, a).first;
    assert HasToken(At(s.m, a));
    RestOnlyWhileReversing(s);
    assert Linked(s.m.next, HeadOf(s, InRes), L(s.h, InRes));
    TakeFromQueue(s.h, w, a);
    assert Queue(Step(s, Pop(a)).h) == Queue(TakeFirst(s.h, InRes, w, InHand(a)));
  }

  /** unlock frees the lock if and only if nobody is queued at that instant. */
  lemma FreesOnlyWhenEmpty(s: State, a: Agent)
    requires Inv(s) && Enabled(s.m, TryFree(a))
    ensures var s' := Step(s, TryFree(a));
            if Queue(s.h) == [] then Free(Abs(s), Abs(s')) else Abs(s') == Abs(s)
  {
    assert HasToken(At(s.m, a));
    RestOnlyWhileReversing(s);
  }

  lemma MoveKeepsQueue(h: Hist)
    requires L(h, InRest) == [] && L(h, InRes) == []
    ensures Queue(MoveList(h, InStack, InRest)) == Queue(h)
  {
    var h' := MoveList(h, InStack, InRest);
    assert L(h', InRest) == L(h, InStack) && L(h', InRes) == [] && L(h', InStack) == [];
  }

  lemma FlipKeepsQueue(h: Hist, w: Aw)
    requires First(L(h, InRest)) == Some(w)
    ensures Queue(PutFirst(TakeFirst(h, InRest, w, InRes), InRes, w)) == Queue(h)
  {
    var h' := PutFirst(TakeFirst(h, InRest, w, InRes), InRes, w);
    assert L(h', InRest) == L(h, InRest)[1..] && L(h', InRes) == [w] + L(h, InRes) && L(h', InStack) == L(h, InStack);
  }

  /** Taking the stack and reversing it in place do not change the queue. */
  lemma ReversalIsInvisible(s: State, l: Label)
    requires Inv(s) && Enabled(s.m, l) && (l.Exchange? || l.Flip?)
    ensures Abs(Step(s, l)) == Abs(s)
  {
    assert HasToken(At(s.m, l.a));
    assert Linked(s.m.next, HeadOf(s, InRest), L(s.h, InRest));
    assert Linked(s.m.next, HeadOf(s, InRes), L(s.h, InRes));
    if l.Exchange? {
      ExchangeFindsWaiters(s, l.a);
      MoveKeepsQueue(s.h);
    } else {
      FlipKeepsQueue(s.h, At(s.m, l.a).node);
    }
  }

  /** Every step of the program is a step of the FIFO lock, or changes nothing of it. */
  lemma RefinesFifo(s: State, l: Label)
    requires Inv(s) && Enabled(s.m, l)
    ensures var f, f' := Abs(s), Abs(Step(s, l));
            || f' == f
            || (l.CasOk? && Arrive(f, f', At(s.m, l.a).w))
            || ((l.CasOk? || l.TryLock?) && Take(f, f'))
            || (l.Pop? && GrantHead(f, f', At(s.m, l.a).first))
            || (l.TryFree? && Free(f, f'))
  {
    match l
    case CasOk(a) => if s.m.word.Locked? { PushArrives(s, a); } else { TakeOvertakesNobody(s, l); }
    case TryLock(_) => if s.m.word.NoLocked? { TakeOvertakesNobody(s, l); }
    case Pop(a) => PopGrantsHead(s, a);
    case TryFree(a) => FreesOnlyWhenEmpty(s, a);
    case Exchange(_) => ReversalIsInvisible(s, l);
    case Flip(_) => ReversalIsInvisible(s, l);
    case _ => QueueKept(s, l);
  }

  lemma QueueKept(s: State, l: Label)
    requires Enabled(s.m, l)
    requires !l.CasOk? && !l.TryLock? && !l.Pop? && !l.TryFree? && !l.Exchange? && !l.Flip?
    ensures Abs(Step(s, l)) == Abs(s)
  {
    var h, h' := s.h, Step(s, l).h;
    assert L(h', InStack) == L(h, InStack) && L(h', InRest) == L(h, InRest) && L(h', InRes) == L(h, InRes);
  }

  /** Whoever was pushed has been granted already, in order of arrival, or is still queued, in
      order of arrival. */
  ghost predicate InOrder(h: Hist) {
    h.arrived == h.granted + Queue(h)
  }

  lemma PushInOrder(s: State, a: Agent)
    requires Inv(s) && InOrder(s.h) && Enabled(s.m, CasOk(a)) && s.m.word.Locked?
    ensures InOrder(Step(s, CasOk(a)).h)
  {
    PushArrives(s, a);
    assert s.h.granted + (Queue(s.h) + [At(s.m, a).w]) == s.h.granted + Queue(s.h) + [At(s.m, a).w];
  }

  lemma ShiftHead(g: seq<Aw>, q: seq<Aw>)
    requires q != []
    ensures g + q == (g + [q[0]]) + q[1..]
  {
  }

  lemma PopInOrder(s: State, a: Agent)
    requires Inv(s) && InOrder(s.h) && Enabled(s.m, Pop(a))
    ensures InOrder(Step(s, Pop(a)).h)
  {
    PopGrantsHead(s, a);
    PopRecords(s, a);
    ShiftHead(s.h.granted, Queue(s.h));
  }

  lemma PopRecords(s: State, a: Agent)
    requires Enabled(s.m, Pop(a))
    ensures var h' := Step(s, Pop(a)).h;
            h'.arrived == s.h.arrived && h'.granted == s.h.granted + [At(s.m, a).first]
  {
  }

  lemma StepInOrder(s: State, l: Label)
    requires Inv(s) && InOrder(s.h) && Enabled(s.m, l)
    ensures InOrder(Step(s, l).h)
  {
    if l.CasOk? && s.m.word.Locked? {
      PushInOrder(s, l.a);
    } else if l.Pop? {
      PopInOrder(s, l.a);
    } else {
      RefinesFifo(s, l);
      HistoryKept(s, l);
    }
  }

  lemma HistoryKept(s: State, l: Label)
    requires Enabled(s.m, l) && !l.Pop? && (l.CasOk? ==> s.m.word.NoLocked?)
    ensures Step(s, l).h.arrived == s.h.arrived && Step(s, l).h.granted == s.h.granted
  {
  }

  lemma {:induction false} RunInOrder(s: State, ls: seq<Label>)
    requires Inv(s) && InOrder(s.h) && CanRun(s.m, ls)
    ensures InOrder(Run(s, ls).h)
    decreases |ls|
  {
    if ls != [] {
      StepInv(s, ls[0]);
      StepInOrder(s, ls[0]);
      RunInOrder(Step(s, ls[0]), ls[1..]);
    }
  }

  /** Over any run, awaiters leave the mutex queue in exactly the order in which they joined it. */
  lemma GrantedInArrivalOrder(ls: seq<Label>)
    requires CanRun(Init(), ls)
    ensures var h := Run(Start(), ls).h; h.granted <= h.arrived && h.arrived == h.granted + Queue(h)
  {
    StartInv();
    RunInOrder(Start(), ls);
  }
}
