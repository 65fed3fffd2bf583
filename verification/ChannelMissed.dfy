/** A sleeper that close has missed sleeps for good, unless somebody closes the channel again. */
module ChannelMissed {
  import opened Sync
  import opened SyncInv
  import opened Channel
  import opened ChannelInv
  import opened ChannelTheorems
  import opened ChannelClose
  import opened ChannelRuns

  /** The call will not store, take or notify. */
  predicate Harmless(k: Task) {
    !k.pc.Put? && !k.pc.TakeOut? && !k.pc.ToNotify? && !k.pc.Notifying?
  }

  /** A closed, empty channel on which every close call has returned and no call will notify; awaiter w
      sleeps on the consumers' condition variable. */
  ghost predicate Deserted(s: CState, w: Aw) {
    && Closed(s.c) && s.c.buf == []
    && (forall t :: t in s.c.tasks ==> Harmless(s.c.tasks[t]))
    && (forall n :: n in s.c.closers ==> CloseReturned(s.c, n))
    && w in L(s.g.h, InCv(CONSUMERS))
  }

  lemma NotifierPc(s: CState, a: Agent)
    requires Token(S(s)) && Tasks(s) && Helpers(s) && At(s.c.m, a).Notify?
    ensures a.Coro? && a.t in s.c.tasks && s.c.tasks[a.t].pc.Notifying?
  {
    NotifierHolds(s, a);
    assert TaskFits(s.c, a.t);
  }

  /** Nobody is inside a notification. */
  lemma NobodyNotifies(s: CState, w: Aw, l: Label)
    requires Token(S(s)) && Tasks(s) && Helpers(s) && Deserted(s, w) && CEnabled(s.c, SyncStep(l))
    ensures !l.PopOne? && !l.DetachAll? && !l.StartNotify?
  {
    if l.PopOne? { NotifierPc(s, l.a); }
    if l.DetachAll? { DetachedByCloser(s, l.a); }
  }

  lemma TasksHarmless(c: Chan, l: Label, t: nat)
    requires CEnabled(c, SyncStep(l)) && !l.StartNotify? && t in c.tasks && Harmless(c.tasks[t])
    ensures t in Advance(c, l).tasks && Harmless(Advance(c, l).tasks[t])
  {
  }

  lemma ClosersDone(c: Chan, l: Label, n: nat)
    requires CEnabled(c, SyncStep(l)) && !l.StartNotify? && CloseReturned(c, n)
    ensures CloseReturned(CDo(c, SyncStep(l)), n)
  {
    assert Actor(l) != Helper(n);
    OnlyActors(c.m, l, Helper(n));
  }

  lemma DesertedSync(s: CState, w: Aw, l: Label)
    requires Token(S(s)) && Tasks(s) && Helpers(s) && Deserted(s, w) && CEnabled(s.c, SyncStep(l))
    ensures Deserted(CStep(s, SyncStep(l)), w)
  {
    var s' := CStep(s, SyncStep(l));
    NobodyNotifies(s, w, l);
    AdvanceFrame(s.c, l);
    QueueChanges(S(s), l, CONSUMERS);
    forall t | t in s'.c.tasks ensures Harmless(s'.c.tasks[t]) { TasksHarmless(s.c, l, t); }
    forall n | n in s'.c.closers ensures CloseReturned(s'.c, n) { ClosersDone(s.c, l, n); }
  }

  lemma DesertedStep(s: CState, w: Aw, l: CLabel)
    requires Token(S(s)) && Tasks(s) && Helpers(s) && Deserted(s, w) && CEnabled(s.c, l) && !l.CloseStore?
    ensures Deserted(CStep(s, l), w)
  {
    if l.SyncStep? { DesertedSync(s, w, l.l); } else { DesertedOwn(s, w, l); }
  }

  lemma DesertedOwn(s: CState, w: Aw, l: CLabel)
    requires Deserted(s, w) && CEnabled(s.c, l) && !l.CloseStore? && !l.SyncStep?
    ensures Deserted(CStep(s, l), w)
  {
    var s' := CStep(s, l);
    forall t | t in s'.c.tasks ensures Harmless(s'.c.tasks[t]) {
      assert t in s.c.tasks ==> Harmless(s.c.tasks[t]);
    }
    forall n | n in s'.c.closers ensures CloseReturned(s'.c, n) { assert CloseReturned(s.c, n); }
  }

  lemma {:induction false} DesertedRun(s: CState, w: Aw, ls: seq<CLabel>)
    requires CInv(s) && Deserted(s, w) && CanRun(s.c, ls) && NoClose(ls)
    ensures CInv(Run(s, ls)) && Deserted(Run(s, ls), w)
    decreases |ls|
  {
    if ls != [] {
      CStepInv(s, ls[0]);
      DesertedStep(s, w, ls[0]);
      DesertedRun(CStep(s, ls[0]), w, ls[1..]);
    }
  }

  /** Nobody closes the channel again. */
  predicate NoClose(ls: seq<CLabel>) {
    ls == [] || (!ls[0].CloseStore? && NoClose(ls[1..]))
  }

  /** In every continuation without another close, awaiter w's task is still suspended. */
  ghost predicate AsleepForGood(s: CState, w: Aw) {
    forall ls :: CanRun(s.c, ls) && NoClose(ls) ==>
      At(Run(s, ls).c.m, Coro(w.task)) == Blocked(w)
  }

  lemma DesertedForGood(cap: nat, s: CState, w: Aw)
    requires Reached(cap, s) && Deserted(s, w)
    ensures AsleepForGood(s, w)
  {
    ReachedGood(cap, s);
    forall ls | CanRun(s.c, ls) && NoClose(ls)
      ensures At(Run(s, ls).c.m, Coro(w.task)) == Blocked(w)
    {
      DesertedRun(s, w, ls);
      QueuedIsBlocked(S(Run(s, ls)), w, CONSUMERS);
    }
  }

  lemma QueuedIsBlocked(s: State, w: Aw, cv: nat)
    requires Places(s) && Sleepers(s) && w in L(s.h, InCv(cv))
    ensures At(s.m, Coro(w.task)) == Blocked(w)
  {
    assert Holds(s.h.loc, InCv(cv), L(s.h, InCv(cv)));
    assert Is(s.h.loc, w, InCv(cv));
  }

  /** At every capacity a close can return and leave a receiver that no later send, recv or hand-off
      ever resumes. */
  lemma MissedForGood(cap: nat)
    ensures exists s :: Reached(cap, s) && MissedReceiver(s.c) && AsleepForGood(s, CvAw(0, CONSUMERS))
  {
    CloseCanMissOne(cap);
    var c :| Reaches(CInit(cap), c) && MissedReceiver(c);
    var ls :| Leads(CInit(cap), ls, c);
    LeadsCanRun(CStart(cap), ls, c);
    var s := Run(CStart(cap), ls);
    assert Reached(cap, s) && s.c == c;
    MissedDeserted(cap, s);
    DesertedForGood(cap, s, CvAw(0, CONSUMERS));
  }

  lemma MissedDeserted(cap: nat, s: CState)
    requires Reached(cap, s) && MissedReceiver(s.c)
    ensures Deserted(s, CvAw(0, CONSUMERS))
  {
    ReachedGood(cap, s);
    HeadIsQueued(S(s), CONSUMERS, CvAw(0, CONSUMERS));
    NobodyBusy(s);
  }

  lemma HeadIsQueued(s: State, cv: nat, w: Aw)
    requires Links(s) && Ptr(s.m.head, cv) == Some(w)
    ensures w in L(s.h, InCv(cv))
  {
    assert Linked(s.m.next, HeadOf(s, InCv(cv)), L(s.h, InCv(cv)));
  }

  lemma NobodyBusy(s: CState)
    requires MissedReceiver(s.c)
    ensures forall t :: t in s.c.tasks ==> Harmless(s.c.tasks[t])
    ensures forall n :: n in s.c.closers ==> CloseReturned(s.c, n)
  {
  }
}
