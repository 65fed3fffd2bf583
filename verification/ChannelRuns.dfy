/**
 Runs, at every capacity, that show where `close` falls short, because it stores and notifies
 without holding the mutex. They bound what module ChannelTheorems can promise.
 */
module ChannelRuns {
  import opened Sync
  import opened Channel
  import opened ChannelInv
  import opened ChannelTheorems

  /** Some run of the calls leads from c to d. */
  ghost predicate Reaches(c: Chan, d: Chan) {
    exists ls :: Leads(c, ls, d)
  }

  ghost predicate Leads(c: Chan, ls: seq<CLabel>, d: Chan)
    decreases |ls|
  {
    if ls == [] then c == d else CEnabled(c, ls[0]) && Leads(CDo(c, ls[0]), ls[1..], d)
  }

  /** The same run with its history. */
  lemma {:induction false} LeadsCanRun(s: CState, ls: seq<CLabel>, d: Chan)
    requires Leads(s.c, ls, d)
    ensures CanRun(s.c, ls) && Run(s, ls).c == d
    decreases |ls|
  {
    if ls != [] { LeadsCanRun(CStep(s, ls[0]), ls[1..], d); }
  }

  lemma {:induction false} LeadsOn(c: Chan, ls: seq<CLabel>, d: Chan, more: seq<CLabel>, e: Chan)
    requires Leads(c, ls, d) && Leads(d, more, e)
    ensures Leads(c, ls + more, e)
    decreases |ls|
  {
    if ls == [] {
      assert ls + more == more;
    } else {
      LeadsOn(CDo(c, ls[0]), ls[1..], d, more, e);
      assert (ls + more)[0] == ls[0] && (ls + more)[1..] == ls[1..] + more;
    }
  }

  lemma Start(c: Chan)
    ensures Reaches(c, c)
  {
    assert Leads(c, [], c);
  }

  /** One more step. */
  lemma Next(c: Chan, d: Chan, l: CLabel)
    requires Reaches(c, d) && CEnabled(d, l)
    ensures Reaches(c, CDo(d, l))
  {
    var e := CDo(d, l);
    var ls :| Leads(c, ls, d);
    assert Leads(e, [], e);
    assert [l][1..] == [];
    assert Leads(d, [l], e);
    LeadsOn(c, ls, d, [l], e);
  }

  /** Thread of control a now stands at x. */
  function Put(d: Chan, a: Agent, x: Act): Chan {
    d.(m := Set(d.m, a, x))
  }

  function PutPc(d: Chan, t: nat, op: Op, pc: Pc): Chan {
    d.(tasks := d.tasks[t := Task(op, pc)])
  }

  /** One more step, with its outcome written out. */
  lemma Then(c: Chan, d: Chan, l: CLabel, e: Chan)
    requires Reaches(c, d) && CEnabled(d, l) && CDo(d, l) == e
    ensures Reaches(c, e)
  {
    Next(c, d, l);
  }

  // ---- phases of a call that meets no contention ----

  /** The call has started, and holds the mutex in front of its wait. */
  function Entered(d: Chan, t: nat, op: Op): Chan {
    d.(tasks := d.tasks[t := Task(op, ToWait)],
       m := d.m.(word := Locked(None), next := d.m.next[LockAw(t) := None], act := d.m.act[Coro(t) := Crit]))
  }

  lemma Begins(c: Chan, d: Chan, t: nat, op: Op)
    requires Reaches(c, d) && t !in d.tasks && At(d.m, Coro(t)).Idle? && !Closed(d)
    ensures Reaches(c, PutPc(d, t, op, ToLock))
  {
    Then(c, d, Call(t, op), PutPc(d, t, op, Early));
    Next(c, PutPc(d, t, op, Early), EarlyTest(t));
    assert CDo(PutPc(d, t, op, Early), EarlyTest(t)) == PutPc(d, t, op, ToLock);
  }

  lemma Loads(c: Chan, d: Chan, t: nat, k: Cont)
    requires Reaches(c, d) && At(d.m, Coro(t)).Load? && At(d.m, Coro(t)).k == k
    ensures var w := At(d.m, Coro(t)).w;
            Reaches(c, d.(m := Set(d.m, Coro(t), Cas(w, d.m.word, k)).(next := d.m.next[w := TopOf(d.m.word)])))
  {
    Next(c, d, SyncStep(LoadWord(Coro(t))));
  }

  lemma Acquires(c: Chan, d: Chan, t: nat, op: Op)
    requires Reaches(c, d) && t in d.tasks && d.tasks[t] == Task(op, Locking)
    requires At(d.m, Coro(t)) == Cas(LockAw(t), NoLocked, Own) && d.m.word == NoLocked
    ensures Reaches(c, d.(tasks := d.tasks[t := Task(op, ToWait)], m := Set(d.m, Coro(t), Crit).(word := Locked(None))))
  {
    var d1 := d.(m := Set(d.m, Coro(t), Granted(LockAw(t))).(word := Locked(None)));
    Then(c, d, SyncStep(CasOk(Coro(t))), d1);
    var d2 := d.(tasks := d.tasks[t := Task(op, ToWait)], m := Set(d.m, Coro(t), Crit).(word := Locked(None)));
    assert CDo(d1, SyncStep(Enter(t))).m.act == d2.m.act;
    Then(c, d1, SyncStep(Enter(t)), d2);
  }

  lemma Locks(c: Chan, d: Chan, t: nat, op: Op)
    requires Reaches(c, PutPc(d, t, op, ToLock)) && At(d.m, Coro(t)).Idle?
    ensures Reaches(c, Put(PutPc(d, t, op, Locking), Coro(t), Load(LockAw(t), Own)))
  {
    var d0 := PutPc(d, t, op, ToLock);
    assert CDo(d0, SyncStep(Lock(t))).tasks == PutPc(d, t, op, Locking).tasks;
    Then(c, d0, SyncStep(Lock(t)), Put(PutPc(d, t, op, Locking), Coro(t), Load(LockAw(t), Own)));
  }

  /** The call has announced its lock request and is about to load the word. */
  function Requesting(d: Chan, t: nat, op: Op): Chan {
    Put(PutPc(d, t, op, Locking), Coro(t), Load(LockAw(t), Own))
  }

  lemma LocksFree(c: Chan, d: Chan, t: nat, op: Op)
    requires Reaches(c, Requesting(d, t, op)) && d.m.word == NoLocked
    ensures Reaches(c, Entered(d, t, op))
  {
    var d1 := Requesting(d, t, op);
    Loads(c, d1, t, Own);
    var d2 := d1.(m := Set(d1.m, Coro(t), Cas(LockAw(t), NoLocked, Own)).(next := d1.m.next[LockAw(t) := None]));
    Acquires(c, d2, t, op);
    var e := d2.(tasks := d2.tasks[t := Task(op, ToWait)], m := Set(d2.m, Coro(t), Crit).(word := Locked(None)));
    assert e.m.act == Entered(d, t, op).m.act && e.tasks == Entered(d, t, op).tasks;
  }

  lemma Enters(c: Chan, d: Chan, t: nat, op: Op)
    requires Reaches(c, d) && t !in d.tasks && At(d.m, Coro(t)).Idle? && d.m.word == NoLocked && !Closed(d)
    ensures Reaches(c, Entered(d, t, op))
  {
    Begins(c, d, t, op);
    Locks(c, d, t, op);
    LocksFree(c, d, t, op);
  }

  /** An unlock with nobody waiting. */
  function Unlocked(d: Chan, a: Agent): Chan {
    d.(m := d.m.(word := NoLocked, act := d.m.act[a := Idle]))
  }

  lemma Frees(c: Chan, d: Chan, a: Agent)
    requires Reaches(c, d) && At(d.m, a) == UEntry(One(ToIdle)) && d.m.resume == None && d.m.word == Locked(None)
    ensures Reaches(c, Unlocked(d, a))
  {
    var d1 := Put(d, a, UCas(One(ToIdle)));
    Then(c, d, SyncStep(ReadResume(a)), d1);
    assert CDo(d1, SyncStep(TryFree(a))).m.act == Unlocked(d, a).m.act;
    Then(c, d1, SyncStep(TryFree(a)), Unlocked(d, a));
  }

  /** A call in front of its unlock leaves, with nobody waiting. */
  lemma Leaves(c: Chan, d: Chan, t: nat, r: Result)
    requires Reaches(c, d) && t in d.tasks && d.tasks[t].pc in {Notifying(r), Leaving(r)} && At(d.m, Coro(t)) == Crit
    requires d.m.resume == None && d.m.word == Locked(None)
    ensures Reaches(c, Unlocked(PutPc(d, t, d.tasks[t].op, Finished(r)), Coro(t)))
  {
    var e := PutPc(d, t, d.tasks[t].op, Finished(r));
    var d1 := Put(e, Coro(t), UEntry(One(ToIdle)));
    Then(c, d, SyncStep(Unlock(t)), d1);
    Frees(c, d1, Coro(t));
    assert Unlocked(d1, Coro(t)).m.act == Unlocked(e, Coro(t)).m.act;
  }

  /** The call has registered on its condition variable and freed the mutex. */
  function Slept(d: Chan, w: Aw, n: nat): Chan
    requires w.CvAw?
  {
    d.(m := Enqueue(d.m, w).(word := NoLocked, act := d.m.act[Coro(w.task) := Blocked(w)][Helper(n) := Idle]))
  }

  lemma Sleeps(c: Chan, d: Chan, w: Aw, n: nat)
    requires Reaches(c, d) && w.CvAw? && At(d.m, Coro(w.task)) == Reg(w, Own)
    requires n !in d.closers && At(d.m, Helper(n)).Idle? && d.m.resume == None && d.m.word == Locked(None)
    ensures Reaches(c, Slept(d, w, n))
  {
    var d1 := d.(m := Set(Set(Enqueue(d.m, w), Coro(w.task), Blocked(w)), Helper(n), UEntry(One(ToIdle))));
    Then(c, d, SyncStep(Register(Coro(w.task), n)), d1);
    Frees(c, d1, Helper(n));
    assert Unlocked(d1, Helper(n)).m.act == Slept(d, w, n).m.act;
  }

  function NotifiedNobody(d: Chan, n: nat, cv: nat): Chan {
    d.(closers := d.closers[n := if cv == PRODUCERS then InProducers else InConsumers],
       m := d.m.(act := d.m.act[Helper(n) := Idle], head := d.m.head[cv := None], tail := d.m.tail[cv := None]))
  }

  lemma NotifiesNobody(c: Chan, d: Chan, n: nat, cv: nat)
    requires Reaches(c, d) && n in d.closers && At(d.m, Helper(n)).Idle? && Ptr(d.m.head, cv).None?
    requires (d.closers[n].AfterStore? && cv == PRODUCERS) || (d.closers[n].InProducers? && cv == CONSUMERS)
    ensures Reaches(c, NotifiedNobody(d, n, cv))
  {
    var a := Helper(n);
    var e := d.(closers := d.closers[n := if cv == PRODUCERS then InProducers else InConsumers]);
    var d1 := Put(e, a, Detach(cv, ToIdle));
    Then(c, d, SyncStep(StartNotify(a, cv, true)), d1);
    DetachesNobody(c, d1, a, cv);
    var d2 := d1.(m := Set(d1.m, a, Idle).(head := d.m.head[cv := None], tail := d.m.tail[cv := None]));
    assert d2.m.act == NotifiedNobody(d, n, cv).m.act;
  }

  lemma DetachesNobody(c: Chan, d: Chan, a: Agent, cv: nat)
    requires Reaches(c, d) && At(d.m, a) == Detach(cv, ToIdle) && Ptr(d.m.head, cv).None?
    ensures Reaches(c, d.(m := Set(d.m, a, Idle).(head := d.m.head[cv := None], tail := d.m.tail[cv := None])))
  {
    var d1 := d.(m := Set(d.m, a, Walk(None, ToIdle)).(head := d.m.head[cv := None], tail := d.m.tail[cv := None]));
    Then(c, d, SyncStep(DetachAll(a)), d1);
    var d2 := d.(m := Set(d.m, a, Idle).(head := d.m.head[cv := None], tail := d.m.tail[cv := None]));
    assert CDo(d1, SyncStep(WalkNext(a))).m.act == d2.m.act;
    Then(c, d1, SyncStep(WalkNext(a)), d2);
  }

  // ---- close can miss one sleeper ----

  ghost predicate MissedReceiver(c: Chan) {
    && Closed(c) && CloseReturned(c, 0) && c.closers.Keys == {0} && c.buf == []
    && c.tasks == map[0 := Task(Recv, Sleeping)]
    && c.m.word == NoLocked
    && At(c.m, Coro(0)) == Blocked(CvAw(0, CONSUMERS))
    && Ptr(c.m.head, CONSUMERS) == Some(CvAw(0, CONSUMERS))
    && (forall a :: a != Coro(0) ==> At(c.m, a).Idle?)
  }

  lemma ClosesBehindReceiver(c: Chan, d: Chan)
    requires Reaches(c, d) && 0 !in d.closers && At(d.m, Helper(0)).Idle?
    requires Ptr(d.m.head, PRODUCERS).None? && Ptr(d.m.head, CONSUMERS).None?
    ensures var e := d.(closeState := PART_CLOSE, closers := d.closers[0 := AfterStore]);
            Reaches(c, NotifiedNobody(NotifiedNobody(e, 0, PRODUCERS), 0, CONSUMERS))
  {
    var e := d.(closeState := PART_CLOSE, closers := d.closers[0 := AfterStore]);
    Then(c, d, CloseStore(0), e);
    NotifiesNobody(c, e, 0, PRODUCERS);
    NotifiesNobody(c, NotifiedNobody(e, 0, PRODUCERS), 0, CONSUMERS);
  }

  /** A call's predicate was false: it is about to register. */
  function AboutToSleep(d: Chan, t: nat, op: Op): Chan {
    Put(PutPc(Entered(d, t, op), t, op, Sleeping), Coro(t), Reg(CvAw(t, CvOf(op)), Own))
  }

  lemma FindsNothing(c: Chan, d: Chan, t: nat, op: Op)
    requires Reaches(c, d) && t !in d.tasks && At(d.m, Coro(t)).Idle? && d.m.word == NoLocked && !Pred(d, op)
    ensures Reaches(c, AboutToSleep(d, t, op))
  {
    Enters(c, d, t, op);
    var l := SyncStep(Wait(t, CvOf(op), false));
    assert CDo(Entered(d, t, op), l).tasks == AboutToSleep(d, t, op).tasks;
    Then(c, Entered(d, t, op), l, AboutToSleep(d, t, op));
  }

  /** A receiver evaluates its predicate on the open, empty channel; close stores, finds nobody on
      either queue and returns; the receiver registers and unlocks. The mutex is free, every thread of
      control has come to rest, and the channel is closed and empty. */
  lemma CloseCanMissOne(cap: nat)
    ensures exists c :: Reaches(CInit(cap), c) && MissedReceiver(c)
  {
    var c := CInit(cap);
    Start(c);
    FindsNothing(c, c, 0, Recv);
    ClosesBehindReceiver(c, AboutToSleep(c, 0, Recv));
    assert AboutToSleep(c, 0, Recv).tasks == map[0 := Task(Recv, Sleeping)];
    SleepsForGood(c, AboutToSleep(c, 0, Recv));
  }

  lemma SleepsForGood(c: Chan, d: Chan)
    requires d.m.act == map[Coro(0) := Reg(CvAw(0, CONSUMERS), Own)] && d.m.word == Locked(None)
    requires d.m.head == map[] && d.m.tail == map[] && d.m.resume == None && d.closers == map[]
    requires d.buf == [] && d.tasks == map[0 := Task(Recv, Sleeping)]
    requires var e := d.(closeState := PART_CLOSE, closers := d.closers[0 := AfterStore]);
             Reaches(c, NotifiedNobody(NotifiedNobody(e, 0, PRODUCERS), 0, CONSUMERS))
    ensures exists f :: Reaches(c, f) && MissedReceiver(f)
  {
    var w := CvAw(0, CONSUMERS);
    var e := d.(closeState := PART_CLOSE, closers := d.closers[0 := AfterStore]);
    var f := NotifiedNobody(NotifiedNobody(e, 0, PRODUCERS), 0, CONSUMERS);
    assert f.closers == map[0 := InConsumers];
    assert f.m.act == map[Coro(0) := Reg(w, Own), Helper(0) := Idle];
    Sleeps(c, f, w, 1);
    MissedAfterwards(f, w);
  }

  lemma MissedAfterwards(f: Chan, w: Aw)
    requires w == CvAw(0, CONSUMERS) && Closed(f) && f.closers == map[0 := InConsumers]
    requires f.m.act == map[Coro(0) := Reg(w, Own), Helper(0) := Idle] && Ptr(f.m.tail, CONSUMERS).None?
    requires f.buf == [] && f.tasks == map[0 := Task(Recv, Sleeping)]
    ensures MissedReceiver(Slept(f, w, 1))
  {
    var g := Slept(f, w, 1);
    assert g.m.act == map[Coro(0) := Blocked(w), Helper(0) := Idle, Helper(1) := Idle];
  }

  // ---- while close is between its store and its first notify_all ----

  lemma SenderStores(c: Chan, d: Chan, t: nat)
    requires Reaches(c, d) && t in d.tasks && d.tasks[t] == Task(Send(7), ToWait) && At(d.m, Coro(t)) == Crit
    requires |d.buf| != d.cap && !Closed(d)
    ensures Reaches(c, PutPc(d.(buf := d.buf + [7]), t, Send(7), ToNotify(Sent(true))))
  {
    var op := Send(7);
    Then(c, d, SyncStep(Wait(t, PRODUCERS, true)), PutPc(d, t, op, Body));
    Then(c, PutPc(d, t, op, Body), Check(t), PutPc(d, t, op, Channel.Put));
    Then(c, PutPc(d, t, op, Channel.Put), Store(t), PutPc(d.(buf := d.buf + [7]), t, op, ToNotify(Sent(true))));
  }

  lemma NotifiesEmpty(c: Chan, d: Chan, t: nat, op: Op)
    requires op.Send? && Reaches(c, PutPc(d, t, op, ToNotify(Sent(true)))) && At(d.m, Coro(t)) == Crit && t in d.tasks
    requires Ptr(d.m.head, CONSUMERS).None?
    ensures Reaches(c, PutPc(d, t, op, Notifying(Sent(true))))
  {
    var d0 := PutPc(d, t, op, ToNotify(Sent(true)));
    var d1 := PutPc(d, t, op, Notifying(Sent(true)));
    var d2 := Put(d1, Coro(t), Notify(CONSUMERS, ToCrit));
    assert d2 == CDo(d0, SyncStep(StartNotify(Coro(t), CONSUMERS, false)));
    Then(c, d0, SyncStep(StartNotify(Coro(t), CONSUMERS, false)), d2);
    assert CDo(d2, SyncStep(PopOne(Coro(t)))).m.act == d1.m.act;
    Then(c, d2, SyncStep(PopOne(Coro(t))), d1);
  }

  /** A whole send that meets no contention. */
  function SentBy(d: Chan, t: nat): Chan {
    Unlocked(PutPc(Entered(d, t, Send(7)).(buf := d.buf + [7]), t, Send(7), Finished(Sent(true))), Coro(t))
  }

  lemma SenderFills(c: Chan, d: Chan, t: nat)
    requires Reaches(c, d) && t !in d.tasks && At(d.m, Coro(t)).Idle? && d.m.word == NoLocked && d.m.resume == None
    requires |d.buf| != d.cap && !Closed(d) && Ptr(d.m.head, CONSUMERS).None?
    ensures Reaches(c, SentBy(d, t))
  {
    var op := Send(7);
    Enters(c, d, t, op);
    SenderStores(c, Entered(d, t, op), t);
    var d1 := Entered(d, t, op).(buf := d.buf + [7]);
    NotifiesEmpty(c, d1, t, op);
    SenderLeaves(c, d1, t);
  }

  lemma SenderLeaves(c: Chan, d: Chan, t: nat)
    requires Reaches(c, PutPc(d, t, Send(7), Notifying(Sent(true)))) && At(d.m, Coro(t)) == Crit
    requires d.m.resume == None && d.m.word == Locked(None)
    ensures Reaches(c, Unlocked(PutPc(d, t, Send(7), Finished(Sent(true))), Coro(t)))
  {
    var e := PutPc(d, t, Send(7), Notifying(Sent(true)));
    Leaves(c, e, t, Sent(true));
    assert PutPc(e, t, Send(7), Finished(Sent(true))) == PutPc(d, t, Send(7), Finished(Sent(true)));
  }

  /** The first k tasks have each sent a value, and everything is at rest. */
  ghost predicate Filled(d: Chan, cap: nat, k: nat) {
    && |d.buf| == k && (k > 0 ==> d.buf[0] == 7) && d.cap == cap && d.closers == map[] && d.closeState == NO_CLOSE
    && d.m.word == NoLocked && d.m.resume == None
    && Ptr(d.m.head, CONSUMERS).None? && Ptr(d.m.head, PRODUCERS).None? && Ptr(d.m.tail, PRODUCERS).None?
    && (forall t: nat :: k <= t ==> t !in d.tasks && At(d.m, Coro(t)).Idle?)
    && (forall n: nat :: At(d.m, Helper(n)).Idle?)
  }

  lemma FillsOne(d: Chan, cap: nat, k: nat)
    requires Filled(d, cap, k)
    ensures Filled(SentBy(d, k), cap, k + 1)
  {
    var e := SentBy(d, k);
    forall t: nat | k < t ensures t !in e.tasks && At(e.m, Coro(t)).Idle? { assert At(d.m, Coro(t)).Idle?; }
    forall n: nat ensures At(e.m, Helper(n)).Idle? { assert At(d.m, Helper(n)).Idle?; }
  }

  lemma {:induction false} Fills(cap: nat, k: nat) returns (d: Chan)
    requires k <= cap
    ensures Reaches(CInit(cap), d) && Filled(d, cap, k)
  {
    if k == 0 {
      d := CInit(cap);
      Start(d);
    } else {
      d := Fills(cap, k - 1);
      SenderFills(CInit(cap), d, k - 1);
      FillsOne(d, cap, k - 1);
      d := SentBy(d, k - 1);
    }
  }

  /** A sender finds the channel full, registers and frees the mutex. */
  function AsleepSender(d: Chan, t: nat): Chan {
    Slept(AboutToSleep(d, t, Send(7)), CvAw(t, PRODUCERS), t)
  }

  lemma SenderSleeps(c: Chan, d: Chan, t: nat)
    requires Reaches(c, d) && t !in d.tasks && At(d.m, Coro(t)).Idle? && At(d.m, Helper(t)).Idle? && d.closers == map[]
    requires d.m.word == NoLocked && d.m.resume == None && |d.buf| == d.cap && !Closed(d)
    ensures Reaches(c, AsleepSender(d, t))
  {
    FindsNothing(c, d, t, Send(7));
    Sleeps(c, AboutToSleep(d, t, Send(7)), CvAw(t, PRODUCERS), t);
  }

  /** A receiver takes the value and is about to notify a sender. */
  function TookOut(d: Chan, t: nat): Chan
    requires d.buf != []
  {
    PutPc(Entered(d, t, Recv).(buf := d.buf[1..]), t, Recv, ToNotify(Got(7)))
  }

  lemma ReceiverTakes(c: Chan, d: Chan, t: nat)
    requires Reaches(c, d) && t !in d.tasks && At(d.m, Coro(t)).Idle? && d.m.word == NoLocked && !Closed(d)
    requires d.buf != [] && d.buf[0] == 7
    ensures Reaches(c, TookOut(d, t))
  {
    Enters(c, d, t, Recv);
    FindsValue(c, Entered(d, t, Recv), t);
    var d2 := PutPc(Entered(d, t, Recv), t, Recv, TakeOut);
    assert CDo(d2, Remove(t)).tasks == TookOut(d, t).tasks;
    Then(c, d2, Remove(t), TookOut(d, t));
  }

  lemma FindsValue(c: Chan, d: Chan, t: nat)
    requires Reaches(c, d) && t in d.tasks && d.tasks[t] == Task(Recv, ToWait) && At(d.m, Coro(t)) == Crit
    requires d.buf != []
    ensures Reaches(c, PutPc(d, t, Recv, TakeOut))
  {
    var d1 := PutPc(d, t, Recv, Body);
    Then(c, d, SyncStep(Wait(t, CONSUMERS, true)), d1);
    assert CDo(d1, Check(t)).tasks == PutPc(d, t, Recv, TakeOut).tasks;
    Then(c, d1, Check(t), PutPc(d, t, Recv, TakeOut));
  }

  /** notify_one moves the first of two sleepers from the condition variable to the mutex. */
  function Notified(d: Chan, t: nat, w: Aw): Chan {
    PutPc(d, t, Recv, Notifying(Got(7)))
    .(m := d.m.(act := d.m.act[Coro(t) := Crit], head := d.m.head[PRODUCERS := Ptr(d.m.next, w)],
                next := d.m.next[w := None], word := Locked(Some(w))))
  }

  lemma NotifiesFirst(c: Chan, d: Chan, t: nat, w: Aw)
    requires Reaches(c, d) && t in d.tasks && d.tasks[t] == Task(Recv, ToNotify(Got(7))) && At(d.m, Coro(t)) == Crit
    requires Ptr(d.m.head, PRODUCERS) == Some(w) && Ptr(d.m.next, w).Some? && d.m.word == Locked(None)
    ensures Reaches(c, Notified(d, t, w))
  {
    var d1 := Notifies(d, t);
    StartsNotify(c, d, t);
    Pops(c, d1, t, w);
    PushesPopped(c, d, d1, t, w);
  }

  function Notifies(d: Chan, t: nat): Chan {
    Put(PutPc(d, t, Recv, Notifying(Got(7))), Coro(t), Notify(PRODUCERS, ToCrit))
  }

  lemma StartsNotify(c: Chan, d: Chan, t: nat)
    requires Reaches(c, d) && t in d.tasks && d.tasks[t] == Task(Recv, ToNotify(Got(7))) && At(d.m, Coro(t)) == Crit
    ensures Reaches(c, Notifies(d, t))
  {
    Then(c, d, SyncStep(StartNotify(Coro(t), PRODUCERS, false)), Notifies(d, t));
  }

  lemma PushesPopped(c: Chan, d: Chan, d1: Chan, t: nat, w: Aw)
    requires d1 == Notifies(d, t) && d.m.word == Locked(None)
    requires var heads := d.m.head[PRODUCERS := Ptr(d.m.next, w)];
             Reaches(c, d1.(m := Set(d1.m, Coro(t), Load(w, One(ToCrit))).(head := heads)))
    ensures Reaches(c, Notified(d, t, w))
  {
    var d2 := d1.(m := Set(d1.m, Coro(t), Load(w, One(ToCrit))).(head := d.m.head[PRODUCERS := Ptr(d.m.next, w)]));
    Loads(c, d2, t, One(ToCrit));
    var d3 := d2.(m := Set(d2.m, Coro(t), Cas(w, Locked(None), One(ToCrit))).(next := d2.m.next[w := None]));
    Pushes(c, d3, t, w);
    var d4 := d3.(m := Set(d3.m, Coro(t), Crit).(word := Locked(Some(w))));
    assert d4.m.act == Notified(d, t, w).m.act;
  }

  lemma Pops(c: Chan, d: Chan, t: nat, w: Aw)
    requires Reaches(c, d) && At(d.m, Coro(t)) == Notify(PRODUCERS, ToCrit)
    requires Ptr(d.m.head, PRODUCERS) == Some(w) && Ptr(d.m.next, w).Some?
    ensures var heads := d.m.head[PRODUCERS := Ptr(d.m.next, w)];
            Reaches(c, d.(m := Set(d.m, Coro(t), Load(w, One(ToCrit))).(head := heads)))
  {
    Next(c, d, SyncStep(PopOne(Coro(t))));
  }

  lemma Pushes(c: Chan, d: Chan, t: nat, w: Aw)
    requires Reaches(c, d) && At(d.m, Coro(t)) == Cas(w, Locked(None), One(ToCrit)) && d.m.word == Locked(None)
    ensures Reaches(c, d.(m := Set(d.m, Coro(t), Crit).(word := Locked(Some(w)))))
  {
    Next(c, d, SyncStep(CasOk(Coro(t))));
  }

  /** unlock takes the stack of one waiter and hands the mutex to it. */
  function HandedOver(d: Chan, t: nat, w: Aw): Chan {
    PutPc(d, t, Recv, Finished(Got(7)))
    .(m := d.m.(act := d.m.act[Coro(t) := Idle][Coro(w.task) := Granted(w)], next := d.m.next[w := None],
                word := Locked(None), resume := None))
  }

  lemma CannotFree(c: Chan, d: Chan, a: Agent, w: Aw)
    requires Reaches(c, d) && At(d.m, a) == UEntry(One(ToIdle)) && d.m.resume == None && d.m.word == Locked(Some(w))
    ensures Reaches(c, Put(d, a, UXchg(One(ToIdle))))
  {
    Then(c, d, SyncStep(ReadResume(a)), Put(d, a, UCas(One(ToIdle))));
    assert Set(Set(d.m, a, UCas(One(ToIdle))), a, UXchg(One(ToIdle))) == Set(d.m, a, UXchg(One(ToIdle)));
    Then(c, Put(d, a, UCas(One(ToIdle))), SyncStep(TryFree(a)), Put(d, a, UXchg(One(ToIdle))));
  }

  lemma TakesStack(c: Chan, d: Chan, t: nat, w: Aw)
    requires Reaches(c, d) && At(d.m, Coro(t)) == UEntry(One(ToIdle)) && d.m.resume == None
    requires d.m.word == Locked(Some(w))
    ensures Reaches(c, d.(m := Set(d.m, Coro(t), URev(w, None, One(ToIdle))).(word := Locked(None))))
  {
    var a := Coro(t);
    CannotFree(c, d, a, w);
    var d1 := Put(d, a, UXchg(One(ToIdle)));
    var e := d.(m := Set(d.m, a, URev(w, None, One(ToIdle))).(word := Locked(None)));
    assert CDo(d1, SyncStep(Exchange(a))).m.act == e.m.act;
    Then(c, d1, SyncStep(Exchange(a)), e);
  }

  lemma ReversesOne(c: Chan, d: Chan, t: nat, w: Aw)
    requires Reaches(c, d) && At(d.m, Coro(t)) == URev(w, None, One(ToIdle)) && Ptr(d.m.next, w) == None
    ensures Reaches(c, d.(m := Set(d.m, Coro(t), Res(w, One(ToIdle))).(next := d.m.next[w := None], resume := None)))
  {
    var a := Coro(t);
    var d1 := d.(m := Set(d.m, a, UPop(w, One(ToIdle))).(next := d.m.next[w := None]));
    Then(c, d, SyncStep(Flip(a)), d1);
    var d2 := d.(m := Set(d.m, a, Res(w, One(ToIdle))).(next := d.m.next[w := None], resume := None));
    assert CDo(d1, SyncStep(Pop(a))).m.act == d2.m.act;
    Then(c, d1, SyncStep(Pop(a)), d2);
  }

  lemma ResumesOther(c: Chan, d: Chan, t: nat, w: Aw)
    requires Reaches(c, d) && At(d.m, Coro(t)) == Res(w, One(ToIdle))
    requires w.CvAw? && w.task in d.tasks && w.task != t && Pred(d, d.tasks[w.task].op)
    ensures Reaches(c, Put(Put(d, Coro(t), Idle), Coro(w.task), Granted(w)))
  {
    Next(c, d, SyncStep(Resume(Coro(t), true)));
  }

  lemma HandsOver(c: Chan, d: Chan, t: nat, w: Aw)
    requires Reaches(c, d) && t in d.tasks && d.tasks[t] == Task(Recv, Notifying(Got(7))) && At(d.m, Coro(t)) == Crit
    requires d.m.resume == None && d.m.word == Locked(Some(w)) && Ptr(d.m.next, w) == None
    requires w.CvAw? && w.task in d.tasks && w.task != t && Pred(d, d.tasks[w.task].op)
    ensures Reaches(c, HandedOver(d, t, w))
  {
    var a := Coro(t);
    var d1 := Put(PutPc(d, t, Recv, Finished(Got(7))), a, UEntry(One(ToIdle)));
    Then(c, d, SyncStep(Unlock(t)), d1);
    TakesStack(c, d1, t, w);
    HandsTaken(c, d, d1, t, w);
  }

  lemma HandedOverIs(d: Chan, d1: Chan, d2: Chan, d3: Chan, t: nat, w: Aw)
    requires d1 == Put(PutPc(d, t, Recv, Finished(Got(7))), Coro(t), UEntry(One(ToIdle)))
    requires d2 == d1.(m := Set(d1.m, Coro(t), URev(w, None, One(ToIdle))).(word := Locked(None)))
    requires d3 == d2.(m := Set(d2.m, Coro(t), Res(w, One(ToIdle))).(next := d2.m.next[w := None], resume := None))
    ensures Put(Put(d3, Coro(t), Idle), Coro(w.task), Granted(w)) == HandedOver(d, t, w)
  {
    var d4 := Put(Put(d3, Coro(t), Idle), Coro(w.task), Granted(w));
    assert d4.m.act == HandedOver(d, t, w).m.act;
  }

  lemma HandsTaken(c: Chan, d: Chan, d1: Chan, t: nat, w: Aw)
    requires d1 == Put(PutPc(d, t, Recv, Finished(Got(7))), Coro(t), UEntry(One(ToIdle))) && Ptr(d.m.next, w) == None
    requires Reaches(c, d1.(m := Set(d1.m, Coro(t), URev(w, None, One(ToIdle))).(word := Locked(None))))
    requires w.CvAw? && w.task in d.tasks && w.task != t && Pred(d, d.tasks[w.task].op)
    ensures Reaches(c, HandedOver(d, t, w))
  {
    var a := Coro(t);
    var d2 := d1.(m := Set(d1.m, a, URev(w, None, One(ToIdle))).(word := Locked(None)));
    ReversesOne(c, d2, t, w);
    var d3 := d2.(m := Set(d2.m, a, Res(w, One(ToIdle))).(next := d2.m.next[w := None], resume := None));
    ResumesOther(c, d3, t, w);
    HandedOverIs(d, d1, d2, d3, t, w);
  }

  ghost predicate StrandedSender(c: Chan) {
    && c.m.word == NoLocked && Ptr(c.m.head, PRODUCERS).Some?
    && |c.buf| < c.cap
    && Closed(c) && c.closers == map[9 := AfterStore]
  }

  /** The woken sender finds the channel closed by a close call that has only stored so far, and
      leaves without using the slot or waking the other sender. */
  lemma RefusedAfterStore(c: Chan, d: Chan, t: nat, op: Op)
    requires Reaches(c, d) && t in d.tasks && d.tasks[t] == Task(op, Sleeping) && op.Send?
    requires At(d.m, Coro(t)) == Granted(CvAw(t, PRODUCERS)) && At(d.m, Helper(9)).Idle? && d.closers == map[]
    requires d.m.word == Locked(None) && d.m.resume == None && |d.buf| < d.cap && Ptr(d.m.head, PRODUCERS).Some?
    ensures exists e :: Reaches(c, e) && StrandedSender(e)
  {
    var d1 := d.(closeState := PART_CLOSE, closers := map[9 := AfterStore]);
    Then(c, d, CloseStore(9), d1);
    var d2 := Put(PutPc(d1, t, op, Body), Coro(t), Crit);
    Then(c, d1, SyncStep(Enter(t)), d2);
    var d3 := PutPc(d2, t, op, Leaving(Sent(false)));
    Then(c, d2, Check(t), d3);
    Leaves(c, d3, t, Sent(false));
    assert StrandedSender(Unlocked(PutPc(d3, t, op, Finished(Sent(false))), Coro(t)));
  }

  /** Senders t and t + 1 sleep on a full channel. */
  ghost predicate TwoAsleep(d: Chan, t: nat) {
    var w := CvAw(t, PRODUCERS);
    && t + 2 !in d.tasks && At(d.m, Coro(t + 2)).Idle? && At(d.m, Helper(9)).Idle?
    && d.m.word == NoLocked && d.m.resume == None
    && d.buf != [] && d.buf[0] == 7 && |d.buf| == d.cap && d.closeState == NO_CLOSE && d.closers == map[]
    && t in d.tasks && d.tasks[t] == Task(Send(7), Sleeping) && At(d.m, Coro(t)) == Blocked(w)
    && Ptr(d.m.head, PRODUCERS) == Some(w) && Ptr(d.m.next, w) == Some(CvAw(t + 1, PRODUCERS))
  }

  /** Sender t sleeps alone on a full channel; later tasks have not started. */
  ghost predicate OneAsleep(d: Chan, t: nat) {
    var w := CvAw(t, PRODUCERS);
    && (forall u: nat :: t < u ==> u !in d.tasks && At(d.m, Coro(u)).Idle?)
    && (forall n: nat :: At(d.m, Helper(n)).Idle?)
    && d.m.word == NoLocked && d.m.resume == None
    && d.buf != [] && d.buf[0] == 7 && |d.buf| == d.cap && d.closeState == NO_CLOSE && d.closers == map[]
    && t in d.tasks && d.tasks[t] == Task(Send(7), Sleeping) && At(d.m, Coro(t)) == Blocked(w)
    && Ptr(d.m.head, PRODUCERS) == Some(w) == Ptr(d.m.tail, PRODUCERS)
  }

  lemma FirstAsleep(d: Chan, cap: nat)
    requires cap > 0 && Filled(d, cap, cap)
    ensures OneAsleep(AsleepSender(d, cap), cap)
  {
    var e := AsleepSender(d, cap);
    forall u: nat | cap < u ensures u !in e.tasks && At(e.m, Coro(u)).Idle? { assert At(d.m, Coro(u)).Idle?; }
    forall n: nat ensures At(e.m, Helper(n)).Idle? { assert At(d.m, Helper(n)).Idle?; }
  }

  lemma SecondAsleep(d: Chan, t: nat)
    requires OneAsleep(d, t)
    ensures TwoAsleep(AsleepSender(d, t + 1), t)
  {
    assert At(d.m, Coro(t + 2)).Idle? && At(d.m, Helper(9)).Idle?;
  }

  lemma TwoSendersSleep(cap: nat) returns (d: Chan)
    requires cap > 0
    ensures Reaches(CInit(cap), d) && TwoAsleep(d, cap)
  {
    var c := CInit(cap);
    d := Fills(cap, cap);
    SenderSleeps(c, d, cap);
    FirstAsleep(d, cap);
    d := AsleepSender(d, cap);
    SenderSleeps(c, d, cap + 1);
    SecondAsleep(d, cap);
    d := AsleepSender(d, cap + 1);
  }

  /** The law for senders fails between close's store and its first notify_all, at every capacity:
      the mutex is free and a sender sleeps beside a free slot. */
  lemma SenderStrandedWhileClosing(cap: nat)
    requires cap > 0
    ensures exists c :: Reaches(CInit(cap), c) && StrandedSender(c)
  {
    var d := TwoSendersSleep(cap);
    FirstSenderRefused(CInit(cap), d, cap);
  }

  lemma FirstSenderRefused(c: Chan, d: Chan, t: nat)
    requires Reaches(c, d) && TwoAsleep(d, t)
    ensures exists e :: Reaches(c, e) && StrandedSender(e)
  {
    var w := CvAw(t, PRODUCERS);
    ReceiverTakes(c, d, t + 2);
    NotifiesFirst(c, TookOut(d, t + 2), t + 2, w);
    var e := Notified(TookOut(d, t + 2), t + 2, w);
    HandsOver(c, e, t + 2, w);
    RefusedAfterStore(c, HandedOver(e, t + 2, w), t, Send(7));
  }
}
