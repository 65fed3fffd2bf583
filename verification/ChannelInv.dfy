/**
 The inductive invariant of the channel: what every call knows about the buffer while it holds
 the mutex, which calls are responsible for a buffered value or a free slot while others sleep,
 and what a close call leaves behind.
 */
module ChannelInv {
  import opened Sync
  import opened SyncInv
  import opened Channel

  /** History of a run, read by no step. */
  datatype Log = Log(
    h: Hist,
    accepted: seq<int>,             // values stored by send, in order
    received: seq<int>,             // values taken by recv, in order
    ended: bool,                    // some recv found the channel empty and closed
    drainedP: bool,                 // some close call has detached the producers' queue
    drainedC: bool,                 // some close call has detached the consumers' queue
    woken: map<nat, set<Aw>>)       // awaiters detached by each close call

  datatype CState = CState(c: Chan, g: Log)

  function S(s: CState): State {
    State(s.c.m, s.g.h)
  }

  function Woken(g: Log, n: nat): set<Aw> {
    if n in g.woken then g.woken[n] else {}
  }

  function CNote(s: CState, l: CLabel): Log
    requires CEnabled(s.c, l)
  {
    var c, g := s.c, s.g;
    match l
    case SyncStep(l) =>
      var g' := g.(h := Note(S(s), l));
      if l.DetachAll? then
        var cv := At(c.m, l.a).cv;
        var n := if l.a.Helper? then l.a.n else 0;
        g'.(drainedP := g.drainedP || cv == PRODUCERS,
            drainedC := g.drainedC || cv == CONSUMERS,
            woken := g.woken[n := Woken(g, n) + (set w | w in L(g.h, InCv(cv)))])
      else g'
    case Check(t) => if c.tasks[t].op.Recv? && c.buf == [] && Closed(c) then g.(ended := true) else g
    case Store(t) => g.(accepted := g.accepted + [if c.tasks[t].op.Send? then c.tasks[t].op.v else 0])
    case Remove(t) => g.(received := g.received + [c.buf[0]])
    case _ => g
  }

  function CStep(s: CState, l: CLabel): CState
    requires CEnabled(s.c, l)
  {
    CState(CDo(s.c, l), CNote(s, l))
  }

  function CStart(cap: nat): CState {
    CState(CInit(cap), Log(Start().h, [], [], false, false, false, map[]))
  }

  // ---- calls and threads of control ----

  predicate Unlocking(x: Act) {
    HasCont(x) && x.k == One(ToIdle) && !x.Load? && !x.Cas?
  }

  /** Where a call's coroutine can be for each program counter. */
  predicate Fits(t: nat, k: Task, x: Act) {
    match k.pc
    case Early => x.Idle?
    case ToLock => x.Idle?
    case Locking =>
      || x == Load(LockAw(t), Own)
      || (x.Cas? && x.w == LockAw(t) && x.k == Own)
      || x == Blocked(LockAw(t)) || x == Granted(LockAw(t))
    case Sleeping =>
      var w := CvAw(t, CvOf(k.op));
      x == Reg(w, Own) || x == Blocked(w) || x == Granted(w)
    case Notifying(_) =>
      || x.Crit? || x == Notify(OtherCv(k.op), ToCrit)
      || ((x.Load? || x.Cas?) && x.k == One(ToCrit))
    case Finished(_) => x.Idle? || Unlocking(x)
    case _ => x.Crit?
  }

  predicate TaskFits(c: Chan, t: nat) {
    if t in c.tasks then Fits(t, c.tasks[t], At(c.m, Coro(t))) else At(c.m, Coro(t)).Idle?
  }

  ghost predicate Tasks(s: CState) {
    forall t :: TaskFits(s.c, t)
  }

  /** Inside the loop of a notify_all called without the mutex. */
  predicate InLoop(x: Act) {
    (x.Walk? && x.b.ToIdle?) || (HasCont(x) && x.k.Loop? && x.k.b.ToIdle?)
  }

  /** Helpers are close calls, or finish the unlock of a call that went to sleep. */
  predicate HelperFits(c: Chan, n: nat, x: Act) {
    if n in c.closers then
      match c.closers[n]
      case AfterStore => x.Idle?
      case InProducers => x.Idle? || x == Detach(PRODUCERS, ToIdle) || InLoop(x)
      case InConsumers => x.Idle? || x == Detach(CONSUMERS, ToIdle) || InLoop(x)
    else x.Idle? || Unlocking(x)
  }

  ghost predicate Helpers(s: CState) {
    forall n :: HelperFits(s.c, n, At(s.c.m, Helper(n)))
  }

  // ---- data ----

  ghost predicate Data(s: CState) {
    && s.g.accepted == s.g.received + s.c.buf
    && |s.c.buf| <= s.c.cap
    && s.c.closeState <= NO_CLOSE
    && (s.c.closeState == COMPLETE_CLOSE ==> s.g.ended)
    && (s.g.ended ==> Closed(s.c) && s.c.buf == [])
    && (s.c.closers != map[] ==> Closed(s.c))
    && (s.g.drainedP || s.g.drainedC ==> Closed(s.c))
  }

  /** What a call relies on at each program counter. */
  predicate Relies(s: CState, k: Task, x: Act) {
    match k.pc
    case Body => Pred(s.c, k.op)
    case Sleeping => x.Granted? ==> Pred(s.c, k.op)
    case Put => k.op.Send? && |s.c.buf| < s.c.cap && !s.g.ended
    case TakeOut => k.op.Recv? && s.c.buf != []
    case Mark => k.op.Recv? && s.g.ended
    case _ => true
  }

  /** Whoever registers a sleeper still holds the mutex, and the buffer is as the predicate found it. */
  predicate RegFits(s: CState, x: Act) {
    x.Reg? ==> x.w.CvAw? && x.w.task in s.c.tasks && !Ready(s.c, s.c.tasks[x.w.task].op)
  }

  ghost predicate Guards(s: CState) {
    && (forall t :: t in s.c.tasks ==> Relies(s, s.c.tasks[t], At(s.c.m, Coro(t))))
    && (forall a :: RegFits(s, At(s.c.m, a)))
  }

  // ---- who is responsible for waking up ----

  /** The call has not stored, or not taken, yet. */
  predicate Before(pc: Pc) {
    pc.Locking? || pc.ToWait? || pc.Sleeping? || pc.Body? || pc.Put? || pc.TakeOut?
  }

  /** w is queued on the mutex, or in the hand of whoever is in charge of the mutex. */
  predicate OnMutex(h: Hist, w: Aw) {
    w in h.loc &&
    (h.loc[w].InStack? || h.loc[w].InRest? || h.loc[w].InRes? || (h.loc[w].InHand? && h.holder == Some(h.loc[w].a)))
  }

  /** Call t is queued on or holding the mutex and has not stored or taken yet. */
  predicate Engaged(s: CState, t: nat) {
    t in s.c.tasks && Before(s.c.tasks[t].pc) &&
    (s.g.h.holder == Some(Coro(t)) || (At(s.c.m, Coro(t)).Blocked? && OnMutex(s.g.h, At(s.c.m, Coro(t)).w)))
  }

  function EngagedOn(s: CState, cv: nat): set<nat> {
    set t | t in s.c.tasks && CvOf(s.c.tasks[t].op) == cv && Engaged(s, t)
  }

  /** The holder has changed the buffer in favour of cv's sleepers and has not popped one yet. */
  predicate Pending(s: CState, cv: nat) {
    && s.g.h.holder.Some? && s.g.h.holder.v.Coro? && s.g.h.holder.v.t in s.c.tasks
    && var k := s.c.tasks[s.g.h.holder.v.t];
       OtherCv(k.op) == cv && (k.pc.ToNotify? || At(s.c.m, s.g.h.holder.v).Notify?)
  }

  function Due(s: CState, cv: nat): nat {
    |EngagedOn(s, cv)| + if Pending(s, cv) then 1 else 0
  }

  /** What cv's sleepers are waiting for: values for consumers, free slots for producers. */
  function Supply(s: CState, cv: nat): int {
    if cv == CONSUMERS then |s.c.buf| else s.c.cap - |s.c.buf|
  }

  /** While somebody sleeps on cv, there are as many calls in charge as there is supply. */
  ghost predicate NoLostWakeup(s: CState, cv: nat) {
    L(s.g.h, InCv(cv)) != [] ==> Supply(s, cv) <= Due(s, cv)
  }

  ghost predicate Wakeups(s: CState) {
    NoLostWakeup(s, CONSUMERS) && (!Closed(s.c) ==> NoLostWakeup(s, PRODUCERS))
  }

  // ---- what a close call leaves behind ----

  ghost predicate NobodyRegisters(s: CState) {
    forall a :: !At(s.c.m, a).Reg?
  }

  ghost predicate Stragglers(s: CState) {
    var p, c := L(s.g.h, InCv(PRODUCERS)), L(s.g.h, InCv(CONSUMERS));
    && (s.g.drainedP ==>
          && |p| <= 1
          && (p != [] ==> NobodyRegisters(s) && Supply(s, PRODUCERS) <= if Pending(s, PRODUCERS) then 1 else 0))
    && (s.g.drainedP && s.g.drainedC ==> |p| + |c| <= 1 && (c != [] ==> NobodyRegisters(s)))
    && (s.g.drainedC ==> s.g.drainedP)
  }

  /** Nobody is about to register w. */
  ghost predicate Spared(m: Mem, w: Aw) {
    forall a :: At(m, a).Reg? ==> At(m, a).w != w
  }

  /** Awaiter w, detached by close call n, is not asleep and never will be again. */
  ghost predicate AwakeAt(s: CState, n: nat, w: Aw) {
    && Closed(s.c)
    && (w in s.g.h.loc ==> !s.g.h.loc[w].InCv? && (s.g.h.loc[w].InChain? ==> s.g.h.loc[w].a == Helper(n)))
    && Spared(s.c.m, w)
  }

  ghost predicate Awake(s: CState) {
    forall n, w :: w in Woken(s.g, n) ==> AwakeAt(s, n, w)
  }

  /** A close call has detached the queues it has gone past. */
  ghost predicate Progress(s: CState) {
    forall n :: n in s.c.closers ==>
      && (s.c.closers[n].InConsumers? ==> s.g.drainedP)
      && (s.c.closers[n].InProducers? && !At(s.c.m, Helper(n)).Detach? ==> s.g.drainedP)
      && (s.c.closers[n].InConsumers? && !At(s.c.m, Helper(n)).Detach? ==> s.g.drainedC)
  }

  ghost predicate CInv(s: CState) {
    && Inv(S(s))
    && Tasks(s)
    && Helpers(s)
    && Data(s)
    && Guards(s)
    && Wakeups(s)
    && Stragglers(s)
    && Awake(s)
    && Progress(s)
  }

  lemma CStartInv(cap: nat)
    ensures CInv(CStart(cap))
  {
    StartInv();
    var s := CStart(cap);
    assert S(s) == Start();
    assert Tasks(s) && Helpers(s) && Data(s) && Guards(s);
    assert L(s.g.h, InCv(CONSUMERS)) == [] && L(s.g.h, InCv(PRODUCERS)) == [];
  }

  // ---- which calls and threads a step touches ----

  function Actor(l: Label): Agent {
    match l
    case Lock(t) => Coro(t)
    case TryLock(t) => Coro(t)
    case Enter(t) => Coro(t)
    case Wait(t, _, _) => Coro(t)
    case Unlock(t) => Coro(t)
    case _ => l.a
  }

  /** The second thread of control a step may change. */
  function Partner(m: Mem, l: Label): Agent
    requires Enabled(m, l)
  {
    match l
    case Register(a, n) => if At(m, a).k.Own? then Helper(n) else a
    case Resume(a, _) => Coro(At(m, a).w.task)
    case _ => Actor(l)
  }

  lemma OnlyActors(m: Mem, l: Label, b: Agent)
    requires Enabled(m, l) && b != Actor(l) && b != Partner(m, l)
    ensures At(Do(m, l), b) == At(m, b)
  {
    if l.CasOk? || l.Register? || l.Resume? {
      OnlyActorsMeet(m, l, b);
    } else if l.ReadResume? || l.TryFree? || l.Exchange? || l.Flip? || l.Pop? {
      OnlyUnlocker(m, l, b);
    } else {
      OnlyCaller(m, l, b);
    }
  }

  lemma OnlyActorsMeet(m: Mem, l: Label, b: Agent)
    requires Enabled(m, l) && b != Actor(l) && b != Partner(m, l) && (l.CasOk? || l.Register? || l.Resume?)
    ensures At(Do(m, l), b) == At(m, b)
  {
  }

  lemma OnlyUnlocker(m: Mem, l: Label, b: Agent)
    requires Enabled(m, l) && b != Actor(l) && (l.ReadResume? || l.TryFree? || l.Exchange? || l.Flip? || l.Pop?)
    ensures At(Do(m, l), b) == At(m, b)
  {
  }

  lemma OnlyCaller(m: Mem, l: Label, b: Agent)
    requires Enabled(m, l) && b != Actor(l) && !l.CasOk? && !l.Register? && !l.Resume?
    requires !l.ReadResume? && !l.TryFree? && !l.Exchange? && !l.Flip? && !l.Pop?
    ensures At(Do(m, l), b) == At(m, b)
  {
  }

  /** Only the acting call changes its program counter. */
  lemma OnlyActorAdvances(c: Chan, l: Label, t: nat)
    requires Enabled(c.m, l) && Allowed(c, l) && Coro(t) != Actor(l)
    ensures t in Advance(c, l).tasks <==> t in c.tasks
    ensures t in c.tasks ==> Advance(c, l).tasks[t] == c.tasks[t]
  {
  }

  /** A step never changes which operation a call is, nor the data. */
  lemma AdvanceFrame(c: Chan, l: Label)
    requires Enabled(c.m, l) && Allowed(c, l)
    ensures var c' := Advance(c, l);
            && c'.buf == c.buf && c'.cap == c.cap && c'.closeState == c.closeState && c'.m == c.m
            && c'.tasks.Keys == c.tasks.Keys
            && c'.closers.Keys == c.closers.Keys
            && (forall t :: t in c.tasks ==> c'.tasks[t].op == c.tasks[t].op)
  {
  }

  /** The awaiter that unlock is about to resume belongs to another, suspended call. */
  lemma ResumesSleeper(s: State, a: Agent)
    requires Hands(s) && Sleepers(s) && At(s.m, a).Res?
    ensures At(s.m, Coro(At(s.m, a).w.task)) == Blocked(At(s.m, a).w) && Coro(At(s.m, a).w.task) != a
    ensures Is(s.h.loc, At(s.m, a).w, InHand(a))
  {
    var w := At(s.m, a).w;
    assert HandOf(At(s.m, a)) == Some(w);
    assert w in s.h.loc;
  }

  /** A step of the channel's own code, which moves the call's program counter. */
  predicate OwnCode(l: Label) {
    l.Lock? || l.Enter? || l.Wait? || l.Unlock? || l.StartNotify?
  }

  lemma OwnCodeFits(s: CState, l: Label, t: nat)
    requires Tasks(s) && CEnabled(s.c, SyncStep(l)) && Actor(l) == Coro(t) && OwnCode(l)
    ensures t in s.c.tasks && Fits(t, Advance(s.c, l).tasks[t], At(Do(s.c.m, l), Coro(t)))
  {
    assert TaskFits(s.c, t);
  }

  /** register_lock, register_cv and notify. */
  predicate Joining(l: Label) {
    l.LoadWord? || l.CasOk? || l.CasFail? || l.Register? || l.PopOne? || l.DetachAll? || l.WalkNext?
  }

  lemma JoiningFits(s: CState, l: Label, t: nat)
    requires Token(S(s)) && Tasks(s) && CEnabled(s.c, SyncStep(l)) && Actor(l) == Coro(t) && Joining(l)
    ensures t in s.c.tasks && Fits(t, s.c.tasks[t], At(Do(s.c.m, l), Coro(t)))
  {
    var x := At(s.c.m, Coro(t));
    assert TaskFits(s.c, t);
    assert HasToken(x) <==> s.g.h.holder == Some(Coro(t));
  }

  lemma UnlockingFits(s: CState, l: Label, t: nat)
    requires Hands(S(s)) && Sleepers(S(s)) && TaskFits(s.c, t)
    requires CEnabled(s.c, SyncStep(l)) && Actor(l) == Coro(t) && !OwnCode(l) && !Joining(l)
    ensures t in s.c.tasks && Fits(t, s.c.tasks[t], At(Do(s.c.m, l), Coro(t)))
  {
    if l.Resume? { ResumesSleeper(S(s), l.a); }
    StaysUnlocking(s.c, l, t);
  }

  lemma StaysUnlocking(c: Chan, l: Label, t: nat)
    requires TaskFits(c, t) && CEnabled(c, SyncStep(l)) && Actor(l) == Coro(t) && !OwnCode(l) && !Joining(l)
    requires l.Resume? ==> At(c.m, l.a).w.task != t
    ensures t in c.tasks && Fits(t, c.tasks[t], At(Do(c.m, l), Coro(t)))
  {
  }

  /** The acting call is where its program counter says. */
  lemma CoroFits(s: CState, l: Label, t: nat)
    requires Inv(S(s)) && Tasks(s) && CEnabled(s.c, SyncStep(l)) && Actor(l) == Coro(t)
    ensures t in s.c.tasks && Fits(t, Advance(s.c, l).tasks[t], At(Do(s.c.m, l), Coro(t)))
  {
    if OwnCode(l) { OwnCodeFits(s, l, t); }
    else if Joining(l) { JoiningFits(s, l, t); }
    else { assert TaskFits(s.c, t); UnlockingFits(s, l, t); }
  }

  /** The acting close call, or the acting remainder of a wait, is where it should be. */
  lemma HelperStays(s: CState, l: Label, n: nat)
    requires HelperFits(s.c, n, At(s.c.m, Helper(n))) && CEnabled(s.c, SyncStep(l)) && Actor(l) == Helper(n)
    ensures HelperFits(Advance(s.c, l), n, At(Do(s.c.m, l), Helper(n)))
  {
    if Joining(l) { HelperJoins(s.c, l, n); }
  }

  lemma HelperJoins(c: Chan, l: Label, n: nat)
    requires HelperFits(c, n, At(c.m, Helper(n))) && CEnabled(c, SyncStep(l)) && Actor(l) == Helper(n) && Joining(l)
    ensures Advance(c, l) == c && HelperFits(c, n, At(Do(c.m, l), Helper(n)))
  {
  }

  lemma SyncTasks(s: CState, l: Label)
    requires Inv(S(s)) && Tasks(s) && CEnabled(s.c, SyncStep(l))
    ensures Tasks(CStep(s, SyncStep(l)))
  {
    var s' := CStep(s, SyncStep(l));
    forall t ensures TaskFits(s'.c, t) {
      assert TaskFits(s.c, t);
      if Coro(t) == Actor(l) {
        CoroFits(s, l, t);
      } else {
        OnlyActorAdvances(s.c, l, t);
        OtherTask(s, l, t);
      }
    }
  }

  lemma OtherTask(s: CState, l: Label, t: nat)
    requires Hands(S(s)) && Sleepers(S(s)) && TaskFits(s.c, t) && CEnabled(s.c, SyncStep(l)) && Coro(t) != Actor(l)
    ensures if t in s.c.tasks then Fits(t, s.c.tasks[t], At(Do(s.c.m, l), Coro(t))) else At(Do(s.c.m, l), Coro(t)).Idle?
  {
    if Coro(t) != Partner(s.c.m, l) {
      OnlyActors(s.c.m, l, Coro(t));
    } else {
      ResumesSleeper(S(s), l.a);
      ResumedFits(s.c, l, t);
    }
  }

  lemma ResumedFits(c: Chan, l: Label, t: nat)
    requires CEnabled(c, SyncStep(l)) && l.Resume? && At(c.m, l.a).w.task == t && Coro(t) != l.a
    requires TaskFits(c, t) && At(c.m, Coro(t)) == Blocked(At(c.m, l.a).w)
    ensures t in c.tasks && Fits(t, c.tasks[t], At(Do(c.m, l), Coro(t)))
  {
  }

  lemma SyncHelpers(s: CState, l: Label)
    requires Inv(S(s)) && Helpers(s) && CEnabled(s.c, SyncStep(l))
    ensures Helpers(CStep(s, SyncStep(l)))
  {
    var s' := CStep(s, SyncStep(l));
    forall n ensures HelperFits(s'.c, n, At(s'.c.m, Helper(n))) {
      assert HelperFits(s.c, n, At(s.c.m, Helper(n)));
      if Helper(n) == Actor(l) {
        HelperStays(s, l, n);
      } else {
        if Helper(n) != Partner(s.c.m, l) { OnlyActors(s.c.m, l, Helper(n)); }
        assert n in s'.c.closers <==> n in s.c.closers;
        assert n in s.c.closers ==> s'.c.closers[n] == s.c.closers[n];
      }
    }
  }

  // ---- what calls rely on ----

  lemma SyncData(s: CState, l: Label)
    requires Tasks(s) && Helpers(s) && Data(s) && CEnabled(s.c, SyncStep(l))
    ensures Data(CStep(s, SyncStep(l)))
  {
    AdvanceFrame(s.c, l);
    if l.DetachAll? { DetachedByCloser(s, l.a); }
    assert s.c.closers == map[] ==> Advance(s.c, l).closers == map[];
  }

  lemma CoroNeverDetaches(s: CState, t: nat)
    requires Tasks(s)
    ensures !At(s.c.m, Coro(t)).Detach? && !At(s.c.m, Coro(t)).Walk?
  {
    assert TaskFits(s.c, t);
  }

  /** Only close calls detach whole queues. */
  lemma DetachedByCloser(s: CState, a: Agent)
    requires Tasks(s) && Helpers(s) && At(s.c.m, a).Detach?
    ensures a.Helper? && a.n in s.c.closers
    ensures At(s.c.m, a) == Detach(if s.c.closers[a.n].InProducers? then PRODUCERS else CONSUMERS, ToIdle)
    ensures !s.c.closers[a.n].AfterStore?
  {
    match a
    case Coro(t) => CoroNeverDetaches(s, t);
    case Helper(n) => assert HelperFits(s.c, n, At(s.c.m, Helper(n)));
  }

  /** How a thread of control can come to register a sleeper. */
  lemma BecomesReg(m: Mem, l: Label, a: Agent)
    requires Enabled(m, l) && At(Do(m, l), a).Reg?
    ensures var w := At(Do(m, l), a).w;
            || (At(m, a).Reg? && At(m, a).w == w && !(l.Register? && l.a == a))
            || (l.Wait? && !l.holds && w == CvAw(l.t, l.cv))
            || (l.Resume? && !l.holds && w.CvAw? && At(m, l.a).w == w)
  {
  }

  /** How a call can come to be granted the mutex. */
  lemma BecomesGranted(m: Mem, l: Label, t: nat)
    requires Enabled(m, l) && At(Do(m, l), Coro(t)).Granted?
    ensures var w := At(Do(m, l), Coro(t)).w;
            || At(m, Coro(t)) == Granted(w)
            || (l.CasOk? && At(m, Coro(t)).Cas? && At(m, Coro(t)).w == w)
            || (l.Resume? && (w.LockAw? || l.holds) && At(m, l.a).w == w && w.task == t)
  {
    if Coro(t) != Actor(l) && Coro(t) != Partner(m, l) { OnlyActors(m, l, Coro(t)); }
  }

  lemma OwnCodeRelies(s: CState, l: Label, t: nat)
    requires Tasks(s) && Guards(s) && CEnabled(s.c, SyncStep(l)) && t in s.c.tasks && Coro(t) == Actor(l) && OwnCode(l)
    ensures var s' := CStep(s, SyncStep(l));
            t in s'.c.tasks && Relies(s', s'.c.tasks[t], At(s'.c.m, Coro(t)))
  {
    assert TaskFits(s.c, t);
    assert Relies(s, s.c.tasks[t], At(s.c.m, Coro(t)));
  }

  lemma OtherRelies(s: CState, s': CState, l: Label, t: nat)
    requires Hands(S(s)) && Sleepers(S(s)) && CEnabled(s.c, SyncStep(l)) && t in s.c.tasks
    requires TaskFits(s.c, t) && Relies(s, s.c.tasks[t], At(s.c.m, Coro(t)))
    requires t in s'.c.tasks && s'.c.tasks[t] == s.c.tasks[t] && s'.c.m == Do(s.c.m, l)
    requires s'.c.buf == s.c.buf && s'.c.cap == s.c.cap && s'.c.closeState == s.c.closeState && s'.g.ended == s.g.ended
    ensures Relies(s', s'.c.tasks[t], At(s'.c.m, Coro(t)))
  {
    if s.c.tasks[t].pc.Sleeping? && At(s'.c.m, Coro(t)).Granted? {
      BecomesGranted(s.c.m, l, t);
      if l.Resume? { ResumesSleeper(S(s), l.a); }
      GrantedReady(s.c, l, t);
    }
  }

  /** A sleeper that has been granted the mutex has a true predicate, now or when it was resumed. */
  lemma GrantedReady(c: Chan, l: Label, t: nat)
    requires CEnabled(c, SyncStep(l)) && TaskFits(c, t) && t in c.tasks && c.tasks[t].pc.Sleeping?
    requires At(c.m, Coro(t)).Granted? ==> Pred(c, c.tasks[t].op)
    requires At(Do(c.m, l), Coro(t)).Granted?
    requires var w := At(Do(c.m, l), Coro(t)).w;
             (|| At(c.m, Coro(t)) == Granted(w)
                 || (l.CasOk? && At(c.m, Coro(t)).Cas?)
                 || (l.Resume? && (w.LockAw? || l.holds) && At(c.m, l.a).w == w && w.task == t &&
                     At(c.m, Coro(t)) == Blocked(w)))
    ensures Pred(c, c.tasks[t].op)
  {
  }

  lemma SyncGuards(s: CState, l: Label)
    requires Hands(S(s)) && Sleepers(S(s)) && Tasks(s) && Guards(s) && CEnabled(s.c, SyncStep(l))
    ensures Guards(CStep(s, SyncStep(l)))
  {
    var s' := CStep(s, SyncStep(l));
    AdvanceFrame(s.c, l);
    forall t | t in s'.c.tasks ensures Relies(s', s'.c.tasks[t], At(s'.c.m, Coro(t))) {
      if Coro(t) == Actor(l) && OwnCode(l) {
        OwnCodeRelies(s, l, t);
      } else {
        if Coro(t) != Actor(l) { OnlyActorAdvances(s.c, l, t); }
        assert TaskFits(s.c, t);
        OtherRelies(s, s', l, t);
      }
    }
    forall a ensures RegFits(s', At(s'.c.m, a)) {
      if At(s'.c.m, a).Reg? {
        BecomesReg(s.c.m, l, a);
        assert RegFits(s, At(s.c.m, a));
      }
    }
  }

  // ---- wake-ups ----

  lemma Cardinality<T>(a: set<T>, b: set<T>)
    requires a <= b
    ensures |a| <= |b|
    decreases a
  {
    if x :| x in a { Cardinality(a - {x}, b - {x}); }
  }

  lemma HeadIsThere(s: State, p: Place)
    requires Places(s) && Links(s) && !p.InHand? && HeadOf(s, p).Some?
    ensures Is(s.h.loc, HeadOf(s, p).v, p)
    ensures L(s.h, p) != [] && L(s.h, p)[0] == HeadOf(s, p).v
  {
    assert Linked(s.m.next, HeadOf(s, p), L(s.h, p)) && Holds(s.h.loc, p, L(s.h, p));
    assert HeadOf(s, p).v in L(s.h, p);
  }

  /** An awaiter in charge stays in charge until it is granted or goes back to sleep. */
  lemma StaysOnMutex(s: State, l: Label, w: Aw)
    requires Inv(s) && Enabled(s.m, l) && OnMutex(s.h, w)
    requires !(l.Register? && At(s.m, l.a).w == w)
    ensures OnMutex(Note(s, l), w) || (l.Resume? && At(s.m, l.a).w == w && Note(s, l).holder == Some(Coro(w.task)))
  {
    var a := Actor(l);
    assert HasToken(At(s.m, a)) <==> s.h.holder == Some(a);
    assert WellFormed(a, At(s.m, a));
    assert s.h.loc[w] == InHand(a) ==> Is(s.h.loc, w, InHand(a)) && HandOf(At(s.m, a)) == Some(w);
    if l.PopOne? && Ptr(s.m.head, At(s.m, a).cv).Some? { HeadIsThere(s, InCv(At(s.m, a).cv)); }
    if l.WalkNext? && At(s.m, a).cur.Some? { HeadIsThere(s, InChain(a)); }
    MutexPlaces(s, l, w);
  }

  lemma MutexPlaces(s: State, l: Label, w: Aw)
    requires Enabled(s.m, l) && OnMutex(s.h, w) && !(l.Register? && At(s.m, l.a).w == w)
    requires HasToken(At(s.m, Actor(l))) <==> s.h.holder == Some(Actor(l))
    requires s.h.holder.None? <==> s.m.word.NoLocked?
    requires WellFormed(Actor(l), At(s.m, Actor(l)))
    requires s.h.loc[w] == InHand(Actor(l)) ==> HandOf(At(s.m, Actor(l))) == Some(w)
    requires l.PopOne? && Ptr(s.m.head, At(s.m, l.a).cv).Some? ==> Ptr(s.m.head, At(s.m, l.a).cv).v != w
    requires l.WalkNext? && At(s.m, l.a).cur.Some? ==> At(s.m, l.a).cur.v != w
    ensures OnMutex(Note(s, l), w) || (l.Resume? && At(s.m, l.a).w == w && Note(s, l).holder == Some(Coro(w.task)))
  {
  }

  lemma EngagedByHolding(s: CState, l: Label, t: nat)
    requires Inv(S(s)) && Tasks(s) && CEnabled(s.c, SyncStep(l))
    requires t in s.c.tasks && Before(s.c.tasks[t].pc) && s.g.h.holder == Some(Coro(t))
    requires !(l.Register? && At(s.c.m, l.a).w.task == t)
    ensures Note(S(s), l).holder == Some(Coro(t))
  {
    var a := Actor(l);
    assert TaskFits(s.c, t);
    assert HasToken(At(s.c.m, a)) <==> s.g.h.holder == Some(a);
    assert WellFormed(a, At(s.c.m, a));
  }

  /** A call that is engaged stays engaged, unless it goes back to sleep. */
  lemma StaysBefore(s: CState, l: Label, t: nat)
    requires Token(S(s)) && Tasks(s) && CEnabled(s.c, SyncStep(l)) && Engaged(s, t)
    ensures t in Advance(s.c, l).tasks && Before(Advance(s.c, l).tasks[t].pc)
  {
    assert TaskFits(s.c, t);
    assert HasToken(At(s.c.m, Coro(t))) <==> s.g.h.holder == Some(Coro(t));
  }

  lemma StaysBlocked(m: Mem, l: Label, w: Aw)
    requires Enabled(m, l) && At(m, Coro(w.task)) == Blocked(w)
    requires l.Resume? ==> At(m, l.a).w != w && At(m, Coro(At(m, l.a).w.task)) == Blocked(At(m, l.a).w)
    ensures At(Do(m, l), Coro(w.task)) == Blocked(w)
  {
    assert Actor(l) != Coro(w.task);
    OnlyActors(m, l, Coro(w.task));
  }

  lemma StaysEngaged(s: CState, l: Label, t: nat)
    requires Inv(S(s)) && Tasks(s) && CEnabled(s.c, SyncStep(l)) && Engaged(s, t)
    requires !(l.Register? && At(s.c.m, l.a).w.task == t)
    ensures Engaged(CStep(s, SyncStep(l)), t)
  {
    StaysBefore(s, l, t);
    if s.g.h.holder == Some(Coro(t)) {
      EngagedByHolding(s, l, t);
    } else {
      var w := At(s.c.m, Coro(t)).w;
      assert WellFormed(Coro(t), At(s.c.m, Coro(t)));
      StaysOnMutex(S(s), l, w);
      if l.Resume? { ResumesSleeper(S(s), l.a); }
      if !(l.Resume? && At(s.c.m, l.a).w == w) { StaysBlocked(s.c.m, l, w); }
      else if !OnMutex(Note(S(s), l), w) { assert Note(S(s), l).holder == Some(Coro(t)); }
      else { StillInHand(s, l, t, w); }
    }
  }

  /** The predicate of the awaiter in the hand was false: it stays in the hand for now. */
  lemma StillInHand(s: CState, l: Label, t: nat, w: Aw)
    requires Inv(S(s)) && CEnabled(s.c, SyncStep(l)) && l.Resume? && At(s.c.m, l.a).w == w && w.task == t
    requires OnMutex(Note(S(s), l), w)
    ensures At(Do(s.c.m, l), Coro(t)) == Blocked(w)
  {
    ResumesSleeper(S(s), l.a);
  }

  /** A queue becomes non-empty only by a registration. */
  lemma QueueFills(s: State, l: Label, cv: nat)
    requires Enabled(s.m, l) && L(Note(s, l), InCv(cv)) != []
    ensures L(s.h, InCv(cv)) != [] || (l.Register? && At(s.m, l.a).w.cv == cv)
  {
  }

  lemma HolderKept(s: State, l: Label)
    requires Token(s) && Shapes(s) && Enabled(s.m, l) && s.h.holder.Some? && s.h.holder != Some(Actor(l))
    ensures Note(s, l).holder == s.h.holder
  {
    assert HasToken(At(s.m, Actor(l))) <==> s.h.holder == Some(Actor(l));
    assert WellFormed(Actor(l), At(s.m, Actor(l)));
  }

  lemma StaysPending(s: CState, l: Label, cv: nat)
    requires Inv(S(s)) && Tasks(s) && CEnabled(s.c, SyncStep(l)) && Pending(s, cv)
    requires !(l.PopOne? && s.g.h.holder == Some(l.a))
    ensures Pending(CStep(s, SyncStep(l)), cv)
  {
    var t := s.g.h.holder.v.t;
    assert TaskFits(s.c, t);
    if Actor(l) != Coro(t) {
      HolderKept(S(s), l);
      assert HasToken(At(s.c.m, Coro(t)));
      if l.Resume? { ResumesSleeper(S(s), l.a); }
      PendingFrame(s, l, cv, t);
    } else {
      PendingOwn(s, l, cv, t);
    }
  }

  lemma PendingFrame(s: CState, l: Label, cv: nat, t: nat)
    requires CEnabled(s.c, SyncStep(l)) && Pending(s, cv) && s.g.h.holder == Some(Coro(t)) && Actor(l) != Coro(t)
    requires Note(S(s), l).holder == s.g.h.holder && Partner(s.c.m, l) != Coro(t)
    ensures Pending(CStep(s, SyncStep(l)), cv)
  {
    OnlyActorAdvances(s.c, l, t);
    OnlyActors(s.c.m, l, Coro(t));
  }

  lemma PendingOwn(s: CState, l: Label, cv: nat, t: nat)
    requires TaskFits(s.c, t) && CEnabled(s.c, SyncStep(l)) && Pending(s, cv) && s.g.h.holder == Some(Coro(t))
    requires Actor(l) == Coro(t) && !l.PopOne?
    ensures Pending(CStep(s, SyncStep(l)), cv)
  {
    PendingStays(s.c, l, t);
    assert Note(S(s), l).holder == s.g.h.holder;
  }

  lemma PendingStays(c: Chan, l: Label, t: nat)
    requires TaskFits(c, t) && t in c.tasks && CEnabled(c, SyncStep(l)) && Actor(l) == Coro(t) && !l.PopOne?
    requires c.tasks[t].pc.ToNotify? || At(c.m, Coro(t)).Notify?
    ensures l.StartNotify?
    ensures var d := CDo(c, SyncStep(l)); t in d.tasks && d.tasks[t].op == c.tasks[t].op && At(d.m, Coro(t)).Notify?
  {
  }

  lemma HelperNeverNotifies(s: CState, n: nat)
    requires Helpers(s)
    ensures !At(s.c.m, Helper(n)).Notify?
  {
    assert HelperFits(s.c, n, At(s.c.m, Helper(n)));
  }

  /** Only the holder runs notify_one. */
  lemma NotifierHolds(s: CState, a: Agent)
    requires Token(S(s)) && Tasks(s) && Helpers(s) && At(s.c.m, a).Notify?
    ensures a.Coro? && a.t in s.c.tasks && s.g.h.holder == Some(a)
    ensures At(s.c.m, a) == Notify(OtherCv(s.c.tasks[a.t].op), ToCrit)
  {
    match a
    case Coro(t) => assert TaskFits(s.c, t); assert HasToken(At(s.c.m, a));
    case Helper(n) => HelperNeverNotifies(s, n);
  }

  /** Whoever sleeps on cv is a suspended call of that side. */
  lemma SleeperIsCall(s: CState, w: Aw, cv: nat)
    requires Token(S(s)) && Kinds(s.g.h) && Sleepers(S(s)) && Tasks(s) && Is(s.g.h.loc, w, InCv(cv))
    ensures w.task in s.c.tasks && w == CvAw(w.task, cv) && CvOf(s.c.tasks[w.task].op) == cv
    ensures s.c.tasks[w.task].pc.Sleeping? && At(s.c.m, Coro(w.task)) == Blocked(w)
    ensures !Engaged(s, w.task)
  {
    assert At(s.c.m, Coro(w.task)) == Blocked(w);
    assert TaskFits(s.c, w.task);
    assert HasToken(At(s.c.m, Coro(w.task))) <==> s.g.h.holder == Some(Coro(w.task));
  }

  /** The sleeper that notify_one pops becomes engaged. */
  lemma PoppedEngages(s: CState, a: Agent)
    requires Inv(S(s)) && Tasks(s) && Helpers(s) && CEnabled(s.c, SyncStep(PopOne(a)))
    requires L(s.g.h, InCv(At(s.c.m, a).cv)) != []
    ensures var cv, t := At(s.c.m, a).cv, L(s.g.h, InCv(At(s.c.m, a).cv))[0].task;
            && t !in EngagedOn(s, cv)
            && t in EngagedOn(CStep(s, SyncStep(PopOne(a))), cv)
  {
    var cv := At(s.c.m, a).cv;
    var q := L(s.g.h, InCv(cv));
    NotifierHolds(s, a);
    assert Linked(s.c.m.next, HeadOf(S(s), InCv(cv)), q);
    HeadIsThere(S(s), InCv(cv));
    SleeperIsCall(s, q[0], cv);
    PopEffect(s, a, q[0]);
  }

  lemma PopEffect(s: CState, a: Agent, w: Aw)
    requires CEnabled(s.c, SyncStep(PopOne(a))) && Ptr(s.c.m.head, At(s.c.m, a).cv) == Some(w)
    requires s.g.h.holder == Some(a)
    requires At(s.c.m, Coro(w.task)) == Blocked(w) && w.task in s.c.tasks && s.c.tasks[w.task].pc.Sleeping?
    ensures Engaged(CStep(s, SyncStep(PopOne(a))), w.task)
    ensures CStep(s, SyncStep(PopOne(a))).c.tasks == s.c.tasks
  {
  }

  lemma EngagedGrows(s: CState, l: Label, cv: nat)
    requires Inv(S(s)) && Tasks(s) && CEnabled(s.c, SyncStep(l))
    requires l.Register? ==> At(s.c.m, l.a).w.task in s.c.tasks && CvOf(s.c.tasks[At(s.c.m, l.a).w.task].op) != cv
    ensures EngagedOn(s, cv) <= EngagedOn(CStep(s, SyncStep(l)), cv)
  {
    AdvanceFrame(s.c, l);
    forall t | t in EngagedOn(s, cv) ensures t in EngagedOn(CStep(s, SyncStep(l)), cv) {
      StaysEngaged(s, l, t);
    }
  }

  lemma DueGrows(s: CState, l: Label, cv: nat)
    requires Inv(S(s)) && Tasks(s) && Helpers(s) && CEnabled(s.c, SyncStep(l))
    requires l.Register? ==> At(s.c.m, l.a).w.task in s.c.tasks && CvOf(s.c.tasks[At(s.c.m, l.a).w.task].op) != cv
    requires L(s.g.h, InCv(cv)) != []
    ensures Due(CStep(s, SyncStep(l)), cv) >= Due(s, cv)
  {
    var s' := CStep(s, SyncStep(l));
    EngagedGrows(s, l, cv);
    Cardinality(EngagedOn(s, cv), EngagedOn(s', cv));
    if Pending(s, cv) {
      if l.PopOne? && s.g.h.holder == Some(l.a) {
        PopPays(s, l, cv);
      } else {
        StaysPending(s, l, cv);
      }
    }
  }

  /** The pending notification becomes an engaged sleeper. */
  lemma PopPays(s: CState, l: Label, cv: nat)
    requires Inv(S(s)) && Tasks(s) && Helpers(s) && CEnabled(s.c, SyncStep(l)) && Pending(s, cv)
    requires l.PopOne? && s.g.h.holder == Some(l.a) && L(s.g.h, InCv(cv)) != []
    requires EngagedOn(s, cv) <= EngagedOn(CStep(s, SyncStep(l)), cv)
    ensures |EngagedOn(CStep(s, SyncStep(l)), cv)| >= |EngagedOn(s, cv)| + 1
  {
    PopsOther(s, l.a, cv);
    PoppedEngages(s, l.a);
    MoreMembers(EngagedOn(s, cv), EngagedOn(CStep(s, SyncStep(l)), cv), L(s.g.h, InCv(cv))[0].task);
  }

  lemma PopsOther(s: CState, a: Agent, cv: nat)
    requires Token(S(s)) && Tasks(s) && Helpers(s) && At(s.c.m, a).Notify? && Pending(s, cv)
    ensures At(s.c.m, a).cv == cv
  {
    NotifierHolds(s, a);
  }

  lemma MoreMembers(x: set<nat>, y: set<nat>, t: nat)
    requires x <= y && t in y && t !in x
    ensures |y| >= |x| + 1
  {
    Cardinality(x + {t}, y);
  }

  lemma SyncNoLostWakeup(s: CState, l: Label, cv: nat)
    requires Inv(S(s)) && Tasks(s) && Helpers(s) && Guards(s) && CEnabled(s.c, SyncStep(l))
    requires NoLostWakeup(s, cv) && (cv == CONSUMERS || cv == PRODUCERS)
    ensures NoLostWakeup(CStep(s, SyncStep(l)), cv)
  {
    var s' := CStep(s, SyncStep(l));
    AdvanceFrame(s.c, l);
    if l.Register? {
      assert RegFits(s, At(s.c.m, l.a));
      RegisteredKind(s, l.a);
    }
    if L(s'.g.h, InCv(cv)) != [] {
      QueueFills(S(s), l, cv);
      if !(l.Register? && At(s.c.m, l.a).w.cv == cv) { DueGrows(s, l, cv); }
    }
  }

  /** An awaiter sleeps on its own operation's condition variable. */
  lemma RegisteredKind(s: CState, a: Agent)
    requires Inv(S(s)) && Tasks(s) && At(s.c.m, a).Reg? && At(s.c.m, a).w.task in s.c.tasks
    ensures At(s.c.m, a).w.CvAw? && At(s.c.m, a).w.cv == CvOf(s.c.tasks[At(s.c.m, a).w.task].op)
  {
    var w := At(s.c.m, a).w;
    LoadPrivate(S(s), a);
    assert WellFormed(a, At(s.c.m, a));
    assert TaskFits(s.c, w.task);
    assert w in s.g.h.loc <==> At(s.c.m, Coro(w.task)) == Blocked(w);
  }

  // ---- close ----

  /** Once the channel is closed no evaluation of a predicate sends anybody to sleep. */
  lemma NoNewSleeper(s: CState, l: Label, a: Agent)
    requires CEnabled(s.c, SyncStep(l)) && Closed(s.c) && At(Do(s.c.m, l), a).Reg?
    ensures At(s.c.m, a).Reg? && At(s.c.m, a).w == At(Do(s.c.m, l), a).w && !(l.Register? && l.a == a)
  {
    BecomesReg(s.c.m, l, a);
  }

  lemma RegistersAlone(s: CState, a: Agent, b: Agent)
    requires Token(S(s)) && At(s.c.m, a).Reg? && At(s.c.m, b).Reg?
    ensures a == b
  {
    assert HasToken(At(s.c.m, a)) && HasToken(At(s.c.m, b));
  }

  lemma NobodyElseRegisters(s: CState, l: Label)
    requires Token(S(s)) && CEnabled(s.c, SyncStep(l)) && Closed(s.c) && (NobodyRegisters(s) || l.Register?)
    ensures NobodyRegisters(CStep(s, SyncStep(l)))
  {
    forall a ensures !At(Do(s.c.m, l), a).Reg? {
      if At(Do(s.c.m, l), a).Reg? {
        NoNewSleeper(s, l, a);
        if l.Register? { RegistersAlone(s, a, l.a); }
        assert false;
      }
    }
  }

  /** The queue of a condition variable changes only by registration, notify_one and detaching. */
  lemma QueueChanges(s: State, l: Label, cv: nat)
    requires Enabled(s.m, l)
    ensures var q, q' := L(s.h, InCv(cv)), L(Note(s, l), InCv(cv));
            if l.Register? && At(s.m, l.a).w.cv == cv then q' == q + [At(s.m, l.a).w]
            else if l.DetachAll? && At(s.m, l.a).cv == cv then q' == []
            else if l.PopOne? && At(s.m, l.a).cv == cv then q' == q || q' == [] || q' == q[1..]
            else q' == q
  {
  }

  /** What drained queues look like before the step, as facts about lengths. */
  lemma RegisterAfterClose(s: CState, a: Agent, n: nat)
    requires Inv(S(s)) && Tasks(s) && Guards(s) && Stragglers(s) && Data(s) && CEnabled(s.c, SyncStep(Register(a, n)))
    ensures Stragglers(CStep(s, SyncStep(Register(a, n))))
  {
    var l := Register(a, n);
    assert RegFits(s, At(s.c.m, a));
    RegisteredKind(s, a);
    QueueChanges(S(s), l, PRODUCERS);
    QueueChanges(S(s), l, CONSUMERS);
    AdvanceFrame(s.c, l);
    if s.g.drainedP {
      NobodyElseRegisters(s, l);
      assert !NobodyRegisters(s);
    }
  }

  lemma PopAfterClose(s: CState, a: Agent)
    requires Inv(S(s)) && Tasks(s) && Helpers(s) && Stragglers(s) && Data(s) && CEnabled(s.c, SyncStep(PopOne(a)))
    ensures Stragglers(CStep(s, SyncStep(PopOne(a))))
  {
    var l := PopOne(a);
    NotifierHolds(s, a);
    QueueChanges(S(s), l, PRODUCERS);
    QueueChanges(S(s), l, CONSUMERS);
    if s.g.drainedP && NobodyRegisters(s) { NobodyElseRegisters(s, l); }
    if L(s.g.h, InCv(At(s.c.m, a).cv)) != [] {
      assert Linked(s.c.m.next, HeadOf(S(s), InCv(At(s.c.m, a).cv)), L(s.g.h, InCv(At(s.c.m, a).cv)));
    }
  }

  lemma DetachOnClose(s: CState, a: Agent)
    requires Inv(S(s)) && Tasks(s) && Helpers(s) && Stragglers(s) && Progress(s) && Data(s)
    requires CEnabled(s.c, SyncStep(DetachAll(a)))
    ensures Stragglers(CStep(s, SyncStep(DetachAll(a))))
  {
    var l := DetachAll(a);
    DetachedByCloser(s, a);
    QueueChanges(S(s), l, PRODUCERS);
    QueueChanges(S(s), l, CONSUMERS);
    if NobodyRegisters(s) { NobodyElseRegisters(s, l); }
    if Pending(s, PRODUCERS) { StaysPending(s, l, PRODUCERS); }
  }

  lemma SyncStragglers(s: CState, l: Label)
    requires Inv(S(s)) && Tasks(s) && Helpers(s) && Guards(s) && Stragglers(s) && Progress(s) && Data(s)
    requires CEnabled(s.c, SyncStep(l))
    ensures Stragglers(CStep(s, SyncStep(l)))
  {
    if l.Register? { RegisterAfterClose(s, l.a, l.tail); }
    else if l.PopOne? { PopAfterClose(s, l.a); }
    else if l.DetachAll? { DetachOnClose(s, l.a); }
    else { OtherAfterClose(s, l); }
  }

  lemma OtherAfterClose(s: CState, l: Label)
    requires Inv(S(s)) && Tasks(s) && Stragglers(s) && Data(s) && CEnabled(s.c, SyncStep(l))
    requires !l.Register? && !l.PopOne? && !l.DetachAll?
    ensures Stragglers(CStep(s, SyncStep(l)))
  {
    QueueChanges(S(s), l, PRODUCERS);
    QueueChanges(S(s), l, CONSUMERS);
    AdvanceFrame(s.c, l);
    if s.g.drainedP && NobodyRegisters(s) { NobodyElseRegisters(s, l); }
    if Pending(s, PRODUCERS) { StaysPending(s, l, PRODUCERS); }
  }

  /** How an awaiter comes to a queue or to a detached chain. */
  lemma PlaceOrigin(s: State, l: Label, w: Aw)
    requires Enabled(s.m, l) && w in Note(s, l).loc
    ensures var p := Note(s, l).loc[w];
            && (p.InCv? ==> Is(s.h.loc, w, p) || (l.Register? && At(s.m, l.a).w == w))
            && (p.InChain? ==>
                  Is(s.h.loc, w, p) || (l.DetachAll? && p == InChain(l.a) && Is(s.h.loc, w, InCv(At(s.m, l.a).cv))))
  {
  }

  lemma SyncAwake(s: CState, l: Label)
    requires Inv(S(s)) && Tasks(s) && Helpers(s) && Data(s) && Awake(s) && CEnabled(s.c, SyncStep(l))
    ensures Awake(CStep(s, SyncStep(l)))
  {
    var s' := CStep(s, SyncStep(l));
    if l.DetachAll? { DetachedByCloser(s, l.a); }
    forall n, w | w in Woken(s'.g, n) ensures AwakeAt(s', n, w) {
      if w in Woken(s.g, n) { assert AwakeAt(s, n, w); OldAwake(s, l, n, w); } else { NewAwake(s, l.a, n, w); }
    }
  }

  lemma StaysSpared(s: CState, l: Label, w: Aw)
    requires CEnabled(s.c, SyncStep(l)) && Closed(s.c) && Spared(s.c.m, w)
    ensures Spared(Do(s.c.m, l), w)
  {
    forall a | At(Do(s.c.m, l), a).Reg? ensures At(Do(s.c.m, l), a).w != w { NoNewSleeper(s, l, a); }
  }

  lemma OldAwake(s: CState, l: Label, n: nat, w: Aw)
    requires CEnabled(s.c, SyncStep(l)) && AwakeAt(s, n, w)
    ensures AwakeAt(CStep(s, SyncStep(l)), n, w)
  {
    AdvanceFrame(s.c, l);
    StaysSpared(s, l, w);
    if w in Note(S(s), l).loc { PlaceOrigin(S(s), l, w); }
  }

  lemma NewAwake(s: CState, a: Agent, n: nat, w: Aw)
    requires Inv(S(s)) && CEnabled(s.c, SyncStep(DetachAll(a))) && a == Helper(n) && Closed(s.c)
    requires w in L(s.g.h, InCv(At(s.c.m, a).cv))
    ensures AwakeAt(CStep(s, SyncStep(DetachAll(a))), n, w)
  {
    var p := InCv(At(s.c.m, a).cv);
    assert Holds(s.g.h.loc, p, L(s.g.h, p));
    assert Is(s.g.h.loc, w, p);
    SleepersSpared(S(s), w);
    StaysSpared(s, DetachAll(a), w);
  }

  lemma SleepersSpared(s: State, w: Aw)
    requires Shapes(s) && Hands(s) && Sleepers(s) && w in s.h.loc && s.h.loc[w].InCv?
    ensures Spared(s.m, w)
  {
    forall b | At(s.m, b).Reg? ensures At(s.m, b).w != w { LoadPrivate(s, b); }
  }

  lemma SyncProgress(s: CState, l: Label)
    requires Tasks(s) && Helpers(s) && Progress(s) && CEnabled(s.c, SyncStep(l))
    ensures Progress(CStep(s, SyncStep(l)))
  {
    var s' := CStep(s, SyncStep(l));
    forall n | n in s'.c.closers
      ensures s'.c.closers[n].InConsumers? ==> s'.g.drainedP
      ensures s'.c.closers[n].InProducers? && !At(s'.c.m, Helper(n)).Detach? ==> s'.g.drainedP
      ensures s'.c.closers[n].InConsumers? && !At(s'.c.m, Helper(n)).Detach? ==> s'.g.drainedC
    {
      AdvanceFrame(s.c, l);
      assert HelperFits(s.c, n, At(s.c.m, Helper(n)));
      HelperPast(s.c, l, n);
    }
  }

  /** A close call goes past a queue only by detaching it. */
  lemma HelperPast(c: Chan, l: Label, n: nat)
    requires CEnabled(c, SyncStep(l)) && n in c.closers && HelperFits(c, n, At(c.m, Helper(n)))
    ensures n in CDo(c, SyncStep(l)).closers
    ensures var d, a := CDo(c, SyncStep(l)), Helper(n);
            var p, q := c.closers[n], d.closers[n];
            && (q.InConsumers? ==> p.InConsumers? || (p.InProducers? && !At(c.m, a).Detach?))
            && (q.InProducers? && !At(d.m, a).Detach? ==>
                  p.InProducers? && (!At(c.m, a).Detach? || (l == DetachAll(a) && At(c.m, a).cv == PRODUCERS)))
            && (q.InConsumers? && !At(d.m, a).Detach? ==>
                  p.InConsumers? && (!At(c.m, a).Detach? || (l == DetachAll(a) && At(c.m, a).cv == CONSUMERS)))
  {
    AdvanceFrame(c, l);
    if Helper(n) != Actor(l) {
      OtherHelper(c, l, n);
    } else if l.StartNotify? || l.DetachAll? {
      ActiveHelper(c, l, n);
    } else {
      NotDetaching(c.m, l, Helper(n));
    }
  }

  lemma OtherHelper(c: Chan, l: Label, n: nat)
    requires CEnabled(c, SyncStep(l)) && n in c.closers && Helper(n) != Actor(l)
    ensures Advance(c, l).closers[n] == c.closers[n] && At(Do(c.m, l), Helper(n)) == At(c.m, Helper(n))
  {
    OnlyActors(c.m, l, Helper(n));
  }

  lemma ActiveHelper(c: Chan, l: Label, n: nat)
    requires CEnabled(c, SyncStep(l)) && n in c.closers && HelperFits(c, n, At(c.m, Helper(n)))
    requires Helper(n) == Actor(l) && (l.StartNotify? || l.DetachAll?)
    ensures l.StartNotify? ==> At(Do(c.m, l), Helper(n)).Detach? && At(c.m, Helper(n)).Idle?
    ensures l.StartNotify? ==> Advance(c, l).closers[n].InConsumers? ==> c.closers[n].InProducers?
    ensures l.DetachAll? ==> Advance(c, l) == c && !c.closers[n].AfterStore?
    ensures l.DetachAll? ==> At(c.m, Helper(n)).cv == if c.closers[n].InProducers? then PRODUCERS else CONSUMERS
  {
  }

  lemma NotDetaching(m: Mem, l: Label, a: Agent)
    requires Enabled(m, l) && Actor(l) == a && a.Helper? && !l.StartNotify? && !l.DetachAll?
    ensures !At(m, a).Detach? && !At(Do(m, l), a).Detach?
  {
  }

  // ---- steps of the channel's own code ----

  /** The call that runs with the mutex held is alone with the data. */
  lemma Alone(s: CState, t: nat)
    requires Token(S(s)) && Tasks(s) && t in s.c.tasks && At(s.c.m, Coro(t)).Crit?
    ensures s.g.h.holder == Some(Coro(t))
    ensures forall u :: u in s.c.tasks && u != t ==> !At(s.c.m, Coro(u)).Crit? && !At(s.c.m, Coro(u)).Granted?
    ensures forall a :: !At(s.c.m, a).Reg?
  {
    assert HasToken(At(s.c.m, Coro(t)));
    forall u | u in s.c.tasks && u != t ensures !At(s.c.m, Coro(u)).Crit? && !At(s.c.m, Coro(u)).Granted? {
      assert HasToken(At(s.c.m, Coro(u))) <==> s.g.h.holder == Some(Coro(u));
    }
    forall a ensures !At(s.c.m, a).Reg? {
      assert HasToken(At(s.c.m, a)) <==> s.g.h.holder == Some(a);
    }
  }

  /** A step of call t's own code: only t's program counter and the data change. */
  ghost predicate OwnStep(s: CState, s': CState, t: nat) {
    && t in s.c.tasks && s'.c.tasks.Keys == s.c.tasks.Keys
    && (forall u :: u in s.c.tasks && u != t ==> s'.c.tasks[u] == s.c.tasks[u])
    && s'.c.tasks[t].op == s.c.tasks[t].op
    && s'.c.m == s.c.m && s'.g.h == s.g.h && s'.c.closers == s.c.closers && s'.c.cap == s.c.cap
    && s'.g.drainedP == s.g.drainedP && s'.g.drainedC == s.g.drainedC && s'.g.woken == s.g.woken
  }

  lemma OwnTasks(s: CState, s': CState, t: nat)
    requires Tasks(s) && Helpers(s) && OwnStep(s, s', t) && Fits(t, s'.c.tasks[t], At(s.c.m, Coro(t)))
    ensures Tasks(s') && Helpers(s')
  {
    forall u ensures TaskFits(s'.c, u) { assert TaskFits(s.c, u); }
    forall n ensures HelperFits(s'.c, n, At(s'.c.m, Helper(n))) { assert HelperFits(s.c, n, At(s.c.m, Helper(n))); }
  }

  lemma OwnGuards(s: CState, s': CState, t: nat)
    requires Token(S(s)) && Tasks(s) && OwnStep(s, s', t) && At(s.c.m, Coro(t)).Crit?
    requires Relies(s', s'.c.tasks[t], At(s.c.m, Coro(t)))
    ensures Guards(s')
  {
    Alone(s, t);
    forall u | u in s'.c.tasks ensures Relies(s', s'.c.tasks[u], At(s'.c.m, Coro(u))) {
      assert TaskFits(s.c, u);
    }
  }

  lemma OwnEngaged(s: CState, s': CState, t: nat, cv: nat)
    requires OwnStep(s, s', t)
    ensures EngagedOn(s, cv) - {t} == EngagedOn(s', cv) - {t}
    ensures CvOf(s.c.tasks[t].op) != cv ==> EngagedOn(s, cv) == EngagedOn(s', cv)
    ensures Before(s'.c.tasks[t].pc) == Before(s.c.tasks[t].pc) ==> EngagedOn(s, cv) == EngagedOn(s', cv)
  {
    forall u ensures u != t ==> (u in EngagedOn(s, cv) <==> u in EngagedOn(s', cv)) {
    }
  }

  lemma LessOne(a: set<nat>, b: set<nat>, t: nat)
    requires a - {t} == b - {t}
    ensures |a| <= |b| + 1
  {
    assert a - {t} <= b;
    Cardinality(a - {t}, b);
    if t in a { assert |a| == |a - {t}| + 1; } else { assert a - {t} == a; }
  }

  /** A call that stores or takes leaves the calls in charge, and owes a notification. */
  lemma ExchangeWakeups(s: CState, s': CState, t: nat, cv: nat)
    requires OwnStep(s, s', t) && s.g.h.holder == Some(Coro(t)) && At(s.c.m, Coro(t)).Crit?
    requires Before(s.c.tasks[t].pc) && s'.c.tasks[t].pc.ToNotify? && NoLostWakeup(s, cv)
    requires cv == CONSUMERS || cv == PRODUCERS
    requires |s'.c.buf| - |s.c.buf| == if s.c.tasks[t].op.Send? then 1 else -1
    ensures NoLostWakeup(s', cv)
  {
    OwnEngaged(s, s', t, cv);
    LessOne(EngagedOn(s, cv), EngagedOn(s', cv), t);
  }

  lemma OwnRest(s: CState, s': CState, t: nat)
    requires Awake(s) && Progress(s) && OwnStep(s, s', t) && (Closed(s.c) ==> Closed(s'.c))
    ensures Awake(s') && Progress(s') && S(s') == S(s)
  {
    forall n, w | w in Woken(s'.g, n) ensures AwakeAt(s', n, w) { assert AwakeAt(s, n, w); }
  }

  /** Call t, which holds the mutex, has just stored or taken. */
  ghost predicate Exchanges(s: CState, s': CState, t: nat) {
    && OwnStep(s, s', t) && s'.c.closeState == s.c.closeState
    && At(s.c.m, Coro(t)).Crit? && Before(s.c.tasks[t].pc) && !s.c.tasks[t].pc.Sleeping? && s'.c.tasks[t].pc.ToNotify?
    && |s'.c.buf| - |s.c.buf| == if s.c.tasks[t].op.Send? then 1 else -1
  }

  lemma ExchangeInv(s: CState, s': CState, t: nat)
    requires CInv(s) && Exchanges(s, s', t) && Data(s')
    ensures CInv(s')
  {
    Alone(s, t);
    OwnTasks(s, s', t);
    OwnGuards(s, s', t);
    ExchangeWakeups(s, s', t, CONSUMERS);
    if !Closed(s.c) { ExchangeWakeups(s, s', t, PRODUCERS); }
    OwnRest(s, s', t);
    ExchangeStragglers(s, s', t);
  }

  lemma ExchangeStragglers(s: CState, s': CState, t: nat)
    requires Stragglers(s) && Exchanges(s, s', t) && s.g.h.holder == Some(Coro(t))
    ensures Stragglers(s')
  {
    assert NobodyRegisters(s') <==> NobodyRegisters(s);
  }

  lemma StoreEffect(s: CState, t: nat)
    requires Data(s) && TaskFits(s.c, t) && CEnabled(s.c, Store(t)) && Relies(s, s.c.tasks[t], At(s.c.m, Coro(t)))
    ensures var s' := CStep(s, Store(t)); Exchanges(s, s', t) && Data(s')
  {
    assert s.g.received + s.c.buf + [s.c.tasks[t].op.v] == s.g.received + (s.c.buf + [s.c.tasks[t].op.v]);
  }

  lemma StoreInv(s: CState, t: nat)
    requires CInv(s) && CEnabled(s.c, Store(t))
    ensures CInv(CStep(s, Store(t)))
  {
    assert TaskFits(s.c, t);
    StoreEffect(s, t);
    ExchangeInv(s, CStep(s, Store(t)), t);
  }

  lemma RemoveEffect(s: CState, t: nat)
    requires Data(s) && TaskFits(s.c, t) && CEnabled(s.c, Remove(t)) && Relies(s, s.c.tasks[t], At(s.c.m, Coro(t)))
    ensures var s' := CStep(s, Remove(t)); Exchanges(s, s', t) && Data(s')
  {
    assert s.g.received + s.c.buf == s.g.received + [s.c.buf[0]] + s.c.buf[1..];
  }

  lemma RemoveInv(s: CState, t: nat)
    requires CInv(s) && CEnabled(s.c, Remove(t))
    ensures CInv(CStep(s, Remove(t)))
  {
    assert TaskFits(s.c, t);
    RemoveEffect(s, t);
    ExchangeInv(s, CStep(s, Remove(t)), t);
  }

  /** A step of call t's own code that leaves the buffer alone. */
  ghost predicate Plain(s: CState, s': CState, t: nat) {
    && OwnStep(s, s', t) && s'.c.buf == s.c.buf && (Closed(s.c) <==> Closed(s'.c))
    && Fits(t, s'.c.tasks[t], At(s.c.m, Coro(t)))
    && !s.c.tasks[t].pc.ToNotify? && !s'.c.tasks[t].pc.ToNotify? && !At(s.c.m, Coro(t)).Notify?
    && (Before(s'.c.tasks[t].pc) == Before(s.c.tasks[t].pc)
        || (s.c.tasks[t].op.Send? && Closed(s.c)) || (s.c.tasks[t].op.Recv? && s.c.buf == []))
  }

  lemma PlainOwnStep(s: CState, s': CState, t: nat)
    requires CInv(s) && Plain(s, s', t) && Guards(s') && Data(s')
    ensures CInv(s')
  {
    OwnTasks(s, s', t);
    OwnEngaged(s, s', t, CONSUMERS);
    OwnEngaged(s, s', t, PRODUCERS);
    assert Pending(s', CONSUMERS) == Pending(s, CONSUMERS) && Pending(s', PRODUCERS) == Pending(s, PRODUCERS);
    OwnRest(s, s', t);
    assert NobodyRegisters(s') <==> NobodyRegisters(s);
  }

  lemma CheckEffect(s: CState, t: nat)
    requires Data(s) && TaskFits(s.c, t) && CEnabled(s.c, Check(t)) && Relies(s, s.c.tasks[t], At(s.c.m, Coro(t)))
    ensures var s' := CStep(s, Check(t));
            Plain(s, s', t) && Data(s') && At(s.c.m, Coro(t)).Crit? && Relies(s', s'.c.tasks[t], At(s.c.m, Coro(t)))
  {
  }

  lemma CheckInv(s: CState, t: nat)
    requires CInv(s) && CEnabled(s.c, Check(t))
    ensures CInv(CStep(s, Check(t)))
  {
    var s' := CStep(s, Check(t));
    assert TaskFits(s.c, t);
    CheckEffect(s, t);
    OwnGuards(s, s', t);
    PlainOwnStep(s, s', t);
  }

  lemma CompleteInv(s: CState, t: nat)
    requires CInv(s) && CEnabled(s.c, Complete(t))
    ensures CInv(CStep(s, Complete(t)))
  {
    var s' := CStep(s, Complete(t));
    assert TaskFits(s.c, t);
    CompleteEffect(s, t);
    OwnGuards(s, s', t);
    PlainOwnStep(s, s', t);
  }

  lemma CompleteEffect(s: CState, t: nat)
    requires Data(s) && TaskFits(s.c, t) && CEnabled(s.c, Complete(t)) && Relies(s, s.c.tasks[t], At(s.c.m, Coro(t)))
    ensures var s' := CStep(s, Complete(t));
            Plain(s, s', t) && Data(s') && At(s.c.m, Coro(t)).Crit? && Relies(s', s'.c.tasks[t], At(s.c.m, Coro(t)))
  {
  }

  lemma EarlyEffect(s: CState, t: nat)
    requires Data(s) && TaskFits(s.c, t) && CEnabled(s.c, EarlyTest(t))
    ensures var s' := CStep(s, EarlyTest(t)); Plain(s, s', t) && Data(s')
  {
  }

  lemma EarlyGuards(s: CState, t: nat)
    requires Guards(s) && CEnabled(s.c, EarlyTest(t))
    ensures Guards(CStep(s, EarlyTest(t)))
  {
    var s' := CStep(s, EarlyTest(t));
    forall u | u in s'.c.tasks ensures Relies(s', s'.c.tasks[u], At(s'.c.m, Coro(u))) {
      assert Relies(s, s.c.tasks[u], At(s.c.m, Coro(u)));
    }
    forall a ensures RegFits(s', At(s'.c.m, a)) { assert RegFits(s, At(s.c.m, a)); }
  }

  lemma EarlyInv(s: CState, t: nat)
    requires CInv(s) && CEnabled(s.c, EarlyTest(t))
    ensures CInv(CStep(s, EarlyTest(t)))
  {
    assert TaskFits(s.c, t);
    EarlyEffect(s, t);
    EarlyGuards(s, t);
    PlainOwnStep(s, CStep(s, EarlyTest(t)), t);
  }

  lemma CallInv(s: CState, t: nat, op: Op)
    requires CInv(s) && CEnabled(s.c, Call(t, op))
    ensures CInv(CStep(s, Call(t, op)))
  {
    var s' := CStep(s, Call(t, op));
    CallGuards(s, t, op);
    forall n, w | w in Woken(s'.g, n) ensures AwakeAt(s', n, w) { assert AwakeAt(s, n, w); }
    CallEngaged(s, t, op);
  }

  lemma CallGuards(s: CState, t: nat, op: Op)
    requires Tasks(s) && Helpers(s) && Guards(s) && CEnabled(s.c, Call(t, op))
    ensures var s' := CStep(s, Call(t, op)); Tasks(s') && Helpers(s') && Guards(s')
  {
    var s' := CStep(s, Call(t, op));
    forall u ensures TaskFits(s'.c, u) { assert TaskFits(s.c, u); }
    forall n ensures HelperFits(s'.c, n, At(s'.c.m, Helper(n))) { assert HelperFits(s.c, n, At(s.c.m, Helper(n))); }
    forall u | u in s'.c.tasks ensures Relies(s', s'.c.tasks[u], At(s'.c.m, Coro(u))) {
      if u != t { assert Relies(s, s.c.tasks[u], At(s.c.m, Coro(u))); }
    }
    forall a ensures RegFits(s', At(s'.c.m, a)) { assert RegFits(s, At(s.c.m, a)); }
  }

  lemma CallEngaged(s: CState, t: nat, op: Op)
    requires Token(S(s)) && Tasks(s) && CEnabled(s.c, Call(t, op))
    ensures var s' := CStep(s, Call(t, op));
            forall cv :: EngagedOn(s', cv) == EngagedOn(s, cv) && Pending(s', cv) == Pending(s, cv)
  {
    var s' := CStep(s, Call(t, op));
    assert TaskFits(s.c, t) && (HasToken(At(s.c.m, Coro(t))) <==> s.g.h.holder == Some(Coro(t)));
    forall cv, u ensures u in EngagedOn(s', cv) <==> u in EngagedOn(s, cv) {
    }
  }

  lemma CloseGuards(s: CState, n: nat)
    requires Tasks(s) && Helpers(s) && Guards(s) && CEnabled(s.c, CloseStore(n))
    ensures var s' := CStep(s, CloseStore(n)); Tasks(s') && Helpers(s') && Guards(s')
  {
    var s' := CStep(s, CloseStore(n));
    forall u ensures TaskFits(s'.c, u) { assert TaskFits(s.c, u); }
    forall i ensures HelperFits(s'.c, i, At(s'.c.m, Helper(i))) { assert HelperFits(s.c, i, At(s.c.m, Helper(i))); }
    forall u | u in s'.c.tasks ensures Relies(s', s'.c.tasks[u], At(s'.c.m, Coro(u))) {
      assert Relies(s, s.c.tasks[u], At(s.c.m, Coro(u)));
    }
    forall a ensures RegFits(s', At(s'.c.m, a)) { assert RegFits(s, At(s.c.m, a)); }
  }

  lemma CloseInv(s: CState, n: nat)
    requires CInv(s) && CEnabled(s.c, CloseStore(n))
    ensures CInv(CStep(s, CloseStore(n)))
  {
    var s' := CStep(s, CloseStore(n));
    CloseGuards(s, n);
    CloseWakeups(s, n);
    forall i, w | w in Woken(s'.g, i) ensures AwakeAt(s', i, w) { assert AwakeAt(s, i, w); }
  }

  lemma CloseWakeups(s: CState, n: nat)
    requires Wakeups(s) && Stragglers(s) && CEnabled(s.c, CloseStore(n))
    ensures var s' := CStep(s, CloseStore(n)); Wakeups(s') && Stragglers(s')
  {
    var s' := CStep(s, CloseStore(n));
    assert EngagedOn(s', CONSUMERS) == EngagedOn(s, CONSUMERS);
    assert Pending(s', CONSUMERS) == Pending(s, CONSUMERS) && Pending(s', PRODUCERS) == Pending(s, PRODUCERS);
    assert NobodyRegisters(s') <==> NobodyRegisters(s);
  }

  lemma SyncCInv(s: CState, l: Label)
    requires CInv(s) && CEnabled(s.c, SyncStep(l))
    ensures CInv(CStep(s, SyncStep(l)))
  {
    var s' := CStep(s, SyncStep(l));
    StepInv(S(s), l);
    assert S(s') == Step(S(s), l);
    SyncTasks(s, l);
    SyncHelpers(s, l);
    SyncData(s, l);
    SyncGuards(s, l);
    SyncNoLostWakeup(s, l, CONSUMERS);
    if !Closed(s.c) { SyncNoLostWakeup(s, l, PRODUCERS); }
    AdvanceFrame(s.c, l);
    SyncStragglers(s, l);
    SyncAwake(s, l);
    SyncProgress(s, l);
  }

  /** Every step of any call, close or hand-off preserves the invariant. */
  lemma CStepInv(s: CState, l: CLabel)
    requires CInv(s) && CEnabled(s.c, l)
    ensures CInv(CStep(s, l))
  {
    match l
    case Call(t, op) => CallInv(s, t, op);
    case EarlyTest(t) => EarlyInv(s, t);
    case SyncStep(l) => SyncCInv(s, l);
    case Check(t) => CheckInv(s, t);
    case Store(t) => StoreInv(s, t);
    case Remove(t) => RemoveInv(s, t);
    case Complete(t) => CompleteInv(s, t);
    case CloseStore(n) => CloseInv(s, n);
  }
}
