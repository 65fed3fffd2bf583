/**
 The wait counters of the contexts, over every run of the synchronisation stack. `register_wait`
 of a condition-variable awaiter is a step of its own between the predicate's evaluation and the
 insertion in the queue.
 */
module WaitCount {
  import opened Sync
  import opened SyncInv
  import opened Counting

  /** Besides the synchronisation state: which awaiters have `m_suspend_state` set, and the counter
      `m_num_wait_task` of every context. */
  datatype WState = WState(s: State, susp: set<Aw>, count: map<nat, int>)

  datatype WLabel = Plain(l: Label) | Announce(a: Agent)

  function Cnt(w: WState, c: nat): int {
    Get(w.count, c)
  }

  function Add(w: WState, c: nat, n: int): WState {
    w.(count := Bump(w.count, c, n))
  }

  predicate WEnabled(w: WState, l: WLabel) {
    match l
    case Plain(p) => Enabled(w.s.m, p) && (p.Register? ==> At(w.s.m, p.a).w in w.susp)
    case Announce(a) => At(w.s.m, a).Reg?
  }

  /** What `await_resume` subtracts. */
  function Weight(w: WState, x: Aw): int {
    if x.LockAw? || x in w.susp then 1 else 0
  }

  /** Tasks stay on the context ctx(t). */
  function WStep(ctx: nat -> nat, w: WState, l: WLabel): WState
    requires WEnabled(w, l)
  {
    match l
    case Announce(a) =>
      var x := At(w.s.m, a).w;
      Add(w, ctx(x.task), if x in w.susp then 0 else 1).(susp := w.susp + {x})
    case Plain(p) =>
      var n := w.(s := Step(w.s, p));
      match p
      case Lock(t) => Add(n, ctx(t), 1)
      case Enter(t) => Add(n, ctx(t), -Weight(w, At(w.s.m, Coro(t)).w))
      case Wait(t, cv, _) => n.(susp := w.susp - {CvAw(t, cv)})    // a new awaiter object
      case _ => n
  }

  function WStart(): WState {
    WState(Start(), {}, map[])
  }

  /** The task is between `register_wait` and `unregister_wait`. */
  predicate InWait(w: WState, a: Agent) {
    a.Coro? && Waits(w.susp, At(w.s.m, a))
  }

  predicate Waits(susp: set<Aw>, x: Act) {
    match x
    case Load(_, k) => k.Own?
    case Cas(_, _, k) => k.Own?
    case Reg(v, k) => k.Own? && v in susp
    case Blocked(_) => true
    case Granted(_) => true
    case _ => false
  }

  ghost function Waiters(ctx: nat -> nat, w: WState, c: nat): set<Agent> {
    set a | a in w.s.m.act && InWait(w, a) && ctx(a.t) == c
  }

  /** A suspended condition-variable awaiter has been counted. */
  predicate MarkedAt(w: WState, a: Agent) {
    MarkedAct(w.susp, At(w.s.m, a))
  }

  predicate MarkedAct(susp: set<Aw>, x: Act) {
    (x.Blocked? || x.Granted?) && x.w.CvAw? ==> x.w in susp
  }

  ghost predicate Marked(w: WState) {
    forall a :: MarkedAt(w, a)
  }

  ghost predicate Counted(ctx: nat -> nat, w: WState) {
    forall c :: Cnt(w, c) == |Waiters(ctx, w, c)|
  }

  ghost predicate WInv(ctx: nat -> nat, w: WState) {
    Inv(w.s) && Marked(w) && Counted(ctx, w)
  }

  // ---- one task at a time starts or stops waiting ----

  ghost predicate WaitsBut(w: WState, w': WState, a: Agent) {
    forall b :: b != a ==> (InWait(w', b) <==> InWait(w, b))
  }

  lemma CountsStep(ctx: nat -> nat, w: WState, w': WState, a: Agent)
    requires Counted(ctx, w) && a.Coro? && WaitsBut(w, w', a)
    requires forall c :: Cnt(w', c) == Cnt(w, c) + if c == ctx(a.t) then Bit(InWait(w', a)) - Bit(InWait(w, a)) else 0
    ensures Counted(ctx, w')
  {
    forall c ensures Cnt(w', c) == |Waiters(ctx, w', c)| {
      var x, y := Waiters(ctx, w, c), Waiters(ctx, w', c);
      assert Cnt(w, c) == |x|;
      InWaitListed(w);
      InWaitListed(w');
      assert x - {a} == y - {a};
      OneMoves(x, y, a);
      assert a in x <==> InWait(w, a) && ctx(a.t) == c;
      assert a in y <==> InWait(w', a) && ctx(a.t) == c;
    }
  }

  lemma InWaitListed(w: WState)
    ensures forall a :: InWait(w, a) ==> a in w.s.m.act
  {
  }

  lemma NobodyStarts(ctx: nat -> nat, w: WState, w': WState)
    requires Counted(ctx, w) && w'.count == w.count && forall b :: InWait(w', b) <==> InWait(w, b)
    ensures Counted(ctx, w')
  {
    CountsStep(ctx, w, w', Coro(0));
  }

  // ---- every step ----

  lemma AnnounceInv(ctx: nat -> nat, w: WState, a: Agent)
    requires WInv(ctx, w) && WEnabled(w, Announce(a))
    ensures WInv(ctx, WStep(ctx, w, Announce(a)))
  {
    var w' := WStep(ctx, w, Announce(a));
    var x, k := At(w.s.m, a).w, At(w.s.m, a).k;
    assert WellFormed(a, At(w.s.m, a));
    forall b ensures MarkedAt(w', b) { assert MarkedAt(w, b); }
    if k.Own? {
      CountsStep(ctx, w, w', a);
    } else {
      assert HandOf(At(w.s.m, a)) == Some(x);
      assert At(w.s.m, Coro(x.task)) == Blocked(x) && MarkedAt(w, Coro(x.task));
      assert w'.susp == w.susp;
      CountsStep(ctx, w, w', Coro(x.task));
    }
  }

  lemma ResumeCounts(ctx: nat -> nat, w: WState, a: Agent, holds: bool)
    requires WInv(ctx, w) && Enabled(w.s.m, Resume(a, holds))
    ensures WInv(ctx, WStep(ctx, w, Plain(Resume(a, holds))))
  {
    var w' := WStep(ctx, w, Plain(Resume(a, holds)));
    StepInv(w.s, Resume(a, holds));
    var x := At(w.s.m, a).w;
    assert HandOf(At(w.s.m, a)) == Some(x);
    assert Is(w.s.h.loc, x, InHand(a));
    assert MarkedAt(w, Coro(x.task));
    forall b ensures (InWait(w', b) <==> InWait(w, b)) && MarkedAt(w', b) {
      assert MarkedAt(w, b);
      ResumeOne(w.s.m, w.susp, a, holds, b);
    }
    NobodyStarts(ctx, w, w');
  }

  lemma ResumeOne(m: Mem, susp: set<Aw>, a: Agent, holds: bool, b: Agent)
    requires Enabled(m, Resume(a, holds)) && WellFormed(a, At(m, a)) && MarkedAct(susp, At(m, b))
    requires var x := At(m, a).w; At(m, Coro(x.task)) == Blocked(x) && MarkedAct(susp, Blocked(x))
    ensures var y := At(Do(m, Resume(a, holds)), b);
            (Waits(susp, y) <==> Waits(susp, At(m, b))) && MarkedAct(susp, y)
  {
  }

  lemma UserCounts(ctx: nat -> nat, w: WState, p: Label)
    requires WInv(ctx, w) && Enabled(w.s.m, p) && (p.Lock? || p.Enter? || p.Wait?)
    ensures WInv(ctx, WStep(ctx, w, Plain(p)))
  {
    var w' := WStep(ctx, w, Plain(p));
    StepInv(w.s, p);
    assert WellFormed(Coro(p.t), At(w.s.m, Coro(p.t)));
    assert MarkedAt(w, Coro(p.t));
    if p.Wait? {
      WaitResets(w, w', p);
    } else {
      forall b ensures MarkedAt(w', b) { assert MarkedAt(w, b); }
    }
    CountsStep(ctx, w, w', Coro(p.t));
  }

  /** A new awaiter of a running task: no other task refers to it. */
  lemma WaitResets(w: WState, w': WState, p: Label)
    requires Inv(w.s) && Marked(w) && Enabled(w.s.m, p) && p.Wait?
    requires w'.s == Step(w.s, p) && w'.susp == w.susp - {CvAw(p.t, p.cv)}
    ensures Marked(w') && WaitsBut(w, w', Coro(p.t))
  {
    assert At(w.s.m, Coro(p.t)).Crit?;
    forall a ensures MarkedAt(w', a) && (a != Coro(p.t) ==> (InWait(w', a) <==> InWait(w, a))) {
      assert MarkedAt(w, a) && WellFormed(a, At(w.s.m, a));
    }
  }

  lemma OtherCounts(ctx: nat -> nat, w: WState, p: Label)
    requires WInv(ctx, w) && WEnabled(w, Plain(p)) && !(p.Lock? || p.Enter? || p.Wait? || p.Resume?)
    ensures WInv(ctx, WStep(ctx, w, Plain(p)))
  {
    var w' := WStep(ctx, w, Plain(p));
    StepInv(w.s, p);
    forall a ensures (InWait(w', a) <==> InWait(w, a)) && MarkedAt(w', a) {
      assert MarkedAt(w, a) && WellFormed(a, At(w.s.m, a));
      OtherOne(w.s.m, w.susp, p, a);
    }
    NobodyStarts(ctx, w, w');
  }

  lemma OtherOne(m: Mem, susp: set<Aw>, p: Label, a: Agent)
    requires Enabled(m, p) && WellFormed(a, At(m, a)) && MarkedAct(susp, At(m, a))
    requires !(p.Lock? || p.Enter? || p.Wait? || p.Resume?) && (p.Register? ==> At(m, p.a).w in susp)
    ensures var y := At(Do(m, p), a);
            (a.Coro? ==> (Waits(susp, y) <==> Waits(susp, At(m, a)))) && MarkedAct(susp, y)
  {
    if p.CasOk? { CasOne(m, susp, p, a); }
    else if p.Register? { RegisterOne(m, susp, p, a); }
    else if p.ReadResume? || p.TryFree? || p.Exchange? || p.Flip? || p.Pop? { UnlockOne(m, susp, p, a); }
    else { NotifyOne(m, susp, p, a); }
  }

  lemma UnlockOne(m: Mem, susp: set<Aw>, p: Label, a: Agent)
    requires Enabled(m, p) && (p.ReadResume? || p.TryFree? || p.Exchange? || p.Flip? || p.Pop?)
    requires WellFormed(a, At(m, a)) && MarkedAct(susp, At(m, a))
    ensures var y := At(Do(m, p), a);
            (Waits(susp, y) <==> Waits(susp, At(m, a))) && MarkedAct(susp, y)
  {
  }

  lemma NotifyOne(m: Mem, susp: set<Aw>, p: Label, a: Agent)
    requires Enabled(m, p) && WellFormed(a, At(m, a)) && MarkedAct(susp, At(m, a))
    requires p.TryLock? || p.LoadWord? || p.CasFail? || p.StartNotify? || p.PopOne? || p.DetachAll? ||
        p.WalkNext? || p.Unlock?
    ensures var y := At(Do(m, p), a);
            (Waits(susp, y) <==> Waits(susp, At(m, a))) && MarkedAct(susp, y)
  {
  }

  lemma CasOne(m: Mem, susp: set<Aw>, p: Label, a: Agent)
    requires Enabled(m, p) && p.CasOk? && WellFormed(a, At(m, a)) && MarkedAct(susp, At(m, a))
    ensures var y := At(Do(m, p), a);
            (Waits(susp, y) <==> Waits(susp, At(m, a))) && MarkedAct(susp, y)
  {
  }

  lemma RegisterOne(m: Mem, susp: set<Aw>, p: Label, a: Agent)
    requires Enabled(m, p) && p.Register? && At(m, p.a).w in susp && WellFormed(a, At(m, a))
    requires MarkedAct(susp, At(m, a))
    ensures var y := At(Do(m, p), a);
            (a.Coro? ==> (Waits(susp, y) <==> Waits(susp, At(m, a)))) && MarkedAct(susp, y)
  {
  }

  lemma WStepInv(ctx: nat -> nat, w: WState, l: WLabel)
    requires WInv(ctx, w) && WEnabled(w, l)
    ensures WInv(ctx, WStep(ctx, w, l))
  {
    match l
    case Announce(a) => AnnounceInv(ctx, w, a);
    case Plain(p) =>
      if p.Lock? || p.Enter? || p.Wait? { UserCounts(ctx, w, p); }
      else if p.Resume? { ResumeCounts(ctx, w, p.a, p.holds); }
      else { OtherCounts(ctx, w, p); }
  }

  // ---- whole runs ----

  ghost predicate WCan(ctx: nat -> nat, w: WState, ls: seq<WLabel>)
    decreases |ls|
  {
    ls == [] || (WEnabled(w, ls[0]) && WCan(ctx, WStep(ctx, w, ls[0]), ls[1..]))
  }

  ghost function WRun(ctx: nat -> nat, w: WState, ls: seq<WLabel>): WState
    requires WCan(ctx, w, ls)
    decreases |ls|
  {
    if ls == [] then w else WRun(ctx, WStep(ctx, w, ls[0]), ls[1..])
  }

  lemma {:induction false} WRunInv(ctx: nat -> nat, w: WState, ls: seq<WLabel>)
    requires WInv(ctx, w) && WCan(ctx, w, ls)
    ensures WInv(ctx, WRun(ctx, w, ls))
    decreases |ls|
  {
    if ls != [] {
      WStepInv(ctx, w, ls[0]);
      WRunInv(ctx, WStep(ctx, w, ls[0]), ls[1..]);
    }
  }

  /** In every run each counter is the number of the context's tasks between register and
      unregister, however often a condition-variable waiter went back to sleep. */
  lemma CountsAreExact(ctx: nat -> nat, ls: seq<WLabel>, c: nat)
    requires WCan(ctx, WStart(), ls)
    ensures var w := WRun(ctx, WStart(), ls);
            WInv(ctx, w) && Cnt(w, c) == |Waiters(ctx, w, c)|
  {
    StartInv();
    forall d ensures Cnt(WStart(), d) == |Waiters(ctx, WStart(), d)| {
      assert Waiters(ctx, WStart(), d) == {};
    }
    WRunInv(ctx, WStart(), ls);
  }

  lemma StartCounts(ctx: nat -> nat)
    ensures WInv(ctx, WStart())
  {
    CountsAreExact(ctx, [], 0);
  }

  /** What `await_resume` subtracts is one, and the task is among the waiters. */
  lemma EnterCounts(ctx: nat -> nat, w: WState, t: nat)
    requires WInv(ctx, w) && Enabled(w.s.m, Enter(t))
    ensures Cnt(w, ctx(t)) >= Weight(w, At(w.s.m, Coro(t)).w) == 1
  {
    assert MarkedAt(w, Coro(t)) && Coro(t) in Waiters(ctx, w, ctx(t));
    SubsetSize({Coro(t)}, Waiters(ctx, w, ctx(t)));
    assert Cnt(w, ctx(t)) == |Waiters(ctx, w, ctx(t))|;
  }

  /** The counter does not underflow: what `await_resume` subtracts is there, and it is one. */
  lemma NeverUnderflows(ctx: nat -> nat, ls: seq<WLabel>, t: nat)
    requires WCan(ctx, WStart(), ls)
    requires Enabled(WRun(ctx, WStart(), ls).s.m, Enter(t))
    ensures var w := WRun(ctx, WStart(), ls);
            Cnt(w, ctx(t)) >= Weight(w, At(w.s.m, Coro(t)).w) == 1
  {
    CountsAreExact(ctx, ls, ctx(t));
    EnterCounts(ctx, WRun(ctx, WStart(), ls), t);
  }

  /** Task t is not suspended, not granted the mutex and not about to be. */
  ghost predicate NotWaiting(m: Mem, t: nat) {
    && !At(m, Coro(t)).Blocked? && !At(m, Coro(t)).Granted?
    && forall a :: At(m, a).Res? ==> At(m, a).w.task != t
  }

  lemma NobodyCounted(ctx: nat -> nat, w: WState, t: nat)
    requires WInv(ctx, w) && Cnt(w, ctx(t)) == 0
    ensures NotWaiting(w.s.m, t)
  {
    assert Cnt(w, ctx(t)) == |Waiters(ctx, w, ctx(t))|;
    assert Coro(t) !in Waiters(ctx, w, ctx(t));
    forall a | At(w.s.m, a).Res? ensures At(w.s.m, a).w.task != t {
      assert HandOf(At(w.s.m, a)) == Some(At(w.s.m, a).w);
    }
  }
}
