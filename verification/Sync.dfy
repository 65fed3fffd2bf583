/**
 The synchronisation stack as a machine of interleaved atomic steps: the hand-off mutex,
 any number of condition variables layered on it, and any number of tasks.

 Memory is modelled at the level of the program's own pointers: the mutex word, the owner's
 private list head `m_resume_list_head`, the single link `m_next` of every awaiter, and the
 head and tail pointers of every condition variable. Awaiter predicates are arbitrary: the
 outcome of each evaluation is part of the step's label.
 */
module Sync {

  datatype Opt<+T> = None | Some(v: T)

  /** An awaiter object: the one of `co_await lock()`, or the one of `co_await cv.wait(...)`. */
  datatype Aw = LockAw(task: nat) | CvAw(task: nat, cv: nat)

  /** The mutex word: `nolocked`, or the head of the stack of waiters (null is `locked_no_waiting`). */
  datatype Word = NoLocked | Locked(top: Opt<Aw>)

  /** A thread of control: a task's own coroutine, or any other caller (a notifier, or the
      remainder of an `await_suspend` whose coroutine is already published as a waiter). */
  datatype Agent = Coro(t: nat) | Helper(n: nat)

  /** Where a notification returns to. */
  datatype Base = ToIdle | ToCrit

  /** The pending remainder of a call: nothing but the caller's own wait, one notification, or a
      `notify_all` loop whose next node has already been read. */
  datatype Cont = Own | One(b: Base) | Loop(nxt: Opt<Aw>, b: Base)

  /** What a thread of control is about to do, with its local variables. */
  datatype Act =
    | Idle
    | Crit                                  // holds the mutex and runs user code
    | Blocked(w: Aw)                        // suspended, published as awaiter w
    | Granted(w: Aw)                        // submitted to its context, `await_resume` not yet run
    | Load(w: Aw, k: Cont)                  // register_lock: load the word
    | Cas(w: Aw, seen: Word, k: Cont)       // register_lock: compare and exchange
    | Reg(w: Aw, k: Cont)                   // predicate was false: register on the cv
    | Notify(cv: nat, b: Base)              // notify_one: critical section
    | Detach(cv: nat, b: Base)              // notify_all: critical section
    | Walk(cur: Opt<Aw>, b: Base)           // notify_all: loop test
    | UEntry(k: Cont)                       // unlock: assert, read the resume list head
    | UCas(k: Cont)                         // unlock: try to free
    | UXchg(k: Cont)                        // unlock: take the stack
    | URev(node: Aw, to: Opt<Aw>, k: Cont)   // unlock: one iteration of the reversal loop
    | UPop(first: Aw, k: Cont)              // unlock: m_resume_list_head = to_resume->m_next
    | Res(w: Aw, k: Cont)                   // to_resume->resume()

  /** The program's memory. An absent key of `next`, `head` or `tail` is a null pointer. */
  datatype Mem = Mem(
    word: Word,
    resume: Opt<Aw>,
    next: map<Aw, Opt<Aw>>,
    head: map<nat, Opt<Aw>>,
    tail: map<nat, Opt<Aw>>,
    act: map<Agent, Act>)

  datatype Label =
    | Lock(t: nat)
    | TryLock(t: nat)
    | LoadWord(a: Agent)
    | CasOk(a: Agent)
    | CasFail(a: Agent)
    | Enter(t: nat)
    | Wait(t: nat, cv: nat, holds: bool)
    | Register(a: Agent, tail: nat)
    | StartNotify(a: Agent, cv: nat, all: bool)
    | PopOne(a: Agent)
    | DetachAll(a: Agent)
    | WalkNext(a: Agent)
    | Unlock(t: nat)
    | ReadResume(a: Agent)
    | TryFree(a: Agent)
    | Exchange(a: Agent)
    | Flip(a: Agent)
    | Pop(a: Agent)
    | Resume(a: Agent, holds: bool)

  function At(m: Mem, a: Agent): Act {
    if a in m.act then m.act[a] else Idle
  }

  function Ptr<K(==)>(p: map<K, Opt<Aw>>, x: K): Opt<Aw> {
    if x in p then p[x] else None
  }

  function TopOf(w: Word): Opt<Aw> {
    if w.NoLocked? then None else w.top
  }

  function BaseAct(b: Base): Act {
    if b.ToIdle? then Idle else Crit
  }

  /** Where a thread of control continues once the call it made is over. */
  function Return(k: Cont): Act {
    match k
    case Own => Idle
    case One(b) => BaseAct(b)
    case Loop(nxt, b) => Walk(nxt, b)
  }

  predicate Enabled(m: Mem, l: Label) {
    match l
    case Lock(t) => At(m, Coro(t)).Idle?
    case TryLock(t) => At(m, Coro(t)).Idle?
    case LoadWord(a) => At(m, a).Load?
    case CasOk(a) => At(m, a).Cas? && m.word == At(m, a).seen
    case CasFail(a) => At(m, a).Cas?                     // a weak exchange may fail spuriously
    case Enter(t) => At(m, Coro(t)).Granted?
    case Wait(t, _, _) => At(m, Coro(t)).Crit?
    case Register(a, n) => At(m, a).Reg? && At(m, a).w.CvAw? && At(m, Helper(n)).Idle?
    case StartNotify(a, _, _) => At(m, a).Idle? || At(m, a).Crit?
    case PopOne(a) => At(m, a).Notify?
    case DetachAll(a) => At(m, a).Detach?
    case WalkNext(a) => At(m, a).Walk?
    case Unlock(t) => At(m, Coro(t)).Crit?
    case ReadResume(a) => At(m, a).UEntry?
    case TryFree(a) => At(m, a).UCas?
    case Exchange(a) => At(m, a).UXchg?
    case Flip(a) => At(m, a).URev?
    case Pop(a) => At(m, a).UPop?
    case Resume(a, _) => At(m, a).Res?
  }

  function Set(m: Mem, a: Agent, x: Act): Mem {
    m.(act := m.act[a := x])
  }

  /** `register_cv`: append at the tail of the awaiter's condition variable. */
  function Enqueue(m: Mem, w: Aw): Mem
    requires w.CvAw?
  {
    var cleared := m.next[w := None];
    match Ptr(m.tail, w.cv)
    case None => m.(next := cleared, head := m.head[w.cv := Some(w)], tail := m.tail[w.cv := Some(w)])
    case Some(last) => m.(next := cleared[last := Some(w)], tail := m.tail[w.cv := Some(w)])
  }

  /** The effect of one atomic step on the program's memory. */
  function Do(m: Mem, l: Label): Mem
    requires Enabled(m, l)
  {
    match l
    case Lock(t) => Set(m, Coro(t), Load(LockAw(t), Own))
    case TryLock(t) =>
      if m.word.NoLocked? then Set(m, Coro(t), Crit).(word := Locked(None)) else m
    case LoadWord(a) =>
      var x := At(m, a);
      Set(m, a, Cas(x.w, m.word, x.k)).(next := m.next[x.w := TopOf(m.word)])
    case CasOk(a) =>
      var x := At(m, a);
      if x.seen.NoLocked? then
        Set(m, a, if x.k.Own? then Granted(x.w) else Res(x.w, x.k)).(word := Locked(None))
      else
        Set(m, a, if x.k.Own? then Blocked(x.w) else Return(x.k)).(word := Locked(Some(x.w)))
    case CasFail(a) =>
      var x := At(m, a);
      Set(m, a, Load(x.w, x.k))
    case Enter(t) => Set(m, Coro(t), Crit)
    case Wait(t, cv, holds) =>
      if holds then m else Set(m, Coro(t), Reg(CvAw(t, cv), Own))
    case Register(a, n) =>
      var x := At(m, a);
      var m' := Enqueue(m, x.w);
      if x.k.Own? then Set(Set(m', a, Blocked(x.w)), Helper(n), UEntry(One(ToIdle)))
      else Set(m', a, UEntry(x.k))
    case StartNotify(a, cv, all) =>
      var b := if At(m, a).Crit? then ToCrit else ToIdle;
      Set(m, a, if all then Detach(cv, b) else Notify(cv, b))
    case PopOne(a) =>
      var x := At(m, a);
      (match Ptr(m.head, x.cv)
       case None => Set(m, a, BaseAct(x.b))
       case Some(w) =>
         var rest := Ptr(m.next, w);
         Set(m, a, Load(w, One(x.b))).(head := m.head[x.cv := rest],
                                       tail := if rest.None? then m.tail[x.cv := None] else m.tail))
    case DetachAll(a) =>
      var x := At(m, a);
      Set(m, a, Walk(Ptr(m.head, x.cv), x.b)).(head := m.head[x.cv := None], tail := m.tail[x.cv := None])
    case WalkNext(a) =>
      var x := At(m, a);
      (match x.cur
       case None => Set(m, a, BaseAct(x.b))
       case Some(w) => Set(m, a, Load(w, Loop(Ptr(m.next, w), x.b))))
    case Unlock(t) => Set(m, Coro(t), UEntry(One(ToIdle)))
    case ReadResume(a) =>
      var k := At(m, a).k;
      Set(m, a, if m.resume.None? then UCas(k) else UPop(m.resume.v, k))
    case TryFree(a) =>
      var k := At(m, a).k;
      if m.word == Locked(None) then Set(m, a, Return(k)).(word := NoLocked) else Set(m, a, UXchg(k))
    case Exchange(a) =>
      var k := At(m, a).k;
      (match TopOf(m.word)
       case None => m                       // excluded by the assertion of src/comp/mutex.cpp:78
       case Some(top) => Set(m, a, URev(top, None, k)).(word := Locked(None)))
    case Flip(a) =>
      var x := At(m, a);
      var temp := Ptr(m.next, x.node);
      Set(m, a, if temp.None? then UPop(x.node, x.k) else URev(temp.v, Some(x.node), x.k))
      .(next := m.next[x.node := x.to])
    case Pop(a) =>
      var x := At(m, a);
      Set(m, a, Res(x.first, x.k)).(resume := Ptr(m.next, x.first))
    case Resume(a, holds) =>
      var x := At(m, a);
      if x.w.LockAw? || holds then Set(Set(m, a, Return(x.k)), Coro(x.w.task), Granted(x.w))
      else Set(m, a, Reg(x.w, x.k))
  }

  function Init(): Mem {
    Mem(NoLocked, None, map[], map[], map[], map[])
  }
}
