/**
 The bounded channel on top of the synchronisation stack: any number of `send`, `recv` and
 `close` calls, issued at any time, interleaved at the granularity of single atomic operations.

 The buffer is the bounded FIFO that the three representations refine (see module Buffers); the
 single-slot channel is the case of capacity one. Each call is one task with one lock awaiter and
 one condition-variable awaiter, as in `include/coro/comp/channel.hpp`.
 */
module Channel {
  import opened Sync

  const PRODUCERS: nat := 0
  const CONSUMERS: nat := 1

  const COMPLETE_CLOSE: nat := 0
  const PART_CLOSE: nat := 1
  const NO_CLOSE: nat := 2

  datatype Op = Send(v: int) | Recv

  /** What a call returns: send's flag, recv's value, or recv's nullopt. */
  datatype Result = Sent(ok: bool) | Got(v: int) | Nothing

  /** What a call is about to do. */
  datatype Pc =
    | Early               // test the close state without the mutex
    | ToLock              // co_await m_mtx.lock_guard()
    | Locking
    | ToWait              // co_await cv.wait(m_mtx, predicate): first evaluation
    | Sleeping
    | Body                // test the close state with the mutex held
    | Put                 // store the value
    | TakeOut             // move the oldest value out
    | Mark                // m_close_state = complete_close
    | ToNotify(r: Result) // notify_one on the other side's condition variable
    | Notifying(r: Result)
    | Leaving(r: Result)  // return without notifying
    | Finished(r: Result) // result fixed; the guard's unlock may still be running

  datatype Task = Task(op: Op, pc: Pc)

  /** How far a close call is: the store is done, then one notify_all after the other. */
  datatype ClosePc = AfterStore | InProducers | InConsumers

  datatype Chan = Chan(
    m: Mem,
    cap: nat,
    buf: seq<int>,
    closeState: nat,
    tasks: map<nat, Task>,
    closers: map<nat, ClosePc>)

  datatype CLabel =
    | Call(t: nat, op: Op)
    | EarlyTest(t: nat)
    | SyncStep(l: Label)
    | Check(t: nat)
    | Store(t: nat)
    | Remove(t: nat)
    | Complete(t: nat)
    | CloseStore(n: nat)

  predicate Closed(c: Chan) {
    c.closeState <= PART_CLOSE
  }

  /** The condition variable an operation sleeps on, and the one it notifies. */
  function CvOf(op: Op): nat {
    if op.Send? then PRODUCERS else CONSUMERS
  }

  function OtherCv(op: Op): nat {
    if op.Send? then CONSUMERS else PRODUCERS
  }

  /** There is room for a value, or there is a value. */
  predicate Ready(c: Chan, op: Op) {
    if op.Send? then |c.buf| != c.cap else |c.buf| != 0
  }

  /** The predicate given to `wait`. */
  predicate Pred(c: Chan, op: Op) {
    Ready(c, op) || Closed(c)
  }

  predicate PcIs(c: Chan, t: nat, pc: Pc) {
    t in c.tasks && c.tasks[t].pc == pc
  }

  /** The channel's own code decides when its tasks and close calls use the mutex and the
      condition variables, and its predicates decide every evaluation. */
  predicate Allowed(c: Chan, l: Label)
    requires Enabled(c.m, l)
  {
    match l
    case Lock(t) => PcIs(c, t, ToLock)
    case TryLock(_) => false
    case Enter(t) => t in c.tasks
    case Wait(t, cv, holds) => PcIs(c, t, ToWait) && cv == CvOf(c.tasks[t].op) && holds == Pred(c, c.tasks[t].op)
    case Register(_, n) => n !in c.closers
    case StartNotify(Coro(t), cv, all) =>
      t in c.tasks && c.tasks[t].pc.ToNotify? && cv == OtherCv(c.tasks[t].op) && !all
    case StartNotify(Helper(n), cv, all) =>
      n in c.closers && all && At(c.m, Helper(n)).Idle? &&
      ((c.closers[n].AfterStore? && cv == PRODUCERS) || (c.closers[n].InProducers? && cv == CONSUMERS))
    case Unlock(t) => t in c.tasks && (c.tasks[t].pc.Notifying? || c.tasks[t].pc.Leaving?)
    case Resume(a, holds) =>
      var w := At(c.m, a).w;
      w.CvAw? ==> w.task in c.tasks && holds == Pred(c, c.tasks[w.task].op)
    case _ => true
  }

  predicate CEnabled(c: Chan, l: CLabel) {
    match l
    case Call(t, _) => t !in c.tasks
    case EarlyTest(t) => PcIs(c, t, Early)
    case SyncStep(l) => Enabled(c.m, l) && Allowed(c, l)
    case Check(t) => PcIs(c, t, Body)
    case Store(t) => PcIs(c, t, Put)
    case Remove(t) => PcIs(c, t, TakeOut) && c.buf != []
    case Complete(t) => PcIs(c, t, Mark)
    case CloseStore(n) => n !in c.closers && At(c.m, Helper(n)).Idle?
  }

  function SetPc(c: Chan, t: nat, pc: Pc): Chan
    requires t in c.tasks
  {
    c.(tasks := c.tasks[t := c.tasks[t].(pc := pc)])
  }

  /** The effect of a step of the synchronisation stack on the call that performs it. */
  function Advance(c: Chan, l: Label): Chan
    requires Enabled(c.m, l) && Allowed(c, l)
  {
    match l
    case Lock(t) => SetPc(c, t, Locking)
    case Enter(t) => SetPc(c, t, if c.tasks[t].pc.Locking? then ToWait else Body)
    case Wait(t, _, holds) => SetPc(c, t, if holds then Body else Sleeping)
    case StartNotify(Coro(t), _, _) => SetPc(c, t, Notifying(c.tasks[t].pc.r))
    case StartNotify(Helper(n), cv, _) =>
      c.(closers := c.closers[n := if cv == PRODUCERS then InProducers else InConsumers])
    case Unlock(t) => SetPc(c, t, Finished(c.tasks[t].pc.r))
    case _ => c
  }

  function CDo(c: Chan, l: CLabel): Chan
    requires CEnabled(c, l)
  {
    match l
    case Call(t, op) => c.(tasks := c.tasks[t := Task(op, Early)])
    case EarlyTest(t) =>
      if c.tasks[t].op.Send? then SetPc(c, t, if Closed(c) then Finished(Sent(false)) else ToLock)
      else SetPc(c, t, if c.closeState <= COMPLETE_CLOSE then Finished(Nothing) else ToLock)
    case SyncStep(l) => Advance(c, l).(m := Do(c.m, l))
    case Check(t) =>
      if c.tasks[t].op.Send? then SetPc(c, t, if Closed(c) then Leaving(Sent(false)) else Put)
      else SetPc(c, t, if c.buf == [] && Closed(c) then Mark else TakeOut)
    case Store(t) =>
      var v := if c.tasks[t].op.Send? then c.tasks[t].op.v else 0;
      SetPc(c, t, ToNotify(Sent(true))).(buf := c.buf + [v])
    case Remove(t) => SetPc(c, t, ToNotify(Got(c.buf[0]))).(buf := c.buf[1..])
    case Complete(t) => SetPc(c, t, Leaving(Nothing)).(closeState := COMPLETE_CLOSE)
    case CloseStore(n) => c.(closeState := PART_CLOSE, closers := c.closers[n := AfterStore])
  }

  function CInit(cap: nat): Chan {
    Chan(Init(), cap, [], NO_CLOSE, map[], map[])
  }
}
