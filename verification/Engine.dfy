/**
 One worker thread's run loop with its engine: the task queue, the eventfd that wakes it, and the
 accounting of I/O operations, beside any number of other threads that submit tasks or request a
 stop, and the kernel that completes operations. The eventfd is a blocking counter; io_uring adds
 one to it for every completion it posts.
 */
module Engine {
  import opened Bits

  const TASK_FLAG: nat := 0x1000_0000_0000         // 1 << 44
  const CQE_RANGE: nat := 0x100_0000               // cqe_mask + 1
  const EFD_MAX: nat := 0xFFFF_FFFF_FFFF_FFFE      // the largest value of an eventfd
  const CAP: nat := 16384                          // config::kQueCap
  const ENTRIES: nat := 16384                      // config::kEntryLength, rounded up by io_uring to a power of two

  /** The macro wake_by_cqe. */
  predicate WakeByCqe(cnt: nat) {
    And(cnt, CQE_RANGE - 1) > 0
  }

  datatype Pc =
    | Top                                // loop test
    | Batch(left: nat)                   // process_work: tasks of this pass still to run
    | Exec(left: nat)                    // inside a task
    | ExecMid(left: nat)                 // inside submit_task to itself, between push and wake-up
    | Poll                               // do_io_submit
    | Wait                               // about to read the eventfd, which blocks at zero
    | Woken(cnt: nat)                    // completion test
    | Peek
    | Handle(left: nat, num: nat)        // completions of this batch still to handle
    | HandleMid(left: nat, num: nat)     // a callback between push and wake-up
    | Done

  datatype Eng = Eng(
    queue: nat,                          // tasks in m_task_queue
    efd: nat,
    wakers: set<nat>,                    // other threads between try_push and wake_up
    stop: bool,
    stoppers: set<nat>,                  // threads between request_stop and wake_up
    waiting: nat,                        // m_num_io_wait_submit
    running: nat,                        // m_num_io_running
    sq: nat,                             // filled submission entries the kernel has not seen
    kernel: nat,                         // operations in the kernel
    ready: nat,                          // posted completions not yet consumed
    pc: Pc)

  /** History: operations started and handled, and what the unread counter is made of. */
  datatype Tally = Tally(started: nat, handled: nat, signals: nat, wakes: nat, read: nat, readWakes: nat)

  datatype EngState = EngState(e: Eng, t: Tally)

  datatype Label =
    | PushTask(a: nat) | WakeTask(a: nat)
    | RequestStop(a: nat) | WakeStop(a: nat)
    | Complete
    | Exit | Snapshot | PopTask | EndTask | OwnPush | OwnWake
    | StartIo | ForceSubmit
    | EndPass(again: bool) | SubmitIo | ReadEfd | TestCqe | PeekBatch
    | HandlePush | HandleWake | Advance

  predicate RoomToWake(e: Eng) {
    e.efd + TASK_FLAG <= EFD_MAX
  }

  /** Operations started and not yet handled; clients keep at most CAP of them. */
  function Outstanding(t: Tally): int {
    t.started - t.handled
  }

  predicate Enabled(s: EngState, l: Label) {
    var e := s.e;
    match l
    case PushTask(a) => a !in e.wakers
    case WakeTask(a) => a in e.wakers && RoomToWake(e)
    case RequestStop(a) => a !in e.stoppers
    case WakeStop(a) => a in e.stoppers && RoomToWake(e)
    case Complete => e.kernel > 0
    case Exit => e.pc.Top? && e.stop
    case Snapshot => e.pc.Top? && !e.stop
    case PopTask => e.pc.Batch? && e.pc.left > 0 && e.queue > 0
    case EndTask => e.pc.Exec?
    case OwnPush => e.pc.Exec?
    case OwnWake => e.pc.ExecMid? && RoomToWake(e)
    case StartIo => e.pc.Exec? && e.sq < ENTRIES && Outstanding(s.t) < CAP
    case ForceSubmit => e.pc.Exec? && e.sq >= ENTRIES
    case EndPass(again) => e.pc == Batch(0) && (again ==> e.queue > 0 && e.waiting == 0 && e.running == 0)
    case SubmitIo => e.pc.Poll?
    case ReadEfd => e.pc.Wait? && e.efd > 0
    case TestCqe => e.pc.Woken?
    case PeekBatch => e.pc.Peek?
    case HandlePush => e.pc.Handle? && e.pc.left > 0
    case HandleWake => e.pc.HandleMid? && RoomToWake(e)
    case Advance => e.pc.Handle? && e.pc.left == 0
  }

  function Min(x: nat, y: nat): nat {
    if x <= y then x else y
  }

  function Do(s: EngState, l: Label): Eng
    requires Enabled(s, l)
  {
    var e := s.e;
    match l
    case PushTask(a) => e.(queue := e.queue + 1, wakers := e.wakers + {a})
    case WakeTask(a) => e.(efd := e.efd + TASK_FLAG, wakers := e.wakers - {a})
    case RequestStop(a) => e.(stop := true, stoppers := e.stoppers + {a})
    case WakeStop(a) => e.(efd := e.efd + TASK_FLAG, stoppers := e.stoppers - {a})
    case Complete => e.(kernel := e.kernel - 1, ready := e.ready + 1, efd := Min(e.efd + 1, EFD_MAX))
    case Exit => e.(pc := Done)
    case Snapshot => e.(pc := Batch(e.queue))
    case PopTask => e.(queue := e.queue - 1, pc := Exec(e.pc.left - 1))
    case EndTask => e.(pc := Batch(e.pc.left))
    case OwnPush => e.(queue := e.queue + 1, pc := ExecMid(e.pc.left))
    case OwnWake => e.(efd := e.efd + TASK_FLAG, pc := Exec(e.pc.left))
    case StartIo => e.(sq := e.sq + 1, waiting := e.waiting + 1)
    case ForceSubmit => e.(sq := 0, kernel := e.kernel + e.sq)
    case EndPass(again) => e.(pc := if again then Top else Poll)
    case SubmitIo =>
      if e.waiting > 0 then
        e.(sq := 0, kernel := e.kernel + e.sq, running := e.running + e.waiting, waiting := 0, pc := Wait)
      else e.(pc := Wait)
    case ReadEfd => e.(efd := 0, pc := Woken(e.efd))
    case TestCqe => e.(pc := if WakeByCqe(e.pc.cnt) then Peek else Top)
    case PeekBatch =>
      var num := Min(e.ready, e.running);
      e.(pc := if num != 0 then Handle(num, num) else Top)
    case HandlePush => e.(queue := e.queue + 1, pc := HandleMid(e.pc.left - 1, e.pc.num))
    case HandleWake => e.(efd := e.efd + TASK_FLAG, pc := Handle(e.pc.left, e.pc.num))
    case Advance => e.(ready := Minus(e.ready, e.pc.num), running := Minus(e.running, e.pc.num), pc := Top)
  }

  function Note(s: EngState, l: Label): Tally
    requires Enabled(s, l)
  {
    var t := s.t;
    match l
    case WakeTask(_) => t.(wakes := t.wakes + 1)
    case WakeStop(_) => t.(wakes := t.wakes + 1)
    case OwnWake => t.(wakes := t.wakes + 1)
    case HandleWake => t.(wakes := t.wakes + 1)
    case Complete => t.(signals := t.signals + 1)
    case StartIo => t.(started := t.started + 1)
    case ReadEfd => t.(signals := 0, wakes := 0, read := t.signals, readWakes := t.wakes)
    case Advance => t.(handled := t.handled + s.e.pc.num)
    case _ => t
  }

  function Step(s: EngState, l: Label): EngState
    requires Enabled(s, l)
  {
    EngState(Do(s, l), Note(s, l))
  }

  function Start(): EngState {
    EngState(Eng(0, 0, {}, false, {}, 0, 0, 0, 0, 0, Top), Tally(0, 0, 0, 0, 0, 0))
  }

  // ---- the invariant ----

  /** Every operation is counted once by the engine and is at one place. */
  predicate Accounts(s: EngState) {
    var e := s.e;
    && e.waiting + e.running == Outstanding(s.t) == e.sq + e.kernel + e.ready
    && e.sq <= e.waiting
    && Outstanding(s.t) <= CAP
    && (e.pc.Wait? || Polled(e.pc) ==> e.waiting == 0)
  }

  predicate Polled(p: Pc) {
    p.Woken? || p.Peek? || p.Handle? || p.HandleMid?
  }

  predicate Batches(s: EngState) {
    match s.e.pc
    case Batch(left) => left <= s.e.queue
    case Exec(left) => left <= s.e.queue
    case ExecMid(left) => left <= s.e.queue
    case Handle(left, num) => left <= num <= s.e.ready
    case HandleMid(left, num) => left <= num <= s.e.ready
    case _ => true
  }

  /** The counter is its unread parts, and covers every completion that is not being handled. */
  predicate Signals(s: EngState) {
    var e, t := s.e, s.t;
    && e.efd == TASK_FLAG * t.wakes + t.signals
    && e.efd <= EFD_MAX
    && t.wakes < 0x10_0000
    && match e.pc
       case Woken(cnt) =>
         && e.ready <= t.signals + t.read && t.signals + e.kernel <= CAP
         && t.read <= 2 * CAP && cnt == TASK_FLAG * t.readWakes + t.read
       case Peek => e.ready <= t.signals + t.read && t.signals + e.kernel <= CAP
       case Handle(_, num) => e.ready <= t.signals + num && t.signals + num <= CAP + e.ready
       case HandleMid(_, num) => e.ready <= t.signals + num && t.signals + num <= CAP + e.ready
       case _ => e.ready <= t.signals <= CAP + e.ready
  }

  /** Tasks beyond this pass have raised the counter, or their submitter is about to. */
  predicate TaskWakes(e: Eng) {
    match e.pc
    case Batch(left) => e.queue > left ==> e.efd > 0 || e.wakers != {}
    case Exec(left) => e.queue > left ==> e.efd > 0 || e.wakers != {}
    case Poll => e.queue > 0 ==> e.efd > 0 || e.wakers != {}
    case Wait => e.queue > 0 ==> e.efd > 0 || e.wakers != {}
    case _ => true
  }

  /** A stop request that the loop test has not seen has raised the counter, or is about to. */
  predicate StopWakes(e: Eng) {
    e.pc.Batch? || e.pc.Exec? || e.pc.ExecMid? || e.pc.Poll? || e.pc.Wait? ==>
      (e.stop ==> e.efd > 0 || e.stoppers != {})
  }

  ghost predicate Inv(s: EngState) {
    Accounts(s) && Batches(s) && Signals(s) && TaskWakes(s.e) && StopWakes(s.e)
  }

  // ---- the completion test ----

  /** The completion test sees exactly the part of the counter below 2^24. */
  lemma CqeTest(wakes: nat, signals: nat)
    ensures WakeByCqe(TASK_FLAG * wakes + signals) <==> signals % CQE_RANGE != 0
  {
    var cnt := TASK_FLAG * wakes + signals;
    assert Pow2(8) == 0x100;
    Pow2Sum(8, 8);
    Pow2Sum(16, 8);
    AndMask(cnt, 24);
    var n := 0x10_0000 * wakes;
    assert TASK_FLAG * wakes == n * CQE_RANGE;
    AddMultiple(signals, CQE_RANGE, n);
  }

  /** Below 2^24 completions the test is true exactly if one was signalled; at 2^24 it fails. */
  lemma CqeTestExact(wakes: nat, signals: nat)
    ensures signals < CQE_RANGE ==> (WakeByCqe(TASK_FLAG * wakes + signals) <==> signals > 0)
    ensures !WakeByCqe(TASK_FLAG * wakes + CQE_RANGE)
  {
    CqeTest(wakes, signals);
    CqeTest(wakes, CQE_RANGE);
  }

  // ---- every step ----

  lemma AccountsStep(s: EngState, l: Label)
    requires Accounts(s) && Batches(s) && Enabled(s, l)
    ensures Accounts(Step(s, l))
  {
  }

  lemma BatchesStep(s: EngState, l: Label)
    requires Accounts(s) && Batches(s) && Enabled(s, l)
    ensures Batches(Step(s, l))
  {
  }

  /** With the room that tasks leave, a completion always fits. */
  lemma RoomForCompletions(s: EngState)
    requires Accounts(s) && Batches(s) && Signals(s)
    ensures s.t.signals <= 2 * CAP
    ensures s.e.kernel > 0 ==> s.e.efd + 1 <= EFD_MAX
    ensures RoomToWake(s.e) ==> s.t.wakes + 1 < 0x10_0000
  {
  }

  lemma SignalsStep(s: EngState, l: Label)
    requires Accounts(s) && Batches(s) && Signals(s) && Enabled(s, l)
    ensures Signals(Step(s, l))
  {
    RoomForCompletions(s);
    if l.WakeTask? || l.WakeStop? || l.OwnWake? || l.HandleWake? {
      WakeSignals(s, l);
    } else if l.Complete? {
      CompleteSignals(s);
    } else if l.ReadEfd? || l.TestCqe? || l.PeekBatch? || l.Advance? {
      PollSignals(s, l);
    } else {
      OtherSignals(s, l);
    }
  }

  lemma WakeSignals(s: EngState, l: Label)
    requires Signals(s) && Enabled(s, l) && (l.WakeTask? || l.WakeStop? || l.OwnWake? || l.HandleWake?)
    requires s.t.wakes + 1 < 0x10_0000
    ensures Signals(Step(s, l))
  {
  }

  lemma CompleteSignals(s: EngState)
    requires Accounts(s) && Batches(s) && Signals(s) && Enabled(s, Complete) && s.e.efd + 1 <= EFD_MAX
    ensures Signals(Step(s, Complete))
  {
  }

  lemma PollSignals(s: EngState, l: Label)
    requires Accounts(s) && Batches(s) && Signals(s) && Enabled(s, l)
    requires l.ReadEfd? || l.TestCqe? || l.PeekBatch? || l.Advance?
    ensures Signals(Step(s, l))
  {
    if l.TestCqe? { CqeTestExact(s.t.readWakes, s.t.read); }
  }

  lemma OtherSignals(s: EngState, l: Label)
    requires Signals(s) && Enabled(s, l) && !l.WakeTask? && !l.WakeStop? && !l.OwnWake? && !l.HandleWake?
    requires !l.Complete?
    requires !l.ReadEfd? && !l.TestCqe? && !l.PeekBatch? && !l.Advance?
    ensures Signals(Step(s, l))
  {
  }

  lemma WakesStep(s: EngState, l: Label)
    requires Batches(s) && TaskWakes(s.e) && StopWakes(s.e) && Enabled(s, l)
    ensures TaskWakes(Do(s, l)) && StopWakes(Do(s, l))
  {
  }

  lemma StepInv(s: EngState, l: Label)
    requires Inv(s) && Enabled(s, l)
    ensures Inv(Step(s, l))
  {
    AccountsStep(s, l);
    BatchesStep(s, l);
    SignalsStep(s, l);
    WakesStep(s, l);
  }
}
