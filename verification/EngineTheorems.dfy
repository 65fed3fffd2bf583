/** What the run loop and the engine guarantee over every run. */
module EngineTheorems {
  import opened Engine

  ghost predicate CanRun(s: EngState, ls: seq<Label>)
    decreases |ls|
  {
    ls == [] || (Enabled(s, ls[0]) && CanRun(Step(s, ls[0]), ls[1..]))
  }

  ghost function Run(s: EngState, ls: seq<Label>): EngState
    requires CanRun(s, ls)
    decreases |ls|
  {
    if ls == [] then s else Run(Step(s, ls[0]), ls[1..])
  }

  lemma {:induction false} RunInv(s: EngState, ls: seq<Label>)
    requires Inv(s) && CanRun(s, ls)
    ensures Inv(Run(s, ls))
    decreases |ls|
  {
    if ls != [] {
      StepInv(s, ls[0]);
      RunInv(Step(s, ls[0]), ls[1..]);
    }
  }

  ghost predicate Reached(s: EngState) {
    exists ls :: CanRun(Start(), ls) && s == Run(Start(), ls)
  }

  lemma EveryRun(s: EngState)
    requires Reached(s)
    ensures Inv(s)
  {
    var ls :| CanRun(Start(), ls) && s == Run(Start(), ls);
    RunInv(Start(), ls);
  }

  /** A worker that blocks on the eventfd leaves no task, no stop request and no completion behind,
      except those whose sender is about to raise the counter. */
  lemma NeverBlocksBesideWork(s: EngState)
    requires Reached(s) && s.e.pc.Wait? && s.e.efd == 0
    ensures s.e.queue > 0 ==> s.e.wakers != {}
    ensures s.e.stop ==> s.e.stoppers != {}
    ensures s.e.ready == 0
  {
    EveryRun(s);
  }

  /** A pass never waits for a task that is not there. */
  lemma PassFindsItsTasks(s: EngState)
    requires Reached(s) && s.e.pc.Batch? && s.e.pc.left > 0
    ensures Enabled(s, PopTask)
  {
    EveryRun(s);
  }

  /** At most CAP outstanding operations bound the unread completions by twice as many: in every
      reachable state the completion test is true exactly if a completion was signalled, and a
      completion always fits in the counter. Wake-ups fit only up to 2^20 - 1 unread ones, see
      EngineProgress. */
  lemma CompletionTest(s: EngState)
    requires Reached(s)
    ensures s.t.signals <= 2 * CAP && s.e.efd == TASK_FLAG * s.t.wakes + s.t.signals <= EFD_MAX
    ensures Enabled(s, Complete) ==> Do(s, Complete).efd == s.e.efd + 1
    ensures s.e.pc.Woken? ==> (WakeByCqe(s.e.pc.cnt) <==> s.t.read > 0)
    ensures s.e.pc.Woken? ==> Do(s, TestCqe).pc == if s.t.read > 0 then Peek else Top
    ensures s.e.pc.Wait? && Enabled(s, ReadEfd) ==> (WakeByCqe(s.e.efd) <==> s.t.signals > 0)
  {
    EveryRun(s);
    RoomForCompletions(s);
    CqeTestExact(s.t.wakes, s.t.signals);
    CqeTestExact(s.t.readWakes, s.t.read);
  }

  /** A signalled poll takes every posted completion, and they fit in the array. */
  lemma PollTakesEverything(s: EngState)
    requires Reached(s) && s.e.pc.Peek?
    ensures Min(s.e.ready, s.e.running) == s.e.ready <= CAP
    ensures s.e.ready > 0 ==> Do(s, PeekBatch).pc == Handle(s.e.ready, s.e.ready)
  {
    EveryRun(s);
  }

  /** waiting + running = operations started - completions handled, and is also the number of
      operations in the rings and in the kernel, through any number of forced submits; the
      subtractions at the end of a poll do not wrap; empty_io() is exact. */
  lemma IoAccounting(s: EngState)
    requires Reached(s)
    ensures s.e.waiting + s.e.running == s.t.started - s.t.handled == s.e.sq + s.e.kernel + s.e.ready <= CAP
    ensures Enabled(s, Advance) ==>
              s.e.pc.num <= s.e.ready && s.e.pc.num <= s.e.running &&
              Do(s, Advance).running == s.e.running - s.e.pc.num && Do(s, Advance).ready == s.e.ready - s.e.pc.num
    ensures s.e.waiting == 0 && s.e.running == 0 <==> s.t.started == s.t.handled
  {
    EveryRun(s);
  }

  /** Each handled completion submitted one task. */
  lemma {:induction false} HandledOneByOne(s: EngState, ls: seq<Label>)
    requires Inv(s) && CanRun(s, ls)
    ensures var s' := Run(s, ls);
            Pushes(ls) == s'.t.handled - s.t.handled + InBatch(s'.e.pc) - InBatch(s.e.pc)
    decreases |ls|
  {
    if ls != [] {
      StepInv(s, ls[0]);
      OnePush(s, ls[0]);
      HandledOneByOne(Step(s, ls[0]), ls[1..]);
    }
  }

  function Pushes(ls: seq<Label>): nat {
    if ls == [] then 0 else (if ls[0].HandlePush? then 1 else 0) + Pushes(ls[1..])
  }

  /** Completions of the current batch whose callback has pushed its task. */
  function InBatch(p: Pc): int {
    if p.Handle? || p.HandleMid? then p.num - p.left else 0
  }

  lemma OnePush(s: EngState, l: Label)
    requires Inv(s) && Enabled(s, l)
    ensures (if l.HandlePush? then 1 else 0) ==
              Note(s, l).handled - s.t.handled + InBatch(Do(s, l).pc) - InBatch(s.e.pc)
  {
  }
}
