/**
 What an engine's state is made of, read off the steps of a run: tasks, operations, completions,
 wake-ups and stop requests. No history variable takes part.
 */
module EngineLedger {
  import opened Counting
  import opened Engine
  import opened EngineTheorems

  /** Tasks pushed by others, by the worker's own task and by completion callbacks. */
  function Pushed(ls: seq<Label>): int {
    if ls == [] then 0 else Bit(ls[0].PushTask? || ls[0].OwnPush? || ls[0].HandlePush?) + Pushed(ls[1..])
  }

  function Popped(ls: seq<Label>): int {
    if ls == [] then 0 else Bit(ls[0].PopTask?) + Popped(ls[1..])
  }

  function Started(ls: seq<Label>): int {
    if ls == [] then 0 else Bit(ls[0].StartIo?) + Started(ls[1..])
  }

  function Completed(ls: seq<Label>): int {
    if ls == [] then 0 else Bit(ls[0].Complete?) + Completed(ls[1..])
  }

  /** The queue changes by exactly one task at each push and each pop. */
  lemma {:induction false} TasksConserved(s: EngState, ls: seq<Label>)
    requires CanRun(s, ls)
    ensures Run(s, ls).e.queue == s.e.queue + Pushed(ls) - Popped(ls)
    decreases |ls|
  {
    if ls != [] { TasksConserved(Step(s, ls[0]), ls[1..]); }
  }

  /** No operation has started, and no completion is being handled. */
  predicate Fresh(s: EngState) {
    s.e.queue == 0 && s.e.ready == 0 && s.t.started == 0 && s.t.handled == 0 && s.e.pc.Top?
  }

  /** Over every run: each completion that the kernel posted is ready, or its callback is still to
      run, or its callback has queued one task; nothing else is queued but what was pushed. */
  lemma CompletionsQueueTasks(s: EngState, ls: seq<Label>)
    requires Inv(s) && Fresh(s) && CanRun(s, ls)
    ensures var e := Run(s, ls).e;
            && e.queue == Pushed(ls) - Popped(ls)
            && Completed(ls) == e.ready + Pushes(ls) - InBatch(e.pc)
            && e.waiting + e.running == Started(ls) - Pushes(ls) + InBatch(e.pc)
  {
    TasksConserved(s, ls);
    StaysAccounted(s, ls);
    HandledOneByOne(s, ls);
    StartedCounted(s, ls);
    CompletedCounted(s, ls);
  }

  lemma StaysAccounted(s: EngState, ls: seq<Label>)
    requires Inv(s) && CanRun(s, ls)
    ensures var s' := Run(s, ls); s'.e.waiting + s'.e.running == s'.t.started - s'.t.handled
  {
    RunInv(s, ls);
  }

  lemma StartIsFresh()
    ensures Inv(Start()) && Fresh(Start())
  {
  }

  lemma {:induction false} StartedCounted(s: EngState, ls: seq<Label>)
    requires CanRun(s, ls)
    ensures Run(s, ls).t.started == s.t.started + Started(ls)
    decreases |ls|
  {
    if ls != [] { StartedCounted(Step(s, ls[0]), ls[1..]); }
  }

  lemma {:induction false} CompletedCounted(s: EngState, ls: seq<Label>)
    requires Inv(s) && CanRun(s, ls)
    ensures var s' := Run(s, ls); s'.e.ready + s'.t.handled == s.e.ready + s.t.handled + Completed(ls)
    decreases |ls|
  {
    if ls != [] {
      StepInv(s, ls[0]);
      OneCompletes(s, ls[0]);
      CompletedCounted(Step(s, ls[0]), ls[1..]);
    }
  }

  lemma OneCompletes(s: EngState, l: Label)
    requires Accounts(s) && Batches(s) && Enabled(s, l)
    ensures Do(s, l).ready + Note(s, l).handled == s.e.ready + s.t.handled + Bit(l.Complete?)
  {
  }

  // ---- the counter ----

  predicate Wakes(l: Label) {
    l.WakeTask? || l.WakeStop? || l.OwnWake? || l.HandleWake?
  }

  /** The steps after the last read of the counter. */
  function SinceRead(ls: seq<Label>): seq<Label> {
    if ls == [] then [] else if ls[|ls| - 1].ReadEfd? then [] else SinceRead(ls[..|ls| - 1]) + [ls[|ls| - 1]]
  }

  function Woken(ls: seq<Label>): int {
    if ls == [] then 0 else Woken(ls[..|ls| - 1]) + Bit(Wakes(ls[|ls| - 1]))
  }

  function Signalled(ls: seq<Label>): int {
    if ls == [] then 0 else Signalled(ls[..|ls| - 1]) + Bit(ls[|ls| - 1].Complete?)
  }

  lemma {:induction false} Last(s: EngState, ls: seq<Label>)
    requires ls != [] && CanRun(s, ls)
    ensures var n := |ls| - 1;
            CanRun(s, ls[..n]) && Enabled(Run(s, ls[..n]), ls[n]) && Run(s, ls) == Step(Run(s, ls[..n]), ls[n])
    decreases |ls|
  {
    var n := |ls| - 1;
    if n == 0 {
      assert ls[..0] == [] && ls[1..] == [];
    } else {
      Last(Step(s, ls[0]), ls[1..]);
      assert ls[1..][..n - 1] == ls[..n][1..] && ls[..n][0] == ls[0] && ls[1..][n - 1] == ls[n];
    }
  }

  /** The eventfd holds the wake-ups and the completions that were written since it was last read. */
  lemma {:induction false} CounterIsUnread(ls: seq<Label>)
    requires CanRun(Start(), ls)
    ensures Run(Start(), ls).e.efd == TASK_FLAG * Woken(SinceRead(ls)) + Signalled(SinceRead(ls))
    decreases |ls|
  {
    UnreadCounted(ls);
    assert Reached(Run(Start(), ls));
    CompletionTest(Run(Start(), ls));
  }

  lemma {:induction false} UnreadCounted(ls: seq<Label>)
    requires CanRun(Start(), ls)
    ensures Run(Start(), ls).t.wakes == Woken(SinceRead(ls)) && Run(Start(), ls).t.signals == Signalled(SinceRead(ls))
    decreases |ls|
  {
    if ls != [] {
      var n := |ls| - 1;
      Last(Start(), ls);
      UnreadCounted(ls[..n]);
      UnreadStep(Run(Start(), ls[..n]), ls[n]);
      OneUnread(SinceRead(ls[..n]), ls[n]);
    }
  }

  lemma UnreadStep(s: EngState, l: Label)
    requires Enabled(s, l)
    ensures Note(s, l).wakes == if l.ReadEfd? then 0 else s.t.wakes + Bit(Wakes(l))
    ensures Note(s, l).signals == if l.ReadEfd? then 0 else s.t.signals + Bit(l.Complete?)
  {
  }

  lemma OneUnread(r: seq<Label>, l: Label)
    ensures Woken(r + [l]) == Woken(r) + Bit(Wakes(l)) && Signalled(r + [l]) == Signalled(r) + Bit(l.Complete?)
  {
    assert (r + [l])[..|r|] == r;
  }

  // ---- stop ----

  predicate Requested(ls: seq<Label>) {
    exists i :: 0 <= i < |ls| && ls[i].RequestStop?
  }

  /** The worker is asked to stop exactly by a request, and leaves its loop only then. */
  lemma {:induction false} StopIsRequested(s: EngState, ls: seq<Label>)
    requires CanRun(s, ls) && (s.e.pc.Done? ==> s.e.stop)
    ensures Run(s, ls).e.stop <==> s.e.stop || Requested(ls)
    ensures Run(s, ls).e.pc.Done? ==> Run(s, ls).e.stop
    decreases |ls|
  {
    if ls != [] {
      StopIsRequested(Step(s, ls[0]), ls[1..]);
      assert Requested(ls) <==> ls[0].RequestStop? || Requested(ls[1..]) by { RequestedFirst(ls); }
    }
  }

  lemma RequestedFirst(ls: seq<Label>)
    requires ls != []
    ensures Requested(ls) <==> ls[0].RequestStop? || Requested(ls[1..])
  {
    if Requested(ls[1..]) {
      var i :| 0 <= i < |ls[1..]| && ls[1..][i].RequestStop?;
      assert ls[i + 1].RequestStop?;
    }
    if Requested(ls) && !ls[0].RequestStop? {
      var i :| 0 <= i < |ls| && ls[i].RequestStop?;
      assert ls[1..][i - 1].RequestStop?;
    }
  }
}
