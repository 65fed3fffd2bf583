/**
 The steps a worker can take by itself. It is the only reader of its eventfd, whose writes block
 when the counter is full, and its own submissions write to it.
 */
module EngineProgress {
  import opened Engine
  import opened EngineTheorems

  /** As many unread wake-ups as the counter holds. */
  const FULL: nat := 0xF_FFFF

  predicate OfWorker(l: Label) {
    !l.PushTask? && !l.WakeTask? && !l.RequestStop? && !l.WakeStop? && !l.Complete?
  }

  lemma RoomWhen(s: EngState)
    requires Inv(s)
    ensures RoomToWake(s.e) <==> s.t.wakes < FULL
  {
    RoomForCompletions(s);
  }

  /** A wake-up can be written exactly if fewer than 2^20 - 1 are unread. */
  lemma RoomExactly(s: EngState)
    requires Reached(s)
    ensures RoomToWake(s.e) <==> s.t.wakes < FULL
  {
    EveryRun(s);
    RoomWhen(s);
  }

  /** The worker is in the middle of a submission to itself, or of a completion's callback. */
  predicate Mid(p: Pc) {
    p.ExecMid? || p.HandleMid?
  }

  lemma Moves(s: EngState, l: Label)
    requires OfWorker(l) && Enabled(s, l)
    ensures !s.e.pc.Done? && !(s.e.pc.Wait? && s.e.efd == 0) && (Mid(s.e.pc) ==> RoomToWake(s.e))
  {
  }

  lemma SomeMove(s: EngState)
    requires Batches(s) && !s.e.pc.Done? && !(s.e.pc.Wait? && s.e.efd == 0) && (Mid(s.e.pc) ==> RoomToWake(s.e))
    ensures exists l :: OfWorker(l) && Enabled(s, l)
  {
    match s.e.pc
    case Top => assert Enabled(s, if s.e.stop then Exit else Snapshot);
    case Batch(left) => assert Enabled(s, if left > 0 then PopTask else EndPass(false));
    case Exec(_) => assert Enabled(s, EndTask);
    case ExecMid(_) => assert Enabled(s, OwnWake);
    case Poll => assert Enabled(s, SubmitIo);
    case Wait => assert Enabled(s, ReadEfd);
    case Woken(_) => assert Enabled(s, TestCqe);
    case Peek => assert Enabled(s, PeekBatch);
    case Handle(left, _) => assert Enabled(s, if left > 0 then HandlePush else Advance);
    case HandleMid(_, _) => assert Enabled(s, HandleWake);
  }

  /** At the loop test a worker leaves exactly if it was asked to stop, and it has no other way out. */
  lemma LeavesExactly(s: EngState, l: Label)
    requires OfWorker(l) && Enabled(s, l)
    ensures Do(s, l).pc.Done? <==> s.e.pc.Top? && s.e.stop
  {
  }

  /** Once it is about to raise its own full counter it never moves again. */
  lemma {:induction false} StuckForever(s: EngState, ls: seq<Label>)
    requires Mid(s.e.pc) && !RoomToWake(s.e) && CanRun(s, ls)
    ensures Run(s, ls).e.pc == s.e.pc && !RoomToWake(Run(s, ls).e)
    decreases |ls|
  {
    if ls != [] { StuckForever(Step(s, ls[0]), ls[1..]); }
  }
}
