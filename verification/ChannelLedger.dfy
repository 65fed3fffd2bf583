/**
 What calls pass and what they return, read off the steps of a run and the calls' own results: no
 history variable takes part.
 */
module ChannelLedger {
  import opened Sync
  import opened SyncInv
  import opened Channel
  import opened ChannelInv
  import opened ChannelTheorems

  /** The result of a call, once it is fixed. */
  function Outcome(pc: Pc): Opt<Result> {
    match pc
    case ToNotify(r) => Some(r)
    case Notifying(r) => Some(r)
    case Leaving(r) => Some(r)
    case Finished(r) => Some(r)
    case _ => None
  }

  /** The send was accepted. */
  predicate Accepted(k: Task) {
    k.op.Send? && Outcome(k.pc) == Some(Sent(true))
  }

  /** The recv returns a value. */
  predicate Delivered(k: Task) {
    k.op.Recv? && Outcome(k.pc).Some? && Outcome(k.pc).v.Got?
  }

  function StoredAt(l: CLabel): seq<nat> {
    if l.Store? then [l.t] else []
  }

  function TakenAt(l: CLabel): seq<nat> {
    if l.Remove? then [l.t] else []
  }

  /** The calls that stored, and the calls that took, in the order of their steps. */
  function StoredBy(ls: seq<CLabel>): seq<nat> {
    if ls == [] then [] else StoredAt(ls[0]) + StoredBy(ls[1..])
  }

  function TakenBy(ls: seq<CLabel>): seq<nat> {
    if ls == [] then [] else TakenAt(ls[0]) + TakenBy(ls[1..])
  }

  /** The value passed to a call of send, and the value returned by a call of recv. */
  function Passed(c: Chan, t: nat): int {
    if t in c.tasks && c.tasks[t].op.Send? then c.tasks[t].op.v else 0
  }

  function Returned(c: Chan, t: nat): int {
    if t in c.tasks && Delivered(c.tasks[t]) then Outcome(c.tasks[t].pc).v.v else 0
  }

  function AllPassed(c: Chan, ts: seq<nat>): seq<int> {
    seq(|ts|, i requires 0 <= i < |ts| => Passed(c, ts[i]))
  }

  function AllReturned(c: Chan, ts: seq<nat>): seq<int> {
    seq(|ts|, i requires 0 <= i < |ts| => Returned(c, ts[i]))
  }

  ghost predicate Distinct(ts: seq<nat>) {
    forall i, j :: 0 <= i < j < |ts| ==> ts[i] != ts[j]
  }

  ghost predicate Exactly(c: Chan, st: seq<nat>, tk: seq<nat>) {
    && Distinct(st) && Distinct(tk)
    && (forall t :: t in st <==> t in c.tasks && Accepted(c.tasks[t]))
    && (forall t :: t in tk <==> t in c.tasks && Delivered(c.tasks[t]))
  }

  ghost predicate Ledger(c: Chan, st: seq<nat>, tk: seq<nat>) {
    Exactly(c, st, tk) && AllPassed(c, st) == AllReturned(c, tk) + c.buf
  }

  // ---- what a step does to a call ----

  lemma AdvanceCall(c: Chan, l: Label, t: nat)
    requires CEnabled(c, SyncStep(l)) && t in c.tasks && TaskFits(c, t)
    ensures var d := Advance(c, l);
            t in d.tasks && d.tasks[t].op == c.tasks[t].op && Outcome(d.tasks[t].pc) == Outcome(c.tasks[t].pc)
  {
  }

  /** A result, once fixed, stays, and so does the operation; only storing and taking fix a positive
      result, and a send is refused only on a closed channel. */
  lemma CallStep(c: Chan, l: CLabel, t: nat)
    requires CEnabled(c, l) && t in c.tasks && TaskFits(c, t)
    ensures var d := CDo(c, l);
            && t in d.tasks && d.tasks[t].op == c.tasks[t].op
            && (Outcome(c.tasks[t].pc).Some? ==> Outcome(d.tasks[t].pc) == Outcome(c.tasks[t].pc))
            && (Outcome(c.tasks[t].pc).None? && l != Store(t) && l != Remove(t) ==>
                  Outcome(d.tasks[t].pc) in {None, Some(Nothing), Some(Sent(false))})
            && (Outcome(c.tasks[t].pc).None? && Outcome(d.tasks[t].pc) == Some(Sent(false)) ==> Closed(c))
  {
    if l.SyncStep? { AdvanceCall(c, l.l, t); }
  }

  /** Only a call starts a task, and it has no result. */
  lemma NewCall(c: Chan, l: CLabel, t: nat)
    requires CEnabled(c, l) && t !in c.tasks && t in CDo(c, l).tasks
    ensures l.Call? && Outcome(CDo(c, l).tasks[t].pc).None?
  {
    if l.SyncStep? { AdvanceFrame(c, l.l); }
  }

  lemma OtherCall(c: Chan, l: CLabel, t: nat)
    requires CEnabled(c, l) && TaskFits(c, t) && l != Store(t) && l != Remove(t)
    ensures t in CDo(c, l).tasks && Accepted(CDo(c, l).tasks[t]) <==> t in c.tasks && Accepted(c.tasks[t])
    ensures t in CDo(c, l).tasks && Delivered(CDo(c, l).tasks[t]) <==> t in c.tasks && Delivered(c.tasks[t])
    ensures t in c.tasks ==> Passed(CDo(c, l), t) == Passed(c, t)
    ensures t in c.tasks && Delivered(c.tasks[t]) ==> Returned(CDo(c, l), t) == Returned(c, t)
  {
    if t in c.tasks { CallStep(c, l, t); } else if t in CDo(c, l).tasks { NewCall(c, l, t); }
  }

  lemma SameEntries(c: Chan, d: Chan, st: seq<nat>, tk: seq<nat>)
    requires forall t :: t in st ==> Passed(d, t) == Passed(c, t)
    requires forall t :: t in tk ==> Returned(d, t) == Returned(c, t)
    ensures AllPassed(d, st) == AllPassed(c, st) && AllReturned(d, tk) == AllReturned(c, tk)
  {
  }

  lemma BufferKept(c: Chan, l: CLabel)
    requires CEnabled(c, l) && !l.Store? && !l.Remove?
    ensures CDo(c, l).buf == c.buf
  {
    if l.SyncStep? { AdvanceFrame(c, l.l); }
  }

  lemma PlainLedger(s: CState, l: CLabel, st: seq<nat>, tk: seq<nat>)
    requires Tasks(s) && CEnabled(s.c, l) && Ledger(s.c, st, tk) && !l.Store? && !l.Remove?
    ensures Ledger(CDo(s.c, l), st, tk)
  {
    var d := CDo(s.c, l);
    forall t ensures
      && (t in st <==> t in d.tasks && Accepted(d.tasks[t]))
      && (t in tk <==> t in d.tasks && Delivered(d.tasks[t]))
      && (t in st ==> Passed(d, t) == Passed(s.c, t)) && (t in tk ==> Returned(d, t) == Returned(s.c, t))
    {
      assert TaskFits(s.c, t);
      OtherCall(s.c, l, t);
    }
    SameEntries(s.c, d, st, tk);
    BufferKept(s.c, l);
  }

  lemma StoreEntry(c: Chan, t: nat)
    requires CEnabled(c, Store(t)) && c.tasks[t].op.Send?
    ensures var d := CDo(c, Store(t));
            && t in d.tasks && Accepted(d.tasks[t]) && !Delivered(d.tasks[t]) && !Accepted(c.tasks[t])
            && Passed(d, t) == c.tasks[t].op.v && d.buf == c.buf + [c.tasks[t].op.v]
  {
  }

  lemma StoreLedger(s: CState, t: nat, st: seq<nat>, tk: seq<nat>)
    requires Tasks(s) && CEnabled(s.c, Store(t)) && Ledger(s.c, st, tk) && s.c.tasks[t].op.Send?
    ensures Ledger(CDo(s.c, Store(t)), st + [t], tk)
  {
    var d := CDo(s.c, Store(t));
    StoreEntry(s.c, t);
    assert t !in st;
    forall u ensures
      && (u in st + [t] <==> u in d.tasks && Accepted(d.tasks[u]))
      && (u in tk <==> u in d.tasks && Delivered(d.tasks[u]))
      && (u in st ==> Passed(d, u) == Passed(s.c, u)) && (u in tk ==> Returned(d, u) == Returned(s.c, u))
    {
      assert TaskFits(s.c, u);
      if u != t { OtherCall(s.c, Store(t), u); }
    }
    SameEntries(s.c, d, st, tk);
    assert AllPassed(d, st + [t]) == AllPassed(s.c, st) + [Passed(d, t)];
  }

  lemma RemoveEntry(c: Chan, t: nat)
    requires CEnabled(c, Remove(t)) && c.tasks[t].op.Recv?
    ensures var d := CDo(c, Remove(t));
            && t in d.tasks && Delivered(d.tasks[t]) && !Accepted(d.tasks[t]) && !Delivered(c.tasks[t])
            && c.buf == [Returned(d, t)] + d.buf
  {
  }

  lemma RemoveLedger(s: CState, t: nat, st: seq<nat>, tk: seq<nat>)
    requires Tasks(s) && CEnabled(s.c, Remove(t)) && Ledger(s.c, st, tk) && s.c.tasks[t].op.Recv?
    ensures Ledger(CDo(s.c, Remove(t)), st, tk + [t])
  {
    var d := CDo(s.c, Remove(t));
    RemoveEntry(s.c, t);
    assert t !in tk;
    forall u ensures
      && (u in st <==> u in d.tasks && Accepted(d.tasks[u]))
      && (u in tk + [t] <==> u in d.tasks && Delivered(d.tasks[u]))
      && (u in st ==> Passed(d, u) == Passed(s.c, u)) && (u in tk ==> Returned(d, u) == Returned(s.c, u))
    {
      assert TaskFits(s.c, u);
      if u != t { OtherCall(s.c, Remove(t), u); }
    }
    SameEntries(s.c, d, st, tk);
    assert AllReturned(d, tk + [t]) == AllReturned(s.c, tk) + [Returned(d, t)];
  }

  lemma LedgerStep(s: CState, l: CLabel, st: seq<nat>, tk: seq<nat>)
    requires Tasks(s) && Guards(s) && CEnabled(s.c, l) && Ledger(s.c, st, tk)
    ensures Ledger(CDo(s.c, l), st + StoredAt(l), tk + TakenAt(l))
  {
    assert st + [] == st && tk + [] == tk;
    match l
    case Store(t) =>
      assert Relies(s, s.c.tasks[t], At(s.c.m, Coro(t)));
      StoreLedger(s, t, st, tk);
    case Remove(t) =>
      assert Relies(s, s.c.tasks[t], At(s.c.m, Coro(t)));
      RemoveLedger(s, t, st, tk);
    case _ => PlainLedger(s, l, st, tk);
  }

  lemma {:induction false} LedgerRun(s: CState, ls: seq<CLabel>, st: seq<nat>, tk: seq<nat>)
    requires CInv(s) && CanRun(s.c, ls) && Ledger(s.c, st, tk)
    ensures Ledger(Run(s, ls).c, st + StoredBy(ls), tk + TakenBy(ls))
    decreases |ls|
  {
    if ls == [] {
      assert st + [] == st && tk + [] == tk;
    } else {
      CStepInv(s, ls[0]);
      LedgerStep(s, ls[0], st, tk);
      LedgerRun(CStep(s, ls[0]), ls[1..], st + StoredAt(ls[0]), tk + TakenAt(ls[0]));
      Unfolds(ls, st, tk);
    }
  }

  lemma Unfolds(ls: seq<CLabel>, st: seq<nat>, tk: seq<nat>)
    requires ls != []
    ensures st + StoredBy(ls) == st + StoredAt(ls[0]) + StoredBy(ls[1..])
    ensures tk + TakenBy(ls) == tk + TakenAt(ls[0]) + TakenBy(ls[1..])
  {
  }

  /** Over every run: the values passed by the calls that stored, in order, are the values returned by
      the calls that took, in order, followed by the buffer. No call stores or takes twice; the calls
      that stored are exactly the sends that return true, and those that took exactly the recvs that
      return a value. */
  lemma Delivery(cap: nat, ls: seq<CLabel>)
    requires CanRun(CInit(cap), ls)
    ensures var c, st, tk := Run(CStart(cap), ls).c, StoredBy(ls), TakenBy(ls);
            && AllPassed(c, st) == AllReturned(c, tk) + c.buf
            && Distinct(st) && Distinct(tk)
            && (forall t :: t in st <==> t in c.tasks && Accepted(c.tasks[t]))
            && (forall t :: t in tk <==> t in c.tasks && Delivered(c.tasks[t]))
  {
    CStartInv(cap);
    LedgerRun(CStart(cap), ls, [], []);
    assert [] + StoredBy(ls) == StoredBy(ls) && [] + TakenBy(ls) == TakenBy(ls);
  }

  lemma {:induction false} CalledRun(s: CState, ls: seq<CLabel>, t: nat)
    requires CInv(s) && CanRun(s.c, ls) && t in Run(s, ls).c.tasks
    ensures var op := Run(s, ls).c.tasks[t].op;
            if t in s.c.tasks then op == s.c.tasks[t].op else Call(t, op) in ls
    decreases |ls|
  {
    if ls != [] {
      CStepInv(s, ls[0]);
      assert TaskFits(s.c, t);
      if t in s.c.tasks { CallStep(s.c, ls[0], t); } else if t in CDo(s.c, ls[0]).tasks { NewCall(s.c, ls[0], t); }
      CalledRun(CStep(s, ls[0]), ls[1..], t);
    }
  }

  /** What a call does is what it was called for. */
  lemma DoesWhatWasCalled(cap: nat, ls: seq<CLabel>, t: nat)
    requires CanRun(CInit(cap), ls) && t in Run(CStart(cap), ls).c.tasks
    ensures Call(t, Run(CStart(cap), ls).c.tasks[t].op) in ls
  {
    CStartInv(cap);
    CalledRun(CStart(cap), ls, t);
  }

  lemma {:induction false} EndedLabels(s: CState, ls: seq<CLabel>)
    requires Good(s) && s.g.ended && CanRun(s.c, ls)
    ensures StoredBy(ls) == [] && TakenBy(ls) == []
    decreases |ls|
  {
    if ls != [] {
      CStepInv(s, ls[0]);
      StepResults(s, ls[0]);
      EndedStep(s, ls[0]);
      EndedLabels(CStep(s, ls[0]), ls[1..]);
    }
  }

  /** Once a recv has returned nullopt, the values returned are all the values ever passed to an
      accepted send, and no continuation stores or takes another. */
  lemma NulloptMeansAllDelivered(cap: nat, ls: seq<CLabel>, more: seq<CLabel>, r: nat)
    requires CanRun(CInit(cap), ls)
    requires var c := Run(CStart(cap), ls).c;
             r in c.tasks && c.tasks[r] == Task(Recv, Finished(Nothing)) && CanRun(c, more)
    ensures var c := Run(CStart(cap), ls).c; AllPassed(c, StoredBy(ls)) == AllReturned(c, TakenBy(ls))
    ensures StoredBy(more) == [] && TakenBy(more) == []
  {
    EveryRun(cap, ls);
    Delivery(cap, ls);
    var s := Run(CStart(cap), ls);
    assert Returns(s.g, s.c.tasks[r]);
    EndedLabels(s, more);
    assert s.c.buf == [];
  }

  // ---- refusals, and results that stay ----

  /** Only a closed channel refuses a send. */
  ghost predicate Refusals(c: Chan) {
    forall t :: t in c.tasks && Outcome(c.tasks[t].pc) == Some(Sent(false)) ==> Closed(c)
  }

  lemma ClosedStays(c: Chan, l: CLabel)
    requires CEnabled(c, l) && Closed(c)
    ensures Closed(CDo(c, l))
  {
    if l.SyncStep? { AdvanceFrame(c, l.l); }
  }

  lemma RefusalsStep(s: CState, l: CLabel)
    requires Tasks(s) && CEnabled(s.c, l) && Refusals(s.c)
    ensures Refusals(CDo(s.c, l))
  {
    var d := CDo(s.c, l);
    if Closed(s.c) { ClosedStays(s.c, l); }
    forall t | t in d.tasks && Outcome(d.tasks[t].pc) == Some(Sent(false)) ensures Closed(d) {
      assert TaskFits(s.c, t);
      if t in s.c.tasks { CallStep(s.c, l, t); } else { NewCall(s.c, l, t); }
    }
  }

  lemma {:induction false} RefusalsRun(s: CState, ls: seq<CLabel>)
    requires CInv(s) && CanRun(s.c, ls) && Refusals(s.c)
    ensures Refusals(Run(s, ls).c)
    decreases |ls|
  {
    if ls != [] {
      CStepInv(s, ls[0]);
      RefusalsStep(s, ls[0]);
      RefusalsRun(CStep(s, ls[0]), ls[1..]);
    }
  }

  /** A send returns false only if the channel is closed. */
  lemma RefusedMeansClosed(cap: nat, ls: seq<CLabel>, t: nat)
    requires CanRun(CInit(cap), ls)
    requires var c := Run(CStart(cap), ls).c; t in c.tasks && Outcome(c.tasks[t].pc) == Some(Sent(false))
    ensures Closed(Run(CStart(cap), ls).c)
  {
    CStartInv(cap);
    RefusalsRun(CStart(cap), ls);
  }

  /** A result never changes, and neither does what a call was asked to do. */
  lemma {:induction false} ResultStays(s: CState, ls: seq<CLabel>, t: nat)
    requires CInv(s) && CanRun(s.c, ls) && t in s.c.tasks && Outcome(s.c.tasks[t].pc).Some?
    ensures var k, k' := s.c.tasks[t], Run(s, ls).c.tasks;
            t in k' && k'[t].op == k.op && Outcome(k'[t].pc) == Outcome(k.pc)
    decreases |ls|
  {
    if ls != [] {
      CStepInv(s, ls[0]);
      assert TaskFits(s.c, t);
      CallStep(s.c, ls[0], t);
      ResultStays(CStep(s, ls[0]), ls[1..], t);
    }
  }

  // ---- calls that find the channel closed ----

  /** The call has not got past its first test, or was refused by it. */
  predicate TurnedAway(c: Chan, t: nat) {
    t in c.tasks && c.tasks[t].op.Send? ==> c.tasks[t].pc in {Early, Finished(Sent(false))} && At(c.m, Coro(t)).Idle?
  }

  lemma TurnedAwayStep(s: CState, l: CLabel, t: nat)
    requires Tasks(s) && CEnabled(s.c, l) && Closed(s.c) && TurnedAway(s.c, t)
    requires l.SyncStep? && l.l.Resume? ==> At(s.c.m, Coro(At(s.c.m, l.l.a).w.task)).Blocked?
    ensures TurnedAway(CDo(s.c, l), t)
  {
    assert TaskFits(s.c, t);
    if l.SyncStep? {
      AdvanceFrame(s.c, l.l);
      if t in s.c.tasks && s.c.tasks[t].op.Send? { IdleStays(s.c, l.l, t); }
    }
  }

  lemma IdleStays(c: Chan, l: Label, t: nat)
    requires CEnabled(c, SyncStep(l)) && At(c.m, Coro(t)).Idle?
    requires t in c.tasks && c.tasks[t].pc in {Early, Finished(Sent(false))}
    requires l.Resume? ==> At(c.m, Coro(At(c.m, l.a).w.task)).Blocked?
    ensures t in Advance(c, l).tasks && Advance(c, l).tasks[t] == c.tasks[t] && At(Do(c.m, l), Coro(t)).Idle?
  {
    assert Actor(l) != Coro(t) && Partner(c.m, l) != Coro(t);
    OnlyActors(c.m, l, Coro(t));
    OnlyActorAdvances(c, l, t);
  }

  /** A send that begins on a closed channel never uses the mutex and returns false. */
  lemma {:induction false} LateSendNeverLocks(s: CState, ls: seq<CLabel>, t: nat)
    requires CInv(s) && CanRun(s.c, ls) && Closed(s.c) && TurnedAway(s.c, t)
    ensures TurnedAway(Run(s, ls).c, t)
    decreases |ls|
  {
    if ls != [] {
      var l := ls[0];
      CStepInv(s, l);
      if l.SyncStep? && l.l.Resume? { ResumesSleeper(S(s), l.l.a); }
      TurnedAwayStep(s, l, t);
      ClosedStays(s.c, l);
      LateSendNeverLocks(CStep(s, l), ls[1..], t);
    }
  }

  /** The first test lets a call go on exactly if a send finds the channel open, or a recv finds that
      no recv has completed the closing. */
  lemma GoesOnExactly(c: Chan, t: nat)
    requires CEnabled(c, EarlyTest(t))
    ensures CDo(c, EarlyTest(t)).tasks[t].pc.ToLock? <==>
            c.closeState > if c.tasks[t].op.Send? then PART_CLOSE else COMPLETE_CLOSE
  {
  }

  /** What the last of the steps ls that speaks of closing says. */
  function LastClose(ls: seq<CLabel>): Opt<nat> {
    if ls == [] then None
    else if LastClose(ls[1..]).Some? then LastClose(ls[1..])
    else if ls[0].Complete? then Some(COMPLETE_CLOSE)
    else if ls[0].CloseStore? then Some(PART_CLOSE)
    else None
  }

  /** The close state is complete, partly closed or open as the last recv that found the end or the
      last close, whichever came later, left it. */
  lemma {:induction false} CloseStateIsLast(s: CState, ls: seq<CLabel>)
    requires CanRun(s.c, ls)
    ensures Run(s, ls).c.closeState == if LastClose(ls).Some? then LastClose(ls).v else s.c.closeState
    decreases |ls|
  {
    if ls != [] {
      if ls[0].SyncStep? { AdvanceFrame(s.c, ls[0].l); }
      CloseStateIsLast(CStep(s, ls[0]), ls[1..]);
    }
  }

  // ---- what close detaches ----

  lemma {:induction false} WokenGrows(s: CState, ls: seq<CLabel>, n: nat, w: Aw)
    requires CanRun(s.c, ls) && w in Woken(s.g, n)
    ensures w in Woken(Run(s, ls).g, n)
    decreases |ls|
  {
    if ls != [] { WokenGrows(CStep(s, ls[0]), ls[1..], n, w); }
  }

  /** Every task on a condition variable when close call n detaches it is resumed or queued on the
      mutex, or in the hand of whoever resumes it, once that close has returned. */
  lemma DetachedAreWoken(cap: nat, before: seq<CLabel>, after: seq<CLabel>, n: nat, w: Aw)
    requires CanRun(CInit(cap), before)
    requires var s := Run(CStart(cap), before);
             && CEnabled(s.c, SyncStep(DetachAll(Helper(n)))) && w in L(s.g.h, InCv(At(s.c.m, Helper(n)).cv))
             && CanRun(CStep(s, SyncStep(DetachAll(Helper(n)))).c, after)
    ensures var s := Run(CStep(Run(CStart(cap), before), SyncStep(DetachAll(Helper(n)))), after);
            CloseReturned(s.c, n) ==>
              || At(s.c.m, Coro(w.task)) != Blocked(w)
              || (w in s.g.h.loc && var p := s.g.h.loc[w]; p.InStack? || p.InRest? || p.InRes? || p.InHand?)
  {
    EveryRun(cap, before);
    var s := Run(CStart(cap), before);
    var l := SyncStep(DetachAll(Helper(n)));
    CStepInv(s, l);
    StepResults(s, l);
    RunGood(CStep(s, l), after);
    WokenGrows(CStep(s, l), after, n, w);
    var t := Run(CStep(s, l), after);
    assert AwakeAt(t, n, w);
    if CloseReturned(t.c, n) { ChainVisited(S(t), Helper(n), w); }
  }
}
