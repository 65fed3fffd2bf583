/**
 The one wait counter of every context, shared by any number of mutexes, each with its condition
 variables, and any number of events, whose steps interleave freely.
 */
module SharedCount {
  import opened Sync
  import opened Counting
  import WaitCount
  import Event
  import EventTheorems

  /** count is `m_num_wait_task`; the counters inside a stack or an event are its share of it. */
  datatype Shared = Shared(stacks: seq<WaitCount.WState>, events: seq<Event.EState>, count: map<nat, int>)

  datatype Label = OfStack(i: nat, w: WaitCount.WLabel) | OfEvent(j: nat, e: Event.ELabel)

  /** The contexts of tasks and of event awaiters. */
  datatype Homes = Homes(task: nat -> nat, awaiter: nat -> nat)

  predicate Enabled(x: Shared, l: Label) {
    match l
    case OfStack(i, w) => i < |x.stacks| && WaitCount.WEnabled(x.stacks[i], w)
    case OfEvent(j, e) => j < |x.events| && Event.EEnabled(x.events[j].e, e)
  }

  /** Which counter a step of a stack changes, and by how much. */
  function StackCharge(h: Homes, w: WaitCount.WState, l: WaitCount.WLabel): (nat, int)
    requires WaitCount.WEnabled(w, l)
  {
    match l
    case Announce(a) =>
      var x := At(w.s.m, a).w;
      (h.task(x.task), if x in w.susp then 0 else 1)
    case Plain(Lock(t)) => (h.task(t), 1)
    case Plain(Enter(t)) => (h.task(t), -WaitCount.Weight(w, At(w.s.m, Coro(t)).w))
    case _ => (0, 0)
  }

  function EventCharge(h: Homes, l: Event.ELabel): (nat, int) {
    match l
    case Count(w) => (h.awaiter(w), 1)
    case Finish(w) => (h.awaiter(w), -1)
    case _ => (0, 0)
  }

  function Charge(h: Homes, x: Shared, l: Label): (nat, int)
    requires Enabled(x, l)
  {
    match l
    case OfStack(i, w) => StackCharge(h, x.stacks[i], w)
    case OfEvent(_, e) => EventCharge(h, e)
  }

  function Step(h: Homes, x: Shared, l: Label): Shared
    requires Enabled(x, l)
  {
    var y := x.(count := Bump(x.count, Charge(h, x, l).0, Charge(h, x, l).1));
    match l
    case OfStack(i, w) => y.(stacks := x.stacks[i := WaitCount.WStep(h.task, x.stacks[i], w)])
    case OfEvent(j, e) => y.(events := x.events[j := Event.EStep(h.awaiter, x.events[j], e)])
  }

  /** n mutexes, and one event for every element of initial, constructed set or not. */
  function Start(n: nat, initial: seq<bool>): Shared {
    var events := seq(|initial|, j requires 0 <= j < |initial| => Event.EStart(initial[j]));
    Shared(seq(n, _ => WaitCount.WStart()), events, map[])
  }

  // ---- the shares ----

  function StackShares(ws: seq<WaitCount.WState>, c: nat): int {
    if ws == [] then 0 else WaitCount.Cnt(ws[0], c) + StackShares(ws[1..], c)
  }

  function EventShares(es: seq<Event.EState>, c: nat): int {
    if es == [] then 0 else Get(es[0].e.count, c) + EventShares(es[1..], c)
  }

  lemma {:induction false} StackUpdate(ws: seq<WaitCount.WState>, i: nat, w: WaitCount.WState, c: nat)
    requires i < |ws|
    ensures StackShares(ws[i := w], c) == StackShares(ws, c) - WaitCount.Cnt(ws[i], c) + WaitCount.Cnt(w, c)
  {
    if i > 0 {
      StackUpdate(ws[1..], i - 1, w, c);
      assert ws[i := w][1..] == ws[1..][i - 1 := w];
    } else {
      assert ws[i := w][1..] == ws[1..];
    }
  }

  lemma {:induction false} EventUpdate(es: seq<Event.EState>, j: nat, e: Event.EState, c: nat)
    requires j < |es|
    ensures EventShares(es[j := e], c) == EventShares(es, c) - Get(es[j].e.count, c) + Get(e.e.count, c)
  {
    if j > 0 {
      EventUpdate(es[1..], j - 1, e, c);
      assert es[j := e][1..] == es[1..][j - 1 := e];
    } else {
      assert es[j := e][1..] == es[1..];
    }
  }

  lemma StackCharged(h: Homes, w: WaitCount.WState, l: WaitCount.WLabel, c: nat)
    requires WaitCount.WEnabled(w, l)
    ensures WaitCount.Cnt(WaitCount.WStep(h.task, w, l), c) ==
            WaitCount.Cnt(w, c) + if c == StackCharge(h, w, l).0 then StackCharge(h, w, l).1 else 0
  {
  }

  lemma EventCharged(h: Homes, s: Event.EState, l: Event.ELabel, c: nat)
    requires Event.EEnabled(s.e, l)
    ensures Get(Event.EDo(h.awaiter, s.e, l).count, c) ==
            Get(s.e.count, c) + if c == EventCharge(h, l).0 then EventCharge(h, l).1 else 0
  {
  }

  // ---- the invariant ----

  ghost predicate Objects(h: Homes, initial: seq<bool>, x: Shared) {
    && |x.events| == |initial|
    && (forall i :: 0 <= i < |x.stacks| ==> WaitCount.WInv(h.task, x.stacks[i]))
    && (forall j :: 0 <= j < |x.events| ==> Event.EInv(h.awaiter, initial[j], x.events[j]))
  }

  ghost predicate Sums(x: Shared) {
    forall c: nat :: Get(x.count, c) == StackShares(x.stacks, c) + EventShares(x.events, c)
  }

  lemma ObjectsStep(h: Homes, initial: seq<bool>, x: Shared, l: Label)
    requires Objects(h, initial, x) && Enabled(x, l)
    ensures Objects(h, initial, Step(h, x, l))
  {
    match l
    case OfStack(i, w) => WaitCount.WStepInv(h.task, x.stacks[i], w);
    case OfEvent(j, e) => Event.EStepInv(h.awaiter, initial[j], x.events[j], e);
  }

  lemma SumsStep(h: Homes, x: Shared, l: Label)
    requires Sums(x) && Enabled(x, l)
    ensures Sums(Step(h, x, l))
  {
    var y := Step(h, x, l);
    forall c: nat ensures Get(y.count, c) == StackShares(y.stacks, c) + EventShares(y.events, c) {
      match l
      case OfStack(i, w) =>
        StackCharged(h, x.stacks[i], w, c);
        StackUpdate(x.stacks, i, y.stacks[i], c);
      case OfEvent(j, e) =>
        EventCharged(h, x.events[j], e, c);
        EventUpdate(x.events, j, y.events[j], c);
    }
  }

  lemma StartObjects(h: Homes, n: nat, initial: seq<bool>)
    ensures Objects(h, initial, Start(n, initial)) && Sums(Start(n, initial))
  {
    var x := Start(n, initial);
    WaitCount.StartCounts(h.task);
    forall j | 0 <= j < |initial| ensures Event.EInv(h.awaiter, initial[j], x.events[j]) {
      Event.EStartInv(h.awaiter, initial[j]);
    }
    forall c: nat ensures StackShares(x.stacks, c) == 0 && EventShares(x.events, c) == 0 { NoShares(x, c); }
  }

  lemma NoShares(x: Shared, c: nat)
    requires forall i :: 0 <= i < |x.stacks| ==> x.stacks[i].count == map[]
    requires forall j :: 0 <= j < |x.events| ==> x.events[j].e.count == map[]
    ensures StackShares(x.stacks, c) == 0 && EventShares(x.events, c) == 0
    decreases |x.stacks|, |x.events|
  {
    if x.stacks != [] { NoShares(x.(stacks := x.stacks[1..]), c); }
    else if x.events != [] { NoShares(x.(events := x.events[1..]), c); }
  }

  // ---- whole runs ----

  ghost predicate CanRun(h: Homes, x: Shared, ls: seq<Label>)
    decreases |ls|
  {
    ls == [] || (Enabled(x, ls[0]) && CanRun(h, Step(h, x, ls[0]), ls[1..]))
  }

  ghost function Run(h: Homes, x: Shared, ls: seq<Label>): Shared
    requires CanRun(h, x, ls)
    decreases |ls|
  {
    if ls == [] then x else Run(h, Step(h, x, ls[0]), ls[1..])
  }

  lemma {:induction false} RunInv(h: Homes, initial: seq<bool>, x: Shared, ls: seq<Label>)
    requires Objects(h, initial, x) && Sums(x) && CanRun(h, x, ls)
    ensures Objects(h, initial, Run(h, x, ls)) && Sums(Run(h, x, ls))
    decreases |ls|
  {
    if ls != [] {
      ObjectsStep(h, initial, x, ls[0]);
      SumsStep(h, x, ls[0]);
      RunInv(h, initial, Step(h, x, ls[0]), ls[1..]);
    }
  }

  ghost predicate Reached(h: Homes, n: nat, initial: seq<bool>, x: Shared) {
    exists ls :: CanRun(h, Start(n, initial), ls) && x == Run(h, Start(n, initial), ls)
  }

  lemma EveryRun(h: Homes, n: nat, initial: seq<bool>, x: Shared)
    requires Reached(h, n, initial, x)
    ensures Objects(h, initial, x) && Sums(x)
  {
    var ls :| CanRun(h, Start(n, initial), ls) && x == Run(h, Start(n, initial), ls);
    StartObjects(h, n, initial);
    RunInv(h, initial, Start(n, initial), ls);
  }

  // ---- what the counter means ----

  /** The tasks of context c between register and unregister at any mutex or condition variable. */
  ghost function StackWaiters(h: Homes, ws: seq<WaitCount.WState>, c: nat): nat {
    if ws == [] then 0 else |WaitCount.Waiters(h.task, ws[0], c)| + StackWaiters(h, ws[1..], c)
  }

  /** The awaiters of context c between register and unregister at any event. */
  ghost function EventWaiters(h: Homes, es: seq<Event.EState>, c: nat): nat {
    if es == [] then 0 else |Event.Waiters(h.awaiter, es[0].e, c)| + EventWaiters(h, es[1..], c)
  }

  lemma {:induction false} StackShareIs(h: Homes, ws: seq<WaitCount.WState>, c: nat)
    requires forall i :: 0 <= i < |ws| ==> WaitCount.Counted(h.task, ws[i])
    ensures StackShares(ws, c) == StackWaiters(h, ws, c)
    ensures forall i :: 0 <= i < |ws| ==> 0 <= WaitCount.Cnt(ws[i], c) <= StackShares(ws, c)
  {
    if ws != [] {
      assert WaitCount.Counted(h.task, ws[0]);
      assert WaitCount.Cnt(ws[0], c) == |WaitCount.Waiters(h.task, ws[0], c)|;
      StackShareIs(h, ws[1..], c);
      forall i | 0 <= i < |ws| ensures 0 <= WaitCount.Cnt(ws[i], c) <= StackShares(ws, c) {
        if i > 0 { assert ws[i] == ws[1..][i - 1]; }
      }
    }
  }

  lemma {:induction false} EventShareIs(h: Homes, es: seq<Event.EState>, c: nat)
    requires forall j :: 0 <= j < |es| ==> Event.Counted(h.awaiter, es[j].e)
    ensures EventShares(es, c) == EventWaiters(h, es, c)
    ensures forall j :: 0 <= j < |es| ==> 0 <= Get(es[j].e.count, c) <= EventShares(es, c)
  {
    if es != [] {
      assert Event.Counted(h.awaiter, es[0].e);
      assert Get(es[0].e.count, c) == |Event.Waiters(h.awaiter, es[0].e, c)|;
      EventShareIs(h, es[1..], c);
      forall j | 0 <= j < |es| ensures 0 <= Get(es[j].e.count, c) <= EventShares(es, c) {
        if j > 0 { assert es[j] == es[1..][j - 1]; }
      }
    }
  }

  lemma Shares(h: Homes, n: nat, initial: seq<bool>, x: Shared, c: nat)
    requires Reached(h, n, initial, x)
    ensures Get(x.count, c) == StackWaiters(h, x.stacks, c) + EventWaiters(h, x.events, c)
    ensures forall i :: 0 <= i < |x.stacks| ==> 0 <= WaitCount.Cnt(x.stacks[i], c) <= Get(x.count, c)
    ensures forall j :: 0 <= j < |x.events| ==> 0 <= Get(x.events[j].e.count, c) <= Get(x.count, c)
  {
    EveryRun(h, n, initial, x);
    forall i | 0 <= i < |x.stacks| ensures WaitCount.Counted(h.task, x.stacks[i]) {
      assert WaitCount.WInv(h.task, x.stacks[i]);
    }
    forall j | 0 <= j < |x.events| ensures Event.Counted(h.awaiter, x.events[j].e) {
      assert Event.EInv(h.awaiter, initial[j], x.events[j]);
    }
    StackShareIs(h, x.stacks, c);
    EventShareIs(h, x.events, c);
  }

  /** In every run each context's counter is the number of its mutex, condition-variable and event
      awaiters between register and unregister. */
  lemma CountIsExact(h: Homes, n: nat, initial: seq<bool>, x: Shared, c: nat)
    requires Reached(h, n, initial, x)
    ensures Get(x.count, c) == StackWaiters(h, x.stacks, c) + EventWaiters(h, x.events, c) >= 0
  {
    Shares(h, n, initial, x, c);
  }

  /** What a step subtracts from the counter is there. */
  lemma NeverUnderflows(h: Homes, n: nat, initial: seq<bool>, x: Shared, l: Label)
    requires Reached(h, n, initial, x) && Enabled(x, l)
    ensures Get(x.count, Charge(h, x, l).0) + Charge(h, x, l).1 >= 0
  {
    EveryRun(h, n, initial, x);
    Shares(h, n, initial, x, Charge(h, x, l).0);
    match l
    case OfStack(i, w) =>
      assert WaitCount.WInv(h.task, x.stacks[i]);
      if w.Plain? && w.l.Enter? { WaitCount.EnterCounts(h.task, x.stacks[i], w.l.t); }
    case OfEvent(j, e) =>
      assert Event.EInv(h.awaiter, initial[j], x.events[j]);
      if e.Finish? { EventTheorems.FinishCounts(h.awaiter, initial[j], x.events[j], e.w); }
  }

  /** When the counter that `empty_wait_task` reads is zero, no task of the context is suspended on a
      mutex or condition variable or about to be handed a mutex, and no event can resume one. */
  lemma ZeroMeansNobody(h: Homes, n: nat, initial: seq<bool>, x: Shared, c: nat)
    requires Reached(h, n, initial, x) && Get(x.count, c) == 0
    ensures forall i, t: nat :: 0 <= i < |x.stacks| && h.task(t) == c ==> WaitCount.NotWaiting(x.stacks[i].s.m, t)
    ensures forall j, w: nat :: 0 <= j < |x.events| && h.awaiter(w) == c ==>
              !Event.Between(Event.PcOf(x.events[j].e, w))
  {
    EveryRun(h, n, initial, x);
    Shares(h, n, initial, x, c);
    forall i, t: nat | 0 <= i < |x.stacks| && h.task(t) == c ensures WaitCount.NotWaiting(x.stacks[i].s.m, t) {
      WaitCount.NobodyCounted(h.task, x.stacks[i], t);
    }
    forall j, w: nat | 0 <= j < |x.events| && h.awaiter(w) == c
      ensures !Event.Between(Event.PcOf(x.events[j].e, w))
    {
      EventTheorems.NobodyCounted(h.awaiter, initial[j], x.events[j], w);
    }
  }
}
