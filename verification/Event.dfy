/**
 The event: awaiters push themselves on an atomic word by compare-and-exchange, a set exchanges the
 word for "set" and resumes whatever it took. Any number of awaiters, of setters and of calls to
 `set`; every atomic operation is one step. An awaiter object is used for one `co_await`.
 */
module Event {
  import opened Sync
  import opened Counting

  /** The word: the event itself (set), or the newest of the awaiters. */
  datatype EWord = IsSet | Waiting(top: Opt<nat>)

  datatype Pc =
    | Fresh
    | Testing                    // counted by its context; about to call is_set
    | Loading                    // register_awaiter: load the word
    | Swapping(seen: Opt<nat>)   // register_awaiter: compare and exchange
    | Asleep                     // published
    | Queued                     // submitted to its context by a setter
    | Observed                   // saw the event set and goes on by itself
    | Finished(resumed: bool, got: Opt<int>)

  datatype SetPc =
    | Calm
    | Stored                     // the value is written; about to exchange
    | Draining(cur: Opt<nat>)    // resume_all_awaiter: loop test
    | Moving(done: nat)          // done is submitted; about to read its link

  /** The program's memory; ctx(w) is the context of awaiter w. */
  datatype EMem = EMem(
    word: EWord,
    next: map<nat, Opt<nat>>,
    value: Opt<int>,
    pc: map<nat, Pc>,
    setter: map<nat, SetPc>,
    count: map<nat, int>)

  datatype ELabel =
    | Count(w: nat)
    | Test(w: nat)
    | LoadState(w: nat)
    | SwapOk(w: nat)
    | SwapFail(w: nat)
    | Finish(w: nat)
    | Store(n: nat, v: int)
    | TakeAll(n: nat)
    | Submit(n: nat)
    | Advance(n: nat)

  function PcOf(e: EMem, w: nat): Pc {
    if w in e.pc then e.pc[w] else Fresh
  }

  function SetterOf(e: EMem, n: nat): SetPc {
    if n in e.setter then e.setter[n] else Calm
  }

  function Link(e: EMem, w: nat): Opt<nat> {
    if w in e.next then e.next[w] else None
  }

  predicate EEnabled(e: EMem, l: ELabel) {
    match l
    case Count(w) => PcOf(e, w).Fresh?
    case Test(w) => PcOf(e, w).Testing?
    case LoadState(w) => PcOf(e, w).Loading?
    case SwapOk(w) => PcOf(e, w).Swapping? && e.word == Waiting(PcOf(e, w).seen)
    case SwapFail(w) => PcOf(e, w).Swapping?
    case Finish(w) => PcOf(e, w).Queued? || PcOf(e, w).Observed?
    case Store(n, _) => SetterOf(e, n).Calm?
    case TakeAll(n) => SetterOf(e, n).Stored?
    case Submit(n) => SetterOf(e, n).Draining?
    case Advance(n) => SetterOf(e, n).Moving?
  }

  function Go(e: EMem, w: nat, p: Pc): EMem {
    e.(pc := e.pc[w := p])
  }

  function GoSetter(e: EMem, n: nat, p: SetPc): EMem {
    e.(setter := e.setter[n := p])
  }

  function EDo(ctx: nat -> nat, e: EMem, l: ELabel): EMem
    requires EEnabled(e, l)
  {
    match l
    case Count(w) => Go(e, w, Testing).(count := Bump(e.count, ctx(w), 1))
    case Test(w) => Go(e, w, if e.word.IsSet? then Observed else Loading)
    case LoadState(w) =>
      if e.word.IsSet? then Go(e, w, Observed).(next := e.next[w := None])
      else Go(e, w, Swapping(e.word.top)).(next := e.next[w := e.word.top])
    case SwapOk(w) => Go(e, w, Asleep).(word := Waiting(Some(w)))
    case SwapFail(w) => Go(e, w, Loading)
    case Finish(w) => Go(e, w, Finished(PcOf(e, w).Queued?, e.value)).(count := Bump(e.count, ctx(w), -1))
    case Store(n, v) => GoSetter(e, n, Stored).(value := Some(v))
    case TakeAll(n) =>
      if e.word.IsSet? then GoSetter(e, n, Calm)
      else GoSetter(e, n, Draining(e.word.top)).(word := IsSet)
    case Submit(n) =>
      (match SetterOf(e, n).cur
       case None => GoSetter(e, n, Calm)
       case Some(w) => Go(GoSetter(e, n, Moving(w)), w, Queued))
    case Advance(n) => GoSetter(e, n, Draining(Link(e, SetterOf(e, n).done)))
  }

  function EInit(initial: bool): EMem {
    EMem(if initial then IsSet else Waiting(None), map[], None, map[], map[], map[])
  }

  /** History: who was pushed, who was submitted, which call found the event unset, and the values
      passed to `set`. No step reads it. */
  datatype EHist = EHist(pushed: seq<nat>, resumed: seq<nat>, first: Opt<nat>, values: set<int>)

  datatype EState = EState(e: EMem, h: EHist)

  function ENote(s: EState, l: ELabel): EHist
    requires EEnabled(s.e, l)
  {
    match l
    case SwapOk(w) => s.h.(pushed := s.h.pushed + [w])
    case Store(n, v) => s.h.(values := s.h.values + {v})
    case TakeAll(n) => if s.e.word.IsSet? then s.h else s.h.(first := Some(n))
    case Submit(n) =>
      (match SetterOf(s.e, n).cur
       case None => s.h
       case Some(w) => s.h.(resumed := s.h.resumed + [w]))
    case _ => s.h
  }

  function EStep(ctx: nat -> nat, s: EState, l: ELabel): EState
    requires EEnabled(s.e, l)
  {
    EState(EDo(ctx, s.e, l), ENote(s, l))
  }

  function EStart(initial: bool): EState {
    EState(EInit(initial), EHist([], [], None, {}))
  }

  // ---- the invariant ----

  function NewestFirst(s: seq<nat>, i: nat): Opt<nat> {
    if i < |s| then Some(s[|s| - 1 - i]) else None
  }

  ghost predicate Distinct(s: seq<nat>) {
    forall i, j :: 0 <= i < j < |s| ==> s[i] != s[j]
  }

  /** An awaiter is published exactly from its push on, and asleep exactly until it is resumed. */
  ghost predicate Stages(s: EState) {
    forall w: nat ::
      && (w in s.h.pushed <==> var p := PcOf(s.e, w); p.Asleep? || p.Queued? || (p.Finished? && p.resumed))
      && (w in s.h.resumed <==> var p := PcOf(s.e, w); p.Queued? || (p.Finished? && p.resumed))
  }

  /** Resumption is in the reverse of the order of arrival. */
  ghost predicate Order(s: EState) {
    && Distinct(s.h.pushed)
    && |s.h.resumed| <= |s.h.pushed|
    && forall i :: 0 <= i < |s.h.resumed| ==> s.h.resumed[i] == s.h.pushed[|s.h.pushed| - 1 - i]
  }

  /** The link of a published awaiter is the awaiter pushed before it. */
  ghost predicate Chain(s: EState) {
    && Chained(s.e, s.h.pushed)
    && (forall w: nat :: PcOf(s.e, w).Swapping? ==> Link(s.e, w) == PcOf(s.e, w).seen)
    && (s.e.word.Waiting? ==> s.e.word.top == NewestFirst(s.h.pushed, 0))
  }

  function Before(q: seq<nat>, i: nat): Opt<nat>
    requires i < |q|
  {
    if i == 0 then None else Some(q[i - 1])
  }

  ghost predicate Chained(e: EMem, q: seq<nat>) {
    forall i: nat :: i < |q| ==> Link(e, q[i]) == Before(q, i)
  }

  ghost predicate Setters(s: EState) {
    && (s.e.word.Waiting? ==> s.h.first.None? && s.h.resumed == [])
    && forall n: nat :: SetterOk(s, n)
  }

  /** A setter that resumes awaiters is the first one, and is at the right place of the chain. */
  ghost predicate SetterOk(s: EState, n: nat) {
    match SetterOf(s.e, n)
    case Draining(cur) => s.h.first == Some(n) && cur == NewestFirst(s.h.pushed, |s.h.resumed|)
    case Moving(done) => s.h.first == Some(n) && |s.h.resumed| > 0 && done == s.h.resumed[|s.h.resumed| - 1]
    case _ => true
  }

  /** Somebody who stopped waiting did so after the event was set. */
  ghost predicate Published(s: EState) {
    forall w: nat :: PcOf(s.e, w).Observed? || PcOf(s.e, w).Queued? || PcOf(s.e, w).Finished? ==> s.e.word.IsSet?
  }

  /** The call that took the awaiters is over only when all of them are resumed. */
  ghost predicate Drained(s: EState) {
    && (s.e.word.IsSet? && s.h.first.None? ==> s.h.pushed == [])
    && (s.h.first.Some? ==>
          var x := SetterOf(s.e, s.h.first.v);
          x.Calm? || x.Stored? ==> |s.h.resumed| == |s.h.pushed|)
  }

  /** Everything read by a waiter was passed to `set`; only an initially set event shows nothing. */
  ghost predicate Values(initial: bool, s: EState) {
    && (s.e.value.Some? ==> s.e.value.v in s.h.values)
    && (forall n: nat :: SetterOf(s.e, n).Stored? ==> s.e.value.Some?)
    && (!initial && s.e.word.IsSet? ==> s.e.value.Some?)
    && (forall w: nat :: PcOf(s.e, w).Finished? ==>
          if PcOf(s.e, w).got.Some? then PcOf(s.e, w).got.v in s.h.values else initial)
  }

  /** The awaiter is between `register_wait` and `unregister_wait`. */
  predicate Between(p: Pc) {
    !p.Fresh? && !p.Finished?
  }

  ghost function Waiters(ctx: nat -> nat, e: EMem, c: nat): set<nat> {
    set w | w in e.pc && Between(e.pc[w]) && ctx(w) == c
  }

  ghost predicate Counted(ctx: nat -> nat, e: EMem) {
    forall c :: Get(e.count, c) == |Waiters(ctx, e, c)|
  }

  ghost predicate EInv(ctx: nat -> nat, initial: bool, s: EState) {
    && Stages(s)
    && Order(s)
    && Chain(s)
    && Setters(s)
    && Published(s)
    && Drained(s)
    && Values(initial, s)
    && Counted(ctx, s.e)
  }

  lemma EStartInv(ctx: nat -> nat, initial: bool)
    ensures EInv(ctx, initial, EStart(initial))
  {
    forall c ensures Get(EInit(initial).count, c) == |Waiters(ctx, EInit(initial), c)| {
      assert Waiters(ctx, EInit(initial), c) == {};
    }
  }

  lemma CountedStep(ctx: nat -> nat, e: EMem, e': EMem, w: nat)
    requires Counted(ctx, e)
    requires forall v :: v != w ==> PcOf(e', v) == PcOf(e, v)
    requires forall c :: Get(e'.count, c) ==
               Get(e.count, c) + if c == ctx(w) then Bit(Between(PcOf(e', w))) - Bit(Between(PcOf(e, w))) else 0
    ensures Counted(ctx, e')
  {
    forall c ensures Get(e'.count, c) == |Waiters(ctx, e', c)| {
      var x, y := Waiters(ctx, e, c), Waiters(ctx, e', c);
      assert Get(e.count, c) == |x|;
      forall v ensures v in x <==> Between(PcOf(e, v)) && ctx(v) == c {}
      forall v ensures v in y <==> Between(PcOf(e', v)) && ctx(v) == c {}
      assert x - {w} == y - {w};
      OneMoves(x, y, w);
    }
  }

  /** The next awaiter to resume is asleep. */
  lemma NextIsAsleep(s: EState, n: nat)
    requires Stages(s) && Order(s) && Setters(s)
    requires SetterOf(s.e, n).Draining? && SetterOf(s.e, n).cur.Some?
    ensures |s.h.resumed| < |s.h.pushed| && SetterOf(s.e, n).cur.v == s.h.pushed[|s.h.pushed| - 1 - |s.h.resumed|]
    ensures PcOf(s.e, SetterOf(s.e, n).cur.v).Asleep?
  {
    assert SetterOk(s, n);
    var w := SetterOf(s.e, n).cur.v;
    assert w in s.h.pushed && w !in s.h.resumed;
  }

  lemma StagesStep(ctx: nat -> nat, s: EState, l: ELabel)
    requires Stages(s) && Order(s) && Setters(s) && EEnabled(s.e, l)
    ensures Stages(EStep(ctx, s, l))
  {
    if l.Submit? && SetterOf(s.e, l.n).cur.Some? { NextIsAsleep(s, l.n); }
  }

  lemma OrderStep(ctx: nat -> nat, s: EState, l: ELabel)
    requires Stages(s) && Order(s) && Setters(s) && EEnabled(s.e, l)
    ensures Order(EStep(ctx, s, l))
  {
    if l.Submit? && SetterOf(s.e, l.n).cur.Some? { NextIsAsleep(s, l.n); }
    if l.SwapOk? { assert l.w !in s.h.pushed; }
  }

  lemma ChainStep(ctx: nat -> nat, s: EState, l: ELabel)
    requires Stages(s) && Order(s) && Setters(s) && Chain(s) && EEnabled(s.e, l)
    ensures Chain(EStep(ctx, s, l))
  {
    var s' := EStep(ctx, s, l);
    forall w: nat | PcOf(s'.e, w).Swapping? ensures Link(s'.e, w) == PcOf(s'.e, w).seen {
      assert PcOf(s.e, w).Swapping? || l == LoadState(w);
    }
    ChainedStep(ctx, s, l);
    TopStep(ctx, s, l);
  }

  /** The word is the newest awaiter, or the event is set. */
  lemma TopStep(ctx: nat -> nat, s: EState, l: ELabel)
    requires Chain(s) && EEnabled(s.e, l)
    ensures EDo(ctx, s.e, l).word.Waiting? ==> EDo(ctx, s.e, l).word.top == NewestFirst(ENote(s, l).pushed, 0)
  {
  }

  lemma ChainedStep(ctx: nat -> nat, s: EState, l: ELabel)
    requires Stages(s) && Chain(s) && EEnabled(s.e, l)
    ensures Chained(EDo(ctx, s.e, l), ENote(s, l).pushed)
  {
    var e', q := EDo(ctx, s.e, l), s.h.pushed;
    forall i: nat | i < |q| ensures Link(e', q[i]) == Before(q, i) {
      assert q[i] in q && Link(s.e, q[i]) == Before(q, i);
      LinkKept(ctx, s.e, l, q[i]);
    }
    if l.SwapOk? {
      LinkKept(ctx, s.e, l, l.w);
      assert PcOf(s.e, l.w).Swapping?;
      ChainedPush(e', q, l.w);
    }
  }

  lemma LinkKept(ctx: nat -> nat, e: EMem, l: ELabel, v: nat)
    requires EEnabled(e, l) && (l.LoadState? ==> l.w != v)
    ensures Link(EDo(ctx, e, l), v) == Link(e, v)
  {
  }

  lemma ChainedPush(e: EMem, q: seq<nat>, w: nat)
    requires Chained(e, q) && Link(e, w) == NewestFirst(q, 0)
    ensures Chained(e, q + [w])
  {
    var r := q + [w];
    forall i: nat | i < |r| ensures Link(e, r[i]) == Before(r, i) {
      if i < |q| { assert r[i] == q[i] && Before(r, i) == Before(q, i); }
    }
  }

  lemma SettersStep(ctx: nat -> nat, s: EState, l: ELabel)
    requires Stages(s) && Order(s) && Setters(s) && Chain(s) && Published(s) && EEnabled(s.e, l)
    ensures Setters(EStep(ctx, s, l))
  {
    var s' := EStep(ctx, s, l);
    forall n: nat ensures SetterOk(s', n) { SetterStep(ctx, s, l, n); }
    if l.Submit? || l.Advance? { assert SetterOk(s, l.n); }
  }

  lemma SetterStep(ctx: nat -> nat, s: EState, l: ELabel, n: nat)
    requires Order(s) && Setters(s) && Chain(s) && EEnabled(s.e, l)
    ensures SetterOk(EStep(ctx, s, l), n)
  {
    assert SetterOk(s, n);
    if l.Submit? {
      assert SetterOk(s, l.n);
      SubmitSetter(ctx, s, l, n);
    } else if l.Advance? {
      assert SetterOk(s, l.n);
      LastResumed(s);
      DoneLink(s.e, s.h.pushed, |s.h.resumed|);
      AdvanceSetter(ctx, s, l, n);
    } else {
      OtherSetter(ctx, s, l, n);
    }
  }

  lemma LastResumed(s: EState)
    requires Order(s) && s.h.resumed != []
    ensures var r, q := |s.h.resumed|, s.h.pushed; r <= |q| && s.h.resumed[r - 1] == q[|q| - r]
  {
  }

  lemma SubmitSetter(ctx: nat -> nat, s: EState, l: ELabel, n: nat)
    requires EEnabled(s.e, l) && l.Submit? && SetterOk(s, n) && SetterOk(s, l.n)
    ensures SetterOk(EStep(ctx, s, l), n)
  {
  }

  lemma AdvanceSetter(ctx: nat -> nat, s: EState, l: ELabel, n: nat)
    requires EEnabled(s.e, l) && l.Advance? && SetterOk(s, n) && SetterOk(s, l.n)
    requires Link(s.e, SetterOf(s.e, l.n).done) == NewestFirst(s.h.pushed, |s.h.resumed|)
    ensures SetterOk(EStep(ctx, s, l), n)
  {
  }

  lemma OtherSetter(ctx: nat -> nat, s: EState, l: ELabel, n: nat)
    requires EEnabled(s.e, l) && !l.Submit? && !l.Advance? && SetterOk(s, n)
    requires s.e.word.Waiting? ==> s.h.first.None? && s.h.resumed == [] && s.e.word.top == NewestFirst(s.h.pushed, 0)
    ensures SetterOk(EStep(ctx, s, l), n)
  {
  }

  /** The link of the awaiter just submitted leads to the next one to resume. */
  lemma DoneLink(e: EMem, q: seq<nat>, r: nat)
    requires Chained(e, q) && 0 < r <= |q|
    ensures Link(e, q[|q| - r]) == NewestFirst(q, r)
  {
    assert Link(e, q[|q| - r]) == Before(q, |q| - r);
  }

  lemma PublishedStep(ctx: nat -> nat, s: EState, l: ELabel)
    requires Published(s) && Setters(s) && EEnabled(s.e, l)
    ensures Published(EStep(ctx, s, l))
  {
    if l.Submit? { assert SetterOk(s, l.n); }
    var e' := EDo(ctx, s.e, l);
    forall w: nat | PcOf(e', w).Observed? || PcOf(e', w).Queued? || PcOf(e', w).Finished? ensures e'.word.IsSet? {
      assert PcOf(s.e, w) == PcOf(s.e, w);
    }
  }

  lemma DrainedStep(ctx: nat -> nat, s: EState, l: ELabel)
    requires Stages(s) && Order(s) && Setters(s) && Chain(s) && Drained(s) && EEnabled(s.e, l)
    ensures Drained(EStep(ctx, s, l))
  {
    if l.Submit? || l.Advance? || l.TakeAll? { assert SetterOk(s, l.n); }
    if l.Submit? && SetterOf(s.e, l.n).cur.Some? { NextIsAsleep(s, l.n); }
  }

  lemma ValuesStep(ctx: nat -> nat, initial: bool, s: EState, l: ELabel)
    requires Stages(s) && Order(s) && Setters(s) && Published(s) && Values(initial, s) && EEnabled(s.e, l)
    ensures Values(initial, EStep(ctx, s, l))
  {
    var e' := EDo(ctx, s.e, l);
    if l.Submit? && SetterOf(s.e, l.n).cur.Some? { NextIsAsleep(s, l.n); }
    if l.TakeAll? { assert SetterOf(s.e, l.n).Stored?; }
    if l.Finish? { assert PcOf(s.e, l.w).Queued? || PcOf(s.e, l.w).Observed?; }
    forall w: nat | PcOf(e', w).Finished?
      ensures if PcOf(e', w).got.Some? then PcOf(e', w).got.v in ENote(s, l).values else initial
    {
      assert PcOf(s.e, w).Finished? ==> PcOf(e', w) == PcOf(s.e, w);
    }
    forall n: nat | SetterOf(e', n).Stored? ensures e'.value.Some? {
      assert SetterOf(s.e, n).Stored? || l.Store?;
    }
  }

  lemma CountStep(ctx: nat -> nat, s: EState, l: ELabel)
    requires Stages(s) && Order(s) && Setters(s) && Counted(ctx, s.e) && EEnabled(s.e, l)
    ensures Counted(ctx, EDo(ctx, s.e, l))
  {
    match l
    case Submit(n) =>
      if SetterOf(s.e, n).cur.Some? {
        NextIsAsleep(s, n);
        CountedStep(ctx, s.e, EDo(ctx, s.e, l), SetterOf(s.e, n).cur.v);
      } else {
        CountedStep(ctx, s.e, EDo(ctx, s.e, l), 0);
      }
    case Store(_, _) => CountedStep(ctx, s.e, EDo(ctx, s.e, l), 0);
    case TakeAll(_) => CountedStep(ctx, s.e, EDo(ctx, s.e, l), 0);
    case Advance(_) => CountedStep(ctx, s.e, EDo(ctx, s.e, l), 0);
    case _ => CountedStep(ctx, s.e, EDo(ctx, s.e, l), l.w);
  }

  lemma EStepInv(ctx: nat -> nat, initial: bool, s: EState, l: ELabel)
    requires EInv(ctx, initial, s) && EEnabled(s.e, l)
    ensures EInv(ctx, initial, EStep(ctx, s, l))
  {
    StagesStep(ctx, s, l);
    OrderStep(ctx, s, l);
    ChainStep(ctx, s, l);
    SettersStep(ctx, s, l);
    PublishedStep(ctx, s, l);
    DrainedStep(ctx, s, l);
    ValuesStep(ctx, initial, s, l);
    CountStep(ctx, s, l);
  }
}
