/** The latch: a 64-bit signed counter in front of an event. */
module Latch {
  import opened Event

  const HALF: int := 0x8000_0000_0000_0000

  /** Conversion of any integer to `int64_t`. */
  function Signed(x: int): (r: int)
    ensures -HALF <= r < HALF
    ensures -HALF <= x < HALF ==> r == x
    ensures HALF <= x < 2 * HALF ==> r == x - 2 * HALF
  {
    (x + HALF) % (2 * HALF) - HALF
  }

  /** downs counts the calls of `count_down` whose decrement has happened; no step reads it. */
  datatype LState = LState(s: EState, count: int, downs: nat)

  datatype LLabel = Ev(l: ELabel) | Down(n: nat)

  predicate LEnabled(x: LState, l: LLabel) {
    match l
    case Ev(e) => !e.Store? && EEnabled(x.s.e, e)
    case Down(n) => SetterOf(x.s.e, n).Calm?
  }

  /** The event carries no value: 0 stands for it and nobody reads it. */
  function LStep(ctx: nat -> nat, x: LState, l: LLabel): LState
    requires LEnabled(x, l)
  {
    match l
    case Ev(e) => x.(s := EStep(ctx, x.s, e))
    case Down(n) =>
      LState(if x.count <= 1 then EStep(ctx, x.s, Store(n, 0)) else x.s, Signed(x.count - 1), x.downs + 1)
  }

  /** The constructor compares the unsigned argument and stores it in a signed counter. */
  function LStart(c: nat): LState
    requires c < 2 * HALF
  {
    LState(EStart(c <= 0), Signed(c), 0)
  }

  ghost predicate LInv(ctx: nat -> nat, c: nat, x: LState) {
    && EInv(ctx, c == 0, x.s)
    && (x.downs < c ==> x.count == c - x.downs && !x.s.e.word.IsSet? && forall n: nat :: !SetterOf(x.s.e, n).Stored?)
    && (x.downs >= c ==> x.s.e.word.IsSet? || exists n: nat :: SetterOf(x.s.e, n).Stored?)
  }

  lemma EvKeeps(ctx: nat -> nat, c: nat, x: LState, e: ELabel)
    requires LInv(ctx, c, x) && LEnabled(x, Ev(e))
    ensures LInv(ctx, c, LStep(ctx, x, Ev(e)))
  {
    EStepInv(ctx, c == 0, x.s, e);
    var x' := LStep(ctx, x, Ev(e));
    if x.downs < c {
      forall n: nat ensures !SetterOf(x'.s.e, n).Stored? { assert !SetterOf(x.s.e, n).Stored?; }
    } else if !x.s.e.word.IsSet? {
      var n: nat :| SetterOf(x.s.e, n).Stored?;
      assert SetterOf(x'.s.e, n).Stored? || e == TakeAll(n);
    }
  }

  lemma DownKeeps(ctx: nat -> nat, c: nat, x: LState, n: nat)
    requires c < HALF && LInv(ctx, c, x) && LEnabled(x, Down(n))
    ensures LInv(ctx, c, LStep(ctx, x, Down(n)))
  {
    var x' := LStep(ctx, x, Down(n));
    if x.count <= 1 {
      EStepInv(ctx, c == 0, x.s, Store(n, 0));
      assert SetterOf(x'.s.e, n).Stored?;
    }
  }

  ghost predicate LCan(ctx: nat -> nat, x: LState, ls: seq<LLabel>)
    decreases |ls|
  {
    ls == [] || (LEnabled(x, ls[0]) && LCan(ctx, LStep(ctx, x, ls[0]), ls[1..]))
  }

  ghost function LRun(ctx: nat -> nat, x: LState, ls: seq<LLabel>): LState
    requires LCan(ctx, x, ls)
    decreases |ls|
  {
    if ls == [] then x else LRun(ctx, LStep(ctx, x, ls[0]), ls[1..])
  }

  lemma {:induction false} LRunInv(ctx: nat -> nat, c: nat, x: LState, ls: seq<LLabel>)
    requires c < HALF && LInv(ctx, c, x) && LCan(ctx, x, ls)
    ensures LInv(ctx, c, LRun(ctx, x, ls))
    decreases |ls|
  {
    if ls != [] {
      match ls[0] {
        case Ev(e) => EvKeeps(ctx, c, x, e);
        case Down(n) => DownKeeps(ctx, c, x, n);
      }
      LRunInv(ctx, c, LStep(ctx, x, ls[0]), ls[1..]);
    }
  }

  /** The decrements among the steps ls. */
  function Downs(ls: seq<LLabel>): nat {
    if ls == [] then 0 else (if ls[0].Down? then 1 else 0) + Downs(ls[1..])
  }

  lemma {:induction false} DownsCounted(ctx: nat -> nat, x: LState, ls: seq<LLabel>)
    requires LCan(ctx, x, ls)
    ensures LRun(ctx, x, ls).downs == x.downs + Downs(ls)
    decreases |ls|
  {
    if ls != [] { DownsCounted(ctx, LStep(ctx, x, ls[0]), ls[1..]); }
  }

  /** For counts below 2^63: the latch is open only after its full count of calls, and after the
      full count it is open or the call that opens it has yet to exchange the word. */
  lemma OpensAtFullCount(ctx: nat -> nat, c: nat, ls: seq<LLabel>)
    requires c < HALF && LCan(ctx, LStart(c), ls)
    ensures var x := LRun(ctx, LStart(c), ls);
            && (x.s.e.word.IsSet? ==> Downs(ls) >= c)
            && (Downs(ls) >= c ==> x.s.e.word.IsSet? || exists n: nat :: SetterOf(x.s.e, n).Stored?)
            && EInv(ctx, c == 0, x.s)
  {
    EStartInv(ctx, c == 0);
    LRunInv(ctx, c, LStart(c), ls);
    DownsCounted(ctx, LStart(c), ls);
  }

  /** No run opens the latch early. */
  ghost predicate NeverEarly(ctx: nat -> nat, c: nat)
    requires c < 2 * HALF
  {
    forall ls :: LCan(ctx, LStart(c), ls) ==>
      (LRun(ctx, LStart(c), ls).s.e.word.IsSet? ==> Downs(ls) >= c)
  }

  /** A count of 2^63 or more turns negative in the counter, and the first call opens the latch. */
  lemma NeverEarlyExactly(ctx: nat -> nat, c: nat)
    requires c < 2 * HALF
    ensures NeverEarly(ctx, c) <==> c < HALF
  {
    if c < HALF {
      forall ls | LCan(ctx, LStart(c), ls)
        ensures LRun(ctx, LStart(c), ls).s.e.word.IsSet? ==> Downs(ls) >= c
      {
        OpensAtFullCount(ctx, c, ls);
      }
    } else {
      var x0 := LStart(c);
      var x1 := LStep(ctx, x0, Down(0));
      var x2 := LStep(ctx, x1, Ev(TakeAll(0)));
      var ls := [Down(0), Ev(TakeAll(0))];
      assert ls[1..] == [Ev(TakeAll(0))] && ls[1..][1..] == [];
      assert LCan(ctx, x2, []) && LCan(ctx, x1, [Ev(TakeAll(0))]);
      assert LCan(ctx, x0, ls) && LRun(ctx, x0, ls) == x2;
      assert Downs([]) == 0 && Downs([Ev(TakeAll(0))]) == 0 && Downs(ls) == 1;
    }
  }
}
