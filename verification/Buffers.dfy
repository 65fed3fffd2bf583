/**
 The three buffers of the channel: a ring whose indices are reset, a ring of power-of-two size
 with free-running 64-bit counters, and a single slot. Each refines the same bounded queue.
 */
module Buffers {
  import opened Sync
  import opened Bits

  // ---- the bounded queue ----

  datatype Op<T> = Put(x: T) | Get

  /** What a caller sees of one operation: the two tests, and what was taken. */
  datatype Answer<T> = Answer(empty: bool, full: bool, got: Opt<T>)

  /** A caller stores only if the queue is not full and takes only if it is not empty. */
  function After<T>(cap: nat, q: seq<T>, op: Op<T>): (r: seq<T>)
    ensures |q| <= cap ==> |r| <= cap
  {
    match op
    case Put(x) => if |q| == cap then q else q + [x]
    case Get => if q == [] then q else q[1..]
  }

  function Reply<T(==)>(cap: nat, q: seq<T>, op: Op<T>): Answer<T> {
    Answer(q == [], |q| == cap, if op.Get? && q != [] then Some(q[0]) else None)
  }

  function Replies<T(==)>(cap: nat, q: seq<T>, ops: seq<Op<T>>): (r: seq<Answer<T>>)
    ensures |r| == |ops|
    decreases |ops|
  {
    if ops == [] then [] else [Reply(cap, q, ops[0])] + Replies(cap, After(cap, q, ops[0]), ops[1..])
  }

  // ---- a window of a circular array ----

  function Pos(h: nat, i: nat, c: nat): (r: nat)
    requires c > 0
    ensures r < c
  {
    (h + i) % c
  }

  function Window<T>(a: seq<T>, h: nat, n: nat): (r: seq<T>)
    requires |a| > 0
    ensures |r| == n
  {
    seq(n, i requires 0 <= i < n => a[Pos(h, i, |a|)])
  }

  lemma IndicesApart(h: nat, i: nat, j: nat, c: nat)
    requires i < j < i + c
    ensures Pos(h, i, c) != Pos(h, j, c)
  {
    var q, r := (h + i) / c, (h + i) % c;
    var e := j - i;
    assert h + i == q * c + r;
    if r + e < c {
      RemainderUnique(h + j, c, q, r + e);
    } else {
      assert h + j == (q + 1) * c + (r + e - c);
      RemainderUnique(h + j, c, q + 1, r + e - c);
    }
  }

  lemma WindowPut<T>(a: seq<T>, h: nat, n: nat, x: T)
    requires n < |a|
    ensures Window(a[Pos(h, n, |a|) := x], h, n + 1) == Window(a, h, n) + [x]
  {
    forall i | 0 <= i < n ensures Pos(h, i, |a|) != Pos(h, n, |a|) {
      IndicesApart(h, i, n, |a|);
    }
  }

  lemma WindowGet<T>(a: seq<T>, h: nat, n: nat)
    requires 0 < n && |a| > 0
    ensures Window(a, h, n)[0] == a[h % |a|]
    ensures Window(a, h + 1, n - 1) == Window(a, h, n)[1..]
  {
    forall i | 0 <= i < n - 1 ensures Window(a, h + 1, n - 1)[i] == Window(a, h, n)[1..][i] {
      assert (h + 1) + i == h + (i + 1);
    }
  }

  /** Only the position modulo the size matters. */
  lemma WindowAt<T>(a: seq<T>, h: nat, h': nat, n: nat)
    requires |a| > 0 && h % |a| == h' % |a|
    ensures Window(a, h, n) == Window(a, h', n)
  {
    forall i | 0 <= i < n ensures Pos(h, i, |a|) == Pos(h', i, |a|) {
      SameAfterAdding(h, h', i, |a|);
    }
  }

  lemma SameAfterAdding(x: nat, y: nat, i: nat, c: nat)
    requires c > 0 && x % c == y % c
    ensures (x + i) % c == (y + i) % c
  {
    var d := x / c - y / c;
    assert x == x / c * c + x % c && y == y / c * c + y % c;
    assert d * c == x / c * c - y / c * c;
    assert x + i == (y + i) + d * c;
    AddMultiple(y + i, c, d);
  }

  // ---- counters that wrap ----

  function Plus1(x: nat): (r: nat) {
    (x + 1) % WORD
  }

  lemma WordIsPower()
    ensures Pow2(64) == WORD
  {
    assert Pow2(8) == 0x100;
    Pow2Sum(8, 8);
    assert Pow2(16) == 0x1_0000;
    Pow2Sum(16, 16);
    assert Pow2(32) == 0x1_0000_0000;
    Pow2Sum(32, 32);
  }

  /** A capacity that is a power of two divides the range of the counters. */
  lemma WordSplits(k: nat)
    requires k <= 63
    ensures WORD == Pow2(k) * Pow2(64 - k) && Pow2(k) < WORD
  {
    WordIsPower();
    Pow2Sum(k, 64 - k);
    Pow2Sum(k, 63 - k);
    var c, d, e := Pow2(k), Pow2(63 - k), Pow2(64 - k);
    assert e == 2 * d;
    assert c * e == c * d + c * d;
    AtLeastOnce(d, c);
  }

  /** The wrapped difference follows both counters, across the wrap. */
  lemma MinusSteps(t: nat, h: nat)
    requires t < WORD && h < WORD
    ensures Minus(t, h) + 1 < WORD ==> Minus(Plus1(t), h) == Minus(t, h) + 1
    ensures Minus(t, h) > 0 ==> Minus(t, Plus1(h)) == Minus(t, h) - 1
    ensures Minus(t, h) == 0 <==> t == h
    ensures t == (h + Minus(t, h)) % WORD
  {
    DiffCases(t, h, WORD);
    DiffCases((t + 1) % WORD, h, WORD);
    DiffCases(t, (h + 1) % WORD, WORD);
    StepCases(t, WORD);
    StepCases(h, WORD);
    var n := Minus(t, h);
    if t >= h { SmallRemainder(h + n, WORD); } else { RemainderUnique(h + n, WORD, 1, t); }
  }

  /** The masked index of the tail is the position behind the window. */
  lemma MaskedTail(t: nat, h: nat, k: nat)
    requires k <= 63 && t < WORD && h < WORD
    ensures And(t, Pow2(k) - 1) == Pos(h, Minus(t, h), Pow2(k))
  {
    MinusSteps(t, h);
    WordSplits(k);
    ReduceTwice(h + Minus(t, h), Pow2(k), Pow2(64 - k));
    AndMask(t, k);
  }

  /** The wrap of a counter does not disturb its position: the capacity divides 2^64. */
  lemma MaskedHead(h: nat, k: nat)
    requires k <= 63 && h < WORD
    ensures And(h, Pow2(k) - 1) == h % Pow2(k)
    ensures Plus1(h) % Pow2(k) == (h + 1) % Pow2(k)
  {
    WordSplits(k);
    ReduceTwice(h + 1, Pow2(k), Pow2(64 - k));
    AndMask(h, k);
  }

  lemma SmallRemainder(x: nat, w: nat)
    requires x < w
    ensures x % w == x
  {
    RemainderUnique(x, w, 0, x);
  }

  lemma StepCases(x: nat, w: nat)
    requires x < w && 1 < w
    ensures (x + 1) % w == if x + 1 == w then 0 else x + 1
  {
    if x + 1 == w { RemainderUnique(x + 1, w, 1, 0); } else { SmallRemainder(x + 1, w); }
  }

  lemma DiffCases(t: nat, h: nat, w: nat)
    requires t < w && h < w
    ensures (t - h) % w == if t >= h then t - h else t - h + w
  {
    if t >= h { SmallRemainder(t - h, w); } else { RemainderUnique(t - h, w, -1, t - h + w); }
  }

  /** Writing at the masked tail and advancing it appends to the window. */
  lemma MaskedPut<T>(a: seq<T>, k: nat, t: nat, h: nat, x: T)
    requires k <= 63 && |a| == Pow2(k) && t < WORD && h < WORD && Minus(t, h) < |a|
    ensures And(t, |a| - 1) < |a|
    ensures Minus(Plus1(t), h) == Minus(t, h) + 1
    ensures Window(a[And(t, |a| - 1) := x], h, Minus(Plus1(t), h)) == Window(a, h, Minus(t, h)) + [x]
  {
    MaskedTail(t, h, k);
    WordSplits(k);
    MinusSteps(t, h);
    WindowPut(a, h, Minus(t, h), x);
  }

  /** The masked head is the first of the window, and advancing it removes that one. */
  lemma MaskedGet<T>(a: seq<T>, k: nat, t: nat, h: nat)
    requires k <= 63 && |a| == Pow2(k) && t < WORD && h < WORD && Minus(t, h) > 0
    ensures And(h, |a| - 1) < |a|
    ensures Minus(t, Plus1(h)) == Minus(t, h) - 1
    ensures Window(a, h, Minus(t, h)) == [a[And(h, |a| - 1)]] + Window(a, Plus1(h), Minus(t, Plus1(h)))
  {
    var n := Minus(t, h);
    MaskedHead(h, k);
    MinusSteps(t, h);
    WindowGet(a, h, n);
    WindowAt(a, h + 1, Plus1(h), n - 1);
    assert Window(a, h, n) == [Window(a, h, n)[0]] + Window(a, h, n)[1..];
  }

  // ---- the ring whose indices are reset ----

  class ResetRing<T(0,==)> {
    const cap: nat
    const data: array<T>
    var head: nat
    var tail: nat
    var num: nat

    ghost predicate Valid()
      reads this
    {
      cap > 0 && data.Length == cap && head < cap && num <= cap && tail == (head + num) % cap
    }

    ghost function Contents(): (q: seq<T>)
      reads this, data
      requires Valid()
      ensures |q| == num <= cap
    {
      Window(data[..], head, num)
    }

    constructor (c: nat)
      requires c > 0
      ensures Valid() && Contents() == [] && cap == c && fresh(data)
    {
      cap := c;
      data := new T[c];
      head, tail, num := 0, 0, 0;
    }

    predicate Empty()
      reads this, data
      requires Valid()
      ensures Empty() <==> Contents() == []
    {
      num == 0
    }

    predicate Full()
      reads this, data
      requires Valid()
      ensures Full() <==> |Contents()| == cap
    {
      num == cap
    }

    method Store(x: T)
      requires Valid() && !Full()
      modifies this, data
      ensures Valid() && Contents() == old(Contents()) + [x]
    {
      WindowPut(data[..], head, num, x);
      ghost var was := data[..];
      data[tail] := x;
      assert data[..] == was[Pos(head, num, cap) := x];
      StepWraps(head + num);
      tail := tail + 1;
      num := num + 1;
      if tail >= cap {
        tail := 0;
      }
    }

    method Take() returns (x: T)
      requires Valid() && !Empty()
      modifies this
      ensures Valid() && [x] + Contents() == old(Contents())
    {
      WindowGet(data[..], head, num);
      SmallRemainder(head, cap);
      x := data[head];
      assert old(Contents()) == [x] + Window(data[..], head + 1, num - 1);
      ghost var h := head + 1;
      StepWraps(head);
      head := head + 1;
      num := num - 1;
      if head >= cap {
        head := 0;
      }
      SmallRemainder(head, cap);
      WindowAt(data[..], h, head, num);
      SameAfterAdding(h, head, num, cap);
    }

    /** Incrementing a reduced index and resetting it at the end keeps it reduced. */
    lemma StepWraps(n: nat)
      requires cap > 0
      ensures (n + 1) % cap == if n % cap + 1 >= cap then 0 else n % cap + 1
    {
      var q, r := n / cap, n % cap;
      assert n == q * cap + r;
      if r + 1 >= cap {
        assert n + 1 == (q + 1) * cap + 0;
        RemainderUnique(n + 1, cap, q + 1, 0);
      } else {
        RemainderUnique(n + 1, cap, q, r + 1);
      }
    }
  }

  // ---- the power-of-two ring ----

  class PowerRing<T(0,==)> {
    const k: nat
    const cap: nat
    const data: array<T>
    var head: nat
    var tail: nat

    ghost predicate Valid()
      reads this
    {
      k <= 63 && cap == Pow2(k) && data.Length == cap && head < WORD && tail < WORD && Minus(tail, head) <= cap
    }

    ghost function Contents(): (q: seq<T>)
      reads this, data
      requires Valid()
      ensures |q| == Minus(tail, head) <= cap
    {
      Window(data[..], head, Minus(tail, head))
    }

    constructor (bits: nat)
      requires bits <= 63
      ensures Valid() && Contents() == [] && cap == Pow2(bits) && fresh(data)
    {
      k := bits;
      cap := Pow2(bits);
      data := new T[Pow2(bits)];
      head, tail := 0, 0;
      new;
      MinusSteps(0, 0);
    }

    predicate Empty()
      reads this, data
      requires Valid()
      ensures Empty() <==> Contents() == []
    {
      MinusSteps(tail, head);
      head == tail
    }

    predicate Full()
      reads this, data
      requires Valid()
      ensures Full() <==> |Contents()| == cap
    {
      Minus(tail, head) == cap
    }

    method Store(x: T)
      requires Valid() && !Full()
      modifies this, data
      ensures Valid() && Contents() == old(Contents()) + [x]
    {
      ghost var was := data[..];
      MaskedPut(was, k, tail, head, x);
      data[And(tail, cap - 1)] := x;
      assert data[..] == was[And(tail, cap - 1) := x];
      tail := Plus1(tail);
    }

    method Take() returns (x: T)
      requires Valid() && !Empty()
      modifies this
      ensures Valid() && [x] + Contents() == old(Contents())
    {
      MinusSteps(tail, head);
      MaskedGet(data[..], k, tail, head);
      x := data[And(head, cap - 1)];
      head := Plus1(head);
    }
  }

  // ---- the single slot ----

  class Slot<T(==)> {
    var data: Opt<T>

    ghost function Contents(): (q: seq<T>)
      reads this
      ensures |q| <= 1
    {
      if data.Some? then [data.v] else []
    }

    constructor ()
      ensures Contents() == []
    {
      data := None;
    }

    predicate Empty()
      reads this
      ensures Empty() <==> Contents() == []
    {
      !data.Some?
    }

    predicate Full()
      reads this
      ensures Full() <==> |Contents()| == 1
    {
      data.Some?
    }

    method Store(x: T)
      requires !Full()
      modifies this
      ensures Contents() == old(Contents()) + [x]
    {
      data := Some(x);
    }

    method Take() returns (x: T)
      requires !Empty()
      modifies this
      ensures [x] + Contents() == old(Contents())
    {
      x := data.v;
      data := None;
    }
  }

  // ---- whole histories of use ----

  lemma {:induction false} RepliesGrow<T>(cap: nat, q: seq<T>, ops: seq<Op<T>>, op: Op<T>)
    ensures Replies(cap, q, ops + [op]) == Replies(cap, q, ops) + [Reply(cap, AfterAll(cap, q, ops), op)]
    ensures AfterAll(cap, q, ops + [op]) == After(cap, AfterAll(cap, q, ops), op)
    decreases |ops|
  {
    if ops == [] {
      assert [op][1..] == [];
    } else {
      assert (ops + [op])[1..] == ops[1..] + [op];
      RepliesGrow(cap, After(cap, q, ops[0]), ops[1..], op);
    }
  }

  function AfterAll<T>(cap: nat, q: seq<T>, ops: seq<Op<T>>): (r: seq<T>)
    ensures |q| <= cap ==> |r| <= cap
    decreases |ops|
  {
    if ops == [] then q else AfterAll(cap, After(cap, q, ops[0]), ops[1..])
  }

  /** One guarded operation of a caller. */
  method UseReset<T(0,==)>(b: ResetRing<T>, op: Op<T>) returns (r: Answer<T>)
    requires b.Valid()
    modifies b, b.data
    ensures b.Valid() && b.Contents() == After(b.cap, old(b.Contents()), op)
    ensures r == Reply(b.cap, old(b.Contents()), op)
  {
    var empty, full, got := b.Empty(), b.Full(), None;
    if op.Put? && !full {
      b.Store(op.x);
    } else if op.Get? && !empty {
      var x := b.Take();
      got := Some(x);
    }
    r := Answer(empty, full, got);
  }

  /** From any valid position of its indices the reset ring answers like the bounded queue. */
  method DriveReset<T(0,==)>(b: ResetRing<T>, ops: seq<Op<T>>) returns (out: seq<Answer<T>>)
    requires b.Valid()
    modifies b, b.data
    ensures b.Valid() && b.Contents() == AfterAll(b.cap, old(b.Contents()), ops)
    ensures out == Replies(b.cap, old(b.Contents()), ops)
  {
    ghost var q := b.Contents();
    out := [];
    for i := 0 to |ops|
      invariant b.Valid() && b.Contents() == AfterAll(b.cap, q, ops[..i])
      invariant out == Replies(b.cap, q, ops[..i])
    {
      RepliesGrow(b.cap, q, ops[..i], ops[i]);
      assert ops[..i + 1] == ops[..i] + [ops[i]];
      var r := UseReset(b, ops[i]);
      out := out + [r];
    }
    assert ops[..|ops|] == ops;
  }

  /** One guarded operation of a caller. */
  method UsePower<T(0,==)>(b: PowerRing<T>, op: Op<T>) returns (r: Answer<T>)
    requires b.Valid()
    modifies b, b.data
    ensures b.Valid() && b.Contents() == After(b.cap, old(b.Contents()), op)
    ensures r == Reply(b.cap, old(b.Contents()), op)
  {
    var empty, full, got := b.Empty(), b.Full(), None;
    if op.Put? && !full {
      b.Store(op.x);
    } else if op.Get? && !empty {
      var x := b.Take();
      got := Some(x);
    }
    r := Answer(empty, full, got);
  }

  /** From any valid position of its counters, near the wrap or not, so does the power-of-two ring. */
  method DrivePower<T(0,==)>(b: PowerRing<T>, ops: seq<Op<T>>) returns (out: seq<Answer<T>>)
    requires b.Valid()
    modifies b, b.data
    ensures b.Valid() && b.Contents() == AfterAll(b.cap, old(b.Contents()), ops)
    ensures out == Replies(b.cap, old(b.Contents()), ops)
  {
    ghost var q := b.Contents();
    out := [];
    for i := 0 to |ops|
      invariant b.Valid() && b.Contents() == AfterAll(b.cap, q, ops[..i])
      invariant out == Replies(b.cap, q, ops[..i])
    {
      RepliesGrow(b.cap, q, ops[..i], ops[i]);
      assert ops[..i + 1] == ops[..i] + [ops[i]];
      var r := UsePower(b, ops[i]);
      out := out + [r];
    }
    assert ops[..|ops|] == ops;
  }

  /** One guarded operation of a caller. */
  method UseSlot<T(==)>(b: Slot<T>, op: Op<T>) returns (r: Answer<T>)
    modifies b
    ensures b.Contents() == After(1, old(b.Contents()), op)
    ensures r == Reply(1, old(b.Contents()), op)
  {
    var empty, full, got := b.Empty(), b.Full(), None;
    if op.Put? && !full {
      b.Store(op.x);
    } else if op.Get? && !empty {
      var x := b.Take();
      got := Some(x);
    }
    r := Answer(empty, full, got);
  }

  /** The single slot answers like a bounded queue of capacity one. */
  method DriveSlot<T(==)>(b: Slot<T>, ops: seq<Op<T>>) returns (out: seq<Answer<T>>)
    modifies b
    ensures b.Contents() == AfterAll(1, old(b.Contents()), ops)
    ensures out == Replies(1, old(b.Contents()), ops)
  {
    ghost var q := b.Contents();
    out := [];
    for i := 0 to |ops|
      invariant b.Contents() == AfterAll(1, q, ops[..i])
      invariant out == Replies(1, q, ops[..i])
    {
      RepliesGrow(1, q, ops[..i], ops[i]);
      assert ops[..i + 1] == ops[..i] + [ops[i]];
      var r := UseSlot(b, ops[i]);
      out := out + [r];
    }
    assert ops[..|ops|] == ops;
  }

  /** A power-of-two ring and a reset ring of the same capacity cannot be told apart. */
  method SameAnswers<T(0,==)>(bits: nat, ops: seq<Op<T>>) returns (power: seq<Answer<T>>, reset: seq<Answer<T>>)
    requires bits <= 63
    ensures power == reset == Replies(Pow2(bits), [], ops)
  {
    var p := new PowerRing<T>(bits);
    power := DrivePower(p, ops);
    var r := new ResetRing<T>(Pow2(bits));
    reset := DriveReset(r, ops);
  }

  /** Nor can the single slot and a ring of capacity one. */
  method SlotAnswers<T(0,==)>(ops: seq<Op<T>>) returns (slot: seq<Answer<T>>, power: seq<Answer<T>>)
    ensures slot == power == Replies(1, [], ops)
  {
    var s := new Slot<T>();
    slot := DriveSlot(s, ops);
    var p := new PowerRing<T>(0);
    power := DrivePower(p, ops);
  }
}
