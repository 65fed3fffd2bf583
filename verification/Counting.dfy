/** Counters kept per context, and the sets they count. */
module Counting {

  function Get(count: map<nat, int>, c: nat): int {
    if c in count then count[c] else 0
  }

  function Bump(count: map<nat, int>, c: nat, n: int): map<nat, int> {
    count[c := Get(count, c) + n]
  }

  function Bit(b: bool): int {
    if b then 1 else 0
  }

  /** The numbers of n contexts. */
  function Contexts(n: nat): (r: set<nat>)
    ensures |r| == n && forall c: nat :: c in r <==> c < n
  {
    if n == 0 then {} else Contexts(n - 1) + {n - 1}
  }

  /** Two sets that differ in at most one element. */
  lemma OneMoves<T>(x: set<T>, y: set<T>, a: T)
    requires x - {a} == y - {a}
    ensures |y| == |x| + Bit(a in y) - Bit(a in x)
  {
    Without(x, a);
    Without(y, a);
  }

  lemma Without<T>(x: set<T>, a: T)
    ensures |x| == |x - {a}| + Bit(a in x)
  {
    if a in x { assert x == (x - {a}) + {a}; } else { assert x - {a} == x; }
  }

  lemma SubsetSize<T>(x: set<T>, y: set<T>)
    requires x <= y
    ensures |x| <= |y|
  {
    assert y == x + (y - x);
  }

  lemma AtMostOneFlag(flags: set<nat>, c: nat)
    ensures |flags| == Bit(c in flags) <==> flags <= {c}
  {
    Without(flags, c);
    assert |flags - {c}| == 0 <==> flags - {c} == {};
  }
}
