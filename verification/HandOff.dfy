/**
 The hand-off mutex and the condition variable as objects, with the list surgery of
 src/comp/mutex.cpp and src/comp/condition_variable.cpp performed on the awaiters themselves.
 Here one thread of control runs alone; module Sync interleaves any number of them.
 */
module HandOff {

  class Awaiter {
    const cv: CondVar?        // null: the awaiter of a plain lock
    var next: Awaiter?

    constructor (cv: CondVar?)
      ensures this.cv == cv && next == null
    {
      this.cv := cv;
      next := null;
    }
  }

  // ---- lists of awaiters ----

  function First(s: seq<Awaiter>): Awaiter? {
    if s == [] then null else s[0]
  }

  function Last(s: seq<Awaiter>): Awaiter? {
    if s == [] then null else s[|s| - 1]
  }

  function Succ(s: seq<Awaiter>, i: nat): Awaiter?
    requires i < |s|
  {
    if i + 1 < |s| then s[i + 1] else null
  }

  /** Following `next` from p visits exactly s and then meets null. */
  ghost predicate Chain(p: Awaiter?, s: seq<Awaiter>)
    reads s
  {
    p == First(s) && forall i :: 0 <= i < |s| ==> s[i].next == Succ(s, i)
  }

  ghost predicate NoDup(s: seq<Awaiter>) {
    forall i, j :: 0 <= i < j < |s| ==> s[i] != s[j]
  }

  function Reversed(s: seq<Awaiter>): (r: seq<Awaiter>)
    ensures |r| == |s|
  {
    if s == [] then [] else Reversed(s[1..]) + [s[0]]
  }

  lemma {:induction false} ReversedElements(s: seq<Awaiter>)
    ensures forall a :: a in Reversed(s) <==> a in s
  {
    if s != [] {
      ReversedElements(s[1..]);
      assert s == [s[0]] + s[1..];
    }
  }

  lemma {:induction false} ReversedNoDup(s: seq<Awaiter>)
    requires NoDup(s)
    ensures NoDup(Reversed(s))
  {
    if s != [] {
      ReversedNoDup(s[1..]);
      ReversedElements(s[1..]);
      assert s[0] !in s[1..];
    }
  }

  lemma {:induction false} ReversedAppend(s: seq<Awaiter>, a: Awaiter)
    ensures Reversed(s + [a]) == [a] + Reversed(s)
  {
    if s != [] {
      ReversedAppend(s[1..], a);
      assert (s + [a])[1..] == s[1..] + [a];
    }
  }

  lemma ChainPush(a: Awaiter, p: Awaiter?, s: seq<Awaiter>)
    requires Chain(p, s) && a.next == p
    ensures Chain(a, [a] + s)
  {
    var t := [a] + s;
    forall i | 0 <= i < |t| ensures t[i].next == Succ(t, i) {
      if i > 0 { assert t[i] == s[i - 1] && Succ(t, i) == Succ(s, i - 1); }
    }
  }

  lemma ChainDrop(p: Awaiter?, s: seq<Awaiter>)
    requires Chain(p, s) && s != []
    ensures Chain(s[0].next, s[1..])
  {
    forall i | 0 <= i < |s| - 1 ensures s[1..][i].next == Succ(s[1..], i) {
      assert s[1..][i] == s[i + 1] && Succ(s[1..], i) == Succ(s, i + 1);
    }
  }

  /** One round of the reversal: the node is relinked and the next one returned. */
  method FlipNode(awaiter: Awaiter, toResume: Awaiter?, ghost s: seq<Awaiter>, ghost k: nat) returns (temp: Awaiter?)
    requires k <= |s| && NoDup(s) && Chain(awaiter, s[k..]) && Chain(toResume, Reversed(s[..k]))
    modifies awaiter
    ensures k < |s| && Chain(temp, s[k + 1..]) && Chain(awaiter, Reversed(s[..k + 1]))
  {
    ghost var done := Reversed(s[..k]);
    ReversedElements(s[..k]);
    ChainDrop(awaiter, s[k..]);
    assert awaiter == s[k] && s[k..][1..] == s[k + 1..];
    assert awaiter !in s[k + 1..] && awaiter !in done;
    temp := awaiter.next;
    awaiter.next := toResume;
    ChainPush(awaiter, toResume, done);
    ReversedAppend(s[..k], awaiter);
    assert s[..k + 1] == s[..k] + [awaiter];
  }

  /** The reversal loop of unlock: every node is relinked in place. */
  method ReverseInPlace(head: Awaiter, ghost s: seq<Awaiter>) returns (to: Awaiter)
    requires Chain(head, s) && NoDup(s) && s != []
    modifies s
    ensures Chain(to, Reversed(s))
  {
    var awaiter: Awaiter? := head;
    var toResume: Awaiter? := null;
    ghost var k := 0;
    while awaiter != null
      invariant k <= |s|
      invariant Chain(awaiter, s[k..])
      invariant Chain(toResume, Reversed(s[..k]))
      decreases |s| - k
    {
      var temp := FlipNode(awaiter, toResume, s, k);
      toResume := awaiter;
      awaiter := temp;
      k := k + 1;
    }
    assert s[..k] == s;
    to := toResume;
  }

  // ---- the condition variable's queue ----

  class CondVar {
    var head: Awaiter?
    var tail: Awaiter?
    ghost var queue: seq<Awaiter>

    ghost predicate Valid()
      reads this, queue
    {
      && Chain(head, queue) && NoDup(queue) && tail == Last(queue)
      && forall a :: a in queue ==> a.cv == this
    }

    constructor ()
      ensures Valid() && queue == []
    {
      head, tail, queue := null, null, [];
    }

    /** `register_cv`. */
    method RegisterCv(w: Awaiter)
      requires Valid() && w !in queue && w.cv == this
      modifies this, w, queue
      ensures Valid() && queue == old(queue) + [w]
    {
      w.next := null;
      if tail == null {
        head, tail := w, w;
      } else {
        tail.next := w;
        tail := w;
      }
      ghost var q := queue;
      queue := queue + [w];
      forall i | 0 <= i < |queue| ensures queue[i].next == Succ(queue, i) {
        if i < |q| - 1 { assert queue[i] == q[i] && q[i] != q[|q| - 1] && q[i].next == Succ(q, i); }
      }
    }

    /** The critical section of `notify_one`. */
    method PopFirst() returns (cur: Awaiter?)
      requires Valid()
      modifies this
      ensures Valid() && cur == First(old(queue))
      ensures queue == if old(queue) == [] then [] else old(queue)[1..]
    {
      cur := head;
      if cur != null {
        ChainDrop(head, queue);
        head := head.next;
        if head == null { tail := null; }
        queue := queue[1..];
      }
    }

    /** The critical section of `notify_all`. */
    method DetachQueue() returns (cur: Awaiter?)
      requires Valid()
      modifies this
      ensures Valid() && queue == []
      ensures cur == First(old(queue))
    {
      cur := head;
      head, tail, queue := null, null, [];
    }
  }

  // ---- the specification of unlock ----

  /** Whose turn it can be: a plain lock awaiter always, a cv awaiter if its predicate holds. */
  predicate Qualifies(a: Awaiter, ready: set<Awaiter>) {
    a.cv == null || a in ready
  }

  /** The position of the first queued awaiter that qualifies, or the length of the queue. */
  function FirstQualified(q: seq<Awaiter>, ready: set<Awaiter>): (i: nat)
    ensures i <= |q|
    ensures forall j :: 0 <= j < i ==> !Qualifies(q[j], ready)
    ensures i < |q| ==> Qualifies(q[i], ready)
  {
    if q == [] || Qualifies(q[0], ready) then 0 else 1 + FirstQualified(q[1..], ready)
  }

  /** The awaiters of q that belong to c, in order. */
  function Of(q: seq<Awaiter>, c: CondVar): seq<Awaiter> {
    if q == [] then [] else (if q[0].cv == c then [q[0]] else []) + Of(q[1..], c)
  }

  /** Those in front of the first that qualifies: they go back to their condition variables. */
  function Skipped(q: seq<Awaiter>, ready: set<Awaiter>): seq<Awaiter> {
    q[..FirstQualified(q, ready)]
  }

  /** What unlock makes of the queue q. */
  ghost predicate Outcome(q: seq<Awaiter>, ready: set<Awaiter>, owner: Awaiter?, left: seq<Awaiter>, locked: bool) {
    var i := FirstQualified(q, ready);
    if i < |q| then owner == q[i] && left == q[i + 1..] && locked
    else owner == null && left == [] && !locked
  }

  lemma OutcomeHead(w: Awaiter, q: seq<Awaiter>, ready: set<Awaiter>)
    requires Qualifies(w, ready)
    ensures Outcome([w] + q, ready, w, q, true) && Skipped([w] + q, ready) == []
  {
    assert ([w] + q)[1..] == q;
  }

  lemma OutcomeSkip(w: Awaiter, q: seq<Awaiter>, ready: set<Awaiter>, owner: Awaiter?, left: seq<Awaiter>, locked: bool)
    requires !Qualifies(w, ready) && Outcome(q, ready, owner, left, locked)
    ensures Outcome([w] + q, ready, owner, left, locked)
  {
    var i := FirstQualified(q, ready);
    assert ([w] + q)[1..] == q;
    if i < |q| { assert ([w] + q)[i + 2..] == q[i + 1..]; }
  }

  lemma SkipOne(w: Awaiter, q: seq<Awaiter>, ready: set<Awaiter>, c: CondVar)
    requires !Qualifies(w, ready)
    ensures FirstQualified([w] + q, ready) == 1 + FirstQualified(q, ready)
    ensures Of(Skipped([w] + q, ready), c) == (if w.cv == c then [w] else []) + Of(Skipped(q, ready), c)
  {
    assert ([w] + q)[1..] == q;
    assert Skipped([w] + q, ready) == [w] + Skipped(q, ready);
    assert ([w] + Skipped(q, ready))[1..] == Skipped(q, ready);
  }

  lemma SkipOnto(pre: seq<Awaiter>, w: Awaiter, q: seq<Awaiter>, ready: set<Awaiter>, c: CondVar)
    requires !Qualifies(w, ready)
    ensures pre + (if w.cv == c then [w] else []) + Of(Skipped(q, ready), c) == pre + Of(Skipped([w] + q, ready), c)
  {
    SkipOne(w, q, ready, c);
  }

  lemma WakeAlone(w: Awaiter, ready: set<Awaiter>, c: CondVar)
    ensures Of(Skipped([w], ready), c) == if !Qualifies(w, ready) && c == w.cv then [w] else []
    ensures FirstQualified([w], ready) == if Qualifies(w, ready) then 0 else 1
  {
    assert [w][1..] == [];
    if !Qualifies(w, ready) { assert Skipped([w], ready) == [w]; }
  }

  /** One more awaiter is woken after those of p. */
  lemma OutcomeSnoc(p: seq<Awaiter>, w: Awaiter, ready: set<Awaiter>, owner: Awaiter?, left: seq<Awaiter>, locked: bool)
    requires Outcome(p, ready, owner, left, locked)
    ensures if locked then
              Outcome(p + [w], ready, owner, left + [w], true) && Skipped(p + [w], ready) == Skipped(p, ready)
            else if Qualifies(w, ready) then
              Outcome(p + [w], ready, w, [], true) && Skipped(p + [w], ready) == Skipped(p, ready)
            else Outcome(p + [w], ready, null, [], false) && Skipped(p + [w], ready) == Skipped(p, ready) + [w]
  {
    var q, i, j := p + [w], FirstQualified(p, ready), FirstQualified(p + [w], ready);
    assert forall n :: 0 <= n < |p| ==> q[n] == p[n];
    assert q[|p|] == w && q[|p| + 1..] == [] && q[..|p| + 1] == q;
    if i < |p| { assert Qualifies(q[i], ready); }
  }

  /** What notify_all has done after visiting p, called with the mutex held, when q was its queue,
      or called with the mutex free. */
  ghost predicate Visited(held: bool, q: seq<Awaiter>, p: seq<Awaiter>, ready: set<Awaiter>,
                          owner: Awaiter?, left: seq<Awaiter>, locked: bool, asleep: seq<Awaiter>)
  {
    if held then owner == null && locked && left == q + p && asleep == []
    else Outcome(p, ready, owner, left, locked) && asleep == Skipped(p, ready)
  }

  lemma VisitOne(held: bool, q: seq<Awaiter>, p: seq<Awaiter>, w: Awaiter, ready: set<Awaiter>,
                 owner: Awaiter?, left: seq<Awaiter>, locked: bool, asleep: seq<Awaiter>)
    requires Visited(held, q, p, ready, owner, left, locked, asleep)
    ensures if locked then Visited(held, q, p + [w], ready, owner, left + [w], true, asleep)
            else if Qualifies(w, ready) then Visited(held, q, p + [w], ready, w, [], true, asleep)
            else Visited(held, q, p + [w], ready, null, [], false, asleep + [w])
  {
    if held { assert q + (p + [w]) == q + p + [w]; } else { OutcomeSnoc(p, w, ready, owner, left, locked); }
  }

  lemma OneMore(l: seq<Awaiter>, k: nat)
    requires k <= |l| && First(l[k..]) != null
    ensures k < |l| && First(l[k..]) == l[k] && l[..k + 1] == l[..k] + [l[k]]
  {
  }

  lemma NoneLeft(l: seq<Awaiter>, k: nat, aws: set<Awaiter>)
    requires k <= |l| && First(l[k..]) == null
    ensures l[..k] == l && aws - Elements(l[k..]) == aws
  {
    assert l[k..] == [];
  }

  lemma NoneYet(l: seq<Awaiter>)
    ensures l[0..] == l && l[..0] == []
  {
  }

  ghost function Elements(s: seq<Awaiter>): set<Awaiter> {
    set a | a in s
  }

  // ---- the mutex ----

  /** A queue whose nodes' links are as before is the same queue. */
  twostate lemma CvKept(c: CondVar)
    requires old(c.Valid()) && unchanged(c) && forall a :: a in old(c.queue) ==> unchanged(a)
    ensures c.Valid()
  {
    var q := c.queue;
    assert old(c.queue) == q && old(Chain(c.head, c.queue));
    forall i | 0 <= i < |q| ensures q[i].next == Succ(q, i) {
      assert q[i] in q;
      assert q[i].next == old(q[i].next);
    }
  }

  twostate lemma MutexKept(m: Mutex)
    requires old(m.Valid()) && unchanged(m)
    requires forall a :: a in old(m.stack) || a in old(m.res) ==> unchanged(a)
    ensures m.Valid()
  {
    var st, re := m.stack, m.res;
    assert old(m.stack) == st && old(m.res) == re;
    forall i | 0 <= i < |st| ensures st[i].next == Succ(st, i) {
      assert st[i] in st;
      assert st[i].next == old(st[i].next);
    }
    forall i | 0 <= i < |re| ensures re[i].next == Succ(re, i) {
      assert re[i] in re;
      assert re[i].next == old(re[i].next);
    }
  }

  datatype Word = NoLocked | Locked(top: Awaiter?)

  /** The mutex, its condition variables and all their awaiters are in order, and every awaiter is
      on at most one list. */
  ghost predicate World(m: Mutex, cvs: set<CondVar>, aws: set<Awaiter>)
    reads m, cvs, aws
  {
    && (forall a :: a in m.stack ==> a in aws && (a.cv == null || a.cv in cvs))
    && (forall a :: a in m.res ==> a in aws && (a.cv == null || a.cv in cvs))
    && m.Valid()
    && (forall c :: c in cvs ==>
          && (forall a :: a in c.queue ==> a in aws && a !in m.stack && a !in m.res)
          && c.Valid())
  }

  /** w is on no list. */
  ghost predicate Loose(w: Awaiter, m: Mutex, cvs: set<CondVar>, aws: set<Awaiter>)
    reads m, cvs
  {
    && w in aws && w !in m.stack && w !in m.res
    && (w.cv != null ==> w.cv in cvs && w !in w.cv.queue)
  }

  lemma WiderWorld(m: Mutex, cvs: set<CondVar>, aws: set<Awaiter>, more: set<Awaiter>)
    requires World(m, cvs, aws) && aws <= more
    ensures World(m, cvs, more)
  {
  }

  class Mutex {
    var state: Word
    var resumeHead: Awaiter?
    ghost var stack: seq<Awaiter>
    ghost var res: seq<Awaiter>

    ghost predicate Valid()
      reads this, stack, res
    {
      && Chain(if state.NoLocked? then null else state.top, stack) && Chain(resumeHead, res)
      && NoDup(stack) && NoDup(res) && (forall a :: a in stack ==> a !in res)
      && (state.NoLocked? ==> res == [])
    }

    /** Who waits, in order of arrival. */
    ghost function Queue(): seq<Awaiter>
      reads this
    {
      res + Reversed(stack)
    }

    constructor ()
      ensures Valid() && Queue() == [] && state == NoLocked
    {
      state, resumeHead, stack, res := NoLocked, null, [], [];
    }

    /** Take the stack of the word and reverse it into the owner's list. */
    method TakeStack() returns (to: Awaiter)
      requires Valid() && state.Locked? && state.top != null && resumeHead == null
      modifies this, stack
      ensures state == Locked(null) && resumeHead == null && stack == []
      ensures Chain(to, res) && NoDup(res) && Queue() == old(Queue())
      ensures forall a :: a in res ==> a in old(stack)
    {
      var head := state.top;
      state := Locked(null);
      to := ReverseInPlace(head, stack);
      ReversedNoDup(stack);
      ReversedElements(stack);
      res := Reversed(stack);
      stack := [];
      assert old(res) == [] && [] + res == res && res + [] == res;
    }

    /** `m_resume_list_head = to_resume->m_next`, when the owner's list starts at w. */
    method PopResume(w: Awaiter)
      requires state.Locked? && Chain(w, res) && NoDup(res) && Chain(state.top, stack) && NoDup(stack)
      requires forall a :: a in stack ==> a !in res
      modifies this
      ensures Valid() && state == old(state) && stack == old(stack) && res == old(res)[1..]
      ensures w in old(res) && w !in res && w !in stack
      ensures old(Queue()) == [w] + Queue()
      ensures forall a :: a in res ==> a in old(res)
    {
      ChainDrop(w, res);
      resumeHead := w.next;
      assert res[0] == w && res == [w] + res[1..];
      res := res[1..];
      assert [w] + (res + Reversed(stack)) == [w] + res + Reversed(stack);
    }

    /** The first awaiter leaves the queue; null if there is none, and then the mutex is free. */
    method NextWaiter() returns (w: Awaiter?)
      requires Valid() && state.Locked?
      modifies this, stack
      ensures Valid() && w == First(old(Queue())) && (state.NoLocked? <==> w == null)
      ensures Queue() == if w == null then [] else old(Queue())[1..]
      ensures forall a :: a in stack || a in res ==> a in old(stack) || a in old(res)
      ensures w != null ==> (w in old(stack) || w in old(res)) && w !in stack && w !in res
    {
      var to := resumeHead;
      if to == null {
        if state == Locked(null) {
          state := NoLocked;
          return null;
        }
        to := TakeStack();
      }
      PopResume(to);
      w := to;
    }

    /** `register_lock`: false if the mutex was taken, true if w now waits for it. */
    method RegisterLock(w: Awaiter) returns (suspended: bool)
      requires Valid() && w !in stack && w !in res
      modifies this, w
      ensures Valid() && state.Locked? && res == old(res)
      ensures suspended == old(state.Locked?)
      ensures stack == if suspended then [w] + old(stack) else []
      ensures Queue() == if suspended then old(Queue()) + [w] else []
    {
      w.next := null;
      if state == NoLocked {
        state := Locked(null);
        return false;
      }
      w.next := state.top;
      ChainPush(w, state.top, stack);
      state := Locked(w);
      stack := [w] + stack;
      assert stack[1..] == old(stack);
      assert res + (Reversed(old(stack)) + [w]) == res + Reversed(old(stack)) + [w];
      return true;
    }

    /** `try_lock` succeeds exactly when the mutex is free, and then nobody is queued. */
    method TryLock() returns (taken: bool)
      requires Valid()
      modifies this
      ensures Valid() && state.Locked? && Queue() == old(Queue()) && stack == old(stack) && res == old(res)
      ensures taken == old(state.NoLocked?) && (taken ==> Queue() == [])
    {
      taken := state == NoLocked;
      if taken { state := Locked(null); }
    }

    /** NextWaiter leaves the condition variables alone. */
    method NextAmong(ghost cvs: set<CondVar>, ghost aws: set<Awaiter>) returns (w: Awaiter?)
      requires World(this, cvs, aws) && state.Locked?
      modifies this, aws
      ensures World(this, cvs, aws) && (forall c :: c in cvs ==> c.queue == old(c.queue))
      ensures w == First(old(Queue())) && (state.NoLocked? <==> w == null)
      ensures Queue() == if w == null then [] else old(Queue())[1..]
      ensures w != null ==> Loose(w, this, cvs, aws)
    {
      ghost var st := stack;
      forall c | c in cvs ensures forall a :: a in c.queue ==> a !in st {
      }
      label before:
      w := NextWaiter();
      forall c | c in cvs ensures c.Valid() {
        assert forall a :: a in old@before(c.queue) ==> a !in st;
        CvKept@before(c);
      }
      assert forall a :: a in stack || a in res ==> a in old(stack) || a in old(res);
      assert forall c :: c in cvs ==> forall a :: a in c.queue ==> a !in old(stack) && a !in old(res);
      assert w != null ==> w in aws && (w.cv != null ==> w.cv in cvs && w !in w.cv.queue);
    }

    /** RegisterCv leaves the mutex and the other condition variables alone. */
    method RegisterAmong(w: Awaiter, ghost cvs: set<CondVar>, ghost aws: set<Awaiter>)
      requires World(this, cvs, aws) && Loose(w, this, cvs, aws) && w.cv != null
      modifies cvs, aws
      ensures World(this, cvs, aws)
      ensures forall c :: c in cvs ==> c.queue == old(c.queue) + if c == w.cv then [w] else []
    {
      assert w.cv.Valid();
      ghost var q := w.cv.queue;
      label before:
      w.cv.RegisterCv(w);
      forall c | c in cvs && c != w.cv ensures c.Valid() && c.queue == old(c.queue) {
        assert old@before(c.Valid()) && forall a :: a in old@before(c.queue) ==> a != w && a !in q;
        CvKept@before(c);
      }
      MutexKept@before(this);
    }

    /** `unlock`, together with the `resume` it may call again and again: the mutex goes to the
        first queued awaiter that qualifies; everybody in front of it is back on its own
        condition variable, in the same order; if nobody qualifies the mutex is free. */
    method Unlock(cvs: set<CondVar>, ghost aws: set<Awaiter>, ready: set<Awaiter>) returns (owner: Awaiter?)
      requires World(this, cvs, aws) && state.Locked?
      modifies this, cvs, aws
      ensures World(this, cvs, aws)
      ensures Outcome(old(Queue()), ready, owner, Queue(), state.Locked?)
      ensures owner != null ==> Loose(owner, this, cvs, aws)
      ensures forall c :: c in cvs ==> c.queue == old(c.queue) + Of(Skipped(old(Queue()), ready), c)
      decreases |Queue()|, 0
    {
      var w := NextAmong(cvs, aws);
      if w == null { return null; }
      assert old(Queue()) == [w] + old(Queue())[1..];
      owner := Resume(w, cvs, aws, ready);
    }

    /** `resume` of an awaiter that has just been given the mutex: a plain awaiter is submitted; a
        cv awaiter whose predicate is false registers again and unlocks. */
    method Resume(w: Awaiter, cvs: set<CondVar>, ghost aws: set<Awaiter>, ready: set<Awaiter>) returns (owner: Awaiter?)
      requires World(this, cvs, aws) && state.Locked? && Loose(w, this, cvs, aws)
      modifies this, cvs, aws
      ensures World(this, cvs, aws)
      ensures Outcome([w] + old(Queue()), ready, owner, Queue(), state.Locked?)
      ensures owner != null ==> Loose(owner, this, cvs, aws)
      ensures forall c :: c in cvs ==> c.queue == old(c.queue) + Of(Skipped([w] + old(Queue()), ready), c)
      decreases |Queue()|, 1
    {
      if w.cv != null && w !in ready {
        RegisterAmong(w, cvs, aws);
        owner := Unlock(cvs, aws, ready);
        OutcomeSkip(w, old(Queue()), ready, owner, Queue(), state.Locked?);
        forall c | c in cvs ensures c.queue == old(c.queue) + Of(Skipped([w] + old(Queue()), ready), c) {
          SkipOnto(old(c.queue), w, old(Queue()), ready, c);
        }
      } else {
        owner := w;
        OutcomeHead(w, Queue(), ready);
      }
    }

    /** RegisterLock leaves the condition variables alone. */
    method LockAmong(w: Awaiter, ghost cvs: set<CondVar>, ghost aws: set<Awaiter>) returns (suspended: bool)
      requires World(this, cvs, aws) && Loose(w, this, cvs, aws)
      modifies this, w
      ensures World(this, cvs, aws) && (forall c :: c in cvs ==> c.queue == old(c.queue))
      ensures suspended == old(state.Locked?) && state.Locked?
      ensures Queue() == if suspended then old(Queue()) + [w] else []
      ensures !suspended ==> Loose(w, this, cvs, aws)
    {
      label before:
      suspended := RegisterLock(w);
      forall c | c in cvs ensures c.Valid() {
        assert old@before(c.Valid()) && forall a :: a in old@before(c.queue) ==> a != w;
        CvKept@before(c);
      }
    }

    /** `wake_up`: w queues on the mutex, or, if the mutex was free, is resumed at once. */
    method WakeUp(w: Awaiter, cvs: set<CondVar>, ghost aws: set<Awaiter>, ready: set<Awaiter>) returns (owner: Awaiter?)
      requires World(this, cvs, aws) && Loose(w, this, cvs, aws)
      modifies this, cvs, aws
      ensures World(this, cvs, aws)
      ensures old(state.Locked?) ==>
                && owner == null && state.Locked? && Queue() == old(Queue()) + [w]
                && forall c :: c in cvs ==> c.queue == old(c.queue)
      ensures old(state.NoLocked?) ==>
                && (if Qualifies(w, ready) then owner == w && state.Locked? else owner == null && state.NoLocked?)
                && Queue() == []
                && forall c :: c in cvs ==>
                     c.queue == old(c.queue) + if !Qualifies(w, ready) && c == w.cv then [w] else []
    {
      var suspended := LockAmong(w, cvs, aws);
      owner := null;
      if !suspended {
        assert [w] + Queue() == [w];
        owner := Resume(w, cvs, aws, ready);
        forall c | c in cvs ensures c.queue == old(c.queue) + if !Qualifies(w, ready) && c == w.cv then [w] else [] {
          WakeAlone(w, ready, c);
        }
        if w.cv != null { WakeAlone(w, ready, w.cv); }
      }
    }

    /** `notify_one`: the first sleeper is woken, and sleeps again if the mutex was free and its
        predicate is false. */
    method NotifyOne(cv: CondVar, cvs: set<CondVar>, ghost aws: set<Awaiter>, ready: set<Awaiter>)
      returns (owner: Awaiter?)
      requires World(this, cvs, aws) && cv in cvs
      modifies this, cvs, aws
      ensures World(this, cvs, aws)
      ensures forall c :: c in cvs && c != cv ==> c.queue == old(c.queue)
      ensures old(cv.queue) == [] ==>
                owner == null && cv.queue == [] && Queue() == old(Queue()) && state == old(state)
      ensures old(cv.queue) != [] && old(state.Locked?) ==>
                && owner == null && state.Locked? && cv.queue == old(cv.queue)[1..]
                && Queue() == old(Queue()) + [old(cv.queue)[0]]
      ensures old(cv.queue) != [] && old(state.NoLocked?) ==>
                var w, rest := old(cv.queue)[0], old(cv.queue)[1..];
                && Queue() == []
                && (if Qualifies(w, ready) then owner == w && state.Locked? && cv.queue == rest
                    else owner == null && state.NoLocked? && cv.queue == rest + [w])
    {
      owner := null;
      ghost var l := cv.queue;
      var cur := cv.PopFirst();
      if cur != null {
        assert forall a :: a in cv.queue ==> a in l;
        assert l[0] == cur && cur in l && cur !in l[1..];
        owner := WakeUp(cur, cvs, aws, ready);
      }
    }

    /** `cv_awaiter::register_lock`, called by the holder: it goes on if its predicate holds;
        otherwise it sleeps behind the others and the mutex is passed on. */
    method WaitOn(w: Awaiter, cvs: set<CondVar>, ghost aws: set<Awaiter>, ready: set<Awaiter>)
      returns (suspended: bool, owner: Awaiter?)
      requires World(this, cvs, aws) && state.Locked? && Loose(w, this, cvs, aws) && w.cv != null
      modifies this, cvs, aws
      ensures World(this, cvs, aws) && suspended == (w !in ready)
      ensures !suspended ==>
                && owner == w && state == old(state) && Queue() == old(Queue())
                && forall c :: c in cvs ==> c.queue == old(c.queue)
      ensures suspended ==>
                && Outcome(old(Queue()), ready, owner, Queue(), state.Locked?)
                && forall c :: c in cvs ==>
                     c.queue == old(c.queue) + (if c == w.cv then [w] else []) + Of(Skipped(old(Queue()), ready), c)
    {
      if w in ready { return false, w; }
      RegisterAmong(w, cvs, aws);
      owner := Unlock(cvs, aws, ready);
      suspended := true;
    }

    /** `notify_all`: each waiter present at the detachment is visited once, although visited ones
        may join the same queue again. Called by the holder, it appends them to the mutex queue in
        order. Called with the mutex free, the first that qualifies owns it, those before are back
        on the condition variable and those after are queued. */
    method NotifyAll(cv: CondVar, cvs: set<CondVar>, ghost aws: set<Awaiter>, ready: set<Awaiter>)
      returns (owner: Awaiter?)
      requires World(this, cvs, aws) && cv in cvs
      modifies this, cvs, aws
      ensures World(this, cvs, aws)
      ensures forall c :: c in cvs && c != cv ==> c.queue == old(c.queue)
      ensures old(state.Locked?) ==>
                owner == null && state.Locked? && Queue() == old(Queue()) + old(cv.queue) && cv.queue == []
      ensures old(state.NoLocked?) ==>
                && Outcome(old(cv.queue), ready, owner, Queue(), state.Locked?)
                && cv.queue == Skipped(old(cv.queue), ready)
    {
      ghost var l := cv.queue;
      ghost var q, held := Queue(), state.Locked?;
      var cur := DetachAmong(cv, cvs, aws);
      owner := null;
      ghost var k := 0;
      NoneYet(l);
      while cur != null
        invariant k <= |l| && Chain(cur, l[k..])
        invariant World(this, cvs, aws - Elements(l[k..]))
        invariant forall c :: c in cvs && c != cv ==> c.queue == old(c.queue)
        invariant Visited(held, q, l[..k], ready, owner, Queue(), state.Locked?, cv.queue)
        decreases |l| - k
      {
        cur, owner := VisitNext(cur, owner, held, q, l, k, cv, cvs, aws, ready);
        k := k + 1;
      }
      NoneLeft(l, k, aws);
    }

    /** One round of notify_all's loop, in terms of what the whole loop has done. */
    method VisitNext(cur: Awaiter, owner: Awaiter?, ghost held: bool, ghost q: seq<Awaiter>,
                     ghost l: seq<Awaiter>, ghost k: nat, cv: CondVar,
                     cvs: set<CondVar>, ghost aws: set<Awaiter>, ready: set<Awaiter>)
      returns (nxt: Awaiter?, owner': Awaiter?)
      requires k <= |l| && NoDup(l) && Chain(cur, l[k..]) && cv in cvs
      requires World(this, cvs, aws - Elements(l[k..]))
      requires forall a :: a in l ==> a in aws && a.cv == cv
      requires Visited(held, q, l[..k], ready, owner, Queue(), state.Locked?, cv.queue)
      modifies this, cvs, aws
      ensures k < |l| && Chain(nxt, l[k + 1..])
      ensures World(this, cvs, aws - Elements(l[k + 1..]))
      ensures forall c :: c in cvs && c != cv ==> c.queue == old(c.queue)
      ensures Visited(held, q, l[..k + 1], ready, owner', Queue(), state.Locked?, cv.queue)
    {
      OneMore(l, k);
      VisitOne(held, q, l[..k], cur, ready, owner, Queue(), state.Locked?, cv.queue);
      var woken;
      nxt, woken := VisitFirst(cur, l, k, cv, cvs, aws, ready);
      owner' := if woken != null then woken else owner;
    }

    /** One round of notify_all's loop: the next node is read before the current one is woken. */
    method VisitFirst(cur: Awaiter, ghost l: seq<Awaiter>, ghost k: nat, cv: CondVar,
                      cvs: set<CondVar>, ghost aws: set<Awaiter>, ready: set<Awaiter>)
      returns (nxt: Awaiter?, woken: Awaiter?)
      requires k < |l| && NoDup(l) && Chain(cur, l[k..]) && cv in cvs
      requires World(this, cvs, aws - Elements(l[k..]))
      requires forall a :: a in l ==> a in aws && a.cv == cv
      modifies this, cvs, aws
      ensures Chain(nxt, l[k + 1..])
      ensures World(this, cvs, aws - Elements(l[k + 1..]))
      ensures forall c :: c in cvs && c != cv ==> c.queue == old(c.queue)
      ensures old(state.Locked?) ==>
                woken == null && state.Locked? && Queue() == old(Queue()) + [cur] && cv.queue == old(cv.queue)
      ensures old(state.NoLocked?) ==>
                && (if Qualifies(cur, ready) then woken == cur && state.Locked? else woken == null && state.NoLocked?)
                && Queue() == []
                && cv.queue == old(cv.queue) + if Qualifies(cur, ready) then [] else [cur]
    {
      ghost var rest := l[k + 1..];
      ghost var now := aws - Elements(rest);
      ChainDrop(cur, l[k..]);
      assert cur == l[k] && l[k..][1..] == rest && cur !in rest;
      assert forall a :: a in l[k..] <==> a == cur || a in rest;
      nxt := cur.next;
      WiderWorld(this, cvs, aws - Elements(l[k..]), now);
      woken := WakeUp(cur, cvs, now, ready);
    }

    /** DetachQueue leaves the mutex and the other condition variables alone. */
    method DetachAmong(cv: CondVar, ghost cvs: set<CondVar>, ghost aws: set<Awaiter>) returns (cur: Awaiter?)
      requires World(this, cvs, aws) && cv in cvs
      modifies cv
      ensures World(this, cvs, aws - Elements(old(cv.queue)))
      ensures Chain(cur, old(cv.queue)) && cv.queue == [] && NoDup(old(cv.queue))
      ensures forall a :: a in old(cv.queue) ==> a in aws && a.cv == cv
    {
      assert cv.Valid();
      cur := cv.DetachQueue();
    }
  }
}
