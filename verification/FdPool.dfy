/**
 The pool of registered file slots: the marked buffer with its queue of free indices, the uring
 proxy that owns it together with the null fds, and the `fixed_fds` objects that borrow a slot,
 assign an fd to it and return it.
 */
module FdPool {

  /** An item of the pool: an index, negative when nothing was lent. */
  predicate IsValid(idx: int) {
    idx >= 0
  }

  ghost predicate NoDup(s: seq<int>) {
    forall i, j :: 0 <= i < j < |s| ==> s[i] != s[j]
  }

  ghost predicate InRange(s: seq<int>, n: nat) {
    forall i :: 0 <= i < |s| ==> 0 <= s[i] < n
  }

  class MarkedBuffer {
    const length: nat
    const data: array<int>
    var que: seq<int>

    constructor (n: nat)
      ensures length == n && data.Length == n && fresh(data) && que == []
    {
      length := n;
      data := new int[n];
      que := [];
    }

    method Init()
      modifies this
      ensures que == []
    {
      que := [];
    }

    /** Appends every index to the queue and copies the values. */
    method SetData(values: seq<int>)
      requires data.Length == length <= |values|
      modifies this, data
      ensures que == old(que) + seq(length, i => i)
      ensures data[..] == values[..length]
    {
      ghost var was := que;
      for i := 0 to length
        invariant que == was + seq(i, j => j)
      {
        que := que + [i];
      }
      for i := 0 to length
        invariant que == was + seq(length, j => j)
        invariant data[..i] == values[..i]
      {
        data[i] := values[i];
      }
    }

    method Borrow() returns (idx: int)
      modifies this
      ensures old(que) == [] ==> !IsValid(idx) && que == []
      ensures old(que) != [] ==> old(que) == [idx] + que
    {
      if que == [] {
        return -1;
      }
      idx := que[0];
      que := que[1..];
    }

    method ReturnBack(idx: int)
      modifies this
      ensures que == if IsValid(idx) then old(que) + [idx] else old(que)
    {
      if IsValid(idx) {
        que := que + [idx];
      }
    }
  }

  /** An object that holds at most one slot; it is never copied. */
  class FixedFds {
    var idx: int

    constructor (i: int)
      ensures idx == i
    {
      idx := i;
    }
  }

  class UringProxy {
    const nulls: seq<int>
    const fds: MarkedBuffer
    var registered: seq<int>                 // the kernel's table
    ghost var owner: map<int, FixedFds>      // who holds each borrowed slot
    ghost var objects: set<FixedFds>         // every object made by this proxy

    /** Free and borrowed indices partition 0..length-1, no index is free twice, every free slot
        holds its own null fd, the kernel's table agrees, and every borrowed slot has one holder. */
    ghost predicate Valid()
      reads this, fds, fds.data, objects
    {
      && fds.data.Length == fds.length == |nulls|
      && registered == fds.data[..]
      && NoDup(fds.que) && InRange(fds.que, fds.length)
      && (forall i :: i in owner ==> 0 <= i < fds.length)
      && (forall i :: 0 <= i < fds.length ==> (i in fds.que <==> i !in owner))
      && (forall i :: i in fds.que ==> fds.data[i] == nulls[i])
      && (forall i :: i in owner ==> owner[i] in objects && owner[i].idx == i)
      && (forall o :: o in objects && IsValid(o.idx) ==> o.idx in owner && owner[o.idx] == o)
    }

    /** `init`: empty the queue, fill the pool with the null fds and register the table. */
    constructor (nullFds: seq<int>)
      ensures Valid() && objects == {} && nulls == nullFds && fds.length == |nullFds| && fresh(fds) && fresh(fds.data)
      ensures |fds.que| == |nullFds|
    {
      nulls := nullFds;
      var b := new MarkedBuffer(|nullFds|);
      b.Init();
      b.SetData(nullFds);
      fds := b;
      registered := b.data[..];
      owner := map[];
      objects := {};
      new;
      assert nullFds[..|nullFds|] == nullFds;
      forall i | 0 <= i < fds.length ensures i in fds.que {
        assert fds.que[i] == i;
      }
    }

    method UpdateRegistered(idx: int)
      requires 0 <= idx < fds.data.Length == |registered|
      modifies this`registered
      ensures registered == old(registered)[idx := fds.data[idx]]
    {
      registered := registered[idx := fds.data[idx]];
    }

    /** The constructor of `fixed_fds`: borrows the slot that has been free longest, or none. */
    method Make() returns (o: FixedFds)
      requires Valid()
      modifies this, fds
      ensures Valid() && fresh(o) && objects == old(objects) + {o}
      ensures fds.data[..] == old(fds.data[..])
      ensures old(fds.que) == [] ==> !IsValid(o.idx) && fds.que == [] && owner == old(owner)
      ensures old(fds.que) != [] ==> old(fds.que) == [o.idx] + fds.que && owner == old(owner)[o.idx := o]
    {
      ghost var was := fds.que;
      var idx := fds.Borrow();
      assert was != [] ==> was[0] == idx;
      if IsValid(idx) {
        FirstIsFree(was, fds.que, idx, fds.length);
      }
      o := new FixedFds(idx);
      objects := objects + {o};
      if IsValid(idx) {
        owner := owner[idx := o];
      }
    }

    /** `assign`: the slot takes the fd, and the caller goes on with the slot's index. */
    method Assign(o: FixedFds, fd: int, flag: nat) returns (fd': int, flag': nat)
      requires Valid() && o in objects
      modifies fds.data, this`registered
      ensures Valid()
      ensures !IsValid(o.idx) ==> fd' == fd && flag' == flag && fds.data[..] == old(fds.data[..])
      ensures IsValid(o.idx) ==>
                fd' == o.idx && flag' == SetFixed(flag) && fds.data[..] == old(fds.data[..])[o.idx := fd]
    {
      if !IsValid(o.idx) {
        return fd, flag;
      }
      fds.data[o.idx] := fd;
      UpdateRegistered(o.idx);
      assert registered == fds.data[..];
      return o.idx, SetFixed(flag);
    }

    /** `return_back` and the destructor: the slot gets its null fd back and joins the queue; a
        second call does nothing. */
    method GiveBack(o: FixedFds)
      requires Valid() && o in objects
      modifies this, fds, fds.data, o
      ensures Valid() && objects == old(objects) && !IsValid(o.idx)
      ensures !IsValid(old(o.idx)) ==>
                fds.que == old(fds.que) && fds.data[..] == old(fds.data[..]) && owner == old(owner)
      ensures IsValid(old(o.idx)) ==>
                && fds.que == old(fds.que) + [old(o.idx)]
                && fds.data[..] == old(fds.data[..])[old(o.idx) := nulls[old(o.idx)]]
                && owner == old(owner) - {old(o.idx)}
    {
      if IsValid(o.idx) {
        var idx := o.idx;
        fds.data[idx] := nulls[idx];
        UpdateRegistered(idx);
        assert registered == fds.data[..];
        fds.ReturnBack(idx);
        owner := owner - {idx};
        o.idx := -1;
      }
    }
  }

  lemma FirstIsFree(was: seq<int>, now: seq<int>, idx: int, n: nat)
    requires was == [idx] + now && NoDup(was) && InRange(was, n)
    ensures idx !in now && idx in was && NoDup(now) && InRange(now, n)
    ensures forall i :: i != idx ==> (i in now <==> i in was)
  {
    forall i, j | 0 <= i < j < |now| ensures now[i] != now[j] {
      assert now[i] == was[i + 1] && now[j] == was[j + 1];
    }
    forall i | 0 <= i < |now| ensures now[i] != idx && 0 <= now[i] < n {
      assert was[i + 1] == now[i] && was[0] == idx;
    }
  }

  /** flag | IOSQE_FIXED_FILE, the lowest bit. */
  function SetFixed(flag: nat): (r: nat)
    ensures r % 2 == 1 && r / 2 == flag / 2
  {
    if flag % 2 == 0 then flag + 1 else flag
  }

  lemma AllHome(p: UringProxy)
    requires p.Valid()
    ensures (forall o :: o in p.objects ==> !IsValid(o.idx)) ==>
              p.owner == map[] && p.fds.data[..] == p.nulls && forall i :: 0 <= i < p.fds.length ==> i in p.fds.que
  {
    if forall o :: o in p.objects ==> !IsValid(o.idx) {
      forall i ensures i !in p.owner {}
      assert forall i :: 0 <= i < p.fds.length ==> i in p.fds.que && p.fds.data[i] == p.nulls[i];
    }
  }

  /** What the owners of the objects do, in any order; objects are numbered as they are made. */
  datatype Use = New | Set(k: nat, fd: int) | Return(k: nat)

  /** Any sequence of uses keeps the pool valid; when every object has returned its slot, all slots
      are free again and hold their null fds. */
  method UsePool(p: UringProxy, uses: seq<Use>)
    requires p.Valid() && p.objects == {}
    modifies p, p.fds, p.fds.data
    ensures p.Valid()
    ensures (forall o :: o in p.objects ==> !IsValid(o.idx)) ==>
              p.owner == map[] && p.fds.data[..] == p.nulls && forall i :: 0 <= i < p.fds.length ==> i in p.fds.que
  {
    var made: seq<FixedFds> := [];
    for n := 0 to |uses|
      invariant p.Valid()
      invariant forall o :: o in p.objects <==> o in made
      invariant forall o :: o in made ==> fresh(o)
    {
      match uses[n]
      case New =>
        var o := p.Make();
        made := made + [o];
      case Set(k, fd) =>
        if k < |made| {
          var _, _ := p.Assign(made[k], fd, 0);
        }
      case Return(k) =>
        if k < |made| {
          assert made[k] in p.objects;
          p.GiveBack(made[k]);
        }
    }
    AllHome(p);
  }
}
