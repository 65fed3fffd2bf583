/**
 The inductive invariant of the synchronisation stack. History variables record, beside the
 program's memory, the sequence held by every linked list, the place of every published awaiter
 and the holder of the mutex. No step of the program reads them: `Sync.Do` is defined on the
 memory alone.
 */
module SyncInv {
  import opened Sync

  /** The one list, or the one local variable, through which an awaiter can be reached. */
  datatype Place =
    | InStack                // the mutex word's stack, newest first
    | InRest                 // taken from the word by unlock, not yet reversed
    | InRes                  // the owner's private list, oldest first
    | InCv(cv: nat)          // a condition variable's queue
    | InChain(a: Agent)      // what a's notify_all loop still has to visit
    | InHand(a: Agent)       // a local variable of a, and no list

  datatype Hist = Hist(
    holder: Opt<Agent>,             // who owns the mutex, or is handing it over
    lists: map<Place, seq<Aw>>,
    loc: map<Aw, Place>,
    arrived: seq<Aw>,               // every awaiter pushed on the word, in order
    granted: seq<Aw>)               // every awaiter popped by unlock, in order

  datatype State = State(m: Mem, h: Hist)

  function L(h: Hist, p: Place): seq<Aw> {
    if p in h.lists then h.lists[p] else []
  }

  function PutFirst(h: Hist, p: Place, w: Aw): Hist {
    h.(lists := h.lists[p := [w] + L(h, p)], loc := h.loc[w := p])
  }

  function PutLast(h: Hist, p: Place, w: Aw): Hist {
    h.(lists := h.lists[p := L(h, p) + [w]], loc := h.loc[w := p])
  }

  /** The first element w of list p goes to place p', which is not p. */
  function TakeFirst(h: Hist, p: Place, w: Aw, p': Place): Hist {
    h.(lists := h.lists[p := if L(h, p) == [] then [] else L(h, p)[1..]], loc := h.loc[w := p'])
  }

  function MoveAll(loc: map<Aw, Place>, p: Place, p': Place): map<Aw, Place> {
    map w | w in loc :: if loc[w] == p then p' else loc[w]
  }

  /** The whole list p becomes the list p'. */
  function MoveList(h: Hist, p: Place, p': Place): Hist {
    h.(lists := h.lists[p' := L(h, p)][p := []], loc := MoveAll(h.loc, p, p'))
  }

  /** How each step extends the history. */
  function Note(s: State, l: Label): Hist
    requires Enabled(s.m, l)
  {
    var m, h := s.m, s.h;
    match l
    case TryLock(t) => if m.word.NoLocked? then h.(holder := Some(Coro(t))) else h
    case CasOk(a) =>
      var x := At(m, a);
      if x.seen.NoLocked? then h.(holder := Some(a))
      else PutFirst(h, InStack, x.w).(arrived := h.arrived + [x.w])
    case Register(a, n) =>
      var x := At(m, a);
      PutLast(h, InCv(x.w.cv), x.w).(holder := if x.k.Own? then Some(Helper(n)) else h.holder)
    case PopOne(a) =>
      var cv := At(m, a).cv;
      if Ptr(m.head, cv).None? then h else TakeFirst(h, InCv(cv), Ptr(m.head, cv).v, InHand(a))
    case DetachAll(a) => MoveList(h, InCv(At(m, a).cv), InChain(a))
    case WalkNext(a) =>
      if At(m, a).cur.None? then h else TakeFirst(h, InChain(a), At(m, a).cur.v, InHand(a))
    case TryFree(a) => if m.word == Locked(None) then h.(holder := None) else h
    case Exchange(a) => if TopOf(m.word).None? then h else MoveList(h, InStack, InRest)
    case Flip(a) =>
      var w := At(m, a).node;
      PutFirst(TakeFirst(h, InRest, w, InRes), InRes, w)
    case Pop(a) =>
      var w := At(m, a).first;
      TakeFirst(h, InRes, w, InHand(a)).(granted := h.granted + [w])
    case Resume(a, holds) =>
      var w := At(m, a).w;
      if w.LockAw? || holds then h.(holder := Some(Coro(w.task)), loc := h.loc - {w}) else h
    case _ => h
  }

  function Step(s: State, l: Label): State
    requires Enabled(s.m, l)
  {
    State(Do(s.m, l), Note(s, l))
  }

  function Start(): State {
    State(Init(), Hist(None, map[], map[], [], []))
  }

  // ---- shape of a thread of control ----

  function KBase(k: Cont): Base {
    if k.Own? then ToIdle else k.b
  }

  /** The thread of control owns the mutex, or is in charge of passing it on. */
  predicate HasToken(x: Act) {
    match x
    case Idle => false
    case Blocked(_) => false
    case Load(_, k) => KBase(k).ToCrit?
    case Cas(_, _, k) => KBase(k).ToCrit?
    case Notify(_, b) => b.ToCrit?
    case Detach(_, b) => b.ToCrit?
    case Walk(_, b) => b.ToCrit?
    case _ => true
  }

  /** The awaiter a thread of control holds in a local variable and in no list. */
  function HandOf(x: Act): Opt<Aw> {
    match x
    case Load(w, k) => if k.Own? then None else Some(w)
    case Cas(w, _, k) => if k.Own? then None else Some(w)
    case Reg(w, k) => if k.Own? then None else Some(w)
    case Res(w, _) => Some(w)
    case _ => None
  }

  predicate HasCont(x: Act) {
    x.Load? || x.Cas? || x.Reg? || x.UEntry? || x.UCas? || x.UXchg? || x.URev? || x.UPop? || x.Res?
  }

  /** The next node a notify_all loop will visit. */
  function ChainPtr(x: Act): Opt<Aw> {
    if x.Walk? then x.cur
    else if HasCont(x) && x.k.Loop? then x.k.nxt
    else None
  }

  /** The awaiter of a thread of control's own wait that is not published yet. */
  predicate OwnAw(a: Agent, w: Aw) {
    a == Coro(w.task)
  }

  predicate WellFormed(a: Agent, x: Act) {
    match x
    case Idle => true
    case Crit => a.Coro?
    case Blocked(w) => OwnAw(a, w)
    case Granted(w) => OwnAw(a, w)
    case Load(w, k) => (if k.Own? then OwnAw(a, w) && w.LockAw? else w.CvAw?) && (KBase(k).ToCrit? ==> a.Coro?)
    case Cas(w, _, k) => (if k.Own? then OwnAw(a, w) && w.LockAw? else w.CvAw?) && (KBase(k).ToCrit? ==> a.Coro?)
    case Reg(w, k) => w.CvAw? && KBase(k).ToIdle? && (k.Own? ==> OwnAw(a, w))
    case Notify(_, b) => b.ToCrit? ==> a.Coro?
    case Detach(_, b) => b.ToCrit? ==> a.Coro?
    case Walk(_, b) => b.ToCrit? ==> a.Coro?
    case UEntry(k) => !k.Own? && k.b.ToIdle?
    case UCas(k) => !k.Own? && k.b.ToIdle?
    case UXchg(k) => !k.Own? && k.b.ToIdle?
    case URev(_, _, k) => !k.Own? && k.b.ToIdle?
    case UPop(_, k) => !k.Own? && k.b.ToIdle?
    case Res(_, k) => !k.Own? && k.b.ToIdle?
  }

  // ---- linked lists ----

  function First(s: seq<Aw>): Opt<Aw> {
    if s == [] then None else Some(s[0])
  }

  function Last(s: seq<Aw>): Opt<Aw> {
    if s == [] then None else Some(s[|s| - 1])
  }

  function Succ(s: seq<Aw>, i: nat): Opt<Aw>
    requires i < |s|
  {
    if i + 1 < |s| then Some(s[i + 1]) else None
  }

  /** Following `next` from p visits exactly s and then meets null. */
  ghost predicate Linked(next: map<Aw, Opt<Aw>>, p: Opt<Aw>, s: seq<Aw>) {
    p == First(s) && forall i :: 0 <= i < |s| ==> Ptr(next, s[i]) == Succ(s, i)
  }

  ghost predicate NoDup(s: seq<Aw>) {
    forall i, j :: 0 <= i < j < |s| ==> s[i] != s[j]
  }

  ghost predicate Is(loc: map<Aw, Place>, w: Aw, p: Place) {
    w in loc && loc[w] == p
  }

  /** The list s holds every awaiter at place p, once. */
  ghost predicate Holds(loc: map<Aw, Place>, p: Place, s: seq<Aw>) {
    NoDup(s) && forall w :: w in s <==> Is(loc, w, p)
  }

  // ---- the invariant ----

  /** The variable from which list p is reached. */
  function HeadOf(s: State, p: Place): Opt<Aw> {
    match p
    case InStack => TopOf(s.m.word)
    case InRest => RestPtr(s)
    case InRes => ResPtr(s)
    case InCv(cv) => Ptr(s.m.head, cv)
    case InChain(a) => ChainPtr(At(s.m, a))
    case InHand(_) => None
  }

  function RestPtr(s: State): Opt<Aw> {
    if s.h.holder.Some? && At(s.m, s.h.holder.v).URev? then Some(At(s.m, s.h.holder.v).node) else None
  }

  function ResPtr(s: State): Opt<Aw> {
    if s.h.holder.None? then s.m.resume
    else match At(s.m, s.h.holder.v)
      case URev(_, to, _) => to
      case UPop(first, _) => Some(first)
      case _ => s.m.resume
  }

  /** The mutex is locked exactly when one thread of control is responsible for it. */
  ghost predicate Token(s: State) {
    && (forall a :: HasToken(At(s.m, a)) <==> s.h.holder == Some(a))
    && (s.m.word.NoLocked? <==> s.h.holder.None?)
  }

  ghost predicate Shapes(s: State) {
    forall a :: WellFormed(a, At(s.m, a))
  }

  ghost predicate Places(s: State) {
    forall p: Place :: !p.InHand? ==> Holds(s.h.loc, p, L(s.h, p))
  }

  ghost predicate Hands(s: State) {
    && (forall a, w :: Is(s.h.loc, w, InHand(a)) ==> HandOf(At(s.m, a)) == Some(w))
    && (forall a :: HandOf(At(s.m, a)).Some? ==> Is(s.h.loc, HandOf(At(s.m, a)).v, InHand(a)))
  }

  ghost predicate Kinds(h: Hist) {
    forall w :: w in h.loc ==>
      && (h.loc[w].InCv? ==> w.CvAw? && w.cv == h.loc[w].cv)
      && (h.loc[w].InChain? ==> w.CvAw?)
  }

  /** A task is suspended exactly when its awaiter is at some place: nobody is lost. */
  ghost predicate Sleepers(s: State) {
    forall w :: w in s.h.loc <==> At(s.m, Coro(w.task)) == Blocked(w)
  }

  ghost predicate Links(s: State) {
    forall p: Place :: !p.InHand? ==> Linked(s.m.next, HeadOf(s, p), L(s.h, p))
  }

  ghost predicate Tails(s: State) {
    forall cv :: Ptr(s.m.tail, cv) == Last(L(s.h, InCv(cv)))
  }

  /** Between its load and its exchange a thread's own link equals the word it saw. */
  ghost predicate Seen(s: State) {
    forall a :: At(s.m, a).Cas? ==> Ptr(s.m.next, At(s.m, a).w) == TopOf(At(s.m, a).seen)
  }

  ghost predicate Phase(s: State) {
    && (s.h.holder.None? ==> s.m.resume.None?)
    && (s.h.holder.Some? ==>
          var x := At(s.m, s.h.holder.v);
          && (x.UCas? || x.UXchg? ==> s.m.resume.None?)
          && (x.UXchg? ==> L(s.h, InStack) != []))
  }

  ghost predicate Inv(s: State) {
    && Token(s)
    && Shapes(s)
    && Places(s)
    && Hands(s)
    && Kinds(s.h)
    && Sleepers(s)
    && Links(s)
    && Tails(s)
    && Seen(s)
    && Phase(s)
  }

  lemma StartInv()
    ensures Inv(Start())
  {
    forall p: Place ensures Holds(Start().h.loc, p, L(Start().h, p)) &&
        Linked(Start().m.next, HeadOf(Start(), p), L(Start().h, p)) {
    }
  }

  // ---- lists and places ----

  lemma HoldsOther(loc: map<Aw, Place>, w: Aw, to: Place, p: Place, s: seq<Aw>)
    requires Holds(loc, p, s) && !Is(loc, w, p) && p != to
    ensures Holds(loc[w := to], p, s)
  {
    forall v ensures v in s <==> Is(loc[w := to], v, p) {
      assert v in s <==> Is(loc, v, p);
    }
  }

  lemma HoldsPut(loc: map<Aw, Place>, w: Aw, p: Place, s: seq<Aw>)
    requires Holds(loc, p, s) && !Is(loc, w, p)
    ensures Holds(loc[w := p], p, [w] + s)
    ensures Holds(loc[w := p], p, s + [w])
  {
    assert w !in s;
    forall v ensures (v in [w] + s <==> Is(loc[w := p], v, p)) && (v in s + [w] <==> Is(loc[w := p], v, p)) {
      assert v in s <==> Is(loc, v, p);
    }
  }

  lemma HoldsTake(loc: map<Aw, Place>, p: Place, s: seq<Aw>, to: Place)
    requires Holds(loc, p, s) && s != [] && p != to
    ensures Holds(loc[s[0] := to], p, s[1..])
  {
    forall v ensures v in s[1..] <==> Is(loc[s[0] := to], v, p) {
      assert v in s <==> Is(loc, v, p);
      assert s == [s[0]] + s[1..];
    }
  }

  lemma HoldsMove(loc: map<Aw, Place>, p: Place, p': Place, s: seq<Aw>)
    requires Holds(loc, p, s) && Holds(loc, p', []) && p != p'
    ensures Holds(MoveAll(loc, p, p'), p', s) && Holds(MoveAll(loc, p, p'), p, [])
  {
    forall v ensures v in s <==> Is(MoveAll(loc, p, p'), v, p') {
      assert v in s <==> Is(loc, v, p);
      assert v in [] <==> Is(loc, v, p');
    }
  }

  /** Writing the link of an awaiter outside the list leaves the list as it is. */
  lemma LinkedWrite(next: map<Aw, Opt<Aw>>, w: Aw, to: Opt<Aw>, p: Opt<Aw>, s: seq<Aw>)
    requires Linked(next, p, s) && w !in s
    ensures Linked(next[w := to], p, s)
  {
  }

  lemma LinkedPush(next: map<Aw, Opt<Aw>>, w: Aw, p: Opt<Aw>, s: seq<Aw>)
    requires Linked(next, p, s) && Ptr(next, w) == p
    ensures Linked(next, Some(w), [w] + s)
  {
    forall i | 0 <= i < |s| + 1 ensures Ptr(next, ([w] + s)[i]) == Succ([w] + s, i) {
      if i > 0 {
        assert ([w] + s)[i] == s[i - 1];
        assert Succ([w] + s, i) == Succ(s, i - 1);
      }
    }
  }

  lemma LinkedDrop(next: map<Aw, Opt<Aw>>, p: Opt<Aw>, s: seq<Aw>)
    requires Linked(next, p, s) && s != []
    ensures Linked(next, Ptr(next, s[0]), s[1..])
  {
    forall i | 0 <= i < |s| - 1 ensures Ptr(next, s[1..][i]) == Succ(s[1..], i) {
      assert s[1..][i] == s[i + 1];
      assert Succ(s[1..], i) == Succ(s, i + 1);
    }
  }

  lemma LinkedAppend(next: map<Aw, Opt<Aw>>, p: Opt<Aw>, s: seq<Aw>, w: Aw)
    requires Linked(next, p, s) && NoDup(s) && s != [] && w !in s
    ensures Linked(next[w := None][s[|s| - 1] := Some(w)], p, s + [w])
  {
    var t := s + [w];
    forall i | 0 <= i < |t| ensures Ptr(next[w := None][s[|s| - 1] := Some(w)], t[i]) == Succ(t, i) {
      if i < |s| - 1 {
        assert t[i] == s[i] && s[i] != s[|s| - 1] && s[i] in s;
      }
    }
  }

  // ---- threads of control: at most two of them change in a step ----

  ghost predicate Only(s: State, s': State, a: Agent, c: Agent) {
    forall b :: b != a && b != c ==> At(s'.m, b) == At(s.m, b)
  }

  lemma TokenStep(s: State, s': State, a: Agent, c: Agent)
    requires Token(s) && Only(s, s', a, c)
    requires HasToken(At(s'.m, a)) <==> s'.h.holder == Some(a)
    requires HasToken(At(s'.m, c)) <==> s'.h.holder == Some(c)
    requires s'.h.holder == s.h.holder ||
             (s.h.holder in {None, Some(a), Some(c)} && s'.h.holder in {None, Some(a), Some(c)})
    requires s'.m.word.NoLocked? <==> s'.h.holder.None?
    ensures Token(s')
  {
  }

  lemma ShapesStep(s: State, s': State, a: Agent, c: Agent)
    requires Shapes(s) && Only(s, s', a, c)
    requires WellFormed(a, At(s'.m, a)) && WellFormed(c, At(s'.m, c))
    ensures Shapes(s')
  {
  }

  /** Only the place of w may change. */
  ghost predicate LocBut(h: Hist, h': Hist, w: Aw) {
    forall v :: v != w ==> (v in h'.loc <==> v in h.loc) && (v in h.loc ==> h'.loc[v] == h.loc[v])
  }

  ghost predicate HandOk(s: State, a: Agent) {
    && (HandOf(At(s.m, a)).Some? ==> Is(s.h.loc, HandOf(At(s.m, a)).v, InHand(a)))
    && (forall w :: Is(s.h.loc, w, InHand(a)) ==> HandOf(At(s.m, a)) == Some(w))
  }

  lemma HandsStep(s: State, s': State, a: Agent, c: Agent, w: Aw)
    requires Hands(s) && Only(s, s', a, c) && LocBut(s.h, s'.h, w)
    requires HandOk(s', a) && HandOk(s', c)
    requires w in s.h.loc && s.h.loc[w].InHand? ==> s.h.loc[w].a == a
    requires w in s'.h.loc && s'.h.loc[w].InHand? ==> s'.h.loc[w].a == a
    ensures Hands(s')
  {
    forall b, v | Is(s'.h.loc, v, InHand(b)) ensures HandOf(At(s'.m, b)) == Some(v) {
      if b != a && b != c { assert v != w; assert Is(s.h.loc, v, InHand(b)); }
    }
    forall b | HandOf(At(s'.m, b)).Some? ensures Is(s'.h.loc, HandOf(At(s'.m, b)).v, InHand(b)) {
      if b != a && b != c { assert Is(s.h.loc, HandOf(At(s.m, b)).v, InHand(b)); }
    }
  }

  /** a's hand is emptied: it held at most w, which is now elsewhere. */
  lemma HandEmptied(s: State, s': State, a: Agent, w: Aw)
    requires Hands(s) && LocBut(s.h, s'.h, w) && !Is(s'.h.loc, w, InHand(a)) && HandOf(At(s'.m, a)).None?
    requires HandOf(At(s.m, a)).None? || HandOf(At(s.m, a)) == Some(w)
    ensures HandOk(s', a)
  {
    forall v ensures !Is(s'.h.loc, v, InHand(a)) {
      assert Is(s.h.loc, v, InHand(a)) ==> HandOf(At(s.m, a)) == Some(v);
      assert v != w ==> (Is(s'.h.loc, v, InHand(a)) <==> Is(s.h.loc, v, InHand(a)));
    }
  }

  /** a's hand, empty before, now holds w. */
  lemma HandFilled(s: State, s': State, a: Agent, w: Aw)
    requires Hands(s) && LocBut(s.h, s'.h, w) && Is(s'.h.loc, w, InHand(a)) && HandOf(At(s'.m, a)) == Some(w)
    requires HandOf(At(s.m, a)).None?
    ensures HandOk(s', a)
  {
    forall v ensures Is(s'.h.loc, v, InHand(a)) ==> v == w {
      assert Is(s.h.loc, v, InHand(a)) ==> HandOf(At(s.m, a)) == Some(v);
      assert v != w ==> (Is(s'.h.loc, v, InHand(a)) <==> Is(s.h.loc, v, InHand(a)));
    }
  }

  ghost predicate SleepOk(s: State, s': State, a: Agent, w: Aw) {
    var x, y := At(s.m, a), At(s'.m, a);
    && (x.Blocked? ==> y == x || x.w == w)
    && (y.Blocked? ==> y == x || y.w == w)
  }

  lemma SleepersStep(s: State, s': State, a: Agent, c: Agent, w: Aw)
    requires Sleepers(s) && Only(s, s', a, c) && LocBut(s.h, s'.h, w)
    requires SleepOk(s, s', a, w) && SleepOk(s, s', c, w)
    requires w in s'.h.loc <==> At(s'.m, Coro(w.task)) == Blocked(w)
    ensures Sleepers(s')
  {
    forall v ensures v in s'.h.loc <==> At(s'.m, Coro(v.task)) == Blocked(v) {
      if v != w { assert v in s.h.loc <==> At(s.m, Coro(v.task)) == Blocked(v); }
    }
  }

  /** The owner's private list is reached from the same variable before and after. */
  lemma OwnerHeads(s: State, s': State, a: Agent)
    requires Only(s, s', a, a) && s'.h.holder == s.h.holder && s'.m.resume == s.m.resume
    requires forall x :: x in {At(s.m, a), At(s'.m, a)} ==> !x.URev? && !x.UPop?
    ensures RestPtr(s') == RestPtr(s) && ResPtr(s') == ResPtr(s)
  {
  }

  ghost predicate SameHeads(s: State, s': State) {
    forall p: Place :: !p.InHand? ==> HeadOf(s', p) == HeadOf(s, p)
  }

  lemma LinksKept(s: State, s': State)
    requires Links(s) && SameHeads(s, s') && s'.m.next == s.m.next && s'.h.lists == s.h.lists
    ensures Links(s')
  {
    forall p: Place | !p.InHand? ensures Linked(s'.m.next, HeadOf(s', p), L(s'.h, p)) {
      assert Linked(s.m.next, HeadOf(s, p), L(s.h, p));
    }
  }

  // ---- one lemma per kind of step ----

  /** A step of a that keeps the token, the hand, the chain and the suspension of a. */
  ghost predicate Quiet(s: State, s': State, a: Agent) {
    var x, y := At(s.m, a), At(s'.m, a);
    && Only(s, s', a, a)
    && WellFormed(a, y)
    && HasToken(y) == HasToken(x)
    && HandOf(y) == HandOf(x)
    && ChainPtr(y) == ChainPtr(x)
    && !x.Blocked? && !y.Blocked?
  }

  lemma QuietHands(s: State, s': State, a: Agent)
    requires Hands(s) && Sleepers(s) && Only(s, s', a, a) && s'.h.loc == s.h.loc
    requires HandOf(At(s'.m, a)) == HandOf(At(s.m, a)) && !At(s.m, a).Blocked? && !At(s'.m, a).Blocked?
    ensures Hands(s') && Sleepers(s')
  {
  }

  lemma QuietThreads(s: State, s': State, a: Agent)
    requires Token(s) && Shapes(s) && Hands(s) && Sleepers(s) && Quiet(s, s', a)
    requires s'.h.holder == s.h.holder && s'.h.loc == s.h.loc
    requires s'.m.word.NoLocked? == s.m.word.NoLocked?
    ensures Token(s') && Shapes(s') && Hands(s') && Sleepers(s')
  {
    TokenStep(s, s', a, a);
    ShapesStep(s, s', a, a);
    QuietHands(s, s', a);
  }

  /** Steps that only advance a's program counter. */
  lemma LocalStep(s: State, s': State, a: Agent)
    requires Inv(s) && Quiet(s, s', a)
    requires s'.h == s.h && s'.m == s.m.(act := s'.m.act)
    requires !At(s.m, a).URev? && !At(s.m, a).UPop? && !At(s'.m, a).URev?
    requires At(s'.m, a).UPop? ==> s.m.resume == Some(At(s'.m, a).first)
    requires At(s'.m, a).UCas? ==> s.m.resume.None?
    requires At(s'.m, a).UXchg? ==> s.m.resume.None? && L(s.h, InStack) != []
    requires !At(s'.m, a).Cas?
    ensures Inv(s')
  {
    QuietThreads(s, s', a);
    LocalHeads(s, s', a);
    LinksKept(s, s');
  }

  lemma LocalHeads(s: State, s': State, a: Agent)
    requires Token(s) && Quiet(s, s', a)
    requires s'.h == s.h && s'.m == s.m.(act := s'.m.act)
    requires !At(s.m, a).URev? && !At(s.m, a).UPop? && !At(s'.m, a).URev?
    requires At(s'.m, a).UPop? ==> s.m.resume == Some(At(s'.m, a).first)
    ensures SameHeads(s, s')
  {
    forall p: Place | !p.InHand? ensures HeadOf(s', p) == HeadOf(s, p) {
      if p.InChain? { assert ChainPtr(At(s'.m, p.a)) == ChainPtr(At(s.m, p.a)); }
    }
  }

  /** An awaiter whose link a may write: its own unpublished one, or the one in its hand. */
  ghost predicate Private(s: State, a: Agent, w: Aw) {
    Is(s.h.loc, w, InHand(a)) || (w !in s.h.loc && OwnAw(a, w))
  }

  lemma LoadPrivate(s: State, a: Agent)
    requires Shapes(s) && Hands(s) && Sleepers(s) && (At(s.m, a).Load? || At(s.m, a).Cas? || At(s.m, a).Reg?)
    ensures Private(s, a, At(s.m, a).w)
  {
    assert WellFormed(a, At(s.m, a));
    assert HandOf(At(s.m, a)).Some? ==> Is(s.h.loc, HandOf(At(s.m, a)).v, InHand(a));
  }

  /** A private link is read by no list... */
  lemma PrivateList(s: State, a: Agent, w: Aw, to: Opt<Aw>, p: Place)
    requires Places(s) && Links(s) && Private(s, a, w) && !p.InHand?
    ensures w !in L(s.h, p) && Linked(s.m.next[w := to], HeadOf(s, p), L(s.h, p))
  {
    assert Holds(s.h.loc, p, L(s.h, p));
    assert w in L(s.h, p) <==> Is(s.h.loc, w, p);
    assert Linked(s.m.next, HeadOf(s, p), L(s.h, p));
    LinkedWrite(s.m.next, w, to, HeadOf(s, p), L(s.h, p));
  }

  /** ... and by no other pending exchange, whose own link is private too. */
  lemma SeenWrite(s: State, s': State, a: Agent, w: Aw, to: Opt<Aw>, b: Agent)
    requires Shapes(s) && Hands(s) && Sleepers(s) && Seen(s)
    requires Private(s, a, w) || (w in s.h.loc && !s.h.loc[w].InHand?)
    requires b != a && At(s.m, b).Cas?
    ensures Ptr(s.m.next[w := to], At(s.m, b).w) == TopOf(At(s.m, b).seen)
    ensures At(s.m, b).w != w
  {
    LoadPrivate(s, b);
  }

  lemma LoadStep(s: State, a: Agent)
    requires Inv(s) && At(s.m, a).Load?
    ensures Inv(Step(s, LoadWord(a)))
  {
    var s' := Step(s, LoadWord(a));
    assert WellFormed(a, At(s.m, a));
    QuietThreads(s, s', a);
    LoadPrivate(s, a);
    LoadLinks(s, s', a);
    LoadSeen(s, s', a);
  }

  lemma LoadLinks(s: State, s': State, a: Agent)
    requires Links(s) && Places(s) && Quiet(s, s', a) && At(s.m, a).Load? && At(s'.m, a).Cas?
    requires Private(s, a, At(s'.m, a).w) && s'.h == s.h
    requires s'.m == s.m.(act := s'.m.act, next := s.m.next[At(s'.m, a).w := TopOf(s.m.word)])
    ensures Links(s')
  {
    OwnerHeads(s, s', a);
    forall p: Place | !p.InHand? ensures Linked(s'.m.next, HeadOf(s', p), L(s'.h, p)) {
      PrivateList(s, a, At(s'.m, a).w, TopOf(s.m.word), p);
      if p.InChain? { assert ChainPtr(At(s'.m, p.a)) == ChainPtr(At(s.m, p.a)); }
    }
  }

  lemma LoadSeen(s: State, s': State, a: Agent)
    requires Shapes(s) && Hands(s) && Sleepers(s) && Seen(s) && Only(s, s', a, a) && At(s'.m, a).Cas?
    requires Private(s, a, At(s'.m, a).w) && At(s'.m, a).seen == s.m.word
    requires s'.m.next == s.m.next[At(s'.m, a).w := TopOf(s.m.word)]
    ensures Seen(s')
  {
    forall b | At(s'.m, b).Cas? ensures Ptr(s'.m.next, At(s'.m, b).w) == TopOf(At(s'.m, b).seen) {
      if b != a { SeenWrite(s, s', a, At(s'.m, a).w, TopOf(s.m.word), b); }
    }
  }

  /** Taking or freeing the mutex moves no list. */
  lemma OwnHeads(s: State, s': State, a: Agent)
    requires Only(s, s', a, a) && s.h.holder in {None, Some(a)} && s'.h.holder in {None, Some(a)}
    requires ChainPtr(At(s'.m, a)) == ChainPtr(At(s.m, a)) && TopOf(s'.m.word) == TopOf(s.m.word)
    requires s'.m.resume == s.m.resume && s'.m.head == s.m.head
    requires forall x :: x in {At(s.m, a), At(s'.m, a)} ==> !x.URev? && !x.UPop?
    ensures SameHeads(s, s')
  {
    forall p: Place | !p.InHand? ensures HeadOf(s', p) == HeadOf(s, p) {
      if p.InChain? { assert ChainPtr(At(s'.m, p.a)) == ChainPtr(At(s.m, p.a)); }
    }
  }

  /** The mutex was free and a takes it. */
  lemma AcquireStep(s: State, s': State, a: Agent)
    requires Inv(s) && Only(s, s', a, a) && s.h.holder.None?
    requires var x, y := At(s.m, a), At(s'.m, a);
             && WellFormed(a, y) && HasToken(y) && HandOf(y) == HandOf(x) && ChainPtr(y) == ChainPtr(x)
             && (y.Crit? || y.Granted? || y.Res?) && !x.Blocked?
    requires s'.h == s.h.(holder := Some(a)) && s'.m == s.m.(act := s'.m.act, word := Locked(None))
    ensures Inv(s')
  {
    TokenStep(s, s', a, a);
    ShapesStep(s, s', a, a);
    QuietHands(s, s', a);
    AcquireLists(s, s', a);
  }

  lemma AcquireLists(s: State, s': State, a: Agent)
    requires Token(s) && Places(s) && Links(s) && Tails(s) && Seen(s) && Phase(s) && Only(s, s', a, a)
    requires s.h.holder.None?
    requires ChainPtr(At(s'.m, a)) == ChainPtr(At(s.m, a))
    requires At(s'.m, a).Crit? || At(s'.m, a).Granted? || At(s'.m, a).Res?
    requires s'.h == s.h.(holder := Some(a)) && s'.m == s.m.(act := s'.m.act, word := Locked(None))
    ensures Places(s') && Links(s') && Tails(s') && Seen(s') && Phase(s')
  {
    assert !HasToken(At(s.m, a));
    OwnHeads(s, s', a);
    LinksKept(s, s');
  }

  /** The mutex had no waiter and a frees it. */
  lemma ReleaseStep(s: State, s': State, a: Agent)
    requires Inv(s) && Only(s, s', a, a) && At(s.m, a).UCas? && s.h.holder == Some(a)
    requires var x, y := At(s.m, a), At(s'.m, a);
             && WellFormed(a, y) && !HasToken(y) && HandOf(y).None? && ChainPtr(y) == ChainPtr(x)
             && !y.Blocked? && !y.Cas? && s.m.word == Locked(None)
    requires s'.h == s.h.(holder := None) && s'.m == s.m.(act := s'.m.act, word := NoLocked)
    ensures Inv(s')
  {
    TokenStep(s, s', a, a);
    ShapesStep(s, s', a, a);
    QuietHands(s, s', a);
    OwnHeads(s, s', a);
    LinksKept(s, s');
  }

  /** a publishes its private awaiter w on the word's stack. */
  ghost predicate Pushes(s: State, s': State, a: Agent) {
    var x := At(s.m, a);
    && x.Cas? && s.m.word == x.seen && s.m.word.Locked?
    && Only(s, s', a, a)
    && At(s'.m, a) == (if x.k.Own? then Blocked(x.w) else Return(x.k))
    && s'.h == PutFirst(s.h, InStack, x.w).(arrived := s'.h.arrived)
    && s'.m == s.m.(act := s'.m.act, word := Locked(Some(x.w)))
  }

  lemma PushStep(s: State, s': State, a: Agent)
    requires Inv(s) && Pushes(s, s', a)
    ensures Inv(s')
  {
    LoadPrivate(s, a);
    PushThreads(s, s', a);
    PushPlaces(s, s', a, At(s.m, a).w);
    PushLinks(s, s', a);
  }

  lemma PushThreads(s: State, s': State, a: Agent)
    requires Token(s) && Shapes(s) && Hands(s) && Sleepers(s) && Pushes(s, s', a) && Private(s, a, At(s.m, a).w)
    ensures Token(s') && Shapes(s') && Hands(s') && Sleepers(s')
  {
    var w := At(s.m, a).w;
    assert WellFormed(a, At(s.m, a));
    assert w in s.h.loc <==> At(s.m, Coro(w.task)) == Blocked(w);
    TokenStep(s, s', a, a);
    ShapesStep(s, s', a, a);
    HandEmptied(s, s', a, w);
    HandsStep(s, s', a, a, w);
    SleepersStep(s, s', a, a, w);
  }

  lemma PushPlaces(s: State, s': State, a: Agent, w: Aw)
    requires Places(s) && Kinds(s.h) && Private(s, a, w)
    requires s'.h == PutFirst(s.h, InStack, w).(arrived := s'.h.arrived)
    ensures Places(s') && Kinds(s'.h)
  {
    forall p: Place | !p.InHand? ensures Holds(s'.h.loc, p, L(s'.h, p)) {
      assert Holds(s.h.loc, p, L(s.h, p));
      if p == InStack { HoldsPut(s.h.loc, w, p, L(s.h, p)); } else { HoldsOther(s.h.loc, w, InStack, p, L(s.h, p)); }
    }
  }

  lemma PushLinks(s: State, s': State, a: Agent)
    requires Links(s) && Tails(s) && Seen(s) && Phase(s) && Shapes(s) && Pushes(s, s', a)
    ensures Links(s') && Tails(s') && Seen(s') && Phase(s')
  {
    var x := At(s.m, a);
    assert WellFormed(a, x);
    OwnerHeads(s, s', a);
    forall p: Place | !p.InHand? ensures Linked(s'.m.next, HeadOf(s', p), L(s'.h, p)) {
      assert Linked(s.m.next, HeadOf(s, p), L(s.h, p));
      if p == InStack {
        LinkedPush(s.m.next, x.w, HeadOf(s, p), L(s.h, p));
      } else if p.InChain? {
        assert ChainPtr(At(s'.m, p.a)) == ChainPtr(At(s.m, p.a));
      }
    }
  }

  /** a takes the first element w of list p into its hand. */
  ghost predicate Takes(s: State, s': State, a: Agent, p: Place, w: Aw) {
    var x, y := At(s.m, a), At(s'.m, a);
    && Only(s, s', a, a) && WellFormed(a, y) && (y.Load? || y.Res?)
    && HasToken(y) == HasToken(x) && HandOf(y) == Some(w) && HandOf(x).None? && !x.Blocked?
    && !p.InHand? && HeadOf(s, p) == Some(w)
    && s'.h == TakeFirst(s.h, p, w, InHand(a)).(granted := s'.h.granted)
    && s'.m.next == s.m.next && s'.m.word == s.m.word
    && HeadOf(s', p) == Ptr(s.m.next, w)
    && (forall r: Place :: !r.InHand? && r != p ==> HeadOf(s', r) == HeadOf(s, r))
  }

  lemma TakeStep(s: State, s': State, a: Agent, p: Place, w: Aw)
    requires Inv(s) && Takes(s, s', a, p, w) && Phase(s') && Tails(s')
    ensures Inv(s')
  {
    assert Linked(s.m.next, HeadOf(s, p), L(s.h, p)) && Holds(s.h.loc, p, L(s.h, p));
    assert L(s.h, p)[0] == w && w in L(s.h, p) && Is(s.h.loc, w, p);
    TakePlaces(s, s', a, p, w);
    TakeThreads(s, s', a, p, w);
    TakeLinks(s, s', a, p, w);
  }

  lemma TakePlaces(s: State, s': State, a: Agent, p: Place, w: Aw)
    requires Places(s) && Kinds(s.h) && !p.InHand? && First(L(s.h, p)) == Some(w) && Is(s.h.loc, w, p)
    requires s'.h == TakeFirst(s.h, p, w, InHand(a)).(granted := s'.h.granted)
    ensures Places(s') && Kinds(s'.h)
  {
    forall r: Place | !r.InHand? ensures Holds(s'.h.loc, r, L(s'.h, r)) {
      assert Holds(s.h.loc, r, L(s.h, r));
      if r == p {
        HoldsTake(s.h.loc, p, L(s.h, p), InHand(a));
      } else {
        HoldsOther(s.h.loc, w, InHand(a), r, L(s.h, r));
      }
    }
  }

  lemma TakeThreads(s: State, s': State, a: Agent, p: Place, w: Aw)
    requires Token(s) && Shapes(s) && Hands(s) && Sleepers(s) && Seen(s)
    requires Takes(s, s', a, p, w) && Is(s.h.loc, w, p)
    ensures Token(s') && Shapes(s') && Hands(s') && Sleepers(s') && Seen(s')
  {
    TokenStep(s, s', a, a);
    ShapesStep(s, s', a, a);
    HandFilled(s, s', a, w);
    HandsStep(s, s', a, a, w);
    assert At(s.m, Coro(w.task)) == Blocked(w);
    SleepersStep(s, s', a, a, w);
  }

  lemma TakeLinks(s: State, s': State, a: Agent, p: Place, w: Aw)
    requires Links(s) && Takes(s, s', a, p, w) && First(L(s.h, p)) == Some(w)
    ensures Links(s')
  {
    forall r: Place | !r.InHand? ensures Linked(s'.m.next, HeadOf(s', r), L(s'.h, r)) {
      assert Linked(s.m.next, HeadOf(s, r), L(s.h, r));
      if r == p { LinkedDrop(s.m.next, HeadOf(s, r), L(s.h, r)); }
    }
  }

  /** The whole list p becomes list p', which was empty. */
  ghost predicate Moves(s: State, s': State, a: Agent, p: Place, p': Place) {
    var x, y := At(s.m, a), At(s'.m, a);
    && Only(s, s', a, a) && WellFormed(a, y) && (y.Walk? || y.URev?) && (x.Detach? || x.UXchg?)
    && HasToken(y) == HasToken(x)
    && ((p.InCv? && p'.InChain?) || (p == InStack && p' == InRest))
    && s'.h == MoveList(s.h, p, p')
    && s'.m.next == s.m.next && s'.m.word.NoLocked? == s.m.word.NoLocked?
    && HeadOf(s', p) == None && HeadOf(s', p') == HeadOf(s, p)
    && (forall r: Place :: !r.InHand? && r != p && r != p' ==> HeadOf(s', r) == HeadOf(s, r))
  }

  lemma MoveStep(s: State, s': State, a: Agent, p: Place, p': Place)
    requires Inv(s) && Moves(s, s', a, p, p') && L(s.h, p') == [] && Phase(s') && Tails(s')
    ensures Inv(s')
  {
    forall r: Place | !r.InHand? ensures Linked(s'.m.next, HeadOf(s', r), L(s'.h, r)) {
      assert Linked(s.m.next, HeadOf(s, r), L(s.h, r));
      assert Linked(s.m.next, HeadOf(s, p), L(s.h, p));
    }
    MovePlaces(s, s', a, p, p');
    MoveThreads(s, s', a, p, p');
  }

  lemma MovePlaces(s: State, s': State, a: Agent, p: Place, p': Place)
    requires Places(s) && Kinds(s.h) && Moves(s, s', a, p, p') && L(s.h, p') == []
    ensures Places(s') && Kinds(s'.h)
  {
    assert Holds(s.h.loc, p, L(s.h, p)) && Holds(s.h.loc, p', L(s.h, p'));
    HoldsMove(s.h.loc, p, p', L(s.h, p));
    forall r: Place | !r.InHand? && r != p && r != p' ensures Holds(s'.h.loc, r, L(s'.h, r)) {
      assert Holds(s.h.loc, r, L(s.h, r));
      forall v ensures v in L(s.h, r) <==> Is(s'.h.loc, v, r) { assert v in L(s.h, r) <==> Is(s.h.loc, v, r); }
    }
  }

  lemma MoveThreads(s: State, s': State, a: Agent, p: Place, p': Place)
    requires Token(s) && Shapes(s) && Hands(s) && Sleepers(s) && Seen(s) && Moves(s, s', a, p, p')
    ensures Token(s') && Shapes(s') && Hands(s') && Sleepers(s') && Seen(s')
  {
    TokenStep(s, s', a, a);
    ShapesStep(s, s', a, a);
    MoveHands(s, s', a, p, p');
    forall v ensures v in s'.h.loc <==> At(s'.m, Coro(v.task)) == Blocked(v) {
      assert v in s.h.loc <==> At(s.m, Coro(v.task)) == Blocked(v);
    }
  }

  lemma MoveHands(s: State, s': State, a: Agent, p: Place, p': Place)
    requires Hands(s) && Moves(s, s', a, p, p')
    ensures Hands(s')
  {
    forall b, v | Is(s'.h.loc, v, InHand(b)) ensures HandOf(At(s'.m, b)) == Some(v) {
      assert Is(s.h.loc, v, InHand(b));
    }
    forall b | HandOf(At(s'.m, b)).Some? ensures Is(s'.h.loc, HandOf(At(s'.m, b)).v, InHand(b)) {
      assert Is(s.h.loc, HandOf(At(s.m, b)).v, InHand(b));
    }
  }

  /** One iteration of the in-place reversal. */
  ghost predicate Flips(s: State, s': State, a: Agent) {
    var x := At(s.m, a);
    && x.URev? && Only(s, s', a, a)
    && At(s'.m, a) == (if Ptr(s.m.next, x.node).None? then UPop(x.node, x.k)
                       else URev(Ptr(s.m.next, x.node).v, Some(x.node), x.k))
    && s'.h == PutFirst(TakeFirst(s.h, InRest, x.node, InRes), InRes, x.node)
    && s'.m == s.m.(act := s'.m.act, next := s.m.next[x.node := x.to])
  }

  lemma FlipStep(s: State, s': State, a: Agent)
    requires Inv(s) && Flips(s, s', a)
    ensures Inv(s')
  {
    FlipNode(s, a);
    FlipPlaces(s, s', At(s.m, a).node);
    FlipThreads(s, s', a);
    FlipSeen(s, s', a);
    FlipLinks(s, s', a);
  }

  lemma FlipNode(s: State, a: Agent)
    requires Token(s) && Shapes(s) && Places(s) && Links(s) && At(s.m, a).URev?
    ensures s.h.holder == Some(a) && WellFormed(a, At(s.m, a))
    ensures First(L(s.h, InRest)) == Some(At(s.m, a).node) && Is(s.h.loc, At(s.m, a).node, InRest)
  {
    assert HasToken(At(s.m, a));
    assert Linked(s.m.next, HeadOf(s, InRest), L(s.h, InRest)) && Holds(s.h.loc, InRest, L(s.h, InRest));
    assert At(s.m, a).node in L(s.h, InRest);
  }

  lemma FlipPlaces(s: State, s': State, w: Aw)
    requires Places(s) && Kinds(s.h) && First(L(s.h, InRest)) == Some(w) && Is(s.h.loc, w, InRest)
    requires s'.h == PutFirst(TakeFirst(s.h, InRest, w, InRes), InRes, w)
    ensures Places(s') && Kinds(s'.h)
  {
    forall r: Place | !r.InHand? ensures Holds(s'.h.loc, r, L(s'.h, r)) {
      assert Holds(s.h.loc, r, L(s.h, r));
      assert s'.h.loc == s.h.loc[w := InRes];
      if r == InRest { HoldsTake(s.h.loc, r, L(s.h, r), InRes); }
      else if r == InRes { HoldsPut(s.h.loc, w, r, L(s.h, r)); }
      else { HoldsOther(s.h.loc, w, InRes, r, L(s.h, r)); }
    }
  }

  lemma FlipThreads(s: State, s': State, a: Agent)
    requires Token(s) && Shapes(s) && Hands(s) && Sleepers(s) && At(s.m, a).URev? && Only(s, s', a, a)
    requires At(s'.m, a).URev? || At(s'.m, a).UPop?
    requires WellFormed(a, At(s'.m, a)) && s'.h.holder == s.h.holder && s'.m.word == s.m.word
    requires Is(s.h.loc, At(s.m, a).node, InRest) && s'.h.loc == s.h.loc[At(s.m, a).node := InRes]
    ensures Token(s') && Shapes(s') && Hands(s') && Sleepers(s')
  {
    TokenStep(s, s', a, a);
    ShapesStep(s, s', a, a);
    FlipHands(s, s', a, At(s.m, a).node);
  }

  lemma FlipHands(s: State, s': State, a: Agent, w: Aw)
    requires Hands(s) && Sleepers(s) && At(s.m, a).URev? && Only(s, s', a, a)
    requires At(s'.m, a).URev? || At(s'.m, a).UPop?
    requires Is(s.h.loc, w, InRest) && s'.h.loc == s.h.loc[w := InRes]
    ensures Hands(s') && Sleepers(s')
  {
    HandEmptied(s, s', a, w);
    HandsStep(s, s', a, a, w);
    FlipSleepers(s, s', a, w);
  }

  lemma FlipSleepers(s: State, s': State, a: Agent, w: Aw)
    requires Sleepers(s) && At(s.m, a).URev? && Only(s, s', a, a) && (At(s'.m, a).URev? || At(s'.m, a).UPop?)
    requires Is(s.h.loc, w, InRest) && s'.h.loc == s.h.loc[w := InRes]
    ensures Sleepers(s')
  {
    assert At(s.m, Coro(w.task)) == Blocked(w);
    SleepersStep(s, s', a, a, w);
  }

  lemma FlipSeen(s: State, s': State, a: Agent)
    requires Shapes(s) && Hands(s) && Sleepers(s) && Seen(s) && Flips(s, s', a) && Is(s.h.loc, At(s.m, a).node, InRest)
    ensures Seen(s')
  {
    forall b | At(s'.m, b).Cas? ensures Ptr(s'.m.next, At(s'.m, b).w) == TopOf(At(s'.m, b).seen) {
      SeenWrite(s, s', a, At(s.m, a).node, At(s.m, a).to, b);
    }
  }

  lemma FlipLinks(s: State, s': State, a: Agent)
    requires Links(s) && Places(s) && Tails(s) && Phase(s) && Flips(s, s', a) && s.h.holder == Some(a)
    requires First(L(s.h, InRest)) == Some(At(s.m, a).node) && Is(s.h.loc, At(s.m, a).node, InRest)
    ensures Links(s') && Tails(s') && Phase(s')
  {
    forall r: Place | !r.InHand? ensures Linked(s'.m.next, HeadOf(s', r), L(s'.h, r)) {
      if r == InRest { FlipRest(s, s', a); }
      else if r == InRes { FlipRes(s, s', a); }
      else { FlipOther(s, s', a, r); }
    }
  }

  lemma FlipRest(s: State, s': State, a: Agent)
    requires Links(s) && Places(s) && Flips(s, s', a) && s.h.holder == Some(a)
    requires First(L(s.h, InRest)) == Some(At(s.m, a).node)
    ensures Linked(s'.m.next, RestPtr(s'), L(s'.h, InRest))
  {
    var w, rest := At(s.m, a).node, L(s.h, InRest);
    assert Linked(s.m.next, HeadOf(s, InRest), rest) && Holds(s.h.loc, InRest, rest);
    LinkedDrop(s.m.next, HeadOf(s, InRest), rest);
    LinkedWrite(s.m.next, w, At(s.m, a).to, Ptr(s.m.next, w), rest[1..]);
  }

  lemma FlipRes(s: State, s': State, a: Agent)
    requires Links(s) && Places(s) && Flips(s, s', a) && s.h.holder == Some(a)
    requires Is(s.h.loc, At(s.m, a).node, InRest)
    ensures Linked(s'.m.next, ResPtr(s'), L(s'.h, InRes))
  {
    var w, to, res := At(s.m, a).node, At(s.m, a).to, L(s.h, InRes);
    assert Linked(s.m.next, HeadOf(s, InRes), res) && Holds(s.h.loc, InRes, res);
    assert w in res <==> Is(s.h.loc, w, InRes);
    LinkedWrite(s.m.next, w, to, to, res);
    LinkedPush(s'.m.next, w, to, res);
  }

  lemma FlipOther(s: State, s': State, a: Agent, r: Place)
    requires Links(s) && Places(s) && Flips(s, s', a) && s.h.holder == Some(a)
    requires Is(s.h.loc, At(s.m, a).node, InRest) && !r.InHand? && r != InRest && r != InRes
    ensures Linked(s'.m.next, HeadOf(s', r), L(s'.h, r))
  {
    var w := At(s.m, a).node;
    assert Linked(s.m.next, HeadOf(s, r), L(s.h, r)) && Holds(s.h.loc, r, L(s.h, r));
    assert w in L(s.h, r) <==> Is(s.h.loc, w, r);
    LinkedWrite(s.m.next, w, At(s.m, a).to, HeadOf(s, r), L(s.h, r));
    if r.InChain? { assert ChainPtr(At(s'.m, r.a)) == ChainPtr(At(s.m, r.a)); }
  }

  /** unlock hands the mutex to the awaiter in its hand. */
  ghost predicate Grants(s: State, s': State, a: Agent) {
    var x := At(s.m, a);
    && x.Res? && Only(s, s', a, Coro(x.w.task))
    && At(s'.m, a) == Return(x.k) && At(s'.m, Coro(x.w.task)) == Granted(x.w)
    && s'.h == s.h.(holder := Some(Coro(x.w.task)), loc := s.h.loc - {x.w})
    && s'.m == s.m.(act := s'.m.act)
  }

  lemma GrantStep(s: State, s': State, a: Agent)
    requires Inv(s) && Grants(s, s', a)
    requires s.h.holder == Some(a) && Is(s.h.loc, At(s.m, a).w, InHand(a)) && WellFormed(a, At(s.m, a))
    requires At(s.m, Coro(At(s.m, a).w.task)) == Blocked(At(s.m, a).w)
    ensures Inv(s')
  {
    GrantThreads(s, s', a);
    GrantLists(s, s', a);
  }

  lemma GrantThreads(s: State, s': State, a: Agent)
    requires Token(s) && Shapes(s) && Hands(s) && Sleepers(s) && Seen(s) && Grants(s, s', a)
    requires s.h.holder == Some(a) && Is(s.h.loc, At(s.m, a).w, InHand(a)) && WellFormed(a, At(s.m, a))
    requires At(s.m, Coro(At(s.m, a).w.task)) == Blocked(At(s.m, a).w)
    ensures Token(s') && Shapes(s') && Hands(s') && Sleepers(s') && Seen(s')
  {
    var c := Coro(At(s.m, a).w.task);
    TokenStep(s, s', a, c);
    ShapesStep(s, s', a, c);
    GrantHands(s, s', a, c);
  }

  lemma GrantHands(s: State, s': State, a: Agent, c: Agent)
    requires Hands(s) && Sleepers(s) && Grants(s, s', a) && c == Coro(At(s.m, a).w.task)
    requires Is(s.h.loc, At(s.m, a).w, InHand(a)) && At(s.m, c) == Blocked(At(s.m, a).w)
    ensures Hands(s') && Sleepers(s')
  {
    var w := At(s.m, a).w;
    HandEmptied(s, s', a, w);
    HandEmptied(s, s', c, w);
    HandsStep(s, s', a, c, w);
    SleepersStep(s, s', a, c, w);
  }

  lemma GrantLists(s: State, s': State, a: Agent)
    requires Places(s) && Kinds(s.h) && Links(s) && Tails(s) && Phase(s) && Grants(s, s', a)
    requires s.h.holder == Some(a) && Is(s.h.loc, At(s.m, a).w, InHand(a)) && WellFormed(a, At(s.m, a))
    requires At(s.m, Coro(At(s.m, a).w.task)) == Blocked(At(s.m, a).w)
    ensures Places(s') && Kinds(s'.h) && Links(s') && Tails(s') && Phase(s')
  {
    forall r: Place | !r.InHand? ensures Holds(s'.h.loc, r, L(s'.h, r)) {
      assert Holds(s.h.loc, r, L(s.h, r));
      forall v ensures v in L(s.h, r) <==> Is(s'.h.loc, v, r) { assert v in L(s.h, r) <==> Is(s.h.loc, v, r); }
    }
    forall r: Place | !r.InHand? ensures HeadOf(s', r) == HeadOf(s, r) {
      if r.InChain? { assert ChainPtr(At(s'.m, r.a)) == ChainPtr(At(s.m, r.a)); }
    }
    LinksKept(s, s');
  }

  /** An awaiter whose predicate was false joins the queue of its condition variable. The rest of
      the call runs as c: the same thread of control, or the thread that ran the new sleeper. */
  ghost predicate Registers(s: State, s': State, a: Agent, c: Agent) {
    var x := At(s.m, a);
    && x.Reg? && x.w.CvAw? && Only(s, s', a, c)
    && (if x.k.Own? then
          c.Helper? && At(s.m, c).Idle? && At(s'.m, a) == Blocked(x.w) && At(s'.m, c) == UEntry(One(ToIdle))
        else c == a && At(s'.m, a) == UEntry(x.k))
    && s'.h == PutLast(s.h, InCv(x.w.cv), x.w).(holder := Some(c))
    && s'.m == Enqueue(s.m, x.w).(act := s'.m.act)
  }

  lemma RegisterStep(s: State, s': State, a: Agent, c: Agent)
    requires Inv(s) && Registers(s, s', a, c) && s.h.holder == Some(a)
    ensures Inv(s')
  {
    LoadPrivate(s, a);
    RegisterThreads(s, s', a, c);
    RegisterPlaces(s, s', a, At(s.m, a).w);
    RegisterLinks(s, s', a, c);
    RegisterSeen(s, s', a, c);
  }

  lemma RegisterThreads(s: State, s': State, a: Agent, c: Agent)
    requires Token(s) && Shapes(s) && Hands(s) && Sleepers(s) && Registers(s, s', a, c) && s.h.holder == Some(a)
    requires Private(s, a, At(s.m, a).w)
    ensures Token(s') && Shapes(s') && Hands(s') && Sleepers(s')
  {
    assert WellFormed(a, At(s.m, a));
    RegisterToken(s, s', a, c);
    RegisterHands(s, s', a, c);
  }

  lemma RegisterToken(s: State, s': State, a: Agent, c: Agent)
    requires Token(s) && Shapes(s) && Registers(s, s', a, c) && s.h.holder == Some(a) && WellFormed(a, At(s.m, a))
    ensures Token(s') && Shapes(s')
  {
    TokenStep(s, s', a, c);
    ShapesStep(s, s', a, c);
  }

  lemma RegisterHands(s: State, s': State, a: Agent, c: Agent)
    requires Hands(s) && Sleepers(s) && Registers(s, s', a, c) && WellFormed(a, At(s.m, a))
    requires Private(s, a, At(s.m, a).w)
    ensures Hands(s') && Sleepers(s')
  {
    var w := At(s.m, a).w;
    assert w in s.h.loc <==> At(s.m, Coro(w.task)) == Blocked(w);
    HandEmptied(s, s', a, w);
    HandEmptied(s, s', c, w);
    HandsStep(s, s', a, c, w);
    SleepersStep(s, s', a, c, w);
  }

  lemma RegisterPlaces(s: State, s': State, a: Agent, w: Aw)
    requires Places(s) && Kinds(s.h) && Private(s, a, w) && w.CvAw?
    requires s'.h == PutLast(s.h, InCv(w.cv), w).(holder := s'.h.holder)
    ensures Places(s') && Kinds(s'.h)
  {
    forall p: Place | !p.InHand? ensures Holds(s'.h.loc, p, L(s'.h, p)) {
      assert Holds(s.h.loc, p, L(s.h, p));
      if p == InCv(w.cv) {
        HoldsPut(s.h.loc, w, p, L(s.h, p));
      } else {
        HoldsOther(s.h.loc, w, InCv(w.cv), p, L(s.h, p));
      }
    }
  }

  lemma RegisterHeads(s: State, s': State, a: Agent, c: Agent)
    requires Registers(s, s', a, c) && s.h.holder == Some(a)
    ensures forall p: Place :: !p.InHand? && p != InCv(At(s.m, a).w.cv) ==> HeadOf(s', p) == HeadOf(s, p)
  {
    forall p: Place | !p.InHand? && p != InCv(At(s.m, a).w.cv) ensures HeadOf(s', p) == HeadOf(s, p) {
      if p.InChain? { assert ChainPtr(At(s'.m, p.a)) == ChainPtr(At(s.m, p.a)); }
    }
  }

  lemma RegisterLinks(s: State, s': State, a: Agent, c: Agent)
    requires Places(s) && Links(s) && Tails(s) && Phase(s)
    requires Registers(s, s', a, c) && s.h.holder == Some(a) && Private(s, a, At(s.m, a).w)
    ensures Links(s') && Tails(s') && Phase(s')
  {
    RegisterHeads(s, s', a, c);
    forall p: Place | !p.InHand? ensures Linked(s'.m.next, HeadOf(s', p), L(s'.h, p)) {
      RegisterList(s, s', a, c, p);
    }
    RegisterTails(s, s', a, c);
  }

  lemma RegisterTails(s: State, s': State, a: Agent, c: Agent)
    requires Tails(s) && Phase(s) && Registers(s, s', a, c)
    ensures Tails(s') && Phase(s')
  {
  }

  lemma RegisterList(s: State, s': State, a: Agent, c: Agent, p: Place)
    requires Places(s) && Links(s) && Tails(s) && !p.InHand?
    requires Registers(s, s', a, c) && Private(s, a, At(s.m, a).w)
    requires p != InCv(At(s.m, a).w.cv) ==> HeadOf(s', p) == HeadOf(s, p)
    ensures Linked(s'.m.next, HeadOf(s', p), L(s'.h, p))
  {
    var w := At(s.m, a).w;
    PrivateList(s, a, w, None, p);
    assert Linked(s.m.next, HeadOf(s, p), L(s.h, p));
    if p != InCv(w.cv) { RegisterOtherList(s, s', a, w, p); } else { RegisterOwnList(s, s', a, w); }
  }

  lemma RegisterOtherList(s: State, s': State, a: Agent, w: Aw, p: Place)
    requires Places(s) && Tails(s) && w.CvAw? && !p.InHand? && p != InCv(w.cv)
    requires s'.m == Enqueue(s.m, w).(act := s'.m.act) && HeadOf(s', p) == HeadOf(s, p) && L(s'.h, p) == L(s.h, p)
    requires Linked(s.m.next[w := None], HeadOf(s, p), L(s.h, p))
    ensures Linked(s'.m.next, HeadOf(s', p), L(s'.h, p))
  {
    var q := InCv(w.cv);
    var sq := L(s.h, q);
    if sq != [] {
      var last := sq[|sq| - 1];
      assert Holds(s.h.loc, q, sq) && Holds(s.h.loc, p, L(s.h, p));
      assert last in sq && Is(s.h.loc, last, q);
      assert last in L(s.h, p) <==> Is(s.h.loc, last, p);
      LinkedWrite(s.m.next[w := None], last, Some(w), HeadOf(s, p), L(s.h, p));
    }
  }

  lemma RegisterOwnList(s: State, s': State, a: Agent, w: Aw)
    requires Places(s) && Tails(s) && w.CvAw?
    requires s'.m == Enqueue(s.m, w).(act := s'.m.act) && L(s'.h, InCv(w.cv)) == L(s.h, InCv(w.cv)) + [w]
    requires w !in L(s.h, InCv(w.cv)) && Linked(s.m.next, Ptr(s.m.head, w.cv), L(s.h, InCv(w.cv)))
    ensures Linked(s'.m.next, Ptr(s'.m.head, w.cv), L(s'.h, InCv(w.cv)))
  {
    var sq := L(s.h, InCv(w.cv));
    assert Holds(s.h.loc, InCv(w.cv), sq);
    if sq != [] { LinkedAppend(s.m.next, Ptr(s.m.head, w.cv), sq, w); }
  }

  lemma RegisterSeen(s: State, s': State, a: Agent, c: Agent)
    requires Shapes(s) && Hands(s) && Sleepers(s) && Places(s) && Tails(s) && Seen(s)
    requires Registers(s, s', a, c) && Private(s, a, At(s.m, a).w)
    ensures Seen(s')
  {
    forall b | At(s'.m, b).Cas? ensures Ptr(s'.m.next, At(s'.m, b).w) == TopOf(At(s'.m, b).seen) {
      RegisterSeenBy(s, s', a, c, b);
    }
  }

  lemma RegisterSeenBy(s: State, s': State, a: Agent, c: Agent, b: Agent)
    requires Shapes(s) && Hands(s) && Sleepers(s) && Places(s) && Tails(s) && Seen(s)
    requires Registers(s, s', a, c) && Private(s, a, At(s.m, a).w) && At(s'.m, b).Cas?
    ensures Ptr(s'.m.next, At(s'.m, b).w) == TopOf(At(s'.m, b).seen)
  {
    var w := At(s.m, a).w;
    assert b != a && b != c && At(s'.m, b) == At(s.m, b);
    SeenWrite(s, s, a, w, None, b);
    TailNotSeen(s, a, w.cv, b);
    EnqueueKeeps(s.m, w, At(s.m, b).w);
  }

  lemma TailNotSeen(s: State, a: Agent, cv: nat, b: Agent)
    requires Shapes(s) && Hands(s) && Sleepers(s) && Places(s) && Tails(s) && Seen(s) && b != a && At(s.m, b).Cas?
    ensures Ptr(s.m.tail, cv) != Some(At(s.m, b).w)
  {
    var sq := L(s.h, InCv(cv));
    if sq != [] {
      assert Holds(s.h.loc, InCv(cv), sq);
      assert sq[|sq| - 1] in sq && Is(s.h.loc, sq[|sq| - 1], InCv(cv));
      SeenWrite(s, s, a, sq[|sq| - 1], None, b);
    }
  }

  lemma EnqueueKeeps(m: Mem, w: Aw, v: Aw)
    requires w.CvAw? && v != w && Ptr(m.tail, w.cv) != Some(v)
    ensures Ptr(Enqueue(m, w).next, v) == Ptr(m.next, v)
  {
  }

  // ---- every step ----

  lemma TryLockInv(s: State, t: nat)
    requires Inv(s) && Enabled(s.m, TryLock(t))
    ensures Inv(Step(s, TryLock(t)))
  {
    if s.m.word.NoLocked? { AcquireStep(s, Step(s, TryLock(t)), Coro(t)); }
  }

  lemma CasOkInv(s: State, a: Agent)
    requires Inv(s) && Enabled(s.m, CasOk(a))
    ensures Inv(Step(s, CasOk(a)))
  {
    var y := At(s.m, a);
    var s' := Step(s, CasOk(a));
    assert WellFormed(a, y);
    if y.seen.NoLocked? { AcquireStep(s, s', a); } else { PushStep(s, s', a); }
  }

  lemma PopOneTakes(s: State, a: Agent)
    requires Tails(s) && Phase(s) && Shapes(s) && Enabled(s.m, PopOne(a)) && Ptr(s.m.head, At(s.m, a).cv).Some?
    requires Ptr(s.m.head, At(s.m, a).cv).v.CvAw?
    requires Linked(s.m.next, Ptr(s.m.head, At(s.m, a).cv), L(s.h, InCv(At(s.m, a).cv)))
    ensures var s', cv := Step(s, PopOne(a)), At(s.m, a).cv;
            Takes(s, s', a, InCv(cv), Ptr(s.m.head, cv).v) && Tails(s') && Phase(s')
  {
    var s' := Step(s, PopOne(a));
    var p := InCv(At(s.m, a).cv);
    assert WellFormed(a, At(s.m, a));
    OwnerHeads(s, s', a);
    forall r: Place | !r.InHand? && r != p ensures HeadOf(s', r) == HeadOf(s, r) {
      if r.InChain? { assert ChainPtr(At(s'.m, r.a)) == ChainPtr(At(s.m, r.a)); }
    }
    assert Ptr(s.m.next, L(s.h, p)[0]) == Succ(L(s.h, p), 0);
  }

  lemma PopOneInv(s: State, a: Agent)
    requires Inv(s) && Enabled(s.m, PopOne(a))
    ensures Inv(Step(s, PopOne(a)))
  {
    var cv := At(s.m, a).cv;
    assert WellFormed(a, At(s.m, a));
    if Ptr(s.m.head, cv).None? {
      LocalStep(s, Step(s, PopOne(a)), a);
    } else {
      FirstInQueue(s, cv);
      PopOneTakes(s, a);
      TakeStep(s, Step(s, PopOne(a)), a, InCv(cv), Ptr(s.m.head, cv).v);
    }
  }

  lemma FirstInQueue(s: State, cv: nat)
    requires Places(s) && Kinds(s.h) && Links(s) && Ptr(s.m.head, cv).Some?
    ensures Ptr(s.m.head, cv).v.CvAw? && Linked(s.m.next, Ptr(s.m.head, cv), L(s.h, InCv(cv)))
    ensures Is(s.h.loc, Ptr(s.m.head, cv).v, InCv(cv))
  {
    assert Linked(s.m.next, HeadOf(s, InCv(cv)), L(s.h, InCv(cv)));
    assert Holds(s.h.loc, InCv(cv), L(s.h, InCv(cv)));
    assert Ptr(s.m.head, cv).v in L(s.h, InCv(cv));
  }

  lemma WalkTakes(s: State, a: Agent)
    requires Tails(s) && Phase(s) && Shapes(s) && Enabled(s.m, WalkNext(a)) && At(s.m, a).cur.Some?
    requires At(s.m, a).cur.v.CvAw?
    requires Linked(s.m.next, At(s.m, a).cur, L(s.h, InChain(a)))
    ensures var s' := Step(s, WalkNext(a));
            Takes(s, s', a, InChain(a), At(s.m, a).cur.v) && Tails(s') && Phase(s')
  {
    var s' := Step(s, WalkNext(a));
    assert WellFormed(a, At(s.m, a));
    OwnerHeads(s, s', a);
    forall r: Place | !r.InHand? && r != InChain(a) ensures HeadOf(s', r) == HeadOf(s, r) {
      if r.InChain? { assert ChainPtr(At(s'.m, r.a)) == ChainPtr(At(s.m, r.a)); }
    }
  }

  lemma WalkEnds(s: State, a: Agent)
    requires Shapes(s) && Enabled(s.m, WalkNext(a)) && At(s.m, a).cur.None?
    ensures Quiet(s, Step(s, WalkNext(a)), a)
  {
    assert WellFormed(a, At(s.m, a));
  }

  lemma FirstInChain(s: State, a: Agent)
    requires Places(s) && Kinds(s.h) && Links(s) && At(s.m, a).Walk? && At(s.m, a).cur.Some?
    ensures At(s.m, a).cur.v.CvAw? && Is(s.h.loc, At(s.m, a).cur.v, InChain(a))
    ensures Linked(s.m.next, At(s.m, a).cur, L(s.h, InChain(a)))
  {
    assert Linked(s.m.next, HeadOf(s, InChain(a)), L(s.h, InChain(a)));
    assert Holds(s.h.loc, InChain(a), L(s.h, InChain(a)));
    assert At(s.m, a).cur.v in L(s.h, InChain(a));
  }

  lemma WalkInv(s: State, a: Agent)
    requires Inv(s) && Enabled(s.m, WalkNext(a))
    ensures Inv(Step(s, WalkNext(a)))
  {
    if At(s.m, a).cur.None? {
      WalkEnds(s, a);
      LocalStep(s, Step(s, WalkNext(a)), a);
    } else {
      FirstInChain(s, a);
      WalkTakes(s, a);
      TakeStep(s, Step(s, WalkNext(a)), a, InChain(a), At(s.m, a).cur.v);
    }
  }

  lemma PopTakes(s: State, a: Agent)
    requires Tails(s) && Shapes(s) && Enabled(s.m, Pop(a)) && s.h.holder == Some(a)
    ensures var s' := Step(s, Pop(a));
            Takes(s, s', a, InRes, At(s.m, a).first) && Tails(s') && Phase(s')
  {
    var s' := Step(s, Pop(a));
    assert WellFormed(a, At(s.m, a));
    forall r: Place | !r.InHand? && r != InRes ensures HeadOf(s', r) == HeadOf(s, r) {
      if r.InChain? { assert ChainPtr(At(s'.m, r.a)) == ChainPtr(At(s.m, r.a)); }
    }
  }

  lemma PopInv(s: State, a: Agent)
    requires Inv(s) && Enabled(s.m, Pop(a))
    ensures Inv(Step(s, Pop(a)))
  {
    assert HasToken(At(s.m, a));
    PopTakes(s, a);
    TakeStep(s, Step(s, Pop(a)), a, InRes, At(s.m, a).first);
  }

  lemma DetachMoves(s: State, a: Agent)
    requires Tails(s) && Phase(s) && Shapes(s) && Enabled(s.m, DetachAll(a))
    ensures var s' := Step(s, DetachAll(a));
            Moves(s, s', a, InCv(At(s.m, a).cv), InChain(a)) && Tails(s') && Phase(s')
  {
    var s' := Step(s, DetachAll(a));
    assert WellFormed(a, At(s.m, a));
    DetachTails(s, a);
    OwnerHeads(s, s', a);
    forall r: Place | !r.InHand? && r != InCv(At(s.m, a).cv) && r != InChain(a) ensures HeadOf(s', r) == HeadOf(s, r) {
      if r.InChain? { assert ChainPtr(At(s'.m, r.a)) == ChainPtr(At(s.m, r.a)); }
    }
  }

  lemma DetachTails(s: State, a: Agent)
    requires Tails(s) && Phase(s) && Enabled(s.m, DetachAll(a))
    ensures var s' := Step(s, DetachAll(a)); Tails(s') && Phase(s')
  {
  }

  lemma NothingToVisit(s: State, a: Agent)
    requires Links(s) && At(s.m, a).Detach?
    ensures L(s.h, InChain(a)) == []
  {
    assert Linked(s.m.next, HeadOf(s, InChain(a)), L(s.h, InChain(a)));
  }

  lemma DetachInv(s: State, a: Agent)
    requires Inv(s) && Enabled(s.m, DetachAll(a))
    ensures Inv(Step(s, DetachAll(a)))
  {
    NothingToVisit(s, a);
    DetachMoves(s, a);
    MoveStep(s, Step(s, DetachAll(a)), a, InCv(At(s.m, a).cv), InChain(a));
  }

  lemma ExchangeMoves(s: State, a: Agent)
    requires Tails(s) && Shapes(s) && Enabled(s.m, Exchange(a)) && s.h.holder == Some(a)
    requires s.m.resume.None? && TopOf(s.m.word).Some?
    ensures var s' := Step(s, Exchange(a));
            Moves(s, s', a, InStack, InRest) && Tails(s') && Phase(s')
  {
    var s' := Step(s, Exchange(a));
    assert WellFormed(a, At(s.m, a));
    forall r: Place | !r.InHand? && r != InStack && r != InRest ensures HeadOf(s', r) == HeadOf(s, r) {
      if r.InChain? { assert ChainPtr(At(s'.m, r.a)) == ChainPtr(At(s.m, r.a)); }
    }
  }

  /** The second assertion of unlock: the word it takes heads a non-empty stack. */
  lemma ExchangeFindsWaiters(s: State, a: Agent)
    requires Inv(s) && At(s.m, a).UXchg?
    ensures s.m.word.Locked? && s.m.word.top.Some?
  {
    assert HasToken(At(s.m, a));
    assert Linked(s.m.next, HeadOf(s, InStack), L(s.h, InStack));
  }

  lemma ExchangeInv(s: State, a: Agent)
    requires Inv(s) && Enabled(s.m, Exchange(a))
    ensures Inv(Step(s, Exchange(a)))
  {
    assert HasToken(At(s.m, a));
    ExchangeFindsWaiters(s, a);
    ExchangeMoves(s, a);
    assert Linked(s.m.next, HeadOf(s, InRest), L(s.h, InRest));
    MoveStep(s, Step(s, Exchange(a)), a, InStack, InRest);
  }

  lemma TryFreeInv(s: State, a: Agent)
    requires Inv(s) && Enabled(s.m, TryFree(a))
    ensures Inv(Step(s, TryFree(a)))
  {
    assert HasToken(At(s.m, a)) && WellFormed(a, At(s.m, a));
    assert Linked(s.m.next, HeadOf(s, InStack), L(s.h, InStack));
    if s.m.word == Locked(None) {
      ReleaseStep(s, Step(s, TryFree(a)), a);
    } else {
      LocalStep(s, Step(s, TryFree(a)), a);
    }
  }

  lemma ResumeInv(s: State, a: Agent, holds: bool)
    requires Inv(s) && Enabled(s.m, Resume(a, holds))
    ensures Inv(Step(s, Resume(a, holds)))
  {
    var w := At(s.m, a).w;
    assert HasToken(At(s.m, a)) && WellFormed(a, At(s.m, a)) && HandOf(At(s.m, a)) == Some(w);
    assert Is(s.h.loc, w, InHand(a)) && At(s.m, Coro(w.task)) == Blocked(w);
    if w.LockAw? || holds {
      GrantStep(s, Step(s, Resume(a, holds)), a);
    } else {
      LocalStep(s, Step(s, Resume(a, holds)), a);
    }
  }

  lemma RegisterInv(s: State, a: Agent, n: nat)
    requires Inv(s) && Enabled(s.m, Register(a, n))
    ensures Inv(Step(s, Register(a, n)))
  {
    assert HasToken(At(s.m, a));
    RegisterStep(s, Step(s, Register(a, n)), a, if At(s.m, a).k.Own? then Helper(n) else a);
  }

  lemma UserQuiet(s: State, l: Label)
    requires Shapes(s) && Enabled(s.m, l) && (l.Lock? || l.Enter? || l.Wait? || l.Unlock?)
    ensures Quiet(s, Step(s, l), Coro(l.t))
  {
    assert WellFormed(Coro(l.t), At(s.m, Coro(l.t)));
  }

  /** Steps of a task's own code. */
  lemma UserInv(s: State, l: Label)
    requires Inv(s) && Enabled(s.m, l) && (l.Lock? || l.Enter? || l.Wait? || l.Unlock?)
    ensures Inv(Step(s, l))
  {
    if !(l.Wait? && l.holds) {
      UserQuiet(s, l);
      LocalStep(s, Step(s, l), Coro(l.t));
    }
  }

  lemma CasFailInv(s: State, a: Agent)
    requires Inv(s) && Enabled(s.m, CasFail(a))
    ensures Inv(Step(s, CasFail(a)))
  {
    assert WellFormed(a, At(s.m, a));
    LocalStep(s, Step(s, CasFail(a)), a);
  }

  lemma StartNotifyInv(s: State, a: Agent, cv: nat, all: bool)
    requires Inv(s) && Enabled(s.m, StartNotify(a, cv, all))
    ensures Inv(Step(s, StartNotify(a, cv, all)))
  {
    assert WellFormed(a, At(s.m, a));
    LocalStep(s, Step(s, StartNotify(a, cv, all)), a);
  }

  lemma ReadResumeInv(s: State, a: Agent)
    requires Inv(s) && Enabled(s.m, ReadResume(a))
    ensures Inv(Step(s, ReadResume(a)))
  {
    assert WellFormed(a, At(s.m, a));
    LocalStep(s, Step(s, ReadResume(a)), a);
  }

  lemma StepInv(s: State, l: Label)
    requires Inv(s) && Enabled(s.m, l)
    ensures Inv(Step(s, l))
  {
    match l
    case TryLock(t) => TryLockInv(s, t);
    case LoadWord(a) => LoadStep(s, a);
    case CasOk(a) => CasOkInv(s, a);
    case Register(a, n) => RegisterInv(s, a, n);
    case PopOne(a) => PopOneInv(s, a);
    case DetachAll(a) => DetachInv(s, a);
    case WalkNext(a) => WalkInv(s, a);
    case TryFree(a) => TryFreeInv(s, a);
    case Exchange(a) => ExchangeInv(s, a);
    case Flip(a) => FlipStep(s, Step(s, l), a);
    case Pop(a) => PopInv(s, a);
    case Resume(a, holds) => ResumeInv(s, a, holds);
    case CasFail(a) => CasFailInv(s, a);
    case StartNotify(a, cv, all) => StartNotifyInv(s, a, cv, all);
    case ReadResume(a) => ReadResumeInv(s, a);
    case _ => UserInv(s, l);
  }
}
