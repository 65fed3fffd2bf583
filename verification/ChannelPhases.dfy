/** The law for sleeping senders, phase by phase of the channel's closing. */
module ChannelPhases {
  import opened Sync
  import opened Channel
  import opened ChannelInv
  import opened ChannelTheorems
  import opened ChannelClose
  import opened ChannelRuns

  /** Not closed; closed, with no close call past the producers' queue; one is past it. */
  datatype Phase = Open | Closing | Detached

  ghost function PhaseOf(c: Chan): Phase {
    if !Closed(c) then Open else if exists n :: PastProducers(c, n) then Detached else Closing
  }

  /** While a sender sleeps, free slots are at most the senders engaged on the mutex plus a pending
      notification; with the mutex free, no sender sleeps beside a free slot. */
  ghost predicate SendersLaw(cap: nat, s: CState) {
    Ptr(s.c.m.head, PRODUCERS).Some? ==>
      && cap - |s.c.buf| <= |EngagedOn(s, PRODUCERS)| + (if Pending(s, PRODUCERS) then 1 else 0)
      && (s.c.m.word.NoLocked? ==> |s.c.buf| == cap)
  }

  /** With no slot at all, nothing is ever buffered. */
  lemma NoSlots(s: CState, ls: seq<CLabel>)
    requires CanRun(CInit(0), ls) && s == Run(CStart(0), ls)
    ensures SendersLaw(0, s)
  {
    Conservation(0, ls);
  }

  lemma LawOutsideClosing(cap: nat, s: CState)
    requires Reached(cap, s) && PhaseOf(s.c) != Closing
    ensures SendersLaw(cap, s)
  {
    var ls :| CanRun(CStart(cap).c, ls) && Run(CStart(cap), ls) == s;
    ReachedGood(cap, s);
    assert Closed(s.c) ==> exists n :: PastProducers(s.c, n);
    assert Closed(s.c) ==> s.g.drainedP;
    SendersNeverStranded(cap, ls);
  }

  /** The law for senders holds in every reachable state of a phase exactly if the phase is not the
      one between the first close store and the first detachment of the producers' queue. */
  lemma SendersLawExactly(cap: nat, phase: Phase)
    ensures (forall s :: Reached(cap, s) && PhaseOf(s.c) == phase ==> SendersLaw(cap, s)) <==>
            phase != Closing || cap == 0
  {
    if phase != Closing {
      forall s | Reached(cap, s) && PhaseOf(s.c) == phase ensures SendersLaw(cap, s) { LawOutsideClosing(cap, s); }
    } else if cap == 0 {
      forall s | Reached(0, s) ensures SendersLaw(0, s) {
        var ls :| CanRun(CStart(0).c, ls) && Run(CStart(0), ls) == s;
        NoSlots(s, ls);
      }
    } else {
      LawFailsWhileClosing(cap);
    }
  }

  lemma LawFailsWhileClosing(cap: nat)
    requires cap > 0
    ensures exists s :: Reached(cap, s) && PhaseOf(s.c) == Closing && !SendersLaw(cap, s)
  {
    SenderStrandedWhileClosing(cap);
    var c :| Reaches(CInit(cap), c) && StrandedSender(c);
    var ls :| Leads(CInit(cap), ls, c);
    LeadsCanRun(CStart(cap), ls, c);
    var s := Run(CStart(cap), ls);
    CapKept(CStart(cap), ls);
    assert Reached(cap, s) && s.c == c;
    assert forall n :: !PastProducers(c, n);
  }
}
