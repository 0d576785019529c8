// One accepted token in EVS, seen by the daemon that handles it.
module EvsVisit {
  import opened Types
  import opened RingArith
  import opened Protocol
  import opened Delivery
  import opened TokenVisit
  import opened Form
  import opened FormRecords
  import opened Evs
  import opened FormEvs

  // Still behind, or done: nothing of the old ring is missing, My_aru has
  // jumped to Last_seq, and the commit set is the agreed one.
  ghost predicate Done(d: Dstate, r: RingInfo) {
    d.myAru == d.lastSeq && NothingMissing(d) && d.commit == CommitSet(r.commit, r.trans)
  }

  ghost predicate Pace(d: Dstate, r: RingInfo) {
    d.myAru <= d.highest || Done(d, r)
  }

  ghost predicate EvsPre(ring: Ring, all: seq<Packet>, r: RingInfo, d: Dstate, t: Token) {
    && 0 <= d.me < |ring.personal| == |ring.seg|
    && Recovering(all, d, r) && Pace(d, r) && BelowHoles(r.holes, d.delivered)
    && t.seqNo == 0 && OwnRequestsFrom(d, t.rtr, d.aru) && NoHoleAsked(d, t.rtr)
  }

  // The daemon when it has answered the requests; it sends nothing new in EVS.
  function Kept(ring: Ring, d: Dstate, t: Token): Dstate
    requires 0 <= d.me < |ring.seg|
  {
    Raise(d, t).(numRetrans := |Answered(ring, d, t).casts|, numSent := 0,
                 myAru := Advance(d.pk, d.myAru, d.highest))
  }

  lemma {:induction false} EvsReady(ring: Ring, all: seq<Packet>, r: RingInfo, d: Dstate, t: Token, offer: seq<Payload>)
    requires EvsPre(ring, all, r, d, t)
    ensures Ready(ring, d, t, offer) == Sending(Kept(ring, d, t), [])
    ensures !Answered(ring, d, t).fault && NumSent(d, ring, t, offer) == 0
    ensures Raise(d, t).highest == d.highest
    ensures var f := Answered(ring, d, t).foreign;
            forall x :: 0 <= x < |f| ==> f[x].memb != d.memb && f[x] in t.rtr
  {
    hide Core, AnswerAll, Advance;
    CoreBounds(all, ToSet(r.holes), d);
    AnswerAllNoFault(Raise(d, t), ring.seg[d.me], t.rtr, |t.rtr|);
  }

  // Where My_aru gets to.
  lemma {:induction false} KeptPace(ring: Ring, all: seq<Packet>, r: RingInfo, d: Dstate, t: Token)
    requires EvsPre(ring, all, r, d, t)
    ensures var e := Complete(Kept(ring, d, t));
            && e == d.(last := e.last, justInstalled := false, numRetrans := |Answered(ring, d, t).casts|, numSent := 0,
                       myAru := e.myAru, commit := e.commit)
            && e.last == d.last.(aru := LastAru(d))
            && Recovering(all, e, r) && Pace(e, r) && BelowHoles(r.holes, e.delivered)
            && d.myAru <= e.myAru <= d.lastSeq && 0 <= e.myAru
            && (e.myAru == e.lastSeq ==> Done(e, r))
  {
    hide AnswerAll, LogOK, SlotOK;
    var k := Kept(ring, d, t);
    assert Core(all, ToSet(r.holes), k);
  }

  // Aru, and the end of recovery if Aru has reached Last_seq.
  lemma {:induction false} SettleInEvs(e: Dstate, sent: Token)
    requires e.evs && !e.fault && e.aru <= Min(e.last.aru, sent.aru) && Min(e.last.aru, sent.aru) != e.lastSeq
    ensures var a := Min(e.last.aru, sent.aru);
            Settle(e, sent, 0) == e.(aru := a, last := sent, counter := if e.highest == a then e.counter + 1 else 0)
  {
    hide BeforeTrans, AfterTrans, AgreedLoop, ReliableLoop;
  }

  // The daemon that has installed the new membership.
  ghost predicate Installed(all: seq<Packet>, r: RingInfo, d: Dstate, me: int, id: MembId) {
    && r.highest <= |all| && InOrder(d.log) == EvsLog(all, r, id)
    && d.me == me && d.memb == id && !d.evs && !d.fault && d.justInstalled
    && d.aru == d.myAru == d.highest == d.discarded == d.delivered == 0 && d.pk == map[]
    && d.commit == CommitSet([me], 1) && d.counter == 0
  }

  lemma {:induction false} SettleInstalls(all: seq<Packet>, r: RingInfo, e: Dstate, sent: Token)
    requires Recovering(all, e, r) && Done(e, r) && BelowHoles(r.holes, e.delivered)
    requires e.aru <= Min(e.last.aru, sent.aru) == e.lastSeq
    ensures var g := Settle(e, sent, 0);
            && Installed(all, r, g, e.me, e.future)
            && g.last == sent && g.queue == e.queue && g.numRetrans == e.numRetrans && g.numSent == e.numSent
  {
    hide BeforeTrans, AfterTrans, AgreedLoop, ReliableLoop, Core, EvsLog;
    var f := e.(aru := e.lastSeq, last := sent, counter := if e.highest == e.lastSeq then e.counter + 1 else 0);
    CoreBounds(all, ToSet(r.holes), e);
    CoreOfRing(all, ToSet(r.holes), e, f);
    DiscardEvsDelivers(all, f, r);
    IdleDeliveries(DiscardEvs(f));
  }

  // A daemon with an empty slate delivers nothing.
  lemma {:induction false} IdleDeliveries(g: Dstate)
    requires g.myAru == g.highest == g.delivered == 0
    ensures DeliverAgreed(g) == g && DeliverReliable(g, g.highest - 0 + 1, 0) == g
  {
  }

  function Sent(ring: Ring, d: Dstate, t: Token): Token
    requires 0 <= d.me < |ring.seg|
  {
    TokenOut(ring, Complete(Kept(ring, d, t)), d, t, OwnRequests(Kept(ring, d, t), ring, Answered(ring, d, t)))
  }

  lemma {:induction false} EvsUnfolds(ring: Ring, all: seq<Packet>, r: RingInfo, d: Dstate, t: Token, offer: seq<Payload>)
    requires EvsPre(ring, all, r, d, t)
    ensures var o := HandleToken(ring, d, t, offer);
            && o.d == Settle(Complete(Kept(ring, d, t)), Sent(ring, d, t), 0)
            && o.token == Sent(ring, d, t) && o.casts == Answered(ring, d, t).casts && o.sends
  {
    EvsReady(ring, all, r, d, t, offer);
    hide Settle, Prepared, TokenOut, OwnRequests, AnswerAll, Raise, Advance;
    assert Answered(ring, d, t).casts + [] == Answered(ring, d, t).casts;
  }
}
