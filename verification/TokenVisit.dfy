// One accepted token in normal operation, seen by the daemon that handles it:
// what its buffer, its counters and the token look like afterwards.
module TokenVisit {
  import opened Types
  import opened RingArith
  import opened Protocol
  import opened Delivery

  // The packets that sending the first k offered payloads creates.
  function Created(me: int, memb: MembId, top: int, offer: seq<Payload>, k: nat): seq<Packet>
    requires k <= |offer|
  {
    if k == 0 then [] else Created(me, memb, top, offer, k - 1) + [Packet(top + k, me, memb, offer[k - 1])]
  }

  lemma {:induction false} CreatedAt(me: int, memb: MembId, top: int, offer: seq<Payload>, k: nat)
    requires k <= |offer|
    ensures var r := Created(me, memb, top, offer, k);
            |r| == k && forall x :: 0 <= x < k ==> r[x] == Packet(top + 1 + x, me, memb, offer[x])
  {
    if k > 0 { CreatedAt(me, memb, top, offer, k - 1); }
  }

  // Whether it goes out now or later, nothing overtakes and nothing is lost.
  lemma {:induction false} QueueBcastFifo(ring: Ring, evs: bool, queue: seq<Packet>, p: Packet)
    ensures var q := QueueBcast(ring, evs, queue, p); q.0 + q.1 == queue + [p]
    ensures !ring.accelerated || evs ==> QueueBcast(ring, evs, queue, p).1 == []
  {
    if ring.accelerated && !evs {
      var k := Min(Max(|queue| - ring.acceleratedWindow + 1, 0), |queue|);
      assert queue == queue[..k] + queue[k..];
    }
  }

  // On an accelerated ring as many packets as the accelerated window allows wait
  // for the token to be sent; otherwise none does.
  lemma {:induction false} QueueBcastHoldsBack(ring: Ring, evs: bool, queue: seq<Packet>, p: Packet)
    requires 0 <= ring.acceleratedWindow
    ensures var q := QueueBcast(ring, evs, queue, p);
            var back := if ring.accelerated && !evs then Min(|queue| + 1, ring.acceleratedWindow) else 0;
            |q.1| == back && q.1 == (queue + [p])[|queue| + 1 - back..] && q.0 == (queue + [p])[..|queue| + 1 - back]
  {
    QueueBcastFifo(ring, evs, queue, p);
    var q := QueueBcast(ring, evs, queue, p);
    assert (q.0 + q.1)[..|q.0|] == q.0 && (q.0 + q.1)[|q.0|..] == q.1;
  }

  lemma {:induction false} SendNewHoldsBack(ring: Ring, d: Dstate, offer: seq<Payload>, k: nat)
    requires k <= |offer| && 0 <= ring.acceleratedWindow && d.queue == []
    ensures var b := SendNew(ring, d, offer, k);
            && b.d.evs == d.evs
            && |b.d.queue| == if ring.accelerated && !d.evs then Min(k, ring.acceleratedWindow) else 0
  {
    hide QueueBcast;
    if k > 0 {
      SendNewHoldsBack(ring, d, offer, k - 1);
      var b := SendNew(ring, d, offer, k - 1);
      QueueBcastHoldsBack(ring, d.evs, b.d.queue, Packet(b.d.highest + 1, b.d.me, b.d.memb, offer[k - 1]));
    }
  }

  lemma {:induction false} SendOneKeeps(ring: Ring, all: seq<Packet>, d: Dstate, o: Payload)
    requires Core(all, {}, d) && d.myAru <= d.highest == |all|
    ensures var p := Packet(|all| + 1, d.me, d.memb, o);
            var c := SendOne(ring, d, o);
            && Core(all + [p], {}, c.d)
            && c.d == d.(highest := |all| + 1, queue := c.d.queue, pk := c.d.pk)
            && c.casts + c.d.queue == d.queue + [p]
            && (!ring.accelerated ==> c.d.queue == [])
  {
    var p := Packet(|all| + 1, d.me, d.memb, o);
    assert p.seqNo !in d.pk;
    hide QueueBcast;
    ExtendKeeps(all, {}, d, p);
    InsertKeeps(all + [p], {}, d, p);
    QueueBcastFifo(ring, d.evs, d.queue, p);
    CoreIgnores(all + [p], d.(highest := p.seqNo, pk := d.pk[p.seqNo := Held(p)]), SendOne(ring, d, o).d);
  }

  // The send queue and the flow control counters play no part in the buffer
  // invariant.
  lemma {:induction false} CoreIgnores(all: seq<Packet>, d: Dstate, e: Dstate)
    requires Core(all, {}, d) && e == d.(numRetrans := e.numRetrans, numSent := e.numSent, queue := e.queue)
    ensures Core(all, {}, e)
  {
  }

  lemma {:induction false} SendNewKeeps(ring: Ring, all: seq<Packet>, d: Dstate, offer: seq<Payload>, k: nat)
    requires k <= |offer| && Core(all, {}, d) && d.myAru <= d.highest == |all|
    ensures var b := SendNew(ring, d, offer, k);
            var made := Created(d.me, d.memb, |all|, offer, k);
            && Core(all + made, {}, b.d)
            && b.d == d.(highest := |all| + k, queue := b.d.queue, pk := b.d.pk)
            && b.casts + b.d.queue == d.queue + made
            && (!ring.accelerated && d.queue == [] ==> b.d.queue == [])
  {
    hide Core, SendOne;
    var made := Created(d.me, d.memb, |all|, offer, k);
    if k == 0 {
      assert all + made == all && d.queue + made == d.queue;
    } else {
      SendNewKeeps(ring, all, d, offer, k - 1);
      var less := Created(d.me, d.memb, |all|, offer, k - 1);
      CreatedAt(d.me, d.memb, |all|, offer, k - 1);
      var b := SendNew(ring, d, offer, k - 1);
      SendOneKeeps(ring, all + less, b.d, offer[k - 1]);
      var p := Packet(|all| + k, d.me, d.memb, offer[k - 1]);
      assert all + made == (all + less) + [p];
      var c := SendOne(ring, b.d, offer[k - 1]);
      Regroup(b.casts, c.casts, c.d.queue, b.d.queue, d.queue, less, p);
    }
  }

  lemma {:induction false} Regroup(c: seq<Packet>, x: seq<Packet>, y: seq<Packet>, q: seq<Packet>, z: seq<Packet>, l: seq<Packet>, p: Packet)
    requires x + y == q + [p] && c + q == z + l
    ensures (c + x) + y == z + (l + [p])
  {
    assert (c + x) + y == c + (x + y) == (c + q) + [p] == (z + l) + [p];
  }

  lemma {:induction false} RaiseKeeps(all: seq<Packet>, d: Dstate, t: Token)
    requires Core(all, {}, d) && d.myAru <= d.highest && t.seqNo <= |all|
    ensures Core(all, {}, Raise(d, t)) && (t.seqNo == |all| ==> Raise(d, t).highest == |all|)
  {
  }

  // What AnswerAll leaves alone, and when it does not fault.
  ghost predicate OwnRequestsFrom(d: Dstate, rs: seq<Rtr>, low: int) {
    forall x, y :: 0 <= x < |rs| && rs[x].memb == d.memb && 0 <= y < |rs[x].seqs| ==> low <= rs[x].seqs[y]
  }

  // No request for a packet of this ring names a hole.
  ghost predicate NoHoleAsked(d: Dstate, rs: seq<Rtr>) {
    forall x, y :: 0 <= x < |rs| && rs[x].memb == d.memb && 0 <= y < |rs[x].seqs| && rs[x].seqs[y] in d.pk ==>
      !d.pk[rs[x].seqs[y]].Hole?
  }

  lemma {:induction false} AnswerListNoFault(d: Dstate, mySeg: int, r: Rtr, k: nat, a: Answer)
    requires k <= |r.seqs| && forall y :: 0 <= y < |r.seqs| ==> d.aru <= r.seqs[y]
    requires forall y :: 0 <= y < |r.seqs| && r.seqs[y] in d.pk ==> !d.pk[r.seqs[y]].Hole?
    ensures var b := AnswerList(d, mySeg, r, k, a); b.fault == a.fault && b.foreign == a.foreign
  {
    if k > 0 { AnswerListNoFault(d, mySeg, r, k - 1, a); }
  }

  lemma {:induction false} AnswerAllNoFault(d: Dstate, mySeg: int, rs: seq<Rtr>, k: nat)
    requires k <= |rs| && OwnRequestsFrom(d, rs, d.aru) && NoHoleAsked(d, rs)
    ensures !AnswerAll(d, mySeg, rs, k).fault
    ensures forall x :: 0 <= x < |AnswerAll(d, mySeg, rs, k).foreign| ==>
              AnswerAll(d, mySeg, rs, k).foreign[x].memb != d.memb && AnswerAll(d, mySeg, rs, k).foreign[x] in rs
  {
    if k > 0 {
      AnswerAllNoFault(d, mySeg, rs, k - 1);
      if rs[k - 1].memb == d.memb {
        AnswerListNoFault(d, mySeg, rs[k - 1], |rs[k - 1].seqs|, AnswerAll(d, mySeg, rs, k - 1));
      }
    }
  }

  // Some request of this ring in list r asks for a packet that the daemon misses,
  // too.
  ghost predicate LeftOpen(d: Dstate, r: Rtr) {
    r.memb == d.memb && exists y :: 0 <= y < |r.seqs| && r.seqs[y] !in d.pk
  }

  lemma {:induction false} AnswerListAddress(d: Dstate, mySeg: int, r: Rtr, k: nat, a: Answer)
    requires k <= |r.seqs|
    ensures var b := AnswerList(d, mySeg, r, k, a);
            && b.proc == (if exists y :: 0 <= y < k && r.seqs[y] !in d.pk then -1 else a.proc)
            && b.seg == (if (exists y :: 0 <= y < k && r.seqs[y] !in d.pk) && r.seg != mySeg then -1 else a.seg)
  {
    if k > 0 { AnswerListAddress(d, mySeg, r, k - 1, a); }
  }

  // Where the daemon wants the answers to its own requests sent: to itself alone
  // if no request that came with the token is left open, to its segment if all
  // that are left open come from there, and to everybody otherwise.
  lemma {:induction false} AnswerAddress(d: Dstate, mySeg: int, rs: seq<Rtr>, k: nat)
    requires k <= |rs| && d.me != -1 && mySeg != -1
    ensures var a := AnswerAll(d, mySeg, rs, k);
            && a.proc == (if exists x :: 0 <= x < k && LeftOpen(d, rs[x]) then -1 else d.me)
            && a.seg == (if exists x :: 0 <= x < k && LeftOpen(d, rs[x]) && rs[x].seg != mySeg then -1 else mySeg)
  {
    if k > 0 {
      AnswerAddress(d, mySeg, rs, k - 1);
      var a, r := AnswerAll(d, mySeg, rs, k - 1), rs[k - 1];
      if r.memb == d.memb {
        AnswerListAddress(d, mySeg, r, |r.seqs|, a);
        if LeftOpen(d, r) { assert LeftOpen(d, rs[k - 1]); }
      }
    }
  }

  // Retransmitted packets come from the buffer.
  lemma {:induction false} AnswerListCasts(d: Dstate, mySeg: int, r: Rtr, k: nat, a: Answer, p: Packet)
    requires k <= |r.seqs| && p in AnswerList(d, mySeg, r, k, a).casts
    ensures p in a.casts || exists s :: s in d.pk && !d.pk[s].Hole? && d.pk[s].p == p
  {
    if k > 0 {
      var b := AnswerList(d, mySeg, r, k - 1, a);
      if p in b.casts { AnswerListCasts(d, mySeg, r, k - 1, a, p); }
    }
  }

  lemma {:induction false} AnswerAllCasts(d: Dstate, mySeg: int, rs: seq<Rtr>, k: nat, p: Packet)
    requires k <= |rs| && p in AnswerAll(d, mySeg, rs, k).casts
    ensures exists s :: s in d.pk && !d.pk[s].Hole? && d.pk[s].p == p
  {
    if k > 0 {
      var a := AnswerAll(d, mySeg, rs, k - 1);
      if rs[k - 1].memb == d.memb {
        AnswerListCasts(d, mySeg, rs[k - 1], |rs[k - 1].seqs|, a, p);
      }
      if p in a.casts { AnswerAllCasts(d, mySeg, rs, k - 1, p); }
    }
  }

  lemma {:induction false} MissingBounds(pk: map<int, Slot>, s: int, m: int, room: int, x: int)
    requires x in Missing(pk, s, m, room)
    ensures s <= x <= m && x !in pk
    decreases m - s
  {
    if s in pk { MissingBounds(pk, s + 1, m, room, x); }
    else if x != s { MissingBounds(pk, s + 1, m, room - 1, x); }
  }

  // ------------------------------------------------------ the parts of a visit

  ghost predicate VisitPre(ring: Ring, all: seq<Packet>, d: Dstate, t: Token) {
    && 0 <= d.me < |ring.personal| && |ring.seg| == |ring.personal|
    && Core(all, {}, d) && d.myAru <= d.highest && t.seqNo == |all| && !d.evs && !d.fault && d.queue == []
    && OwnRequestsFrom(d, t.rtr, d.aru)
  }

  function Answered(ring: Ring, d: Dstate, t: Token): Answer
    requires 0 <= d.me < |ring.seg|
  {
    AnswerAll(Raise(d, t), ring.seg[d.me], t.rtr, |t.rtr|)
  }

  lemma {:induction false} PreparedKeeps(ring: Ring, all: seq<Packet>, d: Dstate, t: Token, offer: seq<Payload>)
    requires VisitPre(ring, all, d, t)
    ensures var b := Prepared(ring, d, Answered(ring, d, t), t, offer);
            var k := NumSent(d, ring, t, offer);
            var made := Created(d.me, d.memb, |all|, offer, k);
            && k <= |offer|
            && Core(all + made, {}, b.d)
            && b.d == Raise(d, t).(highest := |all| + k, queue := b.d.queue, pk := b.d.pk,
                                   numRetrans := |Answered(ring, d, t).casts|, numSent := k, myAru := b.d.myAru)
            && d.myAru <= b.d.myAru <= b.d.highest
            && b.casts + b.d.queue == made
            && (!ring.accelerated ==> b.d.queue == [])
  {
    hide Core, AnswerAll, SendNew, Advance, Created, OwnRequestsFrom, NoHoleAsked;
    RaiseKeeps(all, d, t);
    var r := Raise(d, t);
    NoHoles(all, r, t.rtr);
    assert OwnRequestsFrom(r, t.rtr, r.aru) by { RaiseRequests(d, t); }
    AnswerAllNoFault(r, ring.seg[d.me], t.rtr, |t.rtr|);
    var k := NumSent(d, ring, t, offer);
    SendNewKeeps(ring, all, r, offer, k);
    var made := Created(d.me, d.memb, |all|, offer, k);
    assert [] + made == made;
    var e := SendNew(ring, r, offer, k).d;
    AdvanceKeeps(all + made, {}, e);
    CoreIgnores(all + made, e.(myAru := Advance(e.pk, e.myAru, e.highest)), Prepared(ring, d, Answered(ring, d, t), t, offer).d);
  }

  lemma {:induction false} RaiseRequests(d: Dstate, t: Token)
    requires OwnRequestsFrom(d, t.rtr, d.aru)
    ensures OwnRequestsFrom(Raise(d, t), t.rtr, Raise(d, t).aru)
  {
  }

  lemma {:induction false} NoHoles(all: seq<Packet>, r: Dstate, rs: seq<Rtr>)
    requires Core(all, {}, r)
    ensures NoHoleAsked(r, rs)
  {
    forall s | s in r.pk ensures !r.pk[s].Hole? { assert SlotOK(all, {}, s, r.pk[s]); }
  }

  // The two deliveries that end a visit.
  function Deliveries(d: Dstate, k: nat): Dstate {
    var a := DeliverAgreed(d);
    DeliverReliable(a, a.highest - k + 1, k)
  }

  lemma {:induction false} DeliveriesKeep(all: seq<Packet>, d: Dstate, k: nat)
    requires Core(all, {}, d) && d.myAru <= d.highest
    ensures Core(all, {}, Deliveries(d, k)) && OnlyDelivers(d, Deliveries(d, k))
  {
    hide Core, DeliverAgreed, DeliverReliable;
    DeliverAgreedKeeps(all, d);
    var a := DeliverAgreed(d);
    DeliverReliableKeeps(all, {}, a, a.highest - k + 1, k);
  }

  // The bookkeeping part of Settle, before anything is discarded.
  function Noted(d: Dstate, sent: Token): Dstate {
    var e := NewAru(d, sent);
    e.(counter := if e.highest == e.aru then e.counter + 1 else 0, last := sent)
  }

  lemma {:induction false} NotedKeeps(all: seq<Packet>, d: Dstate, sent: Token)
    requires Core(all, {}, d) && !d.fault && d.aru <= Min(d.last.aru, sent.aru)
    ensures var e := Noted(d, sent);
            Core(all, {}, e) && e == d.(aru := Min(d.last.aru, sent.aru), counter := e.counter, last := sent)
  {
  }

  lemma {:induction false} SettleKeeps(all: seq<Packet>, d: Dstate, sent: Token, k: nat)
    requires Core(all, {}, d) && d.myAru <= d.highest && !d.evs && !d.fault
    requires d.aru == d.discarded <= Min(d.last.aru, sent.aru) <= d.myAru
    ensures var e := Settle(d, sent, k);
            && Core(all, {}, e)
            && e == d.(aru := Min(d.last.aru, sent.aru), discarded := Min(d.last.aru, sent.aru),
                       counter := e.counter, last := sent,
                       pk := e.pk, log := e.log, delivered := e.delivered)
  {
    hide Core, NewAru, DiscardRegular, DeliverAgreed, DeliverReliable;
    NotedKeeps(all, d, sent);
    var f := Noted(d, sent);
    DiscardRegularKeeps(all, f);
    DeliverAgreedKeeps(all, DiscardRegular(f));
    DeliveriesKeep(all, DiscardRegular(f), k);
    assert Settle(d, sent, k) == Deliveries(DiscardRegular(f), k);
  }

  // ------------------------------------------------------------ the whole visit

  function Ready(ring: Ring, d: Dstate, t: Token, offer: seq<Payload>): Sending
    requires 0 <= d.me < |ring.personal| == |ring.seg|
  {
    Prepared(ring, d, Answered(ring, d, t), t, offer)
  }

  function Leaves(ring: Ring, d: Dstate, t: Token, offer: seq<Payload>): Token
    requires 0 <= d.me < |ring.personal| == |ring.seg|
  {
    var b := Ready(ring, d, t, offer);
    TokenOut(ring, b.d, d, t, OwnRequests(b.d, ring, Answered(ring, d, t)))
  }

  // Of the k new packets of a visit, the first go out before the token and the
  // last ones, as many as the accelerated window allows, after it.
  lemma {:induction false} VisitHoldsBack(ring: Ring, all: seq<Packet>, d: Dstate, t: Token, offer: seq<Payload>)
    requires VisitPre(ring, all, d, t) && 0 <= ring.acceleratedWindow
    ensures var b := Ready(ring, d, t, offer);
            var k := NumSent(d, ring, t, offer);
            var made := Created(d.me, d.memb, |all|, offer, k);
            var back := if ring.accelerated then Min(k, ring.acceleratedWindow) else 0;
            && k <= |offer| && |made| == k
            && b.casts == made[..k - back] && b.d.queue == made[k - back..]
  {
    hide Core, AnswerAll, SendNew, Advance, NumSent, Created;
    PreparedKeeps(ring, all, d, t, offer);
    var b := Ready(ring, d, t, offer);
    var k := NumSent(d, ring, t, offer);
    CreatedAt(d.me, d.memb, |all|, offer, k);
    SendNewHoldsBack(ring, Raise(d, t), offer, k);
    assert (b.casts + b.d.queue)[..|b.casts|] == b.casts && (b.casts + b.d.queue)[|b.casts|..] == b.d.queue;
  }

  // The aru a daemon takes its last token to have carried.
  function LastAru(d: Dstate): int {
    if d.justInstalled then 0 else d.last.aru
  }

  function Fresher(ring: Ring, all: seq<Packet>, d: Dstate, t: Token, offer: seq<Payload>): seq<Packet>
    requires 0 <= d.me < |ring.personal|
  {
    Created(d.me, d.memb, |all|, offer, Min(|offer|, NumSent(d, ring, t, offer)))
  }

  lemma {:induction false} VisitUnfolds(ring: Ring, d: Dstate, t: Token, offer: seq<Payload>)
    requires 0 <= d.me < |ring.personal| == |ring.seg| && !d.evs
    requires !Ready(ring, d, t, offer).d.evs && !Ready(ring, d, t, offer).d.fault
    ensures var o := HandleToken(ring, d, t, offer);
            var b := Ready(ring, d, t, offer);
            && o.d == Settle(b.d, Leaves(ring, d, t, offer), b.d.numSent)
            && o.token == Leaves(ring, d, t, offer)
            && o.casts == Answered(ring, d, t).casts + b.casts
  {
    hide Settle, Prepared, TokenOut, OwnRequests, AnswerAll, Raise;
  }

  // An accepted token in normal operation, given what the ring guarantees about
  // the aru the daemon computes.
  lemma {:induction false} VisitKeeps(ring: Ring, all: seq<Packet>, d: Dstate, t: Token, offer: seq<Payload>)
    requires VisitPre(ring, all, d, t) && d.aru == d.discarded
    requires d.aru <= Min(LastAru(d), Leaves(ring, d, t, offer).aru) <= Ready(ring, d, t, offer).d.myAru
    ensures var o := HandleToken(ring, d, t, offer);
            var b := Ready(ring, d, t, offer);
            var all' := all + Fresher(ring, all, d, t, offer);
            var a := Min(LastAru(d), o.token.aru);
            && o.token == Leaves(ring, d, t, offer)
            && Core(all', {}, o.d) && !o.d.fault && !o.d.evs && !o.d.justInstalled
            && o.d.me == d.me && o.d.memb == d.memb && o.d.last == o.token
            && o.d.aru == o.d.discarded == a
            && o.d.myAru == b.d.myAru <= o.d.highest == |all'|
            && o.d.queue == b.d.queue && o.d.numSent == b.d.numSent && o.d.numRetrans == b.d.numRetrans
            && o.casts == Answered(ring, d, t).casts + b.casts
  {
    hide Core, Settle, Prepared, TokenOut, OwnRequests, AnswerAll, NumSent, Created;
    PreparedKeeps(ring, all, d, t, offer);
    var b := Ready(ring, d, t, offer);
    var k := NumSent(d, ring, t, offer);
    CreatedAt(d.me, d.memb, |all|, offer, k);
    VisitUnfolds(ring, d, t, offer);
    SettleKeeps(all + Fresher(ring, all, d, t, offer), b.d, Leaves(ring, d, t, offer), b.d.numSent);
  }

  // The packets left in the queue are among those just numbered.
  lemma {:induction false} QueueFresh(ring: Ring, all: seq<Packet>, d: Dstate, t: Token, offer: seq<Payload>)
    requires VisitPre(ring, all, d, t)
    ensures var b := Ready(ring, d, t, offer);
            var more := Fresher(ring, all, d, t, offer);
            && NumSent(d, ring, t, offer) <= |offer| && |more| == NumSent(d, ring, t, offer)
            && b.casts + b.d.queue == more
            && (forall x :: 0 <= x < |more| ==> more[x].seqNo == |all| + 1 + x && more[x].memb == d.memb)
            && (forall x :: 0 <= x < |b.d.queue| ==>
                  |all| < b.d.queue[x].seqNo <= |all + more| && b.d.queue[x] == (all + more)[b.d.queue[x].seqNo - 1])
            && (!ring.accelerated ==> b.d.queue == [])
  {
    hide Core, Prepared, NumSent, Created, Answered;
    PreparedKeeps(ring, all, d, t, offer);
    var b := Ready(ring, d, t, offer);
    CreatedAt(d.me, d.memb, |all|, offer, NumSent(d, ring, t, offer));
    var more := Fresher(ring, all, d, t, offer);
    forall x | 0 <= x < |b.d.queue|
      ensures |all| < b.d.queue[x].seqNo <= |all + more| && b.d.queue[x] == (all + more)[b.d.queue[x].seqNo - 1]
    {
      assert b.d.queue[x] == more[|b.casts| + x];
    }
  }
}
