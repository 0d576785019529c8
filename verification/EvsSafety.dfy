// Every step of recovery keeps its invariant, so every run of it does.
module EvsSafety {
  import opened Types
  import opened RingArith
  import opened TokenHistory
  import opened Protocol
  import opened Delivery
  import opened TokenVisit
  import opened Form
  import opened FormRecords
  import opened Evs
  import opened FormEvs
  import opened EvsVisit
  import opened OpRing
  import opened OpInv
  import opened OpWindows
  import opened EvsRing
  import opened EvsInv

  // ------------------------------------------------------------ accepting a token

  // What the visit does to Aru: it does not fall, and if it gets to Last_seq the
  // visited daemon is done.
  lemma {:induction false} ETurnAru(v: Recovery, s: Estate, i: int, t: Token)
    requires ETurn(v, s, i, t) && s.ds[i].me == i
    ensures var d := s.ds[i];
            var e := Complete(Kept(v.w.ring, d, t));
            var a := Stable(v.w.ring.n, s.hist + [ENewVisit(v, s, i, t)], |s.hist|);
            && a == Min(e.last.aru, Sent(v.w.ring, d, t).aru) && e.aru <= a <= e.myAru
            && (a == v.last ==> Done(e, v.olds[i].r) && v.w.ring.n < |s.hist|)
  {
    hide ENetworkOK, EOwnersOK, EFlowOK, Arq, ERequestsOK, Core, AskedBy, Kept, OwnRequests, AnswerAll, EvsPre, Chain, TokenOut;
    ETurnPre(v, s, i, t);
    ETurnExtends(v, s, i, t);
    var n, k, d := v.w.ring.n, |s.hist|, s.ds[i];
    var x := ENewVisit(v, s, i, t);
    var h := s.hist + [x];
    assert EDaemonOK(v, s.hist, s.sent, i, d, s.at[i]);
    KeptPace(v.w.ring, v.olds[i].all, v.olds[i].r, d, t);
    AruBelowMy(true, n, h, k);
    StableKept(n, s.hist, x, k - n);
    StableMonotone(true, n, h, k - n, k);
    if k > n { assert ETokenOK(v, s, k - n); }
  }

  // The daemon when the token is on its way.
  function Settled(v: Recovery, s: Estate, i: int, t: Token): Dstate
    requires 0 <= i < |s.ds| && 0 <= s.ds[i].me < |v.w.ring.seg|
  {
    Settle(Complete(Kept(v.w.ring, s.ds[i], t)), Sent(v.w.ring, s.ds[i], t), 0)
  }

  lemma {:induction false} EAcceptedIs(v: Recovery, s: Estate, i: int, t: Token, offer: seq<Payload>)
    requires ETurn(v, s, i, t)
    ensures s.ds[i].me == i
    ensures var u := Sent(v.w.ring, s.ds[i], t);
            EAccepted(v, s, i, t, offer) ==
            Estate(s.ds[i := Settled(v, s, i, t)], s.at[i := |s.sent|], s.sent + [u], s.hist + [ENewVisit(v, s, i, t)],
                   s.tokens + {Copy(|s.sent|, u)}, s.packets + SetOf(Answered(v.w.ring, s.ds[i], t).casts))
  {
    hide Core, Chain, Arq, EHistOK, ENetworkOK, EDaemonsOK, ERequestsOK, EOwnersOK, EFlowOK, Kept, Sent, Settle, Answered, EvsPre, HandleToken, Complete, Ready;
    ETurnPre(v, s, i, t);
    var o := v.olds[i];
    EvsUnfolds(v.w.ring, o.all, o.r, s.ds[i], t, offer);
    EvsReady(v.w.ring, o.all, o.r, s.ds[i], t, offer);
  }

  lemma {:induction false} EVisited(v: Recovery, s: Estate, i: int, t: Token)
    requires ETurn(v, s, i, t)
    ensures s.ds[i].me == i
    ensures var d := Settled(v, s, i, t);
            && EDaemonOK(v, s.hist + [ENewVisit(v, s, i, t)], s.sent + [Sent(v.w.ring, s.ds[i], t)], i, d, |s.sent|)
            && d.numRetrans == |Answered(v.w.ring, s.ds[i], t).casts| && d.numSent == 0
  {
    hide Core, Chain, Arq, EHistOK, ENetworkOK, EDaemonsOK, ERequestsOK, EOwnersOK, EFlowOK, Kept, Sent, Settle, Answered, EvsPre, Complete, EvsLog, Installed, Stable;
    ETurnPre(v, s, i, t);
    var d, o, ring := s.ds[i], v.olds[i], v.w.ring;
    ETurnAru(v, s, i, t);
    ETurnArq(v, s, i, t);
    KeptPace(ring, o.all, o.r, d, t);
    var e := Complete(Kept(ring, d, t));
    var u := Sent(ring, d, t);
    EIdle(v, s, i);
    if Min(e.last.aru, u.aru) == v.last {
      SettleInstalls(o.all, o.r, e, u);
    } else {
      SettleInEvs(e, u);
      CoreOfRing(o.all, ToSet(o.r.holes), e, Settle(e, u, 0));
    }
  }

  lemma {:induction false} EIdle(v: Recovery, s: Estate, i: int)
    requires EInv(v, s) && 0 <= i < v.w.ring.n
    ensures s.ds[i].queue == [] && s.ds[i].numSent == 0 <= s.ds[i].numRetrans && |s.hist| == |s.sent|
  {
    assert EDaemonOK(v, s.hist, s.sent, i, s.ds[i], s.at[i]);
  }

  lemma {:induction false} ETurnArq(v: Recovery, s: Estate, i: int, t: Token)
    requires ETurn(v, s, i, t) && s.ds[i].me == i
    ensures var u := Sent(v.w.ring, s.ds[i], t); u.from == i && u.arq == Arq(v.w, |s.sent|) && u.seqNo == 0
  {
    hide Core, Arq, ERequestsOK, ENetworkOK, EOwnersOK, EFlowOK, AnswerAll, OwnRequests, EDaemonOK, EvsPre;
    ETurnPre(v, s, i, t);
    KeptPace(v.w.ring, v.olds[i].all, v.olds[i].r, s.ds[i], t);
    assert ETokenOK(v, s, |s.sent| - 1);
    ArqStep(v.w, |s.sent| - 1);
  }

  lemma {:induction false} NotYetKept(n: int, h: seq<Visit>, last: int, v: Visit, t: int)
    requires 0 < n && t <= |h| && t - n < |h| && Stable(n, h, t - n) != last
    ensures NotYet(n, h + [v], last, t)
  {
    StableKept(n, h, v, t - n);
  }

  lemma {:induction false} EHistKept(v: Recovery, s: Estate, i: int, t: Token, s': Estate)
    requires ETurn(v, s, i, t) && s.ds[i].me == i && |s'.ds| == |s'.at| == v.w.ring.n
    requires s'.hist == s.hist + [ENewVisit(v, s, i, t)] && s'.sent == s.sent + [Sent(v.w.ring, s.ds[i], t)]
    ensures EShapeOK(v, s') && EHistOK(v, s')
  {
    hide Chain, Arq, ENetworkOK, EDaemonsOK, ERequestsOK, EOwnersOK, EFlowOK, Sent, Complete, Stable, Behind, EDaemonOK;
    ETurnExtends(v, s, i, t);
    ETurnArq(v, s, i, t);
    EPart(v, s, i);
    MeOf(v, s.hist, s.sent, i, s.ds[i], s.at[i]);
    forall x | 0 <= x < |s'.hist| ensures ETokenOK(v, s', x) {
      if x < |s.hist| { assert ETokenOK(v, s, x); }
    }
    forall x | 1 <= x < |s'.hist| ensures NotYet(v.w.ring.n, s'.hist, v.last, x) {
      if x < |s.hist| { assert NotYet(v.w.ring.n, s.hist, v.last, x); }
      NotYetKept(v.w.ring.n, s.hist, v.last, ENewVisit(v, s, i, t), x);
    }
  }

  lemma {:induction false} EOthersKeep(v: Recovery, h: seq<Visit>, sent: seq<Token>, x: Visit, u: Token, j: int, d: Dstate, a: int)
    requires RecoveryOK(v) && 0 <= j < |v.olds| && EDaemonOK(v, h, sent, j, d, a) && j != |h| % v.w.ring.n
    ensures EDaemonOK(v, h + [x], sent + [u], j, d, a)
  {
    hide Behind, Installed, Arq;
    OneRound(v.w.ring.n, |h|);
    StableKept(v.w.ring.n, h, x, a);
  }

  // What the daemons of a ring hold are its packets.
  lemma {:induction false} ECasts(v: Recovery, s: Estate, i: int, t: Token, p: Packet)
    requires ETurn(v, s, i, t) && s.ds[i].me == i && p in Answered(v.w.ring, s.ds[i], t).casts
    ensures PacketOK(v, p)
  {
    hide Core, Chain, Arq, EHistOK, ENetworkOK, EDaemonsOK, ERequestsOK, EOwnersOK, EFlowOK, AnswerAll;
    ETurnPre(v, s, i, t);
    var d, o := s.ds[i], v.olds[i];
    AnswerAllCasts(Raise(d, t), v.w.ring.seg[d.me], t.rtr, |t.rtr|, p);
    var q :| q in d.pk && !d.pk[q].Hole? && d.pk[q].p == p;
    EntryIs(o.all, ToSet(o.r.holes), d, q);
    NumberedAt(o.all, ToSet(o.r.holes), d, q);
  }

  lemma {:induction false} NumberedAt(all: seq<Packet>, holes: set<int>, d: Dstate, q: int)
    requires Core(all, holes, d) && 1 <= q <= |all|
    ensures all[q - 1].seqNo == q
  {
  }

  lemma {:induction false} ENetworkKept(v: Recovery, s: Estate, i: int, t: Token, s': Estate)
    requires ETurn(v, s, i, t) && s.ds[i].me == i && |s'.ds| == |s'.at| == v.w.ring.n
    requires s'.hist == s.hist + [ENewVisit(v, s, i, t)] && s'.sent == s.sent + [Sent(v.w.ring, s.ds[i], t)]
    requires s'.tokens == s.tokens + {Copy(|s.sent|, Sent(v.w.ring, s.ds[i], t))}
    requires s'.packets == s.packets + SetOf(Answered(v.w.ring, s.ds[i], t).casts)
    ensures EShapeOK(v, s') && ENetworkOK(v, s')
  {
    hide Chain, Arq, EHistOK, EDaemonsOK, ERequestsOK, EOwnersOK, EFlowOK, Sent, Complete, Answered, PacketOK;
    ETurnArq(v, s, i, t);
    forall c | c in s'.tokens ensures ECopyOK(v, s', c) {
      if c in s.tokens { assert ECopyOK(v, s, c); }
    }
    forall p | p in s'.packets ensures PacketOK(v, p) {
      if p !in s.packets { ECasts(v, s, i, t, p); }
    }
  }

  // ------------------------------------------------------- requests after a visit

  // A list that the visited daemon passes on.
  lemma {:induction false} StillAsked(v: Recovery, h: seq<Visit>, x: Visit, memb: MembId, q: int)
    requires RecoveryOK(v) && IsAsked(v, h, memb, q)
    requires v.olds[|h| % v.w.ring.n].r.memb != memb
    ensures IsAsked(v, h + [x], memb, q)
  {
    OneRound(v.w.ring.n, |h|);
    var t :| AskedBy(v, h, memb, q, t);
    assert AskedBy(v, h + [x], memb, q, t);
  }

  // The list that it adds.
  lemma {:induction false} NewlyAsked(v: Recovery, s: Estate, i: int, t: Token, q: int)
    requires ETurn(v, s, i, t) && s.ds[i].me == i
    requires var k := Kept(v.w.ring, s.ds[i], t); q in Missing(k.pk, k.myAru + 1, k.highest, RoomFor(Answered(v.w.ring, s.ds[i], t).foreign))
    ensures IsAsked(v, s.hist + [ENewVisit(v, s, i, t)], s.ds[i].memb, q)
  {
    hide Chain, Arq, EHistOK, ENetworkOK, EDaemonsOK, ERequestsOK, EOwnersOK, EFlowOK, Sent, Answered, Missing, Core, Advance;
    ETurnPre(v, s, i, t);
    var d, o := s.ds[i], v.olds[i];
    EvsReady(v.w.ring, o.all, o.r, d, t, []);
    var k := Kept(v.w.ring, d, t);
    MissingBounds(k.pk, k.myAru + 1, k.highest, RoomFor(Answered(v.w.ring, d, t).foreign), q);
    assert AskedBy(v, s.hist + [ENewVisit(v, s, i, t)], d.memb, q, |s.hist|);
  }

  lemma {:induction false} ERequestsKept(v: Recovery, s: Estate, i: int, t: Token, s': Estate)
    requires ETurn(v, s, i, t) && s.ds[i].me == i && |s'.ds| == |s'.at| == v.w.ring.n
    requires s'.hist == s.hist + [ENewVisit(v, s, i, t)] && s'.sent == s.sent + [Sent(v.w.ring, s.ds[i], t)]
    ensures EShapeOK(v, s') && ERequestsOK(v, s') && EOwnersOK(v, s')
  {
    hide Chain, Arq, EHistOK, ENetworkOK, EDaemonsOK, EFlowOK, Answered, Missing, Core, AskedBy, IsAsked, Kept, RoomFor, Sent, EvsPre;
    ETurnPre(v, s, i, t);
    var d, o, ring := s.ds[i], v.olds[i], v.w.ring;
    EvsReady(ring, o.all, o.r, d, t, []);
    EKeptParts(ring, d, t);
    var k, a := Kept(ring, d, t), Answered(ring, d, t);
    var rtr := Sent(ring, d, t).rtr;
    SentRequests(ring, d, t);
    assert rtr == OwnRequests(k, ring, a);
    forall x | 0 <= x < |rtr|
      ensures rtr[x].memb != v.w.memb
    {
      if x < |a.foreign| {
        var z :| 0 <= z < |t.rtr| && t.rtr[z] == a.foreign[x];
        assert t.rtr[z] == s.sent[|s.sent| - 1].rtr[z];
      }
    }
    forall x, y | 0 <= x < |rtr| && 0 <= y < |rtr[x].seqs|
      ensures IsAsked(v, s'.hist, rtr[x].memb, rtr[x].seqs[y])
    {
      if x < |a.foreign| {
        var z :| 0 <= z < |t.rtr| && t.rtr[z] == a.foreign[x];
        assert t.rtr[z] == s.sent[|s.sent| - 1].rtr[z];
        StillAsked(v, s.hist, ENewVisit(v, s, i, t), t.rtr[z].memb, t.rtr[z].seqs[y]);
      } else {
        NewlyAsked(v, s, i, t, rtr[x].seqs[y]);
      }
    }
  }

  lemma {:induction false} SentRequests(ring: Ring, d: Dstate, t: Token)
    requires 0 <= d.me < |ring.seg|
    ensures Sent(ring, d, t).rtr == OwnRequests(Kept(ring, d, t), ring, Answered(ring, d, t))
  {
  }

  lemma {:induction false} EKeptParts(ring: Ring, d: Dstate, t: Token)
    requires 0 <= d.me < |ring.seg| && d.evs
    ensures Kept(ring, d, t).memb == d.memb && Kept(ring, d, t).evs
  {
  }

  lemma {:induction false} EAcceptKeeps(v: Recovery, s: Estate, i: int, t: Token, offer: seq<Payload>)
    requires ETurn(v, s, i, t)
    ensures s.ds[i].me == i && EInv(v, EAccepted(v, s, i, t, offer))
  {
    hide Chain, Arq, EHistOK, ENetworkOK, ERequestsOK, EOwnersOK, Sent, Settled, Answered, EAccepted, EDaemonOK, ENewVisit;
    EAcceptedIs(v, s, i, t, offer);
    var s' := EAccepted(v, s, i, t, offer);
    EHistKept(v, s, i, t, s');
    ENetworkKept(v, s, i, t, s');
    ERequestsKept(v, s, i, t, s');
    EVisited(v, s, i, t);
    EIdle(v, s, i);
    forall j | 0 <= j < v.w.ring.n ensures EDaemonOK(v, s'.hist, s'.sent, j, s'.ds[j], s'.at[j]) {
      if j != i {
        assert EDaemonOK(v, s.hist, s.sent, j, s.ds[j], s.at[j]);
        EOthersKeep(v, s.hist, s.sent, ENewVisit(v, s, i, t), Sent(v.w.ring, s.ds[i], t), j, s.ds[j], s.at[j]);
      }
    }
    SumsUpdate(s.ds, i, Settled(v, s, i, t));
    EFlow(v, s, i, t);
  }

  lemma {:induction false} EFlow(v: Recovery, s: Estate, i: int, t: Token)
    requires ETurn(v, s, i, t) && s.ds[i].me == i
    ensures Sent(v.w.ring, s.ds[i], t).flowControl
         == SumFlow(s.ds) - s.ds[i].numRetrans - s.ds[i].numSent + |Answered(v.w.ring, s.ds[i], t).casts|
  {
    hide Chain, Arq, EHistOK, ENetworkOK, EDaemonsOK, ERequestsOK, EOwnersOK, Answered, OwnRequests, Core, Advance;
  }

  // ------------------------------------------------------------------ other steps

  lemma {:induction false} ELocal(v: Recovery, s: Estate, i: int, d: Dstate)
    requires EInv(v, s) && 0 <= i < v.w.ring.n
    requires EDaemonOK(v, s.hist, s.sent, i, d, s.at[i])
    requires d.numRetrans == s.ds[i].numRetrans && d.numSent == s.ds[i].numSent
    ensures EInv(v, With(s, i, d))
  {
    hide EHistOK, ERequestsOK, EOwnersOK, EDaemonOK;
    var s' := With(s, i, d);
    SumsUpdate(s.ds, i, d);
    forall c | c in s'.tokens ensures ECopyOK(v, s', c) { assert ECopyOK(v, s, c); }
    forall j | 0 <= j < v.w.ring.n ensures EDaemonOK(v, s'.hist, s'.sent, j, s'.ds[j], s'.at[j]) {
      assert EDaemonOK(v, s.hist, s.sent, j, s.ds[j], s.at[j]);
    }
    assert EHistOK(v, s') && ERequestsOK(v, s') && EOwnersOK(v, s') by { ESame(v, s, s'); }
  }

  lemma {:induction false} ESame(v: Recovery, s: Estate, s': Estate)
    requires EShapeOK(v, s) && EShapeOK(v, s') && EHistOK(v, s) && ERequestsOK(v, s) && EOwnersOK(v, s)
    requires s'.hist == s.hist && s'.sent == s.sent
    ensures EHistOK(v, s') && ERequestsOK(v, s') && EOwnersOK(v, s')
  {
    forall t | 0 <= t < |s'.hist| ensures ETokenOK(v, s', t) { assert ETokenOK(v, s, t); }
  }

  // In EVS receiving only fills the buffer.
  lemma {:induction false} ReceiveInEvs(all: seq<Packet>, d: Dstate, r: RingInfo, p: Packet)
    requires Recovering(all, d, r) && Pace(d, r) && BelowHoles(r.holes, d.delivered)
    requires 1 <= p.seqNo <= |all| && p == all[p.seqNo - 1] && p.seqNo <= r.highest
    ensures var e := Receive(d, p);
            && Recovering(all, e, r) && Pace(e, r) && BelowHoles(r.holes, e.delivered)
            && e == d.(pk := e.pk, log := e.log, myAru := e.myAru) && d.myAru <= e.myAru
  {
    hide Core, Advance;
    ReceiveTouches(d, p);
    CoreBounds(all, ToSet(r.holes), d);
    ReceiveKeeps(all, ToSet(r.holes), d, p);
    forall h | h in r.holes ensures h in Receive(d, p).pk { assert h in d.pk.Keys; }
  }

  lemma {:induction false} EGot(v: Recovery, s: Estate, i: int, p: Packet)
    requires EInv(v, s) && 0 <= i < v.w.ring.n && p in s.packets
    requires p.memb == v.olds[i].r.memb ==> p.seqNo <= v.olds[i].r.highest
    ensures EInv(v, With(s, i, Receive(s.ds[i], p)))
  {
    hide EHistOK, ERequestsOK, EOwnersOK, EDaemonsOK, EFlowOK, Recovering, Pace, Receive, Installed, Stable, Arq;
    assert PacketOK(v, p);
    var d, o := s.ds[i], v.olds[i];
    assert EDaemonOK(v, s.hist, s.sent, i, d, s.at[i]) by { EPart(v, s, i); }
    ReceiveOther(d, p);
    if d.memb == p.memb {
      InstalledMemb(o.all, o.r, d, i, v.w.memb);
      assert Known(o, p);
      ReceiveInEvs(o.all, d, o.r, p);
    }
    ELocal(v, s, i, Receive(d, p));
  }

  lemma {:induction false} EPart(v: Recovery, s: Estate, i: int)
    requires EInv(v, s) && 0 <= i < v.w.ring.n
    ensures EDaemonOK(v, s.hist, s.sent, i, s.ds[i], s.at[i])
  {
  }

  lemma {:induction false} ReceiveOther(d: Dstate, p: Packet)
    ensures d.memb != p.memb ==> Receive(d, p) == d
  {
  }

  lemma {:induction false} InstalledMemb(all: seq<Packet>, r: RingInfo, d: Dstate, me: int, id: MembId)
    ensures Installed(all, r, d, me, id) ==> d.memb == id && !d.evs
  {
  }

  lemma {:induction false} ERepetitionOK(v: Recovery, h: seq<Visit>, sent: seq<Token>, i: int, d: Dstate, a: int, retrans: int)
    requires RecoveryOK(v) && 0 <= i < |v.olds| && EDaemonOK(v, h, sent, i, d, a)
    ensures EDaemonOK(v, h, sent, i, d.(last := Repetition(d, retrans)), a)
  {
    hide RecoveryOK, Recovering, Pace, Stable, Arq, EvsLog;
    var e := d.(last := Repetition(d, retrans));
    RecoveringLast(v.olds[i].all, d, v.olds[i].r, e);
    PaceLast(d, v.olds[i].r, e);
  }

  lemma {:induction false} EMoreTokens(v: Recovery, s: Estate, c: Copy)
    requires EInv(v, s) && ECopyOK(v, s, c)
    ensures EInv(v, s.(tokens := s.tokens + {c}))
  {
    hide EHistOK, ERequestsOK, EOwnersOK, EDaemonOK;
    var s' := s.(tokens := s.tokens + {c});
    forall x | x in s'.tokens ensures ECopyOK(v, s', x) { assert ECopyOK(v, s, x); }
    forall j | 0 <= j < v.w.ring.n ensures EDaemonOK(v, s'.hist, s'.sent, j, s'.ds[j], s'.at[j]) {
      assert EDaemonOK(v, s.hist, s.sent, j, s.ds[j], s.at[j]);
    }
    ESame(v, s, s');
  }

  lemma {:induction false} ERepeat(v: Recovery, s: Estate, i: int, retrans: int)
    requires EInv(v, s) && 0 <= i < v.w.ring.n
    ensures EInv(v, ERepeated(s, i, retrans))
  {
    hide EHistOK, ERequestsOK, EOwnersOK, EDaemonsOK, ENetworkOK, EFlowOK, EDaemonOK, ECopyOK;
    var d := s.ds[i];
    EPart(v, s, i);
    ERepetitionOK(v, s.hist, s.sent, i, d, s.at[i], retrans);
    var e := d.(last := Repetition(d, retrans));
    ELocal(v, s, i, e);
    if 1 <= s.at[i] {
      RepeatedCopy(v, s, i, retrans);
      SameCopy(v, s, With(s, i, e), Copy(s.at[i], Repetition(d, retrans)));
      EMoreTokens(v, With(s, i, e), Copy(s.at[i], Repetition(d, retrans)));
    }
  }

  lemma {:induction false} SameCopy(v: Recovery, s: Estate, s': Estate, c: Copy)
    requires EShapeOK(v, s) && EShapeOK(v, s') && s.sent == s'.sent && ECopyOK(v, s, c)
    ensures ECopyOK(v, s', c)
  {
  }

  lemma {:induction false} RecoveringLast(all: seq<Packet>, d: Dstate, r: RingInfo, e: Dstate)
    requires e == d.(last := e.last)
    ensures Recovering(all, d, r) ==> Recovering(all, e, r)
  {
    if Recovering(all, d, r) { CoreOfRing(all, ToSet(r.holes), d, e); }
  }

  lemma {:induction false} PaceLast(d: Dstate, r: RingInfo, e: Dstate)
    requires e == d.(last := e.last) || e == d.(threshold := e.threshold)
    ensures Pace(d, r) ==> Pace(e, r)
  {
  }

  lemma {:induction false} RepeatedCopy(v: Recovery, s: Estate, i: int, retrans: int)
    requires EInv(v, s) && 0 <= i < v.w.ring.n && 1 <= s.at[i]
    ensures ECopyOK(v, s, Copy(s.at[i], Repetition(s.ds[i], retrans)))
  {
    hide ERequestsOK, EOwnersOK, ENetworkOK, EFlowOK, Behind, Installed, Stable, Arq, Chain;
    assert EDaemonOK(v, s.hist, s.sent, i, s.ds[i], s.at[i]);
    assert ETokenOK(v, s, s.at[i]);
  }

  lemma {:induction false} ELimit(v: Recovery, s: Estate, i: int, level: int)
    requires EInv(v, s) && 0 <= i < v.w.ring.n
    ensures EInv(v, With(s, i, s.ds[i].(threshold := level)))
  {
    hide EHistOK, ERequestsOK, EOwnersOK, EDaemonsOK, ENetworkOK, EFlowOK, Recovering, Pace, Stable, Arq, Done, EvsLog;
    var d := s.ds[i];
    assert EDaemonOK(v, s.hist, s.sent, i, d, s.at[i]) by { EPart(v, s, i); }
    var e := d.(threshold := level);
    RecoveringLevel(v.olds[i].all, d, v.olds[i].r, e);
    PaceLast(d, v.olds[i].r, e);
    ELocal(v, s, i, e);
  }

  lemma {:induction false} RecoveringLevel(all: seq<Packet>, d: Dstate, r: RingInfo, e: Dstate)
    requires e == d.(threshold := e.threshold)
    ensures Recovering(all, d, r) ==> Recovering(all, e, r)
  {
    if Recovering(all, d, r) { CoreOfRing(all, ToSet(r.holes), d, e); }
  }

  lemma {:induction false} EStepKeeps(v: Recovery, s: Estate, step: Estep, s': Estate)
    requires EInv(v, s) && EStepFrom(v, s, step, s')
    ensures EInv(v, s')
  {
    hide EHistOK, ERequestsOK, EOwnersOK, EFlowOK, EAccepted, Receive, Judge, ERepeated, ECopyOK, EDaemonOK, ERecent;
    match step
    case Take(i, c, offer) =>
      assert ECopyOK(v, s, c) && EDaemonOK(v, s.hist, s.sent, i, s.ds[i], s.at[i]);
      match Judge(s.ds[i], v.w.ring, c.token) {
        case Swallow =>
        case Repeat => ERepeat(v, s, i, c.token.retrans);
        case Accept =>
          EAcceptedIsNext(v, s, i, c);
          EAcceptKeeps(v, s, i, c.token, offer);
      }
    case Again(i) => ERepeat(v, s, i, (s.ds[i].last.retrans + 1) % 16);
    case Get(i, p) => EGot(v, s, i, p);
    case Limit(i, level) => ELimit(v, s, i, level);
  }

  // ------------------------------------------------------------------- the start

  lemma {:induction false} ArqStart(v: Recovery, t: int)
    requires RecoveryOK(v) && -v.w.ring.n < t <= 0
    ensures Arq(v.w, t) == 0
    decreases -t
  {
    hide Turns;
    if t < 0 {
      ArqStart(v, t + 1);
      ArqStep(v.w, t);
      EarlyTurns(v.w.ring.n, t + 1);
    }
  }

  // Between the FORM2 token and the first regular one nobody counts a round.
  lemma {:induction false} EarlyTurns(n: int, t: int)
    requires 0 < n && -n + 1 < t <= 0
    ensures t % n != 1 % n
  {
    if t % n == 1 % n { SameDaemon(n, t, 1); }
  }

  lemma {:induction false} EInitInv(v: Recovery, s: Estate)
    requires EInit(v, s)
    ensures EInv(v, s)
  {
    hide Arq, Recovering, Turns;
    forall i | 0 <= i < v.w.ring.n ensures EDaemonOK(v, s.hist, s.sent, i, s.ds[i], s.at[i]) {
      assert Entered(v, i, s.ds[i], s.at[i]);
      RecoveringBounds(v.olds[i].all, s.ds[i], v.olds[i].r);
      ArqStart(v, s.at[i]);
    }
    NoFlow(s.ds);
    assert EHistOK(v, s);
  }

  lemma {:induction false} RecoveringBounds(all: seq<Packet>, d: Dstate, r: RingInfo)
    requires Recovering(all, d, r)
    ensures 0 <= d.myAru
  {
  }

  lemma {:induction false} NoFlow(ds: seq<Dstate>)
    requires forall i :: 0 <= i < |ds| ==> ds[i].numRetrans == ds[i].numSent == 0
    ensures SumFlow(ds) == 0
  {
    if ds != [] { NoFlow(ds[..|ds| - 1]); }
  }

  lemma {:induction false} ERunInv(v: Recovery, ss: seq<Estate>, k: nat)
    requires ERun(v, ss) && k < |ss|
    ensures EInv(v, ss[k])
  {
    hide EInit, EStepFrom, EInv;
    if k == 0 {
      EInitInv(v, ss[0]);
    } else {
      ERunInv(v, ss, k - 1);
      assert ECanStep(v, ss[k - 1], ss[k]);
      var step :| EStepFrom(v, ss[k - 1], step, ss[k]);
      EStepKeeps(v, ss[k - 1], step, ss[k]);
    }
  }
}
