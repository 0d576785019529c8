// While the delivery threshold is above RELIABLE, as it is during the state
// exchange of the groups, a daemon delivers every packet in its turn.
module OpInTurn {
  import opened Types
  import opened RingArith
  import opened TokenHistory
  import opened Protocol
  import opened Delivery
  import opened TokenVisit
  import opened OpRing
  import opened OpInv
  import opened OpSafety
  import opened OpTheorems

  // Packets 1..k, early or not.
  ghost function AllMsgs(all: seq<Packet>, k: int): (r: seq<Event>)
    requires k <= |all|
    ensures |r| == Max(0, k) && forall x :: 0 <= x < |r| ==> r[x] == Msg(all[x])
  {
    if k <= 0 then [] else AllMsgs(all, k - 1) + [Msg(all[k - 1])]
  }

  ghost predicate InTurn(all: seq<Packet>, d: Dstate) {
    d.delivered <= |all| && d.log == AllMsgs(all, d.delivered)
  }

  lemma {:induction false} MoreMsgs(all: seq<Packet>, more: seq<Packet>, k: int)
    requires k <= |all|
    ensures AllMsgs(all + more, k) == AllMsgs(all, k)
  {
  }

  // Nothing ahead of its turn has been marked as delivered.
  lemma {:induction false} NoneGiven(all: seq<Packet>, holes: set<int>, d: Dstate, s: int)
    requires Core(all, holes, d) && InTurn(all, d) && GivenAt(d.pk, s)
    ensures s <= d.delivered
  {
    assert InLog(d.log, s);
    var x :| 0 <= x < |d.log| && d.log[x].Msg? && d.log[x].p.seqNo == s;
    assert Numbered(all);
  }

  lemma {:induction false} HeldNext(all: seq<Packet>, d: Dstate, s: int)
    requires Core(all, {}, d) && InTurn(all, d) && s == d.delivered + 1 && s in d.pk && d.pk[s].Held?
    ensures InTurn(all, Deliver(d, s).(delivered := s))
  {
    assert SlotOK(all, {}, s, d.pk[s]);
  }

  lemma {:induction false} AgreedInTurn(all: seq<Packet>, d: Dstate)
    requires Core(all, {}, d) && d.myAru <= d.highest && InTurn(all, d)
    ensures InTurn(all, AgreedLoop(d))
    decreases d.myAru - d.delivered
  {
    hide Core, InTurn;
    var s := d.delivered + 1;
    if s <= d.myAru {
      NextEntry(all, {}, d);
      if d.pk[s].Held? {
        if d.pk[s].p.payload.service != Safe {
          DeliverNext(all, {}, d) by { BaseOf(all, d); }
          HeldNext(all, d, s);
          AgreedInTurn(all, Deliver(d, s).(delivered := s));
        }
      } else {
        NoneGiven(all, {}, d, s);
      }
    }
  }

  lemma {:induction false} BaseOf(all: seq<Packet>, d: Dstate)
    requires Core(all, {}, d)
    ensures Base(all, {}, d)
  {
  }

  lemma {:induction false} DiscardInTurn(all: seq<Packet>, d: Dstate, s: int)
    requires Core(all, {}, FreedTo(d, s - 1)) && s - 1 <= d.aru <= Filled(d) && InTurn(all, FreedTo(d, s - 1))
    ensures InTurn(all, FreedTo(DiscardLoop(d, s), d.aru))
    decreases d.aru - s
  {
    hide Core, InTurn;
    if s <= d.aru {
      var f := FreedTo(d, s - 1);
      OldestEntry(all, {}, f);
      ReleaseKeeps(all, {}, f);
      assert Release(f, s).(discarded := s, delivered := Max(f.delivered, s)) == FreedTo(Release(d, s), s);
      ReleaseInTurn(all, f, s);
      DiscardInTurn(all, Release(d, s), s + 1);
    }
  }

  lemma {:induction false} ReleaseInTurn(all: seq<Packet>, f: Dstate, s: int)
    requires Core(all, {}, f) && InTurn(all, f) && s == f.discarded + 1 <= Filled(f) && s in f.pk && !f.pk[s].Hole?
    ensures InTurn(all, Release(f, s).(discarded := s, delivered := Max(f.delivered, s)))
  {
    OldestIsNext(all, {}, f);
    if f.pk[s].Held? {
      HeldNext(all, f, s);
    } else {
      NoneGiven(all, {}, f, s);
    }
  }

  lemma {:induction false} SettleInTurn(all: seq<Packet>, d: Dstate, sent: Token, k: nat)
    requires Core(all, {}, d) && d.myAru <= d.highest && !d.evs && !d.fault && InTurn(all, d)
    requires d.aru == d.discarded <= Min(d.last.aru, sent.aru) <= d.myAru && d.threshold > Level(Reliable)
    ensures InTurn(all, Settle(d, sent, k))
  {
    hide Core, NewAru, DiscardLoop, AgreedLoop, ReliableLoop;
    SettleKeeps(all, d, sent, k);
    NotedKeeps(all, d, sent);
    var f := Noted(d, sent);
    DiscardRegularKeeps(all, f);
    if f.discarded < f.aru {
      assert FreedTo(f, f.discarded) == f by { CoreBounds(all, {}, f); }
      DiscardInTurn(all, f, f.discarded + 1);
    }
    var g := DiscardRegular(f);
    assert InTurn(all, g);
    AgreedInTurn(all, g);
    DeliverAgreedKeeps(all, g);
    assert Settle(d, sent, k) == Deliveries(g, k);
  }

  lemma {:induction false} ReceiveInTurn(all: seq<Packet>, d: Dstate, p: Packet)
    requires Core(all, {}, d) && InTurn(all, d) && d.myAru <= d.highest && d.threshold > Level(Reliable)
    requires p.memb == d.memb ==> 1 <= p.seqNo <= |all| && p == all[p.seqNo - 1]
    ensures InTurn(all, Receive(d, p))
  {
    hide Core, AgreedLoop, ReliableLoop, Advance;
    if !(p.memb != d.memb || p.seqNo <= d.discarded || p.seqNo in d.pk) {
      InsertKeeps(all, {}, d, p);
      var e := d.(pk := d.pk[p.seqNo := Held(p)], highest := Max(d.highest, p.seqNo));
      if p.seqNo == e.myAru + 1 {
        AdvanceKeeps(all, {}, e);
        AgreedInTurn(all, e.(myAru := Advance(e.pk, e.myAru, e.highest)));
      }
    }
  }

  lemma {:induction false} AcceptInTurn(w: World, s: Rstate, i: int, t: Token, offer: seq<Payload>)
    requires Turn(w, s, i, t) && Inv(w, s) && s.ds[i].me == i && InTurn(s.all, s.ds[i]) && s.ds[i].threshold > Level(Reliable)
    ensures var s' := Accepted(w, s, i, t, offer); |s'.ds| == w.ring.n && InTurn(s'.all, s'.ds[i])
  {
    hide HistOK, RequestsOK, CastOK, NetworkOK, DaemonsOK, Core, HandleToken, NumSent, Chain, Stable, Arq, Leaves, VisitPre, Created, Fresher, Prepared, Settle;
    TurnPre(w, s, i, t);
    TurnExtends(w, s, i, t, offer);
    TurnAru(w, s, i, t, offer);
    VisitInTurn(w.ring, s.all, s.ds[i], t, offer);
    TurnTop(w, s, i, t);
  }

  lemma {:induction false} VisitInTurn(ring: Ring, all: seq<Packet>, d: Dstate, t: Token, offer: seq<Payload>)
    requires VisitPre(ring, all, d, t) && d.aru == d.discarded && InTurn(all, d) && d.threshold > Level(Reliable)
    requires d.aru <= Min(LastAru(d), Leaves(ring, d, t, offer).aru) <= Ready(ring, d, t, offer).d.myAru
    requires Raise(d, t).highest == |all|
    ensures InTurn(all + Created(d.me, d.memb, Raise(d, t).highest, offer, Min(|offer|, NumSent(d, ring, t, offer))), HandleToken(ring, d, t, offer).d)
  {
    hide Core, Settle, Prepared, TokenOut, OwnRequests, AnswerAll, NumSent, Created;
    PreparedKeeps(ring, all, d, t, offer);
    var b := Ready(ring, d, t, offer);
    var made := Created(d.me, d.memb, |all|, offer, NumSent(d, ring, t, offer));
    MoreMsgs(all, made, d.delivered);
    VisitUnfolds(ring, d, t, offer);
    SettleInTurn(all + made, b.d, Leaves(ring, d, t, offer), b.d.numSent);
  }

  lemma {:induction false} StepInTurn(w: World, s: Rstate, step: Step, s': Rstate, i: int)
    requires Inv(w, s) && StepFrom(w, s, step, s') && 0 <= i < w.ring.n
    requires InTurn(s.all, s.ds[i]) && s.ds[i].threshold > Level(Reliable)
    ensures |s'.ds| == w.ring.n && InTurn(s'.all, s'.ds[i])
  {
    hide HistOK, RequestsOK, CastOK, NetworkOK, DaemonsOK, DaemonOK, Accepted, Receive, AgreedLoop, ReliableLoop, Judge, CopyOK, Recent, Core;
    AnyDaemon(w, s, step.i);
    AnyDaemon(w, s, i);
    DaemonCore(w, s, i);
    match step {
      case Arrive(j, c, offer) =>
        if Judge(s.ds[j], w.ring, c.token) == Accept {
          AnyCopy(w, s, c);
          AcceptedIsNext(w, s, j, c);
          if j == i { AcceptInTurn(w, s, i, c.token, offer); } else { OthersInTurn(w, s, j, c.token, offer, i); }
        }
      case Receipt(j, p) =>
        if j == i {
          KnownPacket(w, s, i, p);
          ReceiveInTurn(s.all, s.ds[i], p);
        }
      case AgreedEvent(j) => AgreedInTurn(s.all, s.ds[i]);
      case ReliableEvent(_) =>
      case Hurry(_) =>
      case Wanted(_) =>
      case Flush(_) =>
      case Threshold(_, _) =>
    }
  }

  lemma {:induction false} DaemonCore(w: World, s: Rstate, i: int)
    requires Inv(w, s) && 0 <= i < w.ring.n
    ensures Core(s.all, {}, s.ds[i]) && s.ds[i].myAru <= s.ds[i].highest && s.ds[i].memb == w.memb
  {
    hide Core;
    AnyDaemon(w, s, i);
  }

  lemma {:induction false} KnownPacket(w: World, s: Rstate, i: int, p: Packet)
    requires Inv(w, s) && p in s.packets
    ensures p.memb == w.memb ==> 1 <= p.seqNo <= |s.all| && p == s.all[p.seqNo - 1]
  {
    hide HistOK, RequestsOK, CastOK, DaemonsOK;
  }

  lemma {:induction false} OthersInTurn(w: World, s: Rstate, j: int, t: Token, offer: seq<Payload>, i: int)
    requires Turn(w, s, j, t) && Inv(w, s) && s.ds[j].me == j && 0 <= i < w.ring.n && i != j && InTurn(s.all, s.ds[i])
    ensures var s' := Accepted(w, s, j, t, offer); |s'.ds| == w.ring.n && InTurn(s'.all, s'.ds[i])
  {
    hide HistOK, RequestsOK, CastOK, NetworkOK, DaemonsOK, HandleToken, NumSent, Created;
    var d := s.ds[j];
    MoreMsgs(s.all, Created(d.me, d.memb, Raise(d, t).highest, offer, Min(|offer|, NumSent(d, w.ring, t, offer))), s.ds[i].delivered);
  }

  // As long as the threshold of a daemon has been above RELIABLE since the ring
  // was installed, what it has delivered are the packets of the ring one by one,
  // reliable ones included.
  lemma {:induction false} NothingEarly(w: World, ss: seq<Rstate>, k: nat, i: int)
    requires Run(w, ss) && k < |ss| && 0 <= i < w.ring.n
    requires forall l :: 0 <= l <= k ==> |ss[l].ds| == w.ring.n && ss[l].ds[i].threshold > Level(Reliable)
    ensures InTurn(ss[k].all, ss[k].ds[i])
  {
    hide Init, StepFrom, Inv, InTurn;
    if k == 0 {
      StartInTurn(w, ss[0], i);
    } else {
      NothingEarly(w, ss, k - 1, i);
      RunInvAt(w, ss, k - 1);
      assert CanStep(w, ss[k - 1], ss[k]);
      var step :| StepFrom(w, ss[k - 1], step, ss[k]);
      StepInTurn(w, ss[k - 1], step, ss[k], i);
    }
  }

  lemma {:induction false} StartInTurn(w: World, s: Rstate, i: int)
    requires Init(w, s) && 0 <= i < w.ring.n
    ensures InTurn(s.all, s.ds[i])
  {
    assert Fresh(w, i, s.ds[i], s.at[i], s.sent[0]);
  }
}
