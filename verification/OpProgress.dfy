// What a ring in normal operation gets done: My_aru is always as far as it can
// be, nothing deliverable is held back, and what every daemon has got becomes
// stable and is delivered within two rounds of the token.
module OpProgress {
  import opened Types
  import opened RingArith
  import opened TokenHistory
  import opened Protocol
  import opened Delivery
  import opened TokenVisit
  import opened OpRing
  import opened OpInv
  import opened OpSafety
  import opened OpTheorems
  import opened OpInTurn
  import opened OpWindows
  import opened OpToForm
  import opened FormRecords
  import Evs

  // --------------------------------------------------------- My_aru is exact

  // The next number is missing.
  predicate AtGap(d: Dstate) {
    d.myAru + 1 !in d.pk
  }

  lemma {:induction false} AdvanceToGap(all: seq<Packet>, d: Dstate)
    requires Core(all, {}, d) && d.myAru <= d.highest
    ensures AtGap(d.(myAru := Advance(d.pk, d.myAru, d.highest)))
  {
  }

  lemma {:induction false} ReceiptAtGap(all: seq<Packet>, d: Dstate, p: Packet)
    requires Core(all, {}, d) && AtGap(d) && d.myAru <= d.highest
    requires p.memb == d.memb ==> 1 <= p.seqNo <= |all| && p == all[p.seqNo - 1]
    ensures AtGap(Receive(d, p))
  {
    hide Core, DeliverAgreed, DeliverReliable, Advance;
    if !(p.memb != d.memb || p.seqNo <= d.discarded || p.seqNo in d.pk) {
      var e := d.(pk := d.pk[p.seqNo := Held(p)], highest := Max(d.highest, p.seqNo));
      if p.seqNo == e.myAru + 1 {
        InsertKeeps(all, {}, d, p);
        AdvanceToGap(all, e);
        var f := e.(myAru := Advance(e.pk, e.myAru, e.highest));
        EventsTouch(f, 0, 0);
        SameGap(f, Receive(d, p));
      } else {
        EventsTouch(e, p.seqNo, 1);
        SameGap(e, Receive(d, p));
      }
    }
  }

  lemma {:induction false} SameGap(d: Dstate, e: Dstate)
    requires AtGap(d) && e.pk.Keys <= d.pk.Keys && e.myAru == d.myAru
    ensures AtGap(e)
  {
    assert d.myAru + 1 !in d.pk.Keys;
    assert e.myAru + 1 !in e.pk.Keys;
  }

  lemma {:induction false} DiscardTakes(d: Dstate)
    requires !DiscardRegular(d).fault
    ensures DiscardRegular(d).pk.Keys <= d.pk.Keys
  {
    hide DiscardLoop;
    forall s | s in DiscardRegular(d).pk ensures s in d.pk {
      if d.discarded < d.aru { Evs.LoopOnlyTakes(d, d.discarded + 1, s); }
    }
  }

  lemma {:induction false} SettleTakes(all: seq<Packet>, d: Dstate, sent: Token, k: nat)
    requires Core(all, {}, d) && d.myAru <= d.highest && !d.evs && !d.fault
    requires d.aru == d.discarded <= Min(d.last.aru, sent.aru) <= d.myAru
    ensures var e := Settle(d, sent, k);
            e.pk.Keys <= d.pk.Keys && e.myAru == d.myAru && e.threshold == d.threshold
            && (d.threshold <= Level(Agreed) ==> CaughtUp(all, e))
  {
    hide Core, NewAru, DiscardRegular, DeliverAgreed, ReliableLoop;
    SettleKeeps(all, d, sent, k);
    NotedKeeps(all, d, sent);
    var f := Noted(d, sent);
    DiscardRegularKeeps(all, f);
    DiscardTakes(f);
    var g := DiscardRegular(f);
    DeliverAgreedKeeps(all, g);
    var h := DeliverAgreed(g);
    ReliableDelivers(h, Max(h.highest - k + 1, h.delivered + 1), h.highest - k + 1 + k - 1);
    assert Settle(d, sent, k) == Deliveries(g, k);
    if d.threshold <= Level(Agreed) { AgreedDelivers(all, g); }
  }

  // One accepted token.
  lemma {:induction false} VisitProgress(ring: Ring, all: seq<Packet>, d: Dstate, t: Token, offer: seq<Payload>)
    requires VisitPre(ring, all, d, t) && d.aru == d.discarded && Raise(d, t).highest == |all|
    requires d.aru <= Min(LastAru(d), Leaves(ring, d, t, offer).aru) <= Ready(ring, d, t, offer).d.myAru
    ensures var e := HandleToken(ring, d, t, offer).d;
            && AtGap(e) && e.threshold == d.threshold && d.myAru <= e.myAru
            && (d.threshold <= Level(Agreed) ==> CaughtUp(all + Fresher(ring, all, d, t, offer), e))
  {
    hide Core, Settle, TokenOut, OwnRequests, AnswerAll, NumSent, Created, SendNew, Advance;
    PreparedKeeps(ring, all, d, t, offer);
    PreparedGap(ring, all, d, t, offer);
    var b := Ready(ring, d, t, offer);
    VisitUnfolds(ring, d, t, offer);
    SettleTakes(all + Fresher(ring, all, d, t, offer), b.d, Leaves(ring, d, t, offer), b.d.numSent);
    assert b.d.myAru + 1 !in b.d.pk.Keys;
  }

  lemma {:induction false} PreparedGap(ring: Ring, all: seq<Packet>, d: Dstate, t: Token, offer: seq<Payload>)
    requires VisitPre(ring, all, d, t) && Raise(d, t).highest == |all|
    ensures AtGap(Ready(ring, d, t, offer).d)
  {
    hide Core, AnswerAll, NumSent, Created;
    RaiseKeeps(all, d, t);
    var k := NumSent(d, ring, t, offer);
    PreparedKeeps(ring, all, d, t, offer);
    SendNewKeeps(ring, all, Raise(d, t), offer, k);
    AdvanceToGap(all + Created(d.me, d.memb, |all|, offer, k), SendNew(ring, Raise(d, t), offer, k).d);
  }

  // ---------------------------------------------------------------- the steps

  // Steps at which daemon i delivers in order.
  predicate Delivers(w: World, s: Rstate, step: Step, i: int)
    requires 0 <= i < |s.ds|
  {
    match step
    case Arrive(j, c, _) => j == i && Judge(s.ds[i], w.ring, c.token) == Accept
    case Receipt(j, p) => j == i && p.memb == s.ds[i].memb && p.seqNo == s.ds[i].myAru + 1
    case AgreedEvent(j) => j == i
    case _ => false
  }

  lemma {:induction false} ClosingCatchesUp(all: seq<Packet>, d: Dstate, p: Packet)
    requires Core(all, {}, d) && AtGap(d) && d.myAru <= d.highest && !d.evs && d.threshold <= Level(Agreed)
    requires p.memb == d.memb && p.seqNo == d.myAru + 1 <= |all| && p == all[p.seqNo - 1]
    ensures CaughtUp(all, Receive(d, p))
  {
    hide Core, DeliverAgreed, Advance;
    CoreBounds(all, {}, d);
    InsertKeeps(all, {}, d, p);
    var e := d.(pk := d.pk[p.seqNo := Held(p)], highest := Max(d.highest, p.seqNo));
    AdvanceKeeps(all, {}, e);
    AgreedDelivers(all, e.(myAru := Advance(e.pk, e.myAru, e.highest)));
  }

  // A packet that closes no gap leaves daemons caught up.
  lemma {:induction false} OtherStaysCaughtUp(all: seq<Packet>, d: Dstate, p: Packet)
    requires CaughtUp(all, d) && !(p.memb == d.memb && p.seqNo == d.myAru + 1)
    ensures CaughtUp(all, Receive(d, p))
  {
    hide ReliableLoop, DeliverAgreed;
    var e := d.(pk := d.pk[p.seqNo := Held(p)], highest := Max(d.highest, p.seqNo));
    ReliableDelivers(e, Max(p.seqNo, e.delivered + 1), p.seqNo + 1 - 1);
  }

  lemma {:induction false} AcceptProgress(w: World, s: Rstate, i: int, t: Token, offer: seq<Payload>)
    requires Turn(w, s, i, t)
    ensures s.ds[i].me == i
    ensures var s' := Accepted(w, s, i, t, offer);
            && |s'.ds| == w.ring.n && AtGap(s'.ds[i]) && s.ds[i].myAru <= s'.ds[i].myAru
            && (s'.ds[i].threshold <= Level(Agreed) ==> CaughtUp(s'.all, s'.ds[i]))
            && s.all <= s'.all && s'.hist == s.hist + [s'.hist[|s.hist|]] && s'.hist[|s.hist|].my == s'.ds[i].myAru
  {
    hide HistOK, RequestsOK, CastOK, NetworkOK, DaemonsOK, Core, HandleToken, NumSent, Chain, Stable, Arq, Leaves, VisitPre, Created, Fresher, Prepared, Settle, AtGap, CaughtUp;
    TurnPre(w, s, i, t);
    TurnExtends(w, s, i, t, offer);
    TurnAru(w, s, i, t, offer);
    VisitProgress(w.ring, s.all, s.ds[i], t, offer);
    VisitedOK(w, s, i, t, offer);
  }

  lemma {:induction false} GrownCaughtUp(all: seq<Packet>, all': seq<Packet>, d: Dstate)
    requires CaughtUp(all, d) && all <= all'
    ensures CaughtUp(all', d)
  {
  }

  lemma {:induction false} StepProgress(w: World, s: Rstate, step: Step, s': Rstate, i: int)
    requires Inv(w, s) && StepFrom(w, s, step, s') && 0 <= i < w.ring.n && AtGap(s.ds[i])
    ensures |s'.ds| == w.ring.n && AtGap(s'.ds[i]) && s.ds[i].myAru <= s'.ds[i].myAru
    ensures (Delivers(w, s, step, i) || CaughtUp(s.all, s.ds[i])) && s'.ds[i].threshold <= Level(Agreed) ==>
              CaughtUp(s'.all, s'.ds[i])
  {
    hide HistOK, RequestsOK, CastOK, NetworkOK, DaemonsOK, DaemonOK, Accepted, Receive, AgreedLoop, ReliableLoop, Judge, CopyOK, Recent, Core, CaughtUp, DeliverAgreed, AtGap;
    AnyDaemon(w, s, step.i);
    DaemonCore(w, s, i);
    DaemonOutside(w, s, i);
    var d := s.ds[i];
    match step {
      case Arrive(j, c, offer) =>
        if Judge(s.ds[j], w.ring, c.token) == Accept {
          AnyCopy(w, s, c);
          AcceptedIsNext(w, s, j, c);
          AcceptProgress(w, s, j, c.token, offer);
          OthersSame(w, s, j, c.token, offer, i);
          if j != i && CaughtUp(s.all, d) { GrownCaughtUp(s.all, s'.all, d); }
        } else {
          SameGap(d, s'.ds[i]);
          LastCaughtUp(s.all, d, s'.ds[i]);
        }
      case Receipt(j, p) =>
        if j == i {
          KnownPacket(w, s, i, p);
          ReceiptAtGap(s.all, d, p);
          ReceiveTouches(d, p);
          if d.threshold <= Level(Agreed) && p.memb == d.memb && p.seqNo == d.myAru + 1 { ClosingCatchesUp(s.all, d, p); }
          if !(p.memb == d.memb && p.seqNo == d.myAru + 1) && CaughtUp(s.all, d) { OtherStaysCaughtUp(s.all, d, p); }
        }
      case AgreedEvent(j) =>
        EventsTouch(d, 0, 0);
        if j == i { SameGap(d, s'.ds[i]); }
        if j == i && d.threshold <= Level(Agreed) { AgreedDelivers(s.all, d); MeetsCaughtUp(s.all, s'.ds[i]); }
      case ReliableEvent(j) =>
        EventsTouch(d, 1, d.highest);
        if j == i { SameGap(d, s'.ds[i]); }
        ReliableDelivers(d, Max(1, d.delivered + 1), d.highest);
        LastCaughtUp(s.all, d, s'.ds[i]);
      case Hurry(_) =>
        SameGap(d, s'.ds[i]);
        LastCaughtUp(s.all, d, s'.ds[i]);
      case Wanted(_) =>
        SameGap(d, s'.ds[i]);
        LastCaughtUp(s.all, d, s'.ds[i]);
      case Flush(_) =>
        SameGap(d, s'.ds[i]);
        LastCaughtUp(s.all, d, s'.ds[i]);
      case Threshold(_, _) =>
        SameGap(d, s'.ds[i]);
        LastCaughtUp(s.all, d, s'.ds[i]);
    }
  }

  lemma {:induction false} MeetsCaughtUp(all: seq<Packet>, d: Dstate)
    requires d.delivered <= d.myAru && (d.delivered == d.myAru || SafeAt(all, d.delivered + 1))
    ensures CaughtUp(all, d)
  {
  }

  lemma {:induction false} LastCaughtUp(all: seq<Packet>, d: Dstate, e: Dstate)
    requires e.delivered == d.delivered && e.myAru == d.myAru
    ensures CaughtUp(all, d) ==> CaughtUp(all, e)
  {
  }

  lemma {:induction false} DaemonOutside(w: World, s: Rstate, i: int)
    requires Inv(w, s) && 0 <= i < w.ring.n
    ensures !s.ds[i].evs && s.ds[i].me == i
  {
    hide Core;
    AnyDaemon(w, s, i);
  }

  lemma {:induction false} OthersSame(w: World, s: Rstate, j: int, t: Token, offer: seq<Payload>, i: int)
    requires 0 <= j < |s.ds| == |s.at| && 0 <= s.ds[j].me < |w.ring.personal| == |w.ring.seg| && 0 <= i < |s.ds|
    ensures i != j ==> Accepted(w, s, j, t, offer).ds[i] == s.ds[i]
  {
    hide HandleToken, NumSent, Created;
  }

  // --------------------------------------------------------------- every run

  // In every run My_aru stands right before the first missing packet.
  lemma {:induction false} MyAruExact(w: World, ss: seq<Rstate>, k: nat, i: int)
    requires Run(w, ss) && k < |ss| && 0 <= i < w.ring.n
    ensures |ss[k].ds| == w.ring.n && ss[k].ds[i].myAru + 1 !in ss[k].ds[i].pk
  {
    hide Init, StepFrom, Inv;
    RunInvAt(w, ss, k);
    if k == 0 {
      StartExact(w, ss[0], i);
    } else {
      MyAruExact(w, ss, k - 1, i);
      RunInvAt(w, ss, k - 1);
      assert CanStep(w, ss[k - 1], ss[k]);
      var step :| StepFrom(w, ss[k - 1], step, ss[k]);
      assert AtGap(ss[k - 1].ds[i]);
      StepProgress(w, ss[k - 1], step, ss[k], i);
    }
  }

  lemma {:induction false} StartExact(w: World, s: Rstate, i: int)
    requires Init(w, s) && 0 <= i < w.ring.n
    ensures |s.ds| == w.ring.n && s.ds[i].myAru + 1 !in s.ds[i].pk && CaughtUp(s.all, s.ds[i])
  {
    assert Fresh(w, i, s.ds[i], s.at[i], s.sent[0]);
  }

  // At moment l daemon i has just delivered in order: the ring starts, a packet
  // has closed the gap, a token has been accepted, or the delivery event came.
  ghost predicate JustDelivered(w: World, ss: seq<Rstate>, l: nat, i: int) {
    l == 0 || (l < |ss| && CanDeliver(w, ss[l - 1], ss[l], i))
  }

  ghost predicate CanDeliver(w: World, s: Rstate, s': Rstate, i: int) {
    exists step :: DeliversBy(w, s, step, s', i)
  }

  ghost predicate DeliversBy(w: World, s: Rstate, step: Step, s': Rstate, i: int) {
    0 <= i < |s.ds| && StepFrom(w, s, step, s') && Delivers(w, s, step, i)
  }

  // From then on, as long as the threshold is at most AGREED, a daemon has
  // delivered all that there is in sequence, up to the first SAFE packet that is
  // not stable, at every moment of the run.
  lemma {:induction false} NothingHeldBack(w: World, ss: seq<Rstate>, l: nat, k: nat, i: int)
    requires Run(w, ss) && l <= k < |ss| && 0 <= i < w.ring.n && JustDelivered(w, ss, l, i)
    requires forall m :: l <= m <= k ==> |ss[m].ds| == w.ring.n && ss[m].ds[i].threshold <= Level(Agreed)
    ensures var d := ss[k].ds[i];
            && d.delivered <= d.myAru && (d.delivered == d.myAru || SafeAt(ss[k].all, d.delivered + 1))
            && forall s :: 1 <= s <= d.delivered ==> InLog(d.log, s)
    decreases k
  {
    hide Init, StepFrom, Inv, CaughtUp, Core, Delivers;
    RunInvAt(w, ss, k);
    DaemonCore(w, ss[k], i);
    LogFull(ss[k].all, ss[k].ds[i]);
    if k == 0 {
      StartExact(w, ss[0], i);
    } else {
      RunInvAt(w, ss, k - 1);
      MyAruExact(w, ss, k - 1, i);
      assert AtGap(ss[k - 1].ds[i]);
      if l == k {
        var step :| DeliversBy(w, ss[k - 1], step, ss[k], i);
        StepProgress(w, ss[k - 1], step, ss[k], i);
      } else {
        NothingHeldBack(w, ss, l, k - 1, i);
        MeetsCaughtUp(ss[k - 1].all, ss[k - 1].ds[i]);
        assert CanStep(w, ss[k - 1], ss[k]);
        var step :| StepFrom(w, ss[k - 1], step, ss[k]);
        StepProgress(w, ss[k - 1], step, ss[k], i);
      }
    }
    CaughtUpMeans(ss[k].all, ss[k].ds[i]);
  }

  lemma {:induction false} CaughtUpMeans(all: seq<Packet>, d: Dstate)
    requires CaughtUp(all, d)
    ensures d.delivered <= d.myAru && (d.delivered == d.myAru || SafeAt(all, d.delivered + 1))
  {
  }

  // ------------------------------------------------------- packets get stable

  // Everybody has got to x, and has said so on each visit from a on.
  ghost predicate AllPast(s: Rstate, a: int, x: int) {
    && (forall j :: 0 <= j < |s.ds| ==> x <= s.ds[j].myAru)
    && (forall t :: 0 <= t && a <= t < |s.hist| ==> x <= s.hist[t].my)
  }

  lemma {:induction false} StepPast(w: World, s: Rstate, step: Step, s': Rstate, a: int, x: int)
    requires Inv(w, s) && StepFrom(w, s, step, s') && AllPast(s, a, x) && |s'.ds| == w.ring.n
    requires forall j :: 0 <= j < w.ring.n ==> s.ds[j].myAru <= s'.ds[j].myAru
    ensures AllPast(s', a, x)
  {
    hide HistOK, RequestsOK, CastOK, NetworkOK, DaemonsOK, DaemonOK, Accepted, Receive, DeliverAgreed, DeliverReliable, Judge, CopyOK, Recent, Core, CaughtUp, AtGap;
    match step {
      case Arrive(j, c, offer) =>
        AnyDaemon(w, s, j);
        if Judge(s.ds[j], w.ring, c.token) == Accept {
          AnyCopy(w, s, c);
          AcceptedIsNext(w, s, j, c);
          AcceptProgress(w, s, j, c.token, offer);
        }
      case _ =>
    }
  }

  lemma {:induction false} RunPast(w: World, ss: seq<Rstate>, l: nat, k: nat, x: int)
    requires Run(w, ss) && l <= k < |ss| && forall j :: 0 <= j < |ss[l].ds| ==> x <= ss[l].ds[j].myAru
    ensures AllPast(ss[k], |ss[l].hist|, x)
    decreases k
  {
    hide Init, StepFrom, Inv;
    if l < k {
      RunPast(w, ss, l, k - 1, x);
      RunInvAt(w, ss, k - 1);
      assert CanStep(w, ss[k - 1], ss[k]);
      var step :| StepFrom(w, ss[k - 1], step, ss[k]);
      MyAruExact(w, ss, k - 1, 0) by { SomeDaemon(w, ss[k - 1]); }
      MyAruExact(w, ss, k, 0) by { SomeDaemon(w, ss[k - 1]); }
      forall j | 0 <= j < w.ring.n ensures ss[k - 1].ds[j].myAru <= ss[k].ds[j].myAru {
        MyAruExact(w, ss, k - 1, j);
        assert AtGap(ss[k - 1].ds[j]);
        StepProgress(w, ss[k - 1], step, ss[k], j);
      }
      StepPast(w, ss[k - 1], step, ss[k], |ss[l].hist|, x);
    }
  }

  lemma {:induction false} SomeDaemon(w: World, s: Rstate)
    requires Inv(w, s)
    ensures 0 < w.ring.n
  {
  }

  // What every daemon has got by moment l, each daemon has delivered, SAFE or
  // not, two rounds of the token later.
  lemma {:induction false} SafeProgress(w: World, ss: seq<Rstate>, l: nat, k: nat, i: int, x: int)
    requires Run(w, ss) && l <= k < |ss| && 0 <= i < w.ring.n && (forall j :: 0 <= j < |ss[l].ds| ==> x <= ss[l].ds[j].myAru)
    requires |ss[k].at| == w.ring.n && |ss[l].hist| + 2 * w.ring.n <= ss[k].at[i]
    ensures |ss[k].ds| == w.ring.n
    ensures var d := ss[k].ds[i]; x <= d.aru && x <= d.delivered && forall s :: 1 <= s <= x ==> InLog(d.log, s)
  {
    hide Run, Inv, Core, DaemonOK, StepFrom;
    RunPast(w, ss, l, k, x);
    RunInvAt(w, ss, k);
    RunInvAt(w, ss, l);
    var s := ss[k];
    StableOf(w, s, i);
    assert |s.ds| == w.ring.n by { MyAruExact(w, ss, k, i); }
    HistOf(w, ss[l]);
    OwnerAtStart(w, s);
    StableReaches(false, w.ring.n, s.hist, |ss[l].hist|, s.at[i], x);
    CoreBounds(s.all, {}, s.ds[i]);
    LogFull(s.all, s.ds[i]);
  }

  lemma {:induction false} StableOf(w: World, s: Rstate, i: int)
    requires Inv(w, s) && 0 <= i < w.ring.n
    ensures 0 < w.ring.n && s.at[i] < |s.hist| && s.ds[i].aru == s.ds[i].discarded == Stable(w.ring.n, s.hist, s.at[i])
    ensures Core(s.all, {}, s.ds[i]) && Chain(false, w.ring.n, s.hist)
  {
    hide Core, Chain, NetworkOK, RequestsOK, CastOK;
    AnyDaemon(w, s, i);
  }

  lemma {:induction false} HistOf(w: World, s: Rstate)
    requires Inv(w, s)
    ensures 1 <= |s.hist|
  {
    hide NetworkOK, RequestsOK, CastOK, DaemonsOK, HistOK;
  }

  lemma {:induction false} OwnerAtStart(w: World, s: Rstate)
    requires Inv(w, s)
    ensures 0 <= s.hist[0].last < w.ring.n
  {
    hide NetworkOK, RequestsOK, CastOK, DaemonsOK;
  }

  // ----------------------------------------------------------- own early packets

  // A RELIABLE packet that is a whole message is delivered at its own daemon on
  // the visit that sends it.
  lemma {:induction false} OwnEarlyAtOnce(w: World, s: Rstate, i: int, t: Token, offer: seq<Payload>, q: int)
    requires Turn(w, s, i, t) && s.ds[i].threshold <= Level(Reliable)
    ensures s.ds[i].me == i
    ensures var s' := Accepted(w, s, i, t, offer);
            |s.all| < q <= |s'.all| && s'.all[q - 1].Early() && |s'.ds| == w.ring.n ==> InLog(s'.ds[i].log, q)
  {
    hide HistOK, RequestsOK, CastOK, NetworkOK, DaemonsOK, Core, HandleToken, NumSent, Chain, Stable, Arq, Leaves, VisitPre, Created, Fresher, Prepared, Settle;
    TurnPre(w, s, i, t);
    TurnExtends(w, s, i, t, offer);
    TurnAru(w, s, i, t, offer);
    VisitedOK(w, s, i, t, offer);
    var s' := Accepted(w, s, i, t, offer);
    if |s.all| < q <= |s'.all| && s'.all[q - 1].Early() {
      SentCount(w.ring, s.all, s.ds[i], t, offer);
      VisitDeliversOwn(w.ring, s.all, s.ds[i], t, offer, q);
    }
  }

  lemma {:induction false} SentCount(ring: Ring, all: seq<Packet>, d: Dstate, t: Token, offer: seq<Payload>)
    requires VisitPre(ring, all, d, t) && Raise(d, t).highest == |all|
    ensures |Fresher(ring, all, d, t, offer)| == NumSent(d, ring, t, offer)
  {
    hide Core, NumSent, Prepared, AnswerAll, Created;
    PreparedKeeps(ring, all, d, t, offer);
    CreatedAt(d.me, d.memb, |all|, offer, NumSent(d, ring, t, offer));
  }

  lemma {:induction false} VisitDeliversOwn(ring: Ring, all: seq<Packet>, d: Dstate, t: Token, offer: seq<Payload>, q: int)
    requires VisitPre(ring, all, d, t) && d.aru == d.discarded && Raise(d, t).highest == |all| && d.threshold <= Level(Reliable)
    requires d.aru <= Min(LastAru(d), Leaves(ring, d, t, offer).aru) <= Ready(ring, d, t, offer).d.myAru
    requires var all' := all + Fresher(ring, all, d, t, offer);
             |all| < q <= |all'| && all'[q - 1].Early() && |all'| == |all| + NumSent(d, ring, t, offer)
    ensures InLog(HandleToken(ring, d, t, offer).d.log, q)
  {
    hide Core, Settle, TokenOut, OwnRequests, AnswerAll, NumSent, Created, Prepared, HasNumber;
    PreparedKeeps(ring, all, d, t, offer);
    VisitUnfolds(ring, d, t, offer);
    VisitKeeps(ring, all, d, t, offer);
    VisitorHas(ring, all, d, t, offer, q);
    var b := Ready(ring, d, t, offer);
    var all' := all + Fresher(ring, all, d, t, offer);
    var e := HandleToken(ring, d, t, offer).d;
    assert Core(all', {}, b.d);
    SettleDeliversOwn(all', b.d, Leaves(ring, d, t, offer), b.d.numSent, q);
  }

  lemma {:induction false} SettleDeliversOwn(all: seq<Packet>, d: Dstate, sent: Token, k: nat, q: int)
    requires Core(all, {}, d) && d.myAru <= d.highest && !d.evs && !d.fault && d.threshold <= Level(Reliable)
    requires d.aru == d.discarded <= Min(d.last.aru, sent.aru) <= d.myAru
    requires d.highest - k < q <= d.highest && 1 <= q <= |all| && all[q - 1].Early() && HasNumber(Settle(d, sent, k), q)
    ensures InLog(Settle(d, sent, k).log, q)
  {
    hide Core, NewAru, DiscardRegular, DeliverAgreed, ReliableLoop;
    SettleKeeps(all, d, sent, k);
    NotedKeeps(all, d, sent);
    var f := Noted(d, sent);
    DiscardRegularKeeps(all, f);
    var g := DiscardRegular(f);
    DeliverAgreedKeeps(all, g);
    var h := DeliverAgreed(g);
    var start := Max(h.highest - k + 1, h.delivered + 1);
    ReliableDelivers(h, start, h.highest - k + 1 + k - 1);
    assert Settle(d, sent, k) == Deliveries(g, k);
    var e := Settle(d, sent, k);
    CoreBounds(all, {}, e);
    InLogIff(all, e, q);
    if e.delivered < q {
      assert q in e.pk;
      EntryKind(all, e, q);
    }
  }

  // ------------------------------------------------------- when the token is held

  // The counter says on how many visits in a row everything was stable.  The
  // leader keeps the token exactly if that was so on its last two visits, is so
  // still, with nothing sent, and nobody had to ask for the token twice.
  lemma {:induction false} HeldExactly(w: World, s: Rstate, i: int, t: Token, offer: seq<Payload>)
    requires Turn(w, s, i, t)
    ensures s.ds[i].me == i
    ensures var s' := Accepted(w, s, i, t, offer);
            && |s'.ds| == w.ring.n
            && s'.ds[i].counter == (if s'.ds[i].aru == |s'.all| then s.ds[i].counter + 1 else 0)
            && (HandleToken(w.ring, s.ds[i], t, offer).sends <==>
                  !(i == w.ring.lead && s.ds[i].aru == |s'.all| && s.ds[i].counter > 1 && s.ds[i].last.retrans <= 1))
  {
    hide HistOK, RequestsOK, CastOK, NetworkOK, DaemonsOK, Core, HandleToken, NumSent, Chain, Stable, Arq, Leaves, VisitPre, Created, Fresher, Prepared, Settle;
    TurnPre(w, s, i, t);
    TurnExtends(w, s, i, t, offer);
    TurnAru(w, s, i, t, offer);
    VisitedOK(w, s, i, t, offer);
    VisitHolds(w.ring, s.all, s.ds[i], t, offer);
    SentCount(w.ring, s.all, s.ds[i], t, offer);
  }

  lemma {:induction false} VisitHolds(ring: Ring, all: seq<Packet>, d: Dstate, t: Token, offer: seq<Payload>)
    requires VisitPre(ring, all, d, t) && d.aru == d.discarded && Raise(d, t).highest == |all|
    requires d.aru <= Min(LastAru(d), Leaves(ring, d, t, offer).aru) <= Ready(ring, d, t, offer).d.myAru
    ensures var o := HandleToken(ring, d, t, offer); var top := |all| + NumSent(d, ring, t, offer);
            && o.d.counter == (if o.d.aru == top then d.counter + 1 else 0)
            && (o.sends <==> !(d.me == ring.lead && d.aru == top && d.counter > 1 && d.last.retrans <= 1))
  {
    hide Core, Settle, TokenOut, OwnRequests, AnswerAll, NumSent, Created, Prepared;
    PreparedKeeps(ring, all, d, t, offer);
    VisitUnfolds(ring, d, t, offer);
    var b := Ready(ring, d, t, offer).d;
    SettleCounter(all + Fresher(ring, all, d, t, offer), b, Leaves(ring, d, t, offer), b.numSent);
  }

  lemma {:induction false} SettleCounter(all: seq<Packet>, d: Dstate, sent: Token, k: nat)
    requires Core(all, {}, d) && d.myAru <= d.highest && !d.evs && !d.fault
    requires d.aru == d.discarded <= Min(d.last.aru, sent.aru) <= d.myAru
    ensures var e := Settle(d, sent, k); e.counter == if e.aru == d.highest then d.counter + 1 else 0
  {
    hide Core, DiscardRegular, DeliverAgreed, DeliverReliable;
    SettleKeeps(all, d, sent, k);
    var f := Noted(d, sent);
    NotedKeeps(all, d, sent);
    DiscardRegularKeeps(all, f);
    DeliveriesKeep(all, DiscardRegular(f), k);
    DeliverAgreedKeeps(all, DiscardRegular(f));
    assert Settle(d, sent, k) == Deliveries(DiscardRegular(f), k);
  }

  // -------------------------------------------------------- how far numbers go

  // A ring gives out few numbers beyond the wrap value, where daemons let the
  // token go.
  lemma {:induction false} NumbersEnd(w: World, ss: seq<Rstate>, k: nat, p: int)
    requires Run(w, ss) && k < |ss| && PersonalAtMost(w, p) && 0 <= p
    ensures |ss[k].all| <= MAX_WRAP_SEQUENCE_VALUE + p
  {
    hide Inv, StepFrom, Init;
    if k == 0 {
      StartsEmpty(w, ss[0]);
    } else {
      NumbersEnd(w, ss, k - 1, p);
      RunInvAt(w, ss, k - 1);
      assert CanStep(w, ss[k - 1], ss[k]);
      var step :| StepFrom(w, ss[k - 1], step, ss[k]);
      StepNumbers(w, ss[k - 1], step, ss[k], p);
    }
  }

  lemma {:induction false} StartsEmpty(w: World, s: Rstate)
    requires Init(w, s)
    ensures s.all == []
  {
  }

  lemma {:induction false} StepNumbers(w: World, s: Rstate, step: Step, s': Rstate, p: int)
    requires Inv(w, s) && StepFrom(w, s, step, s') && PersonalAtMost(w, p) && 0 <= p && |s.all| <= MAX_WRAP_SEQUENCE_VALUE + p
    ensures |s'.all| <= MAX_WRAP_SEQUENCE_VALUE + p
  {
    hide HistOK, RequestsOK, CastOK, NetworkOK, DaemonsOK, DaemonOK, Receive, DeliverAgreed, DeliverReliable, CopyOK, Recent, Core, HandleToken, NumSent, Created;
    match step {
      case Arrive(i, c, offer) =>
        AnyDaemon(w, s, i);
        if Judge(s.ds[i], w.ring, c.token) == Accept {
          AnyCopy(w, s, c);
          AcceptedIsNext(w, s, i, c);
          TurnPre(w, s, i, c.token);
          DaemonOutside(w, s, i);
          SentBounds(w, s, i, c.token, offer);
          SentCount(w.ring, s.all, s.ds[i], c.token, offer);
          VisitedOK(w, s, i, c.token, offer);
          TopOf(w.ring, s.all, s.ds[i], c.token);
        }
      case _ =>
    }
  }

  lemma {:induction false} TopOf(ring: Ring, all: seq<Packet>, d: Dstate, t: Token)
    requires VisitPre(ring, all, d, t)
    ensures t.seqNo == |all|
  {
  }
}
