// What holds in every run of a ring in normal operation.
module OpSafety {
  import opened Types
  import opened RingArith
  import opened TokenHistory
  import opened Protocol
  import opened Delivery
  import opened TokenVisit
  import opened OpRing
  import opened OpInv

  // ------------------------------------------------------------ the other steps

  // A step that changes nothing but daemon i, and leaves its queue empty.
  lemma {:induction false} LocalKeeps(w: World, s: Rstate, i: int, d: Dstate)
    requires Inv(w, s) && 0 <= i < w.ring.n && s.ds[i].queue == d.queue == []
    requires DaemonOK(w, s.all, s.hist, s.sent, i, d, s.at[i])
    ensures Inv(w, WithDaemon(s, i, d))
  {
    hide DaemonOK, Chain, Arq;
    var s' := WithDaemon(s, i, d);
    forall t | 0 <= t < |s.hist| ensures TokenOK(w, s', t) { assert TokenOK(w, s, t); }
    forall c | c in s.tokens ensures CopyOK(w, s', c) { assert CopyOK(w, s, c); }
    forall k | 0 <= k < |s.all| && s.all[k] !in s.packets ensures Waiting(s', s.all[k]) {
      var j :| 0 <= j < |s.ds| && s.all[k] in s.ds[j].queue;
      assert s'.ds[j].queue == s.ds[j].queue;
    }
  }

  lemma {:induction false} ReceiptKeeps(w: World, s: Rstate, i: int, p: Packet)
    requires Inv(w, s) && 0 <= i < w.ring.n && s.ds[i].queue == [] && p in s.packets
    ensures Inv(w, WithDaemon(s, i, Receive(s.ds[i], p)))
  {
    hide HistOK, RequestsOK, CastOK, Core, LastOK, QueueOK, Receive, Inv;
    assert NetworkOK(w, s) && DaemonsOK(w, s) by { InvParts(w, s); }
    var d := s.ds[i];
    assert DaemonOK(w, s.all, s.hist, s.sent, i, d, s.at[i]);
    ReceiveForeign(d, p);
    if p.memb == w.memb {
      ReceiveKeeps(s.all, {}, d, p);
      ReceivedOK(w, s.all, s.hist, s.sent, i, d, s.at[i], Receive(d, p));
    }
    LocalKeeps(w, s, i, Receive(d, p));
  }

  lemma {:induction false} InvParts(w: World, s: Rstate)
    requires Inv(w, s)
    ensures ShapeOK(w, s) && NetworkOK(w, s) && DaemonsOK(w, s) && HistOK(w, s)
  {
  }

  lemma {:induction false} ReceiveForeign(d: Dstate, p: Packet)
    ensures p.memb != d.memb ==> Receive(d, p) == d
  {
  }

  // What the invariant says about the last token and the queue.
  lemma {:induction false} SameLast(w: World, sent: seq<Token>, h: seq<Visit>, all: seq<Packet>, d: Dstate, e: Dstate, a: int)
    requires WorldOK(w) && a < |sent| == |h| && LastOK(w, sent, d, a) && QueueOK(w, all, h, d, a)
    requires e.last == d.last && e.justInstalled == d.justInstalled && e.queue == d.queue
    ensures LastOK(w, sent, e, a) && QueueOK(w, all, h, e, a)
  {
    hide Arq, SameToken, WorldOK;
    assert LastAru(e) == LastAru(d);
  }

  // Receiving and delivering leave untouched what the ring relies on.
  lemma {:induction false} ReceivedOK(w: World, all: seq<Packet>, h: seq<Visit>, sent: seq<Token>, i: int, d: Dstate, a: int, e: Dstate)
    requires DaemonOK(w, all, h, sent, i, d, a)
    requires Core(all, {}, e) && OnlyReceives(d, e) && e.myAru <= e.highest
    ensures DaemonOK(w, all, h, sent, i, e, a)
  {
    hide Core, Stable, Arq, LastOK, QueueOK;
    SameLast(w, sent, h, all, d, e, a);
  }

  lemma {:induction false} EventsKeep(w: World, s: Rstate, i: int, level: int)
    requires Inv(w, s) && 0 <= i < w.ring.n && s.ds[i].queue == []
    ensures Inv(w, WithDaemon(s, i, DeliverAgreed(s.ds[i])))
    ensures Inv(w, WithDaemon(s, i, DeliverReliable(s.ds[i], 1, s.ds[i].highest)))
    ensures Inv(w, WithDaemon(s, i, s.ds[i].(threshold := level)))
  {
    hide HistOK, RequestsOK, CastOK, NetworkOK, Core, LastOK, QueueOK, DeliverAgreed, DeliverReliable, Stable, Arq;
    var d := s.ds[i];
    assert DaemonOK(w, s.all, s.hist, s.sent, i, d, s.at[i]);
    DeliverAgreedKeeps(s.all, d);
    ReceivedOK(w, s.all, s.hist, s.sent, i, d, s.at[i], DeliverAgreed(d));
    LocalKeeps(w, s, i, DeliverAgreed(d));
    DeliverReliableKeeps(s.all, {}, d, 1, d.highest);
    ReceivedOK(w, s.all, s.hist, s.sent, i, d, s.at[i], DeliverReliable(d, 1, d.highest));
    LocalKeeps(w, s, i, DeliverReliable(d, 1, d.highest));
    ThresholdOK(w, s.all, s.hist, s.sent, i, d, s.at[i], level);
    LocalKeeps(w, s, i, d.(threshold := level));
  }

  lemma {:induction false} ThresholdOK(w: World, all: seq<Packet>, h: seq<Visit>, sent: seq<Token>, i: int, d: Dstate, a: int, level: int)
    requires DaemonOK(w, all, h, sent, i, d, a)
    ensures DaemonOK(w, all, h, sent, i, d.(threshold := level), a)
  {
    hide Core, Stable, Arq, LastOK, QueueOK;
    CoreOfRing(all, {}, d, d.(threshold := level));
    SameLast(w, sent, h, all, d, d.(threshold := level), a);
  }

  lemma {:induction false} FlushKeeps(w: World, s: Rstate, i: int)
    requires Inv(w, s) && 0 <= i < w.ring.n
    ensures Inv(w, WithDaemon(s, i, s.ds[i].(queue := [])).(packets := s.packets + SetOf(s.ds[i].queue)))
  {
    hide Chain, Arq, DaemonOK, CastOK, NetworkOK, HistOK, RequestsOK;
    var d := s.ds[i];
    assert DaemonOK(w, s.all, s.hist, s.sent, i, d, s.at[i]);
    FlushedOK(w, s.all, s.hist, s.sent, i, d, s.at[i]);
    FlushCasts(w, s, i);
    FlushNetwork(w, s, i);
  }

  lemma {:induction false} FlushNetwork(w: World, s: Rstate, i: int)
    requires ShapeOK(w, s) && HistOK(w, s) && NetworkOK(w, s) && RequestsOK(w, s) && 0 <= i < |s.ds|
    requires forall x :: 0 <= x < |s.ds[i].queue| ==>
               1 <= s.ds[i].queue[x].seqNo <= |s.all| && s.ds[i].queue[x] == s.all[s.ds[i].queue[x].seqNo - 1]
    ensures var s' := WithDaemon(s, i, s.ds[i].(queue := [])).(packets := s.packets + SetOf(s.ds[i].queue));
            ShapeOK(w, s') && HistOK(w, s') && NetworkOK(w, s') && RequestsOK(w, s')
  {
    hide Chain, Arq;
    var s' := WithDaemon(s, i, s.ds[i].(queue := [])).(packets := s.packets + SetOf(s.ds[i].queue));
    forall t | 0 <= t < |s.hist| ensures TokenOK(w, s', t) { assert TokenOK(w, s, t); }
    forall c | c in s.tokens ensures CopyOK(w, s', c) { assert CopyOK(w, s, c); }
  }

  lemma {:induction false} FlushCasts(w: World, s: Rstate, i: int)
    requires CastOK(w, s) && 0 <= i < |s.ds|
    ensures CastOK(w, WithDaemon(s, i, s.ds[i].(queue := [])).(packets := s.packets + SetOf(s.ds[i].queue)))
  {
    var s' := WithDaemon(s, i, s.ds[i].(queue := [])).(packets := s.packets + SetOf(s.ds[i].queue));
    forall k | 0 <= k < |s.all| && s.all[k] !in s'.packets ensures Waiting(s', s.all[k]) {
      var j :| 0 <= j < |s.ds| && s.all[k] in s.ds[j].queue;
      assert s'.ds[j].queue == s.ds[j].queue;
    }
  }

  lemma {:induction false} FlushedOK(w: World, all: seq<Packet>, h: seq<Visit>, sent: seq<Token>, i: int, d: Dstate, a: int)
    requires DaemonOK(w, all, h, sent, i, d, a)
    ensures DaemonOK(w, all, h, sent, i, d.(queue := []), a)
    ensures forall x :: 0 <= x < |d.queue| ==> 1 <= d.queue[x].seqNo <= |all| && d.queue[x] == all[d.queue[x].seqNo - 1]
  {
  }

  lemma {:induction false} RepeatedKeeps(w: World, s: Rstate, i: int, retrans: int)
    requires Inv(w, s) && 0 <= i < w.ring.n && s.ds[i].queue == []
    ensures Inv(w, Repeated(s, i, retrans))
  {
    hide Chain, Arq, Core, Stable, QueueOK;
    var d := s.ds[i];
    var t := Repetition(d, retrans);
    var e := d.(last := t);
    RepetitionOK(w, s.all, s.hist, s.sent, i, d, s.at[i], retrans);
    LocalKeeps(w, s, i, e);
    var s1 := WithDaemon(s, i, e);
    var s' := s1.(tokens := s.tokens + {Copy(s.at[i], t)});
    forall x | 0 <= x < |s.hist| ensures TokenOK(w, s', x) { assert TokenOK(w, s1, x); }
    forall c | c in s'.tokens ensures CopyOK(w, s', c) {
      if c in s.tokens { assert CopyOK(w, s1, c); }
    }
    forall k | 0 <= k < |s.all| && s.all[k] !in s.packets ensures Waiting(s', s.all[k]) {
      assert Waiting(s1, s.all[k]);
    }
  }

  lemma {:induction false} RepetitionOK(w: World, all: seq<Packet>, h: seq<Visit>, sent: seq<Token>, i: int, d: Dstate, a: int, retrans: int)
    requires DaemonOK(w, all, h, sent, i, d, a)
    ensures DaemonOK(w, all, h, sent, i, d.(last := Repetition(d, retrans)), a)
  {
    hide Stable, Arq, Core, SameToken;
    var e := d.(last := Repetition(d, retrans));
    CoreOfRing(all, {}, d, e);
    if 0 <= a { RepetitionSame(d.last, sent[a], retrans); }
    assert LastOK(w, sent, e, a) && QueueOK(w, all, h, e, a);
  }

  lemma {:induction false} RepetitionSame(t: Token, u: Token, retrans: int)
    requires SameToken(t, u)
    ensures SameToken(t.(retrans := retrans, rtr := []), u)
  {
  }

  lemma {:induction false} CountKeeps(w: World, s: Rstate, i: int)
    requires Inv(w, s) && 0 <= i < w.ring.n && s.ds[i].queue == []
    ensures Inv(w, WithDaemon(s, i, s.ds[i].(counter := 0)))
  {
    hide HistOK, NetworkOK, RequestsOK, CastOK, Stable, Arq, Core, LastOK, QueueOK;
    var d := s.ds[i];
    assert DaemonOK(w, s.all, s.hist, s.sent, i, d, s.at[i]);
    CountOK(w, s.all, s.hist, s.sent, i, d, s.at[i]);
    LocalKeeps(w, s, i, d.(counter := 0));
  }

  lemma {:induction false} CountOK(w: World, all: seq<Packet>, h: seq<Visit>, sent: seq<Token>, i: int, d: Dstate, a: int)
    requires DaemonOK(w, all, h, sent, i, d, a)
    ensures DaemonOK(w, all, h, sent, i, d.(counter := 0), a)
  {
    hide Core, Stable, Arq, LastOK, QueueOK;
    CoreOfRing(all, {}, d, d.(counter := 0));
    SameLast(w, sent, h, all, d, d.(counter := 0), a);
  }

  lemma {:induction false} StepKeeps(w: World, s: Rstate, step: Step, s': Rstate)
    requires Inv(w, s) && StepFrom(w, s, step, s')
    ensures Inv(w, s')
  {
    hide HistOK, RequestsOK, CastOK, Accepted, Receive, DeliverAgreed, DeliverReliable, Judge, Repeated, CopyOK, DaemonOK, Recent;
    match step
    case Arrive(i, c, offer) =>
      assert CopyOK(w, s, c) && DaemonOK(w, s.all, s.hist, s.sent, i, s.ds[i], s.at[i]);
      match Judge(s.ds[i], w.ring, c.token) {
        case Swallow =>
        case Repeat => RepeatedKeeps(w, s, i, c.token.retrans);
        case Accept =>
          AcceptedIsNext(w, s, i, c);
          AcceptKeeps(w, s, i, c.token, offer);
      }
    case Hurry(i) => RepeatedKeeps(w, s, i, (s.ds[i].last.retrans + 1) % 16);
    case Wanted(i) =>
      CountKeeps(w, s, i);
      RepeatedKeeps(w, WithDaemon(s, i, s.ds[i].(counter := 0)), i, (s.ds[i].last.retrans + 1) % 16);
    case Receipt(i, p) => ReceiptKeeps(w, s, i, p);
    case Flush(i) => FlushKeeps(w, s, i);
    case Threshold(i, level) => EventsKeep(w, s, i, level);
    case AgreedEvent(i) => EventsKeep(w, s, i, 0);
    case ReliableEvent(i) => EventsKeep(w, s, i, 0);
  }

  // ------------------------------------------------------------------ the start

  lemma {:induction false} InitInv(w: World, s: Rstate)
    requires Init(w, s)
    ensures Inv(w, s)
  {
    hide Arq;
    var t := s.sent[0];
    assert HistOK(w, s);
    forall c | c in s.tokens ensures CopyOK(w, s, c) { assert Opening(w, s, c); }
    forall i | 0 <= i < w.ring.n ensures DaemonOK(w, s.all, s.hist, s.sent, i, s.ds[i], s.at[i]) {
      assert Fresh(w, i, s.ds[i], s.at[i], t);
      var d := s.ds[i];
      assert Ordered([], 0) == InOrder(d.log);
      assert Core([], {}, d);
    }
  }

  lemma {:induction false} RunInvAt(w: World, ss: seq<Rstate>, k: nat)
    requires Run(w, ss) && k < |ss|
    ensures Inv(w, ss[k])
  {
    hide Init, StepFrom, Inv;
    if k == 0 {
      InitInv(w, ss[0]);
    } else {
      RunInvAt(w, ss, k - 1);
      assert CanStep(w, ss[k - 1], ss[k]);
      var step :| StepFrom(w, ss[k - 1], step, ss[k]);
      StepKeeps(w, ss[k - 1], step, ss[k]);
    }
  }
}
