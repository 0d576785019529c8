// Flow control and retransmission on a ring in normal operation.
module OpWindows {
  import opened Types
  import opened RingArith
  import opened TokenHistory
  import opened Protocol
  import opened Delivery
  import opened TokenVisit
  import opened OpRing
  import opened OpInv
  import opened OpSafety

  // ----------------------------------------------------------- the sequence gap

  // No daemon's personal window exceeds p.
  predicate PersonalAtMost(w: World, p: int)
    requires WorldOK(w)
  {
    forall j :: 0 <= j < w.ring.n ==> w.ring.personal[j] <= p
  }

  // A token never runs further ahead of what was stable a round before it than
  // the gap limit and one daemon's window.
  ghost predicate GapOK(w: World, s: Rstate, p: int)
    requires ShapeOK(w, s)
  {
    forall t :: 0 <= t < |s.hist| ==> s.hist[t].seqNo <= Stable(w.ring.n, s.hist, t - w.ring.n) + MAX_SEQ_GAP + p
  }

  // Outside EVS and within the sequence gap a daemon may send as many packets as
  // its own window, the window of the ring, and what the others have used of the
  // two together leave; in no other case may it send.
  lemma {:induction false} AllowedIsMost(d: Dstate, window: int, personal: int, flowControl: int)
    requires 0 <= window && 0 <= personal
    ensures var a := Allowed(d, window, personal, flowControl);
            && (d.evs || d.highest > d.aru + MAX_SEQ_GAP ==> a == 0)
            && (a == 0 || WithinWindows(a, window, personal, flowControl))
            && (!d.evs && d.highest <= d.aru + MAX_SEQ_GAP ==>
                  forall b :: WithinWindows(b, window, personal, flowControl) ==> b <= a)
  {
  }

  // A visit sends that many packets, or as many as there are.
  lemma {:induction false} SendsMost(ring: Ring, d: Dstate, t: Token, offer: seq<Payload>, b: int)
    requires 0 <= d.me < |ring.personal| && 0 <= ring.window && 0 <= ring.personal[d.me]
    requires !d.evs && Max(d.highest, t.seqNo) <= d.aru + MAX_SEQ_GAP
    requires WithinWindows(b, ring.window, ring.personal[d.me], t.flowControl) && b <= |offer|
    ensures b <= NumSent(d, ring, t, offer) <= |offer|
  {
    hide Allowed;
    AllowedIsMost(Raise(d, t), ring.window, ring.personal[d.me], t.flowControl);
  }

  lemma {:induction false} AllowedBounds(d: Dstate, window: int, personal: int, flowControl: int)
    requires 0 <= window && 0 <= personal
    ensures var a := Allowed(d, window, personal, flowControl);
            && 0 <= a <= personal && a <= Max(0, window + personal - flowControl)
            && (0 < a ==> !d.evs && d.highest <= d.aru + MAX_SEQ_GAP)
  {
  }

  lemma {:induction false} SentBounds(w: World, s: Rstate, i: int, t: Token, offer: seq<Payload>)
    requires Turn(w, s, i, t) && s.ds[i].me == i
    ensures var k := NumSent(s.ds[i], w.ring, t, offer);
            && 0 <= k <= w.ring.personal[i] && k <= Max(0, w.ring.window + w.ring.personal[i] - t.flowControl)
            && (0 < k ==> |s.all| <= s.ds[i].aru + MAX_SEQ_GAP)
  {
    TurnPre(w, s, i, t);
    hide Core, VisitPre, HistOK, NetworkOK, DaemonsOK, RequestsOK, CastOK;
    AllowedBounds(Raise(s.ds[i], t), w.ring.window, w.ring.personal[i], t.flowControl);
  }

  lemma {:induction false} GapKept(w: World, s: Rstate, i: int, t: Token, offer: seq<Payload>, p: int)
    requires Turn(w, s, i, t) && GapOK(w, s, p) && PersonalAtMost(w, p) && s.ds[i].me == i && 0 <= p
    ensures ShapeOK(w, Accepted(w, s, i, t, offer)) && GapOK(w, Accepted(w, s, i, t, offer), p)
  {
    hide Core, HistOK, NetworkOK, DaemonsOK, RequestsOK, CastOK, Stable, HandleToken, NumSent, VisitPre, Leaves, Ready, Chain, Created;
    VisitedOK(w, s, i, t, offer);
    TurnPre(w, s, i, t);
    TurnExtends(w, s, i, t, offer);
    TurnTop(w, s, i, t);
    SentBounds(w, s, i, t, offer);
    var s' := Accepted(w, s, i, t, offer);
    var n, k := w.ring.n, |s.hist|;
    var v := NewVisit(w, s, i, t, offer);
    TurnsAru(w, s, i);
    forall x | 0 <= x < |s'.hist| ensures s'.hist[x].seqNo <= Stable(n, s'.hist, x - n) + MAX_SEQ_GAP + p {
      if x < k {
        StableKept(n, s.hist, v, x - n);
      } else {
        StableKept(n, s.hist, v, k - n);
        StableKept(n, s.hist, v, k - 1 - n);
        StableMonotone(false, n, s'.hist, k - 1 - n, k - n);
        assert s.hist[k - 1].seqNo <= Stable(n, s.hist, k - 1 - n) + MAX_SEQ_GAP + p;
      }
    }
  }

  lemma {:induction false} TurnsAru(w: World, s: Rstate, i: int)
    requires Inv(w, s) && 0 <= i < w.ring.n
    ensures s.at[i] < |s.hist| && s.ds[i].aru == s.ds[i].discarded == Stable(w.ring.n, s.hist, s.at[i])
    ensures s.ds[i].highest <= |s.all| && s.hist[|s.hist| - 1].seqNo == |s.all|
    ensures Chain(false, w.ring.n, s.hist) && |s.hist| - w.ring.n <= s.at[i]
    ensures Core(s.all, {}, s.ds[i]) && s.ds[i].myAru <= s.ds[i].highest
  {
    assert DaemonOK(w, s.all, s.hist, s.sent, i, s.ds[i], s.at[i]);
  }

  lemma {:induction false} SameHistory(w: World, s: Rstate, step: Step, s': Rstate)
    requires StepFrom(w, s, step, s')
    requires !(step.Arrive? && Judge(s.ds[step.i], w.ring, step.c.token) == Accept)
    ensures s'.hist == s.hist && s'.sent == s.sent && |s'.ds| == |s.ds| && |s'.at| == |s.at|
  {
    hide Receive, DeliverAgreed, DeliverReliable, Judge;
  }

  lemma {:induction false} StepGap(w: World, s: Rstate, step: Step, s': Rstate, p: int)
    requires Inv(w, s) && GapOK(w, s, p) && PersonalAtMost(w, p) && 0 <= p && StepFrom(w, s, step, s')
    ensures ShapeOK(w, s') && GapOK(w, s', p)
  {
    hide HistOK, RequestsOK, CastOK, Next, Judge, CopyOK, DaemonOK, Recent, Stable;
    if step.Arrive? && Judge(s.ds[step.i], w.ring, step.c.token) == Accept {
      assert CopyOK(w, s, step.c) && DaemonOK(w, s.all, s.hist, s.sent, step.i, s.ds[step.i], s.at[step.i]);
      AcceptedIsNext(w, s, step.i, step.c);
      TurnPre(w, s, step.i, step.c.token);
      GapKept(w, s, step.i, step.c.token, step.offer, p);
      AcceptedStep(w, s, step);
    } else {
      SameHistory(w, s, step, s');
    }
  }

  lemma {:induction false} AcceptedStep(w: World, s: Rstate, step: Step)
    requires |s.ds| == |s.at| && 0 <= step.i < |s.ds| && 0 <= s.ds[step.i].me < |w.ring.personal| == |w.ring.seg|
    requires step.Arrive? && Judge(s.ds[step.i], w.ring, step.c.token) == Accept
    ensures Next(w, s, step) == Accepted(w, s, step.i, step.c.token, step.offer)
  {
  }

  lemma {:induction false} RunGap(w: World, ss: seq<Rstate>, k: nat, p: int)
    requires Run(w, ss) && k < |ss| && WorldOK(w) && PersonalAtMost(w, p) && 0 <= p
    ensures Inv(w, ss[k]) && GapOK(w, ss[k], p)
  {
    hide StepFrom, Inv, GapOK, PersonalAtMost, Init;
    RunInvAt(w, ss, k);
    if k == 0 {
      InitGap(w, ss[0], p);
    } else {
      RunGap(w, ss, k - 1, p);
      assert CanStep(w, ss[k - 1], ss[k]);
      var step :| StepFrom(w, ss[k - 1], step, ss[k]);
      StepGap(w, ss[k - 1], step, ss[k], p);
    }
  }

  lemma {:induction false} InitGap(w: World, s: Rstate, p: int)
    requires Init(w, s) && 0 <= p
    ensures ShapeOK(w, s) && GapOK(w, s, p)
  {
  }

  // How far Highest_seq can be ahead of Last_discarded, at any daemon at any time.
  lemma {:induction false} SequenceGap(w: World, ss: seq<Rstate>, k: nat, i: int, p: int)
    requires Run(w, ss) && k < |ss| && WorldOK(w) && PersonalAtMost(w, p) && 0 <= p && 0 <= i < w.ring.n
    ensures |ss[k].ds| == w.ring.n
    ensures ss[k].ds[i].highest - ss[k].ds[i].discarded <= |ss[k].all| - ss[k].ds[i].discarded <= MAX_SEQ_GAP + p
  {
    hide HistOK, RequestsOK, CastOK, NetworkOK, DaemonsOK, Core, Stable, Run, Chain;
    RunGap(w, ss, k, p);
    var s := ss[k];
    TurnsAru(w, s, i);
    var n, m := w.ring.n, |s.hist| - 1;
    StableMonotone(false, n, s.hist, m - n, s.at[i]);
    assert s.hist[m].seqNo <= Stable(n, s.hist, m - n) + MAX_SEQ_GAP + p;
  }

  // With personal windows of at most 8192 - 1600, all packets a daemon can hold
  // or receive and has not yet freed have different entries in its buffer.
  lemma {:induction false} NoAliasing(w: World, ss: seq<Rstate>, k: nat, i: int, x: int, y: int)
    requires Run(w, ss) && k < |ss| && WorldOK(w) && PersonalAtMost(w, MAX_PACKETS_IN_STRUCT - MAX_SEQ_GAP)
    requires 0 <= i < w.ring.n && |ss[k].ds| == w.ring.n
    requires ss[k].ds[i].discarded < x <= |ss[k].all| && ss[k].ds[i].discarded < y <= |ss[k].all|
    ensures x % MAX_PACKETS_IN_STRUCT == y % MAX_PACKETS_IN_STRUCT ==> x == y
  {
    SequenceGap(w, ss, k, i, MAX_PACKETS_IN_STRUCT - MAX_SEQ_GAP);
  }

  // --------------------------------------------------------- flow control totals

  lemma {:induction false} SumsUpdate(ds: seq<Dstate>, i: int, d: Dstate)
    requires 0 <= i < |ds|
    ensures SumFlow(ds[i := d]) == SumFlow(ds) - ds[i].numRetrans - ds[i].numSent + d.numRetrans + d.numSent
    ensures SumSent(ds[i := d]) == SumSent(ds) - ds[i].numSent + d.numSent
    decreases |ds|
  {
    var m := |ds| - 1;
    var es := ds[i := d];
    if i == m {
      assert es[..m] == ds[..m];
    } else {
      SumsUpdate(ds[..m], i, d);
      assert es[..m] == ds[..m][i := d];
    }
  }

  ghost predicate CountsOK(ds: seq<Dstate>) {
    forall j :: 0 <= j < |ds| ==> 0 <= ds[j].numRetrans && 0 <= ds[j].numSent
  }

  lemma {:induction false} SumsBounds(ds: seq<Dstate>, i: int)
    requires CountsOK(ds) && 0 <= i < |ds|
    ensures ds[i].numSent <= SumSent(ds) <= SumFlow(ds)
    decreases |ds|
  {
    var m := |ds| - 1;
    assert CountsOK(ds[..m]);
    if m > 0 { SumsBounds(ds[..m], if i < m then i else 0); }
  }

  // The flow_control field of the newest token is the sum of what all daemons
  // count, and the packets sent in the last round of all stay within the windows.
  ghost predicate FlowOK(w: World, s: Rstate, p: int) {
    && ShapeOK(w, s) && CountsOK(s.ds)
    && s.sent[|s.sent| - 1].flowControl == SumFlow(s.ds)
    && SumSent(s.ds) <= w.ring.window + p
  }

  lemma {:induction false} TurnFlow(w: World, s: Rstate, i: int, t: Token, offer: seq<Payload>)
    requires Turn(w, s, i, t)
    ensures s.ds[i].me == i
    ensures var s' := Accepted(w, s, i, t, offer);
            var d := s'.ds[i];
            && s'.ds == s.ds[i := d]
            && s'.sent == s.sent + [Leaves(w.ring, s.ds[i], t, offer)]
            && s'.sent[|s.sent|].flowControl == t.flowControl - s.ds[i].numRetrans - s.ds[i].numSent + d.numRetrans + d.numSent
            && d.numSent == NumSent(s.ds[i], w.ring, t, offer) && 0 <= d.numRetrans
  {
    hide Core, HistOK, NetworkOK, DaemonsOK, RequestsOK, CastOK, HandleToken, NumSent, VisitPre, Prepared, Stable, Chain, AnswerAll, OwnRequests, Created;
    TurnPre(w, s, i, t);
    TurnExtends(w, s, i, t, offer);
    TurnAru(w, s, i, t, offer);
    VisitKeeps(w.ring, s.all, s.ds[i], t, offer);
    PreparedKeeps(w.ring, s.all, s.ds[i], t, offer);
  }

  lemma {:induction false} FlowKept(w: World, s: Rstate, i: int, t: Token, offer: seq<Payload>, p: int)
    requires Turn(w, s, i, t) && FlowOK(w, s, p) && PersonalAtMost(w, p) && s.ds[i].me == i
    ensures FlowOK(w, Accepted(w, s, i, t, offer), p)
  {
    hide HistOK, NetworkOK, DaemonsOK, RequestsOK, CastOK, Leaves, NumSent, Accepted;
    AcceptedShape(w, s, i, t, offer);
    TurnFlow(w, s, i, t, offer);
    SentBounds(w, s, i, t, offer);
    var s' := Accepted(w, s, i, t, offer);
    SumsUpdate(s.ds, i, s'.ds[i]);
    SumsBounds(s.ds, i);
  }

  lemma {:induction false} AcceptedShape(w: World, s: Rstate, i: int, t: Token, offer: seq<Payload>)
    requires ShapeOK(w, s) && 0 <= i < w.ring.n && 0 <= s.ds[i].me < w.ring.n
    ensures ShapeOK(w, Accepted(w, s, i, t, offer))
  {
    hide HandleToken;
  }

  // Steps other than accepting the token leave the counters alone.
  lemma {:induction false} LocalFlow(w: World, s: Rstate, step: Step, s': Rstate, p: int)
    requires FlowOK(w, s, p) && StepFrom(w, s, step, s')
    requires !(step.Arrive? && Judge(s.ds[step.i], w.ring, step.c.token) == Accept)
    ensures FlowOK(w, s', p)
  {
    hide Receive, DeliverAgreed, DeliverReliable, Judge, SumFlow, SumSent;
    SameHistory(w, s, step, s');
    var i := step.i;
    var d := s.ds[i];
    var e := s'.ds[i];
    assert s'.ds == s.ds[i := e] && e.numRetrans == d.numRetrans && e.numSent == d.numSent by {
      match step {
        case Receipt(_, q) => ReceiveTouches(d, q);
        case AgreedEvent(_) => EventsTouch(d, 0, 0);
        case ReliableEvent(_) => EventsTouch(d, 1, d.highest);
        case Arrive(_, c, _) =>
        case Hurry(_) =>
        case Wanted(_) =>
        case Flush(_) =>
        case Threshold(_, _) =>
      }
    }
    SumsUpdate(s.ds, i, e);
  }

  lemma {:induction false} StepFlow(w: World, s: Rstate, step: Step, s': Rstate, p: int)
    requires Inv(w, s) && FlowOK(w, s, p) && PersonalAtMost(w, p) && StepFrom(w, s, step, s')
    ensures FlowOK(w, s', p)
  {
    hide HistOK, RequestsOK, CastOK, Next, Judge, CopyOK, Recent, Stable, FlowOK, Core, LastOK, QueueOK;
    if step.Arrive? && Judge(s.ds[step.i], w.ring, step.c.token) == Accept {
      assert CopyOK(w, s, step.c) && DaemonOK(w, s.all, s.hist, s.sent, step.i, s.ds[step.i], s.at[step.i]);
      AcceptedIsNext(w, s, step.i, step.c);
      FlowKept(w, s, step.i, step.c.token, step.offer, p);
      AcceptedStep(w, s, step);
    } else {
      LocalFlow(w, s, step, s', p);
    }
  }

  lemma {:induction false} InitFlow(w: World, s: Rstate, p: int)
    requires Init(w, s) && 0 <= p
    ensures FlowOK(w, s, p)
  {
    forall j | 0 <= j < |s.ds| ensures s.ds[j].numSent == 0 && 0 <= s.ds[j].numRetrans {
      assert Fresh(w, j, s.ds[j], s.at[j], s.sent[0]);
    }
    NothingSent(s.ds);
  }

  lemma {:induction false} NothingSent(ds: seq<Dstate>)
    requires forall j :: 0 <= j < |ds| ==> ds[j].numSent == 0
    ensures SumSent(ds) == 0
    decreases |ds|
  {
    if |ds| > 0 { NothingSent(ds[..|ds| - 1]); }
  }

  lemma {:induction false} RunFlow(w: World, ss: seq<Rstate>, k: nat, p: int)
    requires Run(w, ss) && k < |ss| && WorldOK(w) && PersonalAtMost(w, p) && 0 <= p
    ensures FlowOK(w, ss[k], p)
  {
    hide StepFrom, Inv, FlowOK, PersonalAtMost, Init;
    if k == 0 {
      InitFlow(w, ss[0], p);
    } else {
      RunFlow(w, ss, k - 1, p);
      RunInvAt(w, ss, k - 1);
      assert CanStep(w, ss[k - 1], ss[k]);
      var step :| StepFrom(w, ss[k - 1], step, ss[k]);
      StepFlow(w, ss[k - 1], step, ss[k], p);
    }
  }

  // Conservation: the token's flow_control is what the daemons together count,
  // and however many retransmissions there are, the new packets of the last round
  // stay within the window and one personal window.
  lemma {:induction false} FlowControl(w: World, ss: seq<Rstate>, k: nat, p: int)
    requires Run(w, ss) && k < |ss| && WorldOK(w) && PersonalAtMost(w, p) && 0 <= p
    ensures 1 <= |ss[k].sent| && ss[k].sent[|ss[k].sent| - 1].flowControl == SumFlow(ss[k].ds)
    ensures SumSent(ss[k].ds) <= w.ring.window + p
  {
    RunFlow(w, ss, k, p);
  }

  // -------------------------------------------------------------- retransmission

  // A missing number is on the request list unless the list is full.
  lemma {:induction false} MissingAll(pk: map<int, Slot>, s: int, m: int, room: int, q: int)
    requires s <= q <= m && q !in pk
    ensures q in Missing(pk, s, m, room) || |Missing(pk, s, m, room)| == Max(room, 0)
    decreases m - s
  {
    if 0 < room {
      if s in pk { MissingAll(pk, s + 1, m, room, q); }
      else if s != q { MissingAll(pk, s + 1, m, room - 1, q); }
    }
  }

  // One of the first k requests of a list names packet p, which the daemon has.
  ghost predicate Asked(d: Dstate, r: Rtr, k: nat, p: Packet)
    requires k <= |r.seqs|
  {
    exists y :: 0 <= y < k && r.seqs[y] in d.pk && !d.pk[r.seqs[y]].Hole? && d.pk[r.seqs[y]].p == p
  }

  lemma {:induction false} AnswersList(d: Dstate, mySeg: int, r: Rtr, k: nat, a: Answer, p: Packet)
    requires k <= |r.seqs| && (p in a.casts || Asked(d, r, k, p))
    ensures p in AnswerList(d, mySeg, r, k, a).casts
  {
    if k > 0 && (p in a.casts || Asked(d, r, k - 1, p)) {
      AnswersList(d, mySeg, r, k - 1, a, p);
    }
  }

  lemma {:induction false} AnswersAll(d: Dstate, mySeg: int, rs: seq<Rtr>, k: nat, x: int, y: int)
    requires 0 <= x < k <= |rs| && rs[x].memb == d.memb && 0 <= y < |rs[x].seqs|
    requires rs[x].seqs[y] in d.pk && !d.pk[rs[x].seqs[y]].Hole?
    ensures d.pk[rs[x].seqs[y]].p in AnswerAll(d, mySeg, rs, k).casts
  {
    var p := d.pk[rs[x].seqs[y]].p;
    var a := AnswerAll(d, mySeg, rs, k - 1);
    if x < k - 1 { AnswersAll(d, mySeg, rs, k - 1, x, y); }
    if rs[k - 1].memb == d.memb {
      assert x == k - 1 ==> Asked(d, rs[x], |rs[x].seqs|, p);
      AnswersList(d, mySeg, rs[k - 1], |rs[k - 1].seqs|, a, p);
    }
  }

  lemma {:induction false} SeqAtMonotone(n: int, h: seq<Visit>, x: int, y: int)
    requires Chain(false, n, h) && x <= y < |h|
    ensures 0 <= SeqAt(h, x) <= SeqAt(h, y)
  {
    if 0 < x { SeqMonotone(false, n, h, x, y); SeqMonotone(false, n, h, 0, x); }
    else if 0 < y { SeqMonotone(false, n, h, 0, y); }
  }

  // In accelerated mode a packet that anyone asks for is out of its sender's
  // queue; otherwise there are no queues.
  lemma {:induction false} RequestedWasCast(w: World, s: Rstate, q: int)
    requires Inv(w, s) && 1 <= q <= |s.all|
    requires w.ring.accelerated ==> q <= SeqAt(s.hist, |s.hist| - 1 - w.ring.n)
    ensures s.all[q - 1] in s.packets
  {
    hide Core, LastOK, Stable, Arq, NetworkOK, RequestsOK;
    var p, k := s.all[q - 1], |s.hist| - 1;
    if p !in s.packets {
      assert Waiting(s, p);
      var j :| 0 <= j < |s.ds| && p in s.ds[j].queue;
      var d, a := s.ds[j], s.at[j];
      assert DaemonOK(w, s.all, s.hist, s.sent, j, d, a);
      Numbers(w, s, j, q);
      var x :| 0 <= x < |d.queue| && d.queue[x] == p;
      SeqAtMonotone(w.ring.n, s.hist, k - w.ring.n, a - 1);
      assert false;
    }
  }

  lemma {:induction false} Numbers(w: World, s: Rstate, j: int, q: int)
    requires 0 <= j < |s.ds| == |s.at| && 1 <= q <= |s.all|
    requires DaemonOK(w, s.all, s.hist, s.sent, j, s.ds[j], s.at[j])
    requires Chain(false, w.ring.n, s.hist) && s.hist[0].seqNo == 0
    ensures s.all[q - 1].seqNo == q
  {
  }

  // What the visiting daemon knows about a request for a packet it misses.
  lemma {:induction false} StillMissing(w: World, s: Rstate, i: int, t: Token, offer: seq<Payload>, q: int)
    requires Turn(w, s, i, t) && s.ds[i].me == i && s.ds[i].discarded < q <= |s.all| && q !in s.ds[i].pk
    requires w.ring.accelerated ==> q <= SeqAt(s.hist, |s.hist| - 1 - w.ring.n)
    ensures var b := Ready(w.ring, s.ds[i], t, offer).d;
            q !in b.pk && b.myAru < q <= MaxRtrSeq(b, w.ring)
  {
    hide NetworkOK, RequestsOK, CastOK, Prepared, AnswerAll, NumSent, Created, OwnRequestsFrom, QueueOK, Stable, Arq, LogOK, SafeOK;
    TurnPre(w, s, i, t);
    var d, n, k := s.ds[i], w.ring.n, |s.hist|;
    PreparedKeeps(w.ring, s.all, d, t, offer);
    VisitRequests(w.ring, s.all, d, t, offer);
    var b := Ready(w.ring, d, t, offer).d;
    PreparedOnlyAdds(w.ring, s.all, d, t, offer, q);
    assert DaemonOK(w, s.all, s.hist, s.sent, i, d, s.at[i]);
    SeqAtMonotone(n, s.hist, k - 1 - n, k - n);
    assert d.last.seqNo == SeqAt(s.hist, k - n) by {
      if 0 < k - n { assert TokenOK(w, s, k - n); }
    }
  }

  lemma {:induction false} PreparedOnlyAdds(ring: Ring, all: seq<Packet>, d: Dstate, t: Token, offer: seq<Payload>, q: int)
    requires VisitPre(ring, all, d, t) && q <= |all|
    ensures q in Ready(ring, d, t, offer).d.pk ==> q in d.pk
  {
    hide Core, AnswerAll, NumSent;
    RaiseKeeps(all, d, t);
    var k := NumSent(d, ring, t, offer);
    NumSentBound(d, ring, t, offer);
    SendNewOnlyAdds(ring, all, Raise(d, t), offer, k, q);
  }

  lemma {:induction false} NumSentBound(d: Dstate, ring: Ring, t: Token, offer: seq<Payload>)
    requires 0 <= d.me < |ring.personal|
    ensures NumSent(d, ring, t, offer) <= |offer|
  {
  }

  lemma {:induction false} SendNewOnlyAdds(ring: Ring, all: seq<Packet>, d: Dstate, offer: seq<Payload>, k: nat, q: int)
    requires k <= |offer| && q <= |all| == d.highest
    ensures SendNew(ring, d, offer, k).d.highest == |all| + k
    ensures q in SendNew(ring, d, offer, k).d.pk ==> q in d.pk
  {
    hide QueueBcast;
    if k > 0 { SendNewOnlyAdds(ring, all, d, offer, k - 1, q); }
  }

  // Request q names a packet that was broadcast and lies above what daemon i has
  // freed.  The daemon sends the packet, or asks for it itself on the token it
  // leaves unless its list or the token is full.
  ghost predicate Served(w: World, s: Rstate, i: int, t: Token, offer: seq<Payload>, q: int) {
    && ShapeOK(w, s) && 0 <= i < w.ring.n && s.ds[i].me == i
    && var d := s.ds[i];
    var o := HandleToken(w.ring, d, t, offer);
    var foreign := Answered(w.ring, d, t).foreign;
    && d.aru <= d.discarded < q <= |s.all| && 1 <= q && s.all[q - 1].seqNo == q
    && s.all[q - 1] in s.packets
    && (q in d.pk ==> s.all[q - 1] in o.casts)
    && (q !in d.pk && RoomFor(foreign) > 1 ==>
          && |o.token.rtr| == |foreign| + 1
          && o.token.rtr[|foreign|].memb == w.memb
          && (q in o.token.rtr[|foreign|].seqs || |o.token.rtr[|foreign|].seqs| == RoomFor(foreign)))
  }

  lemma {:induction false} Retransmission(w: World, ss: seq<Rstate>, k: nat, i: int, c: Copy, offer: seq<Payload>, x: int, y: int)
    requires Run(w, ss) && k < |ss| && ShapeOK(w, ss[k]) && Enabled(w, ss[k], Arrive(i, c, offer))
    requires Judge(ss[k].ds[i], w.ring, c.token) == Accept
    requires 0 <= x < |c.token.rtr| && c.token.rtr[x].memb == w.memb && 0 <= y < |c.token.rtr[x].seqs|
    ensures Served(w, ss[k], i, c.token, offer, c.token.rtr[x].seqs[y])
  {
    hide Inv, Served, Judge, Run;
    RunInvAt(w, ss, k);
    RetransmissionAt(w, ss[k], i, c, offer, x, y);
  }

  lemma {:induction false} RetransmissionAt(w: World, s: Rstate, i: int, c: Copy, offer: seq<Payload>, x: int, y: int)
    requires Inv(w, s) && 0 <= i < w.ring.n && c in s.tokens && Recent(w, s, i, c) && s.ds[i].queue == []
    requires Judge(s.ds[i], w.ring, c.token) == Accept
    requires 0 <= x < |c.token.rtr| && c.token.rtr[x].memb == w.memb && 0 <= y < |c.token.rtr[x].seqs|
    ensures Served(w, s, i, c.token, offer, c.token.rtr[x].seqs[y])
  {
    hide HistOK, CastOK, Judge, LastOK, QueueOK, Core, HandleToken, Prepared, Missing, RoomFor, MaxRtrSeq, Stable, Chain, Arq, VisitPre;
    var q, d, t := c.token.rtr[x].seqs[y], s.ds[i], c.token;
    assert CopyOK(w, s, c) && DaemonOK(w, s.all, s.hist, s.sent, i, d, s.at[i]);
    AcceptedIsNext(w, s, i, c);
    RequestBounds(w, s, i, t, x, y);
    TurnsAru(w, s, i);
    RequestedWasCast(w, s, q);
    TurnPre(w, s, i, t);
    TurnExtends(w, s, i, t, offer);
    TurnAru(w, s, i, t, offer);
    VisitKeeps(w.ring, s.all, d, t, offer);
    VisitRequests(w.ring, s.all, d, t, offer);
    if q in d.pk {
      HeldIsAll(s.all, d, q);
      AnswersAll(Raise(d, t), w.ring.seg[i], t.rtr, |t.rtr|, x, y);
    } else {
      StillMissing(w, s, i, t, offer, q);
      var b := Ready(w.ring, d, t, offer).d;
      MissingAll(b.pk, b.myAru + 1, MaxRtrSeq(b, w.ring), RoomFor(Answered(w.ring, d, t).foreign), q);
    }
  }

  lemma {:induction false} MissingRoom(pk: map<int, Slot>, s: int, m: int, room: int)
    ensures |Missing(pk, s, m, room)| <= Max(room, 0)
    decreases m - s
  {
    if s <= m && 0 < room { MissingRoom(pk, s + 1, m, if s in pk then room else room - 1); }
  }

  // The requests fit into the token body, and a list that is cut short leaves no
  // room for one more number.
  lemma {:induction false} RequestsFit(d: Dstate, ring: Ring, a: Answer)
    requires RtrBytes(a.foreign) <= TOKEN_BODY_SIZE
    ensures var rs := OwnRequests(d, ring, a);
            && RtrBytes(rs) <= TOKEN_BODY_SIZE
            && (|rs| > |a.foreign| && |rs[|a.foreign|].seqs| >= RoomFor(a.foreign) ==> TOKEN_BODY_SIZE < RtrBytes(rs) + 4)
  {
    hide Missing;
    var rs := OwnRequests(d, ring, a);
    if |rs| > |a.foreign| {
      assert rs[..|rs| - 1] == a.foreign;
      MissingRoom(d.pk, d.myAru + 1, MaxRtrSeq(d, ring), RoomFor(a.foreign));
    }
  }

  lemma {:induction false} ForeignFits(d: Dstate, mySeg: int, rs: seq<Rtr>, k: nat)
    requires k <= |rs|
    ensures RtrBytes(AnswerAll(d, mySeg, rs, k).foreign) <= RtrBytes(rs[..k])
  {
    if k > 0 {
      ForeignFits(d, mySeg, rs, k - 1);
      assert rs[..k][..k - 1] == rs[..k - 1];
      var a := AnswerAll(d, mySeg, rs, k - 1);
      if rs[k - 1].memb == d.memb {
        SameForeign(d, mySeg, rs[k - 1], |rs[k - 1].seqs|, a);
      } else {
        assert (a.foreign + [rs[k - 1]])[..|a.foreign|] == a.foreign;
      }
    }
  }

  lemma {:induction false} SameForeign(d: Dstate, mySeg: int, r: Rtr, k: nat, a: Answer)
    requires k <= |r.seqs|
    ensures AnswerList(d, mySeg, r, k, a).foreign == a.foreign
  {
    if k > 0 { SameForeign(d, mySeg, r, k - 1, a); }
  }

  // So a token whose requests fit becomes one whose requests fit.
  lemma {:induction false} TokenFits(ring: Ring, all: seq<Packet>, d: Dstate, t: Token, offer: seq<Payload>)
    requires VisitPre(ring, all, d, t) && RtrBytes(t.rtr) <= TOKEN_BODY_SIZE
    ensures RtrBytes(Leaves(ring, d, t, offer).rtr) <= TOKEN_BODY_SIZE
  {
    hide Core, AnswerAll, OwnRequests, NumSent, Prepared;
    VisitRequests(ring, all, d, t, offer);
    ForeignFits(Raise(d, t), ring.seg[d.me], t.rtr, |t.rtr|);
    assert t.rtr[..|t.rtr|] == t.rtr;
    RequestsFit(Ready(ring, d, t, offer).d, ring, Answered(ring, d, t));
  }

  // The list of requests that daemon i adds to the token: missing packet q is on
  // it unless the list is full, and it says where to send the answers.
  ghost predicate Asks(w: World, s: Rstate, i: int, t: Token, offer: seq<Payload>, q: int)
    requires 0 <= i < |s.ds| && 0 <= s.ds[i].me < |w.ring.personal| == |w.ring.seg| && 0 <= i < |w.ring.seg|
  {
    var d := s.ds[i];
    var foreign := Answered(w.ring, d, t).foreign;
    var rtr := HandleToken(w.ring, d, t, offer).token.rtr;
    RoomFor(foreign) > 1 ==>
      && |rtr| == |foreign| + 1 && rtr[|foreign|].memb == w.memb
      && (q in rtr[|foreign|].seqs || |rtr[|foreign|].seqs| == RoomFor(foreign))
      && rtr[|foreign|].proc == (if exists x :: 0 <= x < |t.rtr| && LeftOpen(d, t.rtr[x]) then -1 else i)
      && rtr[|foreign|].seg ==
         (if exists x :: 0 <= x < |t.rtr| && LeftOpen(d, t.rtr[x]) && t.rtr[x].seg != w.ring.seg[i] then -1 else w.ring.seg[i])
  }

  // In every run a daemon that accepts the token asks for what it misses: for all
  // numbers up to the seq on the token or, on an accelerated ring, up to the seq
  // on the token of its last visit.  It wants the answers for itself alone, or for
  // its segment alone, only if it leaves no request open that others would need
  // them for.
  lemma {:induction false} AsksForMissing(w: World, ss: seq<Rstate>, k: nat, i: int, c: Copy, offer: seq<Payload>, q: int)
    requires Run(w, ss) && k < |ss| && ShapeOK(w, ss[k]) && Enabled(w, ss[k], Arrive(i, c, offer))
    requires Judge(ss[k].ds[i], w.ring, c.token) == Accept && w.ring.seg[i] != -1
    requires ss[k].ds[i].discarded < q <= c.token.seqNo && q !in ss[k].ds[i].pk
    requires w.ring.accelerated ==> q <= ss[k].ds[i].last.seqNo
    ensures ss[k].ds[i].me == i && Asks(w, ss[k], i, c.token, offer, q)
  {
    hide Inv, Asks, Judge, Run, Core;
    RunInvAt(w, ss, k);
    assert ss[k].ds[i].me == i && ss[k].ds[i].memb == w.memb && CopyOK(w, ss[k], c) && DaemonOK(w, ss[k].all, ss[k].hist, ss[k].sent, i, ss[k].ds[i], ss[k].at[i]) by {
      CopyAndDaemon(w, ss[k], i, c);
    }
    AcceptedIsNext(w, ss[k], i, c);
    AsksAt(w, ss[k], i, c.token, offer, q);
  }

  lemma {:induction false} CopyAndDaemon(w: World, s: Rstate, i: int, c: Copy)
    requires Inv(w, s) && 0 <= i < w.ring.n && c in s.tokens
    ensures s.ds[i].me == i && s.ds[i].memb == w.memb && CopyOK(w, s, c) && DaemonOK(w, s.all, s.hist, s.sent, i, s.ds[i], s.at[i])
  {
    assert DaemonOK(w, s.all, s.hist, s.sent, i, s.ds[i], s.at[i]);
  }

  lemma {:induction false} AsksAt(w: World, s: Rstate, i: int, t: Token, offer: seq<Payload>, q: int)
    requires Turn(w, s, i, t) && w.ring.seg[i] != -1 && s.ds[i].me == i && s.ds[i].memb == w.memb
    requires s.ds[i].discarded < q <= t.seqNo && q !in s.ds[i].pk
    requires w.ring.accelerated ==> q <= s.ds[i].last.seqNo
    ensures Asks(w, s, i, t, offer, q)
  {
    hide HistOK, CastOK, NetworkOK, DaemonsOK, RequestsOK, Judge, LastOK, QueueOK, Core, HandleToken, Prepared, Missing, RoomFor, Stable, Chain, Arq, VisitPre;
    var d := s.ds[i];
    TurnPre(w, s, i, t);
    TurnExtends(w, s, i, t, offer);
    TurnAru(w, s, i, t, offer);
    VisitKeeps(w.ring, s.all, d, t, offer);
    VisitRequests(w.ring, s.all, d, t, offer);
    TokenTop(w.ring, s.all, d, t);
    PreparedOnlyAdds(w.ring, s.all, d, t, offer, q);
    var b := Ready(w.ring, d, t, offer).d;
    PreparedShape(w.ring, s.all, d, t, offer, q);
    MissingAll(b.pk, b.myAru + 1, MaxRtrSeq(b, w.ring), RoomFor(Answered(w.ring, d, t).foreign), q);
    AnswerAddress(Raise(d, t), w.ring.seg[i], t.rtr, |t.rtr|);
    SameOpen(d, t);
    if RoomFor(Answered(w.ring, d, t).foreign) > 1 {
      var a := Answered(w.ring, d, t);
      assert HandleToken(w.ring, d, t, offer).token.rtr
          == a.foreign + [Rtr(b.memb, a.proc, a.seg, Missing(b.pk, b.myAru + 1, MaxRtrSeq(b, w.ring), RoomFor(a.foreign)))];
    }
  }

  lemma {:induction false} SameOpen(d: Dstate, t: Token)
    ensures forall r :: LeftOpen(Raise(d, t), r) <==> LeftOpen(d, r)
  {
  }

  lemma {:induction false} TokenTop(ring: Ring, all: seq<Packet>, d: Dstate, t: Token)
    requires VisitPre(ring, all, d, t)
    ensures t.seqNo == |all|
  {
  }

  lemma {:induction false} PreparedShape(ring: Ring, all: seq<Packet>, d: Dstate, t: Token, offer: seq<Payload>, q: int)
    requires VisitPre(ring, all, d, t) && d.discarded < q <= |all| && q !in Ready(ring, d, t, offer).d.pk
    requires ring.accelerated ==> q <= d.last.seqNo
    ensures var b := Ready(ring, d, t, offer).d; b.myAru < q <= MaxRtrSeq(b, ring)
  {
    hide LogOK, SafeOK, AnswerAll, NumSent, Created, Prepared;
    PreparedKeeps(ring, all, d, t, offer);
  }

  lemma {:induction false} HeldIsAll(all: seq<Packet>, d: Dstate, q: int)
    requires Core(all, {}, d) && q in d.pk
    ensures !d.pk[q].Hole? && 1 <= q <= |all| && d.pk[q].p == all[q - 1]
  {
    assert SlotOK(all, {}, q, d.pk[q]);
  }

  lemma {:induction false} RequestBounds(w: World, s: Rstate, i: int, t: Token, x: int, y: int)
    requires Turn(w, s, i, t)
    requires 0 <= x < |t.rtr| && t.rtr[x].memb == w.memb && 0 <= y < |t.rtr[x].seqs|
    ensures var q := t.rtr[x].seqs[y];
            && s.ds[i].aru < q && 1 <= q <= |s.all| && s.all[q - 1].seqNo == q
            && (w.ring.accelerated ==> q <= SeqAt(s.hist, |s.hist| - 1 - w.ring.n))
  {
    hide CastOK, NetworkOK, LastOK, QueueOK, Arq, BufferOK, LogOK, Stable;
    var d, n, k := s.ds[i], w.ring.n, |s.hist| - 1;
    assert DaemonOK(w, s.all, s.hist, s.sent, i, d, s.at[i]);
    assert t.rtr == s.sent[k].rtr;
    StableMonotone(false, n, s.hist, s.at[i], k);
    StableBelowMy(false, n, s.hist, k, k);
  }
}
