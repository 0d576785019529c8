// The properties of a ring in normal operation, for every run of it.
module OpTheorems {
  import opened Types
  import opened RingArith
  import opened TokenHistory
  import opened Protocol
  import opened Delivery
  import opened TokenVisit
  import opened OpRing
  import opened OpInv
  import opened OpSafety

  // ------------------------------------------------------------------ stability

  lemma {:induction false} StableEverywhere(w: World, s: Rstate, i: int, j: int)
    requires Inv(w, s) && 0 <= i < w.ring.n && 0 <= j < w.ring.n
    ensures s.ds[i].aru <= s.ds[j].myAru
  {
    hide Core, LastOK, QueueOK, Stable, Arq;
    assert DaemonOK(w, s.all, s.hist, s.sent, i, s.ds[i], s.at[i]);
    assert DaemonOK(w, s.all, s.hist, s.sent, j, s.ds[j], s.at[j]);
    var n, k, b := w.ring.n, |s.hist| - 1, s.at[j];
    StableMonotone(false, n, s.hist, s.at[i], k);
    if 1 <= b {
      StableBelowMy(false, n, s.hist, k, b);
    } else {
      StableEarly(n, s.hist, k);
    }
  }

  lemma {:induction false} StableEarly(n: int, h: seq<Visit>, k: int)
    requires 0 < n && k < |h| && k <= n
    ensures Stable(n, h, k) == 0
  {
  }

  // The local rule for Aru has a global meaning: what one daemon holds for
  // stable has arrived at every daemon of the ring.
  lemma {:induction false} Stability(w: World, ss: seq<Rstate>, k: nat, i: int, j: int)
    requires Run(w, ss) && k < |ss| && 0 <= i < w.ring.n && 0 <= j < w.ring.n
    ensures |ss[k].ds| == w.ring.n
    ensures ss[k].ds[i].aru <= ss[k].ds[j].myAru
  {
    RunInvAt(w, ss, k);
    StableEverywhere(w, ss[k], i, j);
  }

  // A daemon has packet p: it delivered it, or holds it.
  ghost predicate Has(d: Dstate, p: Packet) {
    InLog(d.log, p.seqNo) || (p.seqNo in d.pk && !d.pk[p.seqNo].Hole? && d.pk[p.seqNo].p == p)
  }

  lemma {:induction false} HasUpToMyAru(all: seq<Packet>, d: Dstate, p: Packet)
    requires Core(all, {}, d) && 1 <= p.seqNo <= Filled(d) && p.seqNo <= |all| && p == all[p.seqNo - 1]
    ensures Has(d, p)
  {
    if d.discarded < p.seqNo { assert SlotOK(all, {}, p.seqNo, d.pk[p.seqNo]); }
  }

  lemma {:induction false} SafeInLog(all: seq<Packet>, d: Dstate, x: int)
    requires Core(all, {}, d) && 0 <= x < |d.log| && d.log[x].Msg? && d.log[x].p.payload.service == Safe
    ensures var p := d.log[x].p; 1 <= p.seqNo <= d.discarded && p.seqNo <= |all| && p == all[p.seqNo - 1]
  {
    var p := d.log[x].p;
    assert InLog(d.log, p.seqNo);
    assert d.delivered < p.seqNo ==> GivenAt(d.pk, p.seqNo);
    assert SafeAt(all, p.seqNo);
  }

  // A safe packet is delivered anywhere only once every daemon has it.
  lemma {:induction false} SafeDelivery(w: World, ss: seq<Rstate>, k: nat, i: int, x: int, j: int)
    requires Run(w, ss) && k < |ss| && 0 <= i < w.ring.n && 0 <= j < w.ring.n && |ss[k].ds| == w.ring.n
    requires 0 <= x < |ss[k].ds[i].log|
    requires var e := ss[k].ds[i].log[x]; e.Msg? && e.p.payload.service == Safe
    ensures Has(ss[k].ds[j], ss[k].ds[i].log[x].p)
  {
    hide Core, Run, LastOK, QueueOK, Stable, Arq, HistOK, NetworkOK, RequestsOK, CastOK, Has;
    RunInvAt(w, ss, k);
    var s := ss[k];
    StableEverywhere(w, s, i, j);
    assert DaemonOK(w, s.all, s.hist, s.sent, i, s.ds[i], s.at[i]);
    assert DaemonOK(w, s.all, s.hist, s.sent, j, s.ds[j], s.at[j]);
    SafeInLog(s.all, s.ds[i], x);
    HasUpToMyAru(s.all, s.ds[j], s.ds[i].log[x].p);
  }

  // None of the EXIT and FATAL branches of the routines modelled is ever taken.
  lemma {:induction false} NoFatal(w: World, ss: seq<Rstate>, k: nat, i: int)
    requires Run(w, ss) && k < |ss| && 0 <= i < w.ring.n
    ensures |ss[k].ds| == w.ring.n && !ss[k].ds[i].fault
  {
    RunInvAt(w, ss, k);
    assert DaemonOK(w, ss[k].all, ss[k].hist, ss[k].sent, i, ss[k].ds[i], ss[k].at[i]);
  }

  // ------------------------------------------------------------- Aru never falls

  lemma {:induction false} StepAru(w: World, s: Rstate, step: Step, s': Rstate, j: int)
    requires Inv(w, s) && StepFrom(w, s, step, s') && 0 <= j < w.ring.n
    ensures |s'.ds| == w.ring.n && s.ds[j].aru <= s'.ds[j].aru
  {
    hide HistOK, RequestsOK, CastOK, Receive, DeliverAgreed, DeliverReliable, Judge, CopyOK, DaemonOK, Recent, HandleToken, Leaves, Ready, Stable, VisitPre, Chain, Core, NumSent, Created;
    match step {
      case Arrive(i, c, offer) =>
        assert CopyOK(w, s, c) && DaemonOK(w, s.all, s.hist, s.sent, i, s.ds[i], s.at[i]);
        if Judge(s.ds[i], w.ring, c.token) == Accept {
          AcceptedIsNext(w, s, i, c);
          TurnPre(w, s, i, c.token);
          TurnExtends(w, s, i, c.token, offer);
          TurnAru(w, s, i, c.token, offer);
          VisitKeeps(w.ring, s.all, s.ds[i], c.token, offer);
        }
      case Receipt(i, p) => ReceiveTouches(s.ds[i], p);
      case AgreedEvent(i) => EventsTouch(s.ds[i], 0, 0);
      case ReliableEvent(i) => EventsTouch(s.ds[i], 1, s.ds[i].highest);
      case Hurry(i) =>
      case Wanted(i) =>
      case Flush(i) =>
      case Threshold(i, level) =>
    }
  }

  lemma {:induction false} AruNeverFalls(w: World, ss: seq<Rstate>, k: nat, l: nat, j: int)
    requires Run(w, ss) && k <= l < |ss| && 0 <= j < w.ring.n
    ensures |ss[k].ds| == |ss[l].ds| == w.ring.n
    ensures ss[k].ds[j].aru <= ss[l].ds[j].aru
    decreases l
  {
    hide StepFrom, Init, HistOK, NetworkOK, DaemonsOK, RequestsOK, CastOK;
    RunInvAt(w, ss, l);
    if k < l {
      AruNeverFalls(w, ss, k, l - 1, j);
      RunInvAt(w, ss, l - 1);
      assert CanStep(w, ss[l - 1], ss[l]);
      var step :| StepFrom(w, ss[l - 1], step, ss[l]);
      StepAru(w, ss[l - 1], step, ss[l], j);
    }
  }

  // ---------------------------------------------------------------- total order

  lemma {:induction false} OrderedPrefix(all: seq<Packet>, k: int, l: int)
    requires k <= l <= |all|
    ensures Ordered(all, k) <= Ordered(all, l)
    decreases l
  {
    if k < l && 0 < l { OrderedPrefix(all, k, l - 1); }
  }

  // Each daemon hands up each packet at most once, and the packets that are not
  // early in the order of their numbers without a gap.
  lemma {:induction false} DeliveryOrder(w: World, ss: seq<Rstate>, k: nat, i: int)
    requires Run(w, ss) && k < |ss| && 0 <= i < w.ring.n
    ensures |ss[k].ds| == w.ring.n
    ensures var d := ss[k].ds[i];
            && 0 <= d.delivered <= |ss[k].all| && Numbered(ss[k].all)
            && NoneTwice(d.log) && OnlyPackets(ss[k].all, d.log)
            && InOrder(d.log) == Ordered(ss[k].all, d.delivered)
  {
    RunInvAt(w, ss, k);
    assert DaemonOK(w, ss[k].all, ss[k].hist, ss[k].sent, i, ss[k].ds[i], ss[k].at[i]);
  }

  // What two daemons have delivered in order are prefixes of one another.
  lemma {:induction false} TotalOrder(w: World, ss: seq<Rstate>, k: nat, i: int, j: int)
    requires Run(w, ss) && k < |ss| && 0 <= i < w.ring.n && 0 <= j < w.ring.n
    ensures |ss[k].ds| == w.ring.n
    ensures var x, y := InOrder(ss[k].ds[i].log), InOrder(ss[k].ds[j].log); x <= y || y <= x
  {
    DeliveryOrder(w, ss, k, i);
    DeliveryOrder(w, ss, k, j);
    var a, b := ss[k].ds[i].delivered, ss[k].ds[j].delivered;
    if a <= b { OrderedPrefix(ss[k].all, a, b); } else { OrderedPrefix(ss[k].all, b, a); }
  }

  // --------------------------------------------------------------- token rounds

  // Whichever copies arrive, a token is accepted only by the daemon whose turn it
  // is, only the newest token, and so each round visits every daemon once.
  lemma {:induction false} TokenRounds(w: World, ss: seq<Rstate>, k: nat, i: int, c: Copy, offer: seq<Payload>, s': Rstate)
    requires Run(w, ss) && k < |ss| && StepFrom(w, ss[k], Arrive(i, c, offer), s')
    requires Judge(ss[k].ds[i], w.ring, c.token) == Accept
    ensures i == |ss[k].sent| % w.ring.n && c.visit == |ss[k].sent| - 1
    ensures ss[k].at[i] == |ss[k].sent| - w.ring.n
    ensures forall t :: 0 <= t < |ss[k].sent| ==> ss[k].sent[t].from == t % w.ring.n
  {
    RunInvAt(w, ss, k);
    var s := ss[k];
    hide Arq, Judge, Stable, Core, Chain;
    assert CopyOK(w, s, c) && DaemonOK(w, s.all, s.hist, s.sent, i, s.ds[i], s.at[i]);
    AcceptedIsNext(w, s, i, c);
    forall t | 0 <= t < |s.sent| ensures s.sent[t].from == t % w.ring.n { assert TokenOK(w, s, t); }
  }

  // The bound on the age of copies is exact: among the tokens of its predecessor
  // a daemon accepts those, and only those, whose age is a multiple of 16 rounds.
  lemma {:induction false} RoundNumberWraps(w: World, d: Dstate, a: int, t: Token, visit: int, q: int)
    requires WorldOK(w) && d.me == a % w.ring.n && d.last.arq == Arq(w, a) && t.seqNo <= MAX_WRAP_SEQUENCE_VALUE
    requires t.from == visit % w.ring.n && t.arq == Arq(w, visit)
    requires a + w.ring.n - 1 == visit + w.ring.n * q
    ensures Judge(d, w.ring, t) == Accept <==> q % 16 == 0
  {
    var x := a + w.ring.n - 1;
    Predecessor(w, a);
    ArqAround(w, a);
    AddRounds(w.ring.n, visit, q);
    AddRounds(w.ring.n, visit + w.ring.n - w.ring.lead, q);
    hide Turns, Pred;
    var m := w.base + Turns(w.ring.n, w.ring.lead, visit);
    assert Turns(w.ring.n, w.ring.lead, x) == Turns(w.ring.n, w.ring.lead, visit) + q by { TurnsShift(w, visit, q); }
    ModShift16(m, q);
    assert Arq(w, visit) == Arq(w, x) <==> q % 16 == 0;
  }

  lemma {:induction false} TurnsShift(w: World, visit: int, q: int)
    requires WorldOK(w)
    ensures Turns(w.ring.n, w.ring.lead, visit + w.ring.n * q) == Turns(w.ring.n, w.ring.lead, visit) + q
  {
    AddRounds(w.ring.n, visit + w.ring.n - w.ring.lead, q);
  }

  lemma {:induction false} ModShift16(m: int, q: int)
    ensures (m + q) % 16 == m % 16 <==> q % 16 == 0
  {
  }

  // Every sequence number of the ring belongs to exactly one packet, and the
  // numbers given out so far are 1, 2, ... without a gap.
  lemma {:induction false} UniqueNumbers(w: World, ss: seq<Rstate>, k: nat, p: Packet)
    requires Run(w, ss) && k < |ss|
    requires p in ss[k].packets && p.memb == w.memb
    ensures 1 <= p.seqNo <= |ss[k].all| && p == ss[k].all[p.seqNo - 1]
    ensures 1 <= |ss[k].sent| && |ss[k].all| == ss[k].sent[|ss[k].sent| - 1].seqNo
  {
    RunInvAt(w, ss, k);
    assert TokenOK(w, ss[k], |ss[k].sent| - 1);
  }

  // ----------------------------------------------------------- holding the token

  lemma {:induction false} HoldMeans(w: World, s: Rstate, i: int, t: Token, offer: seq<Payload>)
    requires Turn(w, s, i, t) && Inv(w, s) && s.ds[i].me == i && !HandleToken(w.ring, s.ds[i], t, offer).sends
    ensures i == w.ring.lead && NumSent(s.ds[i], w.ring, t, offer) == 0 && Ready(w.ring, s.ds[i], t, offer).d.queue == []
    ensures forall j :: 0 <= j < w.ring.n ==> |s.ds| == w.ring.n && |s.all| <= s.ds[j].myAru
    ensures s.ds[i].myAru <= Ready(w.ring, s.ds[i], t, offer).d.myAru
  {
    hide HistOK, RequestsOK, CastOK, NetworkOK, Prepared, AnswerAll, OwnRequests, TokenOut, Settle, NumSent, Created, Core, Chain, Stable, LastOK, QueueOK, Arq, VisitPre;
    TurnPre(w, s, i, t);
    PreparedReady(w, s, i, t, offer);
    var d := s.ds[i];
    assert DaemonOK(w, s.all, s.hist, s.sent, i, d, s.at[i]);
    CoreBounds(s.all, {}, d);
    forall j | 0 <= j < w.ring.n ensures d.aru <= s.ds[j].myAru { StableEverywhere(w, s, i, j); }
    assert d.aru <= d.myAru <= d.highest <= |s.all|;
    assert d.aru == |s.all| + NumSent(d, w.ring, t, offer);
  }

  // The state in which To_hold_token is asked.
  lemma {:induction false} PreparedReady(w: World, s: Rstate, i: int, t: Token, offer: seq<Payload>)
    requires Turn(w, s, i, t) && s.ds[i].me == i && VisitPre(w.ring, s.all, s.ds[i], t)
    ensures var b, k := Ready(w.ring, s.ds[i], t, offer).d, NumSent(s.ds[i], w.ring, t, offer);
            && !b.fault && !b.evs && b.aru == s.ds[i].aru && s.ds[i].myAru <= b.myAru && b.highest == |s.all| + k && (k == 0 ==> b.queue == [])
            && HandleToken(w.ring, s.ds[i], t, offer).sends == !(i == w.ring.lead && Holds(b))
  {
    hide Core, Prepared, AnswerAll, OwnRequests, TokenOut, Settle, NumSent, Created, OwnRequestsFrom;
    PreparedKeeps(w.ring, s.all, s.ds[i], t, offer);
    CreatedAt(i, s.ds[i].memb, |s.all|, offer, NumSent(s.ds[i], w.ring, t, offer));
  }

  // The state of the ring when the token has been held.
  lemma {:induction false} HeldState(w: World, s: Rstate, i: int, t: Token, offer: seq<Payload>)
    requires Turn(w, s, i, t) && Inv(w, s) && s.ds[i].me == i && !HandleToken(w.ring, s.ds[i], t, offer).sends
    ensures var s' := Accepted(w, s, i, t, offer);
            && i == w.ring.lead && s'.all == s.all && s'.tokens == s.tokens && |s'.ds| == |s'.at| == w.ring.n
            && (forall j :: 0 <= j < w.ring.n ==> |s'.all| <= s'.ds[j].myAru)
            && |s'.sent| == |s'.hist| == |s.sent| + 1 && s'.at[i] == |s.sent| && s'.ds[i].last == s'.sent[|s.sent|]
            && s'.ds[i].queue == [] && s'.ds[i].me == i
  {
    hide HistOK, RequestsOK, CastOK, NetworkOK, Core, HandleToken, NumSent, Chain, Stable, Arq, Ready, Leaves, VisitPre, Created, Fresher;
    HoldMeans(w, s, i, t, offer);
    TurnPre(w, s, i, t);
    TurnExtends(w, s, i, t, offer);
    TurnAru(w, s, i, t, offer);
    VisitKeeps(w.ring, s.all, s.ds[i], t, offer);
    NoneFresh(w.ring, s.all, s.ds[i], t, offer);
    assert s.all + [] == s.all;
    var s' := Accepted(w, s, i, t, offer);
    forall j | 0 <= j < w.ring.n ensures |s'.all| <= s'.ds[j].myAru { assert j != i ==> s'.ds[j] == s.ds[j]; }
  }

  // The token is held only by the leader, with nothing new to say, and when all
  // daemons have all packets of the ring; and it is not lost: the leader's timer
  // sends it on.
  lemma {:induction false} HeldToken(w: World, ss: seq<Rstate>, k: nat, i: int, c: Copy, offer: seq<Payload>, s': Rstate)
    requires Run(w, ss) && k < |ss| && StepFrom(w, ss[k], Arrive(i, c, offer), s')
    requires Judge(ss[k].ds[i], w.ring, c.token) == Accept && !HandleToken(w.ring, ss[k].ds[i], c.token, offer).sends
    ensures i == w.ring.lead && s'.all == ss[k].all && s'.tokens == ss[k].tokens && |s'.ds| == w.ring.n
    ensures forall j :: 0 <= j < w.ring.n ==> |s'.all| <= s'.ds[j].myAru
    ensures ShapeOK(w, s') && Enabled(w, s', Hurry(i)) && s'.ds[i].me == i && |s'.sent| == |ss[k].sent| + 1
    ensures var t := Repetition(s'.ds[i], (s'.ds[i].last.retrans + 1) % 16);
            Copy(|ss[k].sent|, t) in Next(w, s', Hurry(i)).tokens && SameToken(t, s'.sent[|ss[k].sent|])
  {
    hide HistOK, RequestsOK, CastOK, NetworkOK, DaemonsOK, DaemonOK, HandleToken, Judge, Run, Accepted;
    RunInvAt(w, ss, k);
    AnyCopy(w, ss[k], c);
    AnyDaemon(w, ss[k], i);
    AcceptedIsNext(w, ss[k], i, c);
    HeldState(w, ss[k], i, c.token, offer);
  }

  lemma {:induction false} AnyDaemon(w: World, s: Rstate, i: int)
    requires ShapeOK(w, s) && DaemonsOK(w, s) && 0 <= i < w.ring.n
    ensures DaemonOK(w, s.all, s.hist, s.sent, i, s.ds[i], s.at[i]) && s.ds[i].me == i
  {
  }

  lemma {:induction false} AnyCopy(w: World, s: Rstate, c: Copy)
    requires ShapeOK(w, s) && NetworkOK(w, s) && c in s.tokens
    ensures CopyOK(w, s, c)
  {
  }

  lemma {:induction false} NoneFresh(ring: Ring, all: seq<Packet>, d: Dstate, t: Token, offer: seq<Payload>)
    requires 0 <= d.me < |ring.personal| && NumSent(d, ring, t, offer) == 0
    ensures Fresher(ring, all, d, t, offer) == []
    ensures Created(d.me, d.memb, Raise(d, t).highest, offer, Min(|offer|, NumSent(d, ring, t, offer))) == []
  {
  }

  // ------------------------------------------------------------ every ring starts

  // Daemon i when a ring has just been installed and its last token is that of
  // visit i - n, or for daemon 0 that of visit 0.
  function Starter(w: World, i: int): Dstate
    requires WorldOK(w) && 0 <= i < w.ring.n
  {
    Dstate(i, w.memb, false, true, 0, 0, 0, 0, 0, map[],
           Token(i, Arq(w, if i == 0 then 0 else i - w.ring.n), 0, 0, 0, 1 % w.ring.n, 0, []),
           0, 0, 0, Level(Unreliable), [], [], 0, w.memb, CommitSet([i], 1), CommitSet([i], 1), false)
  }

  function Starters(w: World, k: nat): (ds: seq<Dstate>)
    requires WorldOK(w) && k <= w.ring.n
    ensures |ds| == k && forall i :: 0 <= i < k ==> ds[i] == Starter(w, i)
  {
    if k == 0 then [] else Starters(w, k - 1) + [Starter(w, k - 1)]
  }

  function Beginning(w: World): Rstate
    requires WorldOK(w)
  {
    var ds := Starters(w, w.ring.n);
    Rstate(ds, seq(w.ring.n, i requires 0 <= i < w.ring.n => if i == 0 then 0 else i - w.ring.n),
           [ds[0].last], [Visit(0, 0, 1 % w.ring.n, 0)], [], {Copy(0, ds[0].last)}, {})
  }

  lemma {:induction false} StartersFlow(w: World, k: nat)
    requires WorldOK(w) && k <= w.ring.n
    ensures SumFlow(Starters(w, k)) == 0
    decreases k
  {
    if k > 0 { StartersFlow(w, k - 1); }
  }

  lemma {:induction false} StarterFresh(w: World, j: int)
    requires WorldOK(w) && 0 <= j < w.ring.n
    ensures Fresh(w, j, Starter(w, j), if j == 0 then 0 else j - w.ring.n, Starter(w, 0).last)
  {
    hide Arq;
    SmallMod(w.ring.n, j);
    if j > 0 { OneRound(w.ring.n, j - w.ring.n); }
  }

  lemma {:induction false} BeginningIsInit(w: World)
    requires WorldOK(w)
    ensures Init(w, Beginning(w))
  {
    hide Arq, Fresh, Starter, SumFlow;
    StartersFlow(w, w.ring.n);
    var s := Beginning(w);
    forall j | 0 <= j < w.ring.n ensures Fresh(w, j, s.ds[j], s.at[j], s.sent[0]) { StarterFresh(w, j); }
    StarterToken(w);
    SmallMod(w.ring.n, 0);
  }

  lemma {:induction false} StarterToken(w: World)
    requires WorldOK(w)
    ensures Starter(w, 0).last == Token(0, Arq(w, 0), 0, 0, 0, 1 % w.ring.n, 0, [])
  {
  }

  lemma {:induction false} FirstAccepts(w: World)
    requires WorldOK(w)
    ensures 0 <= 1 % w.ring.n < w.ring.n && Judge(Starter(w, 1 % w.ring.n), w.ring, Starter(w, 0).last) == Accept
  {
    hide Arq, Judge;
    var n, i := w.ring.n, 1 % w.ring.n;
    StartPlace(n);
    SmallMod(n, 0);
    RoundNumberWraps(w, Starter(w, i), 1 - n, Starter(w, 0).last, 0, 0);
  }

  // The system is not empty: every ring has an initial state, and in it the
  // daemon after the first one accepts the token, whatever it has to send.
  lemma {:induction false} EveryRingStarts(w: World, offer: seq<Payload>)
    requires WorldOK(w)
    ensures Init(w, Beginning(w))
    ensures var s, i := Beginning(w), 1 % w.ring.n;
            var step := Arrive(i, Copy(0, s.sent[0]), offer);
            && 0 <= i < |s.ds| && Judge(s.ds[i], w.ring, s.sent[0]) == Accept
            && StepFrom(w, s, step, Next(w, s, step)) && Run(w, [s, Next(w, s, step)])
  {
    hide Arq, Judge, Init, Next;
    BeginningIsInit(w);
    FirstAccepts(w);
    StarterShape(w, 1 % w.ring.n);
    var s, i := Beginning(w), 1 % w.ring.n;
    var step := Arrive(i, Copy(0, s.sent[0]), offer);
    assert StepFrom(w, s, step, Next(w, s, step));
    assert CanStep(w, s, Next(w, s, step));
  }

  lemma {:induction false} StarterShape(w: World, i: int)
    requires WorldOK(w) && 0 <= i < w.ring.n
    ensures Starter(w, i).me == i && Starter(w, i).queue == []
  {
  }

  lemma {:induction false} SmallMod(n: int, j: int)
    requires 0 <= j < n
    ensures j % n == j
  {
  }

  // Visit 1 - n, the one before visit 1, belongs to the same daemon.
  lemma {:induction false} StartPlace(n: int)
    requires 0 < n
    ensures (1 - n) % n == 1 % n && (n > 1 ==> 1 % n == 1) && (n == 1 ==> 1 % n == 0)
  {
    OneRound(n, 1 - n);
  }
}
