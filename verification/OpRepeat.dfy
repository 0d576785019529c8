// A token that is lost: the leader sends its last token again, every daemon that
// has passed the token on since does the same, and so the newest token reaches
// the daemon it was meant for.
module OpRepeat {
  import opened Types
  import opened RingArith
  import opened TokenHistory
  import opened Protocol
  import opened Delivery
  import opened TokenVisit
  import opened OpRing
  import opened OpInv
  import opened OpSafety
  import opened OpTheorems

  // ------------------------------------------------------ whose repetition it is

  // The copy that daemon i handled at its last visit came from the visit before.
  lemma {:induction false} LastHeard(w: World, s: Rstate, i: int, c: Copy)
    requires Inv(w, s) && 0 <= i < w.ring.n && i != w.ring.lead && CopyOK(w, s, c) && c.visit == s.at[i] - 1
    ensures c.token.from == Pred(w.ring, i) && c.token.arq == s.ds[i].last.arq
  {
    hide Core, Stable, QueueOK, Turns, HistOK, NetworkOK, RequestsOK, CastOK, Arq;
    AnyDaemon(w, s, i);
    var a := s.at[i];
    Predecessor(w, a);
    OneRound(w.ring.n, a - 1);
    ArqStep(w, a - 1);
  }

  // A daemon sends its last token again exactly if its predecessor has repeated
  // the one before that, and more often than it had heard of.
  lemma {:induction false} RepeatsExactly(w: World, s: Rstate, i: int, c: Copy)
    requires Inv(w, s) && 0 <= i < w.ring.n && c in s.tokens && Recent(w, s, i, c) && c.token.seqNo <= MAX_WRAP_SEQUENCE_VALUE
    ensures Judge(s.ds[i], w.ring, c.token) == Repeat <==>
              i != w.ring.lead && c.visit == s.at[i] - 1 && c.token.retrans > s.ds[i].last.retrans
  {
    hide Core, Stable, QueueOK, Turns, HistOK, RequestsOK, CastOK, Arq, NetworkOK, Recent;
    AnyDaemon(w, s, i);
    AnyCopy(w, s, c) by { InvParts(w, s); }
    var a, n := s.at[i], w.ring.n;
    if i != w.ring.lead && c.visit == a - 1 { LastHeard(w, s, i, c); }
    if Judge(s.ds[i], w.ring, c.token) == Repeat { OnlyLast(w, s, i, c); }
  }

  lemma {:induction false} OnlyLast(w: World, s: Rstate, i: int, c: Copy)
    requires Inv(w, s) && 0 <= i < w.ring.n && CopyOK(w, s, c) && Recent(w, s, i, c)
    requires Judge(s.ds[i], w.ring, c.token) == Repeat
    ensures i != w.ring.lead && c.visit == s.at[i] - 1
  {
    hide Core, Stable, QueueOK, Turns, HistOK, NetworkOK, RequestsOK, CastOK, Arq;
    AnyDaemon(w, s, i);
    var a, n := s.at[i], w.ring.n;
    Predecessor(w, a);
    OneRound(n, a - 1);
    ArqStep(w, a - 1);
    if c.visit < a {
      OnlyNext(w, a - n, c.visit);
    } else {
      SameDaemon(n, c.visit, a + n - 1);
      ArqAround(w, a);
    }
  }

  // ---------------------------------------------------------------- passing it on

  // A repetition with count r has got from the leader as far as visit x.
  ghost predicate OnItsWay(w: World, s: Rstate, x: int, r: int) {
    && Inv(w, s) && |s.sent| - w.ring.n <= x < |s.sent| && |s.all| <= MAX_WRAP_SEQUENCE_VALUE
    && (forall y :: x < y < |s.sent| ==> y % w.ring.n != w.ring.lead)
    && (forall j :: 0 <= j < w.ring.n ==> s.ds[j].queue == [] && (x < s.at[j] ==> s.ds[j].last.retrans < r))
    && HasCopy(s, x, r)
  }

  ghost predicate HasCopy(s: Rstate, x: int, r: int) {
    exists c :: c in s.tokens && c.visit == x && c.token.retrans == r && c.token.seqNo <= |s.all|
  }

  // From s the ring can come to the last of these states.
  ghost predicate Path(w: World, us: seq<Rstate>) {
    us != [] && forall k :: 0 < k < |us| ==> CanStep(w, us[k - 1], us[k])
  }

  lemma {:induction false} AtVisit(w: World, s: Rstate, x: int) returns (i: int)
    requires Inv(w, s) && |s.sent| - w.ring.n <= x < |s.sent|
    ensures 0 <= i < w.ring.n && i == x % w.ring.n && s.at[i] == x
  {
    hide Core, Stable, QueueOK, LastOK, HistOK, NetworkOK, RequestsOK, CastOK;
    i := x % w.ring.n;
    AnyDaemon(w, s, i);
    SameDaemon(w.ring.n, x, s.at[i]);
  }

  lemma {:induction false} LastSeq(w: World, s: Rstate, i: int)
    requires Inv(w, s) && 0 <= i < w.ring.n
    ensures s.ds[i].last.seqNo <= |s.all|
  {
    hide NetworkOK, RequestsOK, CastOK, QueueOK, Arq, Stable, Core;
    AnyDaemon(w, s, i);
    if 0 <= s.at[i] {
      assert TokenOK(w, s, s.at[i]);
      SeqMonotone(false, w.ring.n, s.hist, s.at[i], |s.hist| - 1);
    }
  }

  // One daemon further.
  lemma {:induction false} OneFurther(w: World, s: Rstate, x: int, r: int) returns (s': Rstate)
    requires OnItsWay(w, s, x, r) && x < |s.sent| - 1
    ensures CanStep(w, s, s') && OnItsWay(w, s', x + 1, r) && s'.sent == s.sent && s'.all == s.all && s'.hist == s.hist && s'.at == s.at
  {
    hide Inv, Judge, CopyOK, Recent;
    var c :| c in s.tokens && c.visit == x && c.token.retrans == r && c.token.seqNo <= |s.all|;
    var i := AtVisit(w, s, x + 1);
    var step := Arrive(i, c, []);
    Shape(w, s, i);
    assert Recent(w, s, i, c) by { NearBy(w, s, i, c); }
    RepeatsExactly(w, s, i, c);
    LastSeq(w, s, i);
    s' := Next(w, s, step);
    assert s' == Repeated(s, i, r);
    assert StepFrom(w, s, step, s');
    StepKeeps(w, s, step, s');
    var t := Repetition(s.ds[i], r);
    assert Copy(x + 1, t) in s'.tokens && t.retrans == r && t.seqNo <= |s'.all|;
    forall j | 0 <= j < w.ring.n ensures s'.ds[j].queue == [] && (x + 1 < s'.at[j] ==> s'.ds[j].last.retrans < r) { }
  }

  lemma {:induction false} NearBy(w: World, s: Rstate, i: int, c: Copy)
    requires 0 < w.ring.n && 0 <= i < |s.at| && c.visit == s.at[i] - 1
    ensures Recent(w, s, i, c)
  {
  }

  lemma {:induction false} Shape(w: World, s: Rstate, i: int)
    requires Inv(w, s) && 0 <= i < w.ring.n
    ensures ShapeOK(w, s) && s.ds[i].me == i
  {
    hide Core;
    AnyDaemon(w, s, i);
  }

  lemma {:induction false} AllTheWay(w: World, s: Rstate, x: int, r: int) returns (us: seq<Rstate>)
    requires OnItsWay(w, s, x, r)
    ensures Path(w, us) && us[0] == s
    ensures var u := us[|us| - 1]; OnItsWay(w, u, |s.sent| - 1, r) && u.sent == s.sent && u.all == s.all && u.hist == s.hist && u.at == s.at
    decreases |s.sent| - x
  {
    hide Inv, CanStep;
    us := [s];
    if x < |s.sent| - 1 {
      var s' := OneFurther(w, s, x, r);
      var vs := AllTheWay(w, s', x + 1, r);
      us := [s] + vs;
      forall k | 0 < k < |us| ensures CanStep(w, us[k - 1], us[k]) {
        if k > 1 { assert us[k - 1] == vs[k - 2] && us[k] == vs[k - 1]; }
      }
    }
  }

  // The daemon whose turn it is accepts the newest token, repeated or not.
  lemma {:induction false} NewestAccepted(w: World, s: Rstate, c: Copy) returns (i: int)
    requires Inv(w, s) && c in s.tokens && c.visit == |s.sent| - 1 && c.token.seqNo <= MAX_WRAP_SEQUENCE_VALUE
    ensures 0 <= i < w.ring.n && i == |s.sent| % w.ring.n && Judge(s.ds[i], w.ring, c.token) == Accept && Recent(w, s, i, c)
  {
    hide Core, Stable, QueueOK, HistOK, RequestsOK, CastOK, Arq, Turns, NetworkOK;
    var n := w.ring.n;
    i := AtVisit(w, s, |s.sent| - n);
    OneRound(n, |s.sent| - n);
    AnyDaemon(w, s, i);
    AnyCopy(w, s, c) by { InvParts(w, s); }
    Predecessor(w, s.at[i]);
    ArqAround(w, s.at[i]);
    NextDiffers(s.ds[i].last.arq);
  }

  lemma {:induction false} NextDiffers(a: int)
    ensures (a + 1) % 16 != a
  {
  }

  // In every run, whenever the leader repeats its last token, with a count above
  // those of the daemons that have passed the token on since: whatever copies of
  // the newest token are lost, the ring can go on so that the newest token is on
  // the network, and the daemon whose turn it is accepts it.  No packet is sent
  // and no visit is made for that.
  lemma {:induction false} LostTokenComesBack(w: World, ss: seq<Rstate>, k: nat) returns (us: seq<Rstate>, c: Copy, i: int)
    requires Run(w, ss) && k < |ss| && ShapeOK(w, ss[k]) && |ss[k].all| <= MAX_WRAP_SEQUENCE_VALUE
    requires forall j :: 0 <= j < w.ring.n ==> ss[k].ds[j].queue == []
    requires Above(w, ss[k], (ss[k].ds[w.ring.lead].last.retrans + 1) % 16)
    ensures Run(w, ss[..k + 1] + us) && us != []
    ensures var u := (ss[..k + 1] + us)[k + |us|];
            && u.sent == ss[k].sent && u.all == ss[k].all && u.hist == ss[k].hist && ShapeOK(w, u)
            && c in u.tokens && SameToken(c.token, u.sent[|u.sent| - 1]) && c.token.retrans == (ss[k].ds[w.ring.lead].last.retrans + 1) % 16
            && 0 <= i < w.ring.n && Enabled(w, u, Arrive(i, c, [])) && Judge(u.ds[i], w.ring, c.token) == Accept
  {
    hide Inv, Judge, CanStep, Init, Recent;
    RunInvAt(w, ss, k);
    var s, lead := ss[k], w.ring.lead;
    var r := (s.ds[lead].last.retrans + 1) % 16;
    var s1 := LeaderRepeats(w, s, r);
    var vs := AllTheWay(w, s1, s.at[lead], r);
    us := vs;
    var u := us[|us| - 1];
    c :| c in u.tokens && c.visit == |u.sent| - 1 && c.token.retrans == r && c.token.seqNo <= |u.all|;
    i := NewestAccepted(w, u, c);
    CopyIsSame(w, u, c);
    Shape(w, u, i);
    var all := ss[..k + 1] + us;
    forall m | 0 < m < |all| ensures CanStep(w, all[m - 1], all[m]) {
      if m == k + 1 { assert all[m - 1] == s && all[m] == s1; }
      if m > k + 1 { assert all[m - 1] == us[m - k - 2] && all[m] == us[m - k - 1]; }
    }
    assert all[k + |us|] == u;
  }

  // Everybody who has had the token since the leader has repeated it less often.
  ghost predicate Above(w: World, s: Rstate, r: int) {
    0 <= w.ring.lead < |s.at| == |s.ds| && forall j :: 0 <= j < |s.at| && s.at[w.ring.lead] < s.at[j] ==> s.ds[j].last.retrans < r
  }

  lemma {:induction false} CopyIsSame(w: World, s: Rstate, c: Copy)
    requires Inv(w, s) && c in s.tokens && c.visit == |s.sent| - 1
    ensures SameToken(c.token, s.sent[|s.sent| - 1]) && 1 <= |s.sent|
  {
    hide HistOK, RequestsOK, CastOK, DaemonsOK;
    assert CopyOK(w, s, c);
  }

  lemma {:induction false} LeaderRepeats(w: World, s: Rstate, r: int) returns (s': Rstate)
    requires Inv(w, s) && |s.all| <= MAX_WRAP_SEQUENCE_VALUE && 0 <= w.ring.lead < |s.ds| == |s.at| == w.ring.n
    requires (forall j :: 0 <= j < w.ring.n ==> s.ds[j].queue == []) && Above(w, s, r) && r == (s.ds[w.ring.lead].last.retrans + 1) % 16
    ensures CanStep(w, s, s') && OnItsWay(w, s', s.at[w.ring.lead], r) && s'.sent == s.sent && s'.all == s.all && s'.hist == s.hist && s'.at == s.at
  {
    hide Inv;
    var lead := w.ring.lead;
    Shape(w, s, lead);
    s' := Repeated(s, lead, r);
    assert StepFrom(w, s, Hurry(lead), s');
    StepKeeps(w, s, Hurry(lead), s');
    LastSeq(w, s, lead);
    LeadLatest(w, s);
    assert Copy(s.at[lead], Repetition(s.ds[lead], r)) in s'.tokens;
  }

  lemma {:induction false} LeadLatest(w: World, s: Rstate)
    requires Inv(w, s)
    ensures 0 <= w.ring.lead < |s.at| && |s.sent| - w.ring.n <= s.at[w.ring.lead] < |s.sent|
    ensures forall y :: s.at[w.ring.lead] < y < |s.sent| ==> y % w.ring.n != w.ring.lead
  {
    hide Core, Stable, QueueOK, LastOK, HistOK, NetworkOK, RequestsOK, CastOK;
    AnyDaemon(w, s, w.ring.lead);
    forall y | s.at[w.ring.lead] < y < |s.sent| ensures y % w.ring.n != w.ring.lead {
      if y % w.ring.n == w.ring.lead { SameDaemon(w.ring.n, y, s.at[w.ring.lead]); }
    }
  }

  // ------------------------------------------------------------ the counts compare

  // Since the leader's last visit nobody has counted further than the leader.
  ghost predicate LeaderCounts(w: World, s: Rstate) {
    && 0 <= w.ring.lead < |s.at| == |s.ds|
    && (1 <= s.at[w.ring.lead] ==>
          && (forall j :: 0 <= j < |s.at| && s.at[w.ring.lead] < s.at[j] ==> s.ds[j].last.retrans <= s.ds[w.ring.lead].last.retrans)
          && (forall c :: c in s.tokens && s.at[w.ring.lead] <= c.visit ==> c.token.retrans <= s.ds[w.ring.lead].last.retrans))
  }

  lemma {:induction false} VisitCounts(w: World, s: Rstate, i: int, t: Token, offer: seq<Payload>)
    requires Turn(w, s, i, t)
    ensures s.ds[i].me == i
    ensures var s' := Accepted(w, s, i, t, offer);
            && |s'.ds| == |s.ds| && s'.ds[i].last == s'.sent[|s.sent|] && |s'.sent| == |s.sent| + 1
            && s'.ds[i].last.retrans == (if i == w.ring.lead then 0 else t.retrans)
            && s'.tokens <= s.tokens + {Copy(|s.sent|, s'.ds[i].last)} && s'.at == s.at[i := |s.sent|]
            && forall j :: 0 <= j < |s.ds| && j != i ==> s'.ds[j] == s.ds[j]
  {
    hide HistOK, RequestsOK, CastOK, NetworkOK, DaemonsOK, Core, HandleToken, NumSent, Chain, Stable, Arq, Ready, VisitPre, Created, Fresher, OwnRequests, Answered;
    TurnPre(w, s, i, t);
    TurnExtends(w, s, i, t, offer);
    TurnAru(w, s, i, t, offer);
    VisitKeeps(w.ring, s.all, s.ds[i], t, offer);
    SameMe(w.ring, s.all, s.ds[i], t, offer);
  }

  lemma {:induction false} SameMe(ring: Ring, all: seq<Packet>, d: Dstate, t: Token, offer: seq<Payload>)
    requires VisitPre(ring, all, d, t)
    ensures Ready(ring, d, t, offer).d.me == d.me
  {
    hide Core, Prepared, AnswerAll, NumSent, Created;
    PreparedKeeps(ring, all, d, t, offer);
  }

  // A daemon repeats its last token with count r.
  lemma {:induction false} RepeatCounts(w: World, s: Rstate, i: int, r: int)
    requires LeaderCounts(w, s) && 0 <= i < |s.ds|
    requires if i == w.ring.lead then s.ds[i].last.retrans <= r
             else 1 <= s.at[w.ring.lead] < s.at[i] ==> r <= s.ds[w.ring.lead].last.retrans
    requires s.at[i] != s.at[w.ring.lead] || i == w.ring.lead
    ensures LeaderCounts(w, Repeated(s, i, r))
  {
  }

  lemma {:induction false} AcceptCounts(w: World, s: Rstate, i: int, t: Token, offer: seq<Payload>, s': Rstate)
    requires Turn(w, s, i, t) && LeaderCounts(w, s) && s.ds[i].me == i && s' == Accepted(w, s, i, t, offer)
    requires 1 <= s.at[w.ring.lead] ==> t.retrans <= s.ds[w.ring.lead].last.retrans
    ensures LeaderCounts(w, s')
  {
    hide Inv, Accepted;
    Shape(w, s, i);
    VisitCounts(w, s, i, t, offer);
    LatestVisits(w, s);
    var lead := w.ring.lead;
    if i != lead { assert s'.ds[lead] == s.ds[lead] && s'.at[lead] == s.at[lead]; }
    forall j | 0 <= j < |s'.at| && 1 <= s'.at[lead] < s'.at[j] ensures s'.ds[j].last.retrans <= s'.ds[lead].last.retrans {
      if j != i { assert s'.ds[j] == s.ds[j] && s'.at[j] == s.at[j]; }
    }
    forall c | c in s'.tokens && 1 <= s'.at[lead] <= c.visit ensures c.token.retrans <= s'.ds[lead].last.retrans {
      if c in s.tokens { assert c.visit < |s.sent|; }
    }
  }

  // Steps that touch no last token.
  lemma {:induction false} OtherCounts(w: World, s: Rstate, s': Rstate)
    requires LeaderCounts(w, s) && s'.at == s.at && s'.tokens == s.tokens && |s'.ds| == |s.ds|
    requires forall j :: 0 <= j < |s.ds| ==> s'.ds[j].last == s.ds[j].last
    ensures LeaderCounts(w, s')
  {
  }

  lemma {:induction false} OtherPlaces(w: World, s: Rstate, i: int)
    requires Inv(w, s) && 0 <= i < w.ring.n
    ensures s.ds[i].me == i && |s.ds| == |s.at| == w.ring.n && (i != w.ring.lead ==> s.at[i] != s.at[w.ring.lead])
  {
    hide Core, Stable, QueueOK, LastOK, HistOK, NetworkOK, RequestsOK, CastOK;
    AnyDaemon(w, s, i);
    AnyDaemon(w, s, w.ring.lead);
  }

  lemma {:induction false} ArriveCounts(w: World, s: Rstate, i: int, c: Copy, offer: seq<Payload>, s': Rstate)
    requires Inv(w, s) && StepFrom(w, s, Arrive(i, c, offer), s') && LeaderCounts(w, s)
    ensures LeaderCounts(w, s')
  {
    hide Inv, DaemonOK, Accepted, Judge, CopyOK, Recent, LeaderCounts, Repeated;
    OtherPlaces(w, s, i);
    Shape(w, s, i);
    assert CopyOK(w, s, c) && DaemonOK(w, s.all, s.hist, s.sent, i, s.ds[i], s.at[i]) by { Sound(w, s, i, c); }
    match Judge(s.ds[i], w.ring, c.token) {
      case Swallow =>
      case Repeat =>
        OnlyLast(w, s, i, c);
        KnownCount(w, s, c);
        RepeatCounts(w, s, i, c.token.retrans);
      case Accept =>
        AcceptedIsNext(w, s, i, c);
        LeadLatest(w, s);
        KnownCount(w, s, c);
        AcceptCounts(w, s, i, c.token, offer, s');
    }
  }

  lemma {:induction false} Sound(w: World, s: Rstate, i: int, c: Copy)
    requires Inv(w, s) && 0 <= i < w.ring.n && c in s.tokens
    ensures CopyOK(w, s, c) && DaemonOK(w, s.all, s.hist, s.sent, i, s.ds[i], s.at[i])
  {
    AnyDaemon(w, s, i);
    AnyCopy(w, s, c);
  }

  lemma {:induction false} KnownCount(w: World, s: Rstate, c: Copy)
    requires LeaderCounts(w, s) && c in s.tokens
    ensures 0 <= w.ring.lead < |s.at| == |s.ds|
    ensures 1 <= s.at[w.ring.lead] <= c.visit ==> c.token.retrans <= s.ds[w.ring.lead].last.retrans
  {
  }

  lemma {:induction false} StepCounts(w: World, s: Rstate, step: Step, s': Rstate)
    requires Inv(w, s) && StepFrom(w, s, step, s') && LeaderCounts(w, s) && s.ds[w.ring.lead].last.retrans < 15
    requires 0 <= s.ds[w.ring.lead].last.retrans || s.at[w.ring.lead] <= 0
    ensures LeaderCounts(w, s')
  {
    hide Inv, Accepted, Receive, DeliverAgreed, DeliverReliable, Judge, Recent, LeaderCounts, Repeated;
    var i := step.i;
    var d := s.ds[i];
    OtherPlaces(w, s, i);
    match step {
      case Arrive(_, c, offer) => ArriveCounts(w, s, i, c, offer, s');
      case Hurry(_) => RepeatMore(w, s, i);
      case Wanted(_) =>
        OtherCounts(w, s, WithDaemon(s, i, d.(counter := 0)));
        RepeatMore(w, WithDaemon(s, i, d.(counter := 0)), i);
      case Receipt(_, p) =>
        ReceiveTouches(d, p);
        OtherCounts(w, s, s');
      case AgreedEvent(_) =>
        EventsTouch(d, 0, 0);
        OtherCounts(w, s, s');
      case ReliableEvent(_) =>
        EventsTouch(d, 1, d.highest);
        OtherCounts(w, s, s');
      case _ => OtherCounts(w, s, s');
    }
  }

  lemma {:induction false} RepeatMore(w: World, s: Rstate, i: int)
    requires LeaderCounts(w, s) && i == w.ring.lead && s.ds[i].last.retrans < 15
    requires 0 <= s.ds[i].last.retrans || s.at[i] <= 0
    ensures LeaderCounts(w, Repeated(s, i, (s.ds[i].last.retrans + 1) % 16))
  {
    if 0 <= s.ds[i].last.retrans { RepeatCounts(w, s, i, (s.ds[i].last.retrans + 1) % 16); }
  }

  lemma {:induction false} LatestVisits(w: World, s: Rstate)
    requires Inv(w, s)
    ensures forall j :: 0 <= j < |s.at| ==> s.at[j] < |s.sent|
    ensures forall c :: c in s.tokens ==> c.visit < |s.sent|
  {
    hide Core, Stable, QueueOK, LastOK, HistOK, RequestsOK, CastOK;
    forall j | 0 <= j < |s.at| ensures s.at[j] < |s.sent| { AnyDaemon(w, s, j); }
    forall c | c in s.tokens ensures c.visit < |s.sent| { assert CopyOK(w, s, c); }
  }

  // In every run: as long as the leader's count has not gone round, whoever has had
  // the token since the leader has counted no further.  So the next repetition of
  // the leader is one that LostTokenComesBack speaks of.
  lemma {:induction false} CountsStay(w: World, ss: seq<Rstate>, k: nat)
    requires Run(w, ss) && k < |ss|
    requires forall l :: 0 <= l <= k ==> 0 <= w.ring.lead < |ss[l].ds| == |ss[l].at| && 0 <= ss[l].ds[w.ring.lead].last.retrans < 15
    ensures LeaderCounts(w, ss[k])
    ensures 1 <= ss[k].at[w.ring.lead] ==>
              Above(w, ss[k], (ss[k].ds[w.ring.lead].last.retrans + 1) % 16)
  {
    hide Init, StepFrom, Inv;
    if k == 0 {
      StartsBefore(w, ss[0]);
    } else {
      CountsStay(w, ss, k - 1);
      RunInvAt(w, ss, k - 1);
      assert CanStep(w, ss[k - 1], ss[k]);
      var step :| StepFrom(w, ss[k - 1], step, ss[k]);
      StepCounts(w, ss[k - 1], step, ss[k]);
    }
  }

  lemma {:induction false} StartsBefore(w: World, s: Rstate)
    requires Init(w, s)
    ensures 0 <= w.ring.lead < |s.at| == |s.ds| && s.at[w.ring.lead] <= 0
  {
    assert Fresh(w, w.ring.lead, s.ds[w.ring.lead], s.at[w.ring.lead], s.sent[0]);
  }
}
