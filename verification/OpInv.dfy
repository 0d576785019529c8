// The invariant of a ring in normal operation, part by part, and its proof for
// the step that matters: a daemon accepting the token.
module OpInv {
  import opened Types
  import opened RingArith
  import opened TokenHistory
  import opened Protocol
  import opened Delivery
  import opened TokenVisit
  import opened OpRing

  // ------------------------------------------------------------- the invariant

  function SeqAt(h: seq<Visit>, t: int): int
    requires t < |h|
  {
    if t <= 0 then 0 else h[t].seqNo
  }

  function MyAt(h: seq<Visit>, t: int): int
    requires t < |h|
  {
    if t <= 0 then 0 else h[t].my
  }

  ghost predicate TokenOK(w: World, s: Rstate, t: int)
    requires ShapeOK(w, s) && 0 <= t < |s.sent| == |s.hist|
  {
    && s.hist[t] == Visit(s.sent[t].seqNo, s.sent[t].aru, s.sent[t].aruLast, s.hist[t].my)
    && s.sent[t].from == t % w.ring.n && s.sent[t].arq == Arq(w, t)
  }

  // One token after the other, and together they number all packets.
  ghost predicate HistOK(w: World, s: Rstate)
    requires ShapeOK(w, s)
  {
    && Chain(false, w.ring.n, s.hist)
    && (forall t :: 0 <= t < |s.hist| ==> TokenOK(w, s, t))
    && s.hist[|s.hist| - 1].seqNo == |s.all|
    && s.hist[0].seqNo == 0 && s.hist[0].my == 0
  }

  ghost predicate CopyOK(w: World, s: Rstate, c: Copy)
    requires ShapeOK(w, s)
  {
    && c.visit < |s.sent|
    && c.token.from == c.visit % w.ring.n && c.token.arq == Arq(w, c.visit)
    && (0 <= c.visit ==> SameToken(c.token, s.sent[c.visit]))
  }

  ghost predicate NetworkOK(w: World, s: Rstate)
    requires ShapeOK(w, s)
  {
    && (forall c :: c in s.tokens ==> CopyOK(w, s, c))
    && (forall p :: p in s.packets && p.memb == w.memb ==> 1 <= p.seqNo <= |s.all| && p == s.all[p.seqNo - 1])
  }

  ghost predicate QueueOK(w: World, all: seq<Packet>, h: seq<Visit>, d: Dstate, a: int)
    requires WorldOK(w) && a < |h|
  {
    && (forall x :: 0 <= x < |d.queue| ==>
          1 <= a && 1 <= d.queue[x].seqNo <= |all| && h[a - 1].seqNo < d.queue[x].seqNo && d.queue[x] == all[d.queue[x].seqNo - 1])
    && (!w.ring.accelerated ==> d.queue == [])
  }

  ghost predicate LastOK(w: World, sent: seq<Token>, d: Dstate, a: int)
    requires WorldOK(w) && a < |sent|
  {
    && d.last.from == a % w.ring.n && d.last.arq == Arq(w, a)
    && (0 <= a ==> SameToken(d.last, sent[a]))
    && (a <= 0 ==> d.last.seqNo == 0 && LastAru(d) == 0)
    && (1 <= a ==> !d.justInstalled)
  }

  // Daemon i, which last handled the token at visit a.
  ghost predicate DaemonOK(w: World, all: seq<Packet>, h: seq<Visit>, sent: seq<Token>, i: int, d: Dstate, a: int) {
    && WorldOK(w) && |h| == |sent|
    && d.me == i && d.memb == w.memb && !d.evs && !d.fault
    && Core(all, {}, d) && d.myAru <= d.highest
    && |h| - w.ring.n <= a < |h| && a % w.ring.n == i
    && d.aru == d.discarded == Stable(w.ring.n, h, a)
    && LastOK(w, sent, d, a)
    && MyAt(h, a) <= d.myAru && SeqAt(h, a) <= d.highest
    && QueueOK(w, all, h, d, a)
  }

  ghost predicate DaemonsOK(w: World, s: Rstate)
    requires ShapeOK(w, s)
  {
    forall i :: 0 <= i < w.ring.n ==> DaemonOK(w, s.all, s.hist, s.sent, i, s.ds[i], s.at[i])
  }

  // The requests on the newest token come from the daemon that sent it: they lie
  // above its My_aru, and in accelerated mode below what it knew a round before.
  ghost predicate RequestsOK(w: World, s: Rstate)
    requires ShapeOK(w, s)
  {
    var k := |s.hist| - 1;
    forall x, y :: 0 <= x < |s.sent[k].rtr| && s.sent[k].rtr[x].memb == w.memb && 0 <= y < |s.sent[k].rtr[x].seqs| ==>
      && s.hist[k].my < s.sent[k].rtr[x].seqs[y] <= |s.all|
      && 1 <= k
      && (w.ring.accelerated ==> s.sent[k].rtr[x].seqs[y] <= SeqAt(s.hist, k - w.ring.n))
  }

  ghost predicate Waiting(s: Rstate, p: Packet) {
    exists j :: 0 <= j < |s.ds| && p in s.ds[j].queue
  }

  // Every packet was broadcast or waits in the queue of its sender.
  ghost predicate CastOK(w: World, s: Rstate) {
    forall k :: 0 <= k < |s.all| ==> s.all[k].memb == w.memb && (s.all[k] in s.packets || Waiting(s, s.all[k]))
  }

  ghost predicate Inv(w: World, s: Rstate) {
    && ShapeOK(w, s)
    && HistOK(w, s)
    && NetworkOK(w, s)
    && DaemonsOK(w, s)
    && RequestsOK(w, s)
    && CastOK(w, s)
  }

  // ------------------------------------------------ which token gets accepted

  lemma {:induction false} ArqApart(w: World, t: int, q: int, u: int)
    requires WorldOK(w) && Turns(w.ring.n, w.ring.lead, u) == Turns(w.ring.n, w.ring.lead, t) + q
    requires Arq(w, t) == Arq(w, u) && 0 <= q < 16
    ensures q == 0
  {
    var m := w.base + Turns(w.ring.n, w.ring.lead, t);
    assert m % 16 == (m + q) % 16;
  }

  lemma {:induction false} ArqAround(w: World, a: int)
    requires WorldOK(w)
    ensures var x := a + w.ring.n - 1;
            Arq(w, x) == if a % w.ring.n == w.ring.lead then Arq(w, a) else (Arq(w, a) + 1) % 16
  {
    hide Turns;
    TurnsAround(w.ring.n, w.ring.lead, a);
    NextOf16(w.base + Turns(w.ring.n, w.ring.lead, a));
  }

  lemma {:induction false} NextOf16(m: int)
    ensures (m + 1) % 16 == (m % 16 + 1) % 16
  {
  }

  // Which visits of the predecessor carry the number that a daemon waits for
  // after its own visit a.
  lemma {:induction false} OnlyNext(w: World, a: int, c: int)
    requires WorldOK(w) && c % w.ring.n == (a + w.ring.n - 1) % w.ring.n
    requires c < a + w.ring.n && a + w.ring.n - 1 - c < 16 * w.ring.n
    requires Arq(w, c) == Arq(w, a + w.ring.n - 1)
    ensures c == a + w.ring.n - 1
  {
    var x := a + w.ring.n - 1;
    var q := TurnsRounds(w.ring.n, w.ring.lead, x, c);
    ArqApart(w, c, q, x);
    assert w.ring.n * 0 == 0;
  }

  lemma {:induction false} Predecessor(w: World, a: int)
    requires WorldOK(w)
    ensures (a + w.ring.n - 1) % w.ring.n == Pred(w.ring, a % w.ring.n)
    ensures (a + w.ring.n) % w.ring.n == a % w.ring.n
  {
    OneRound(w.ring.n, a);
    NextDaemon(w.ring.n, a + w.ring.n - 1);
  }

  // The 4-bit number tells the next token from every copy less than 16 rounds
  // old, so a daemon accepts only the newest token, and only in its turn.
  lemma {:induction false} AcceptedIsNext(w: World, s: Rstate, i: int, c: Copy)
    requires ShapeOK(w, s) && 0 <= i < w.ring.n && CopyOK(w, s, c)
    requires DaemonOK(w, s.all, s.hist, s.sent, i, s.ds[i], s.at[i])
    requires Judge(s.ds[i], w.ring, c.token) == Accept && Recent(w, s, i, c)
    ensures c.visit == |s.sent| - 1 && |s.sent| % w.ring.n == i && s.at[i] == |s.sent| - w.ring.n
    ensures SameToken(c.token, s.sent[|s.sent| - 1])
  {
    hide Core, Stable, QueueOK, Arq, Turns;
    var a := s.at[i];
    Predecessor(w, a);
    ArqAround(w, a);
    OnlyNext(w, a, c.visit);
  }

  // ---------------------------------------------- the daemon that is visited

  // What the ring knows about a daemon that is about to handle token t.
  ghost predicate Turn(w: World, s: Rstate, i: int, t: Token) {
    && Inv(w, s) && 0 <= i < w.ring.n
    && |s.sent| % w.ring.n == i && s.at[i] == |s.sent| - w.ring.n
    && SameToken(t, s.sent[|s.sent| - 1])
    && s.ds[i].queue == []
  }

  lemma {:induction false} RequestsAboveAru(w: World, s: Rstate, i: int, t: Token)
    requires Turn(w, s, i, t)
    ensures OwnRequestsFrom(s.ds[i], t.rtr, s.ds[i].aru)
  {
    hide Core, CastOK, NetworkOK, LastOK, QueueOK, Arq;
    var d, n, k := s.ds[i], w.ring.n, |s.hist| - 1;
    assert DaemonOK(w, s.all, s.hist, s.sent, i, d, s.at[i]);
    if 1 <= k {
      StableMonotone(false, n, s.hist, s.at[i], k);
      StableBelowMy(false, n, s.hist, k, k);
    }
    forall x, y | 0 <= x < |t.rtr| && t.rtr[x].memb == d.memb && 0 <= y < |t.rtr[x].seqs|
      ensures d.aru <= t.rtr[x].seqs[y]
    {
      assert t.rtr == s.sent[k].rtr;
    }
  }

  lemma {:induction false} TurnPre(w: World, s: Rstate, i: int, t: Token)
    requires Turn(w, s, i, t)
    ensures VisitPre(w.ring, s.all, s.ds[i], t) && s.ds[i].aru == s.ds[i].discarded && s.ds[i].me == i
    ensures Raise(s.ds[i], t).highest == |s.all|
  {
    RequestsAboveAru(w, s, i, t);
    hide Core, CastOK, NetworkOK, RequestsOK, OwnRequestsFrom, LastOK, QueueOK, Chain, Arq;
    assert DaemonOK(w, s.all, s.hist, s.sent, i, s.ds[i], s.at[i]);
    assert TokenOK(w, s, |s.hist| - 1);
    RaiseKeeps(s.all, s.ds[i], t);
  }

  function NewVisit(w: World, s: Rstate, i: int, t: Token, offer: seq<Payload>): Visit
    requires 0 <= i < |s.ds| && 0 <= s.ds[i].me < |w.ring.personal| == |w.ring.seg|
  {
    var u := Leaves(w.ring, s.ds[i], t, offer);
    Visit(u.seqNo, u.aru, u.aruLast, Ready(w.ring, s.ds[i], t, offer).d.myAru)
  }

  // The visit obeys the rules of the token history.
  lemma {:induction false} TurnExtends(w: World, s: Rstate, i: int, t: Token, offer: seq<Payload>)
    requires Turn(w, s, i, t) && VisitPre(w.ring, s.all, s.ds[i], t) && s.ds[i].me == i
    ensures Chain(false, w.ring.n, s.hist + [NewVisit(w, s, i, t, offer)])
    ensures NewVisit(w, s, i, t, offer).seqNo == |s.all| + NumSent(s.ds[i], w.ring, t, offer)
  {
    hide Core, CastOK, NetworkOK, RequestsOK, OwnRequestsFrom, QueueOK, Prepared, AnswerAll, OwnRequests, NumSent, Created, Arq;
    var d, k := s.ds[i], |s.hist| - 1;
    assert DaemonOK(w, s.all, s.hist, s.sent, i, d, s.at[i]);
    assert TokenOK(w, s, k);
    PreparedKeeps(w.ring, s.all, d, t, offer);
    CoreBounds(s.all, {}, d);
    Extend(false, w.ring.n, s.hist, NewVisit(w, s, i, t, offer));
  }

  // What the visit does to the Aru of the daemon: it does not fall, and it is
  // what every daemon of the ring has received.
  lemma {:induction false} TurnAru(w: World, s: Rstate, i: int, t: Token, offer: seq<Payload>)
    requires Turn(w, s, i, t) && VisitPre(w.ring, s.all, s.ds[i], t) && s.ds[i].me == i
    requires Chain(false, w.ring.n, s.hist + [NewVisit(w, s, i, t, offer)])
    ensures var h := s.hist + [NewVisit(w, s, i, t, offer)];
            var a := Stable(w.ring.n, h, |s.hist|);
            && a == Min(LastAru(s.ds[i]), Leaves(w.ring, s.ds[i], t, offer).aru)
            && s.ds[i].aru <= a <= Ready(w.ring, s.ds[i], t, offer).d.myAru
  {
    hide Core, CastOK, NetworkOK, RequestsOK, OwnRequestsFrom, QueueOK, Prepared, AnswerAll, OwnRequests, Arq, Chain, VisitPre, TokenOut;
    var n, k := w.ring.n, |s.hist|;
    var v := NewVisit(w, s, i, t, offer);
    var h := s.hist + [v];
    assert DaemonOK(w, s.all, s.hist, s.sent, i, s.ds[i], s.at[i]);
    AruBelowMy(false, n, h, k);
    StableKept(n, s.hist, v, k - n);
    StableMonotone(false, n, h, k - n, k);
    StableBelowMy(false, n, h, k, k);
    if k > n { assert TokenOK(w, s, k - n); }
  }

  // ------------------------------------------------------ the state afterwards

  lemma {:induction false} ArqStep(w: World, k: int)
    requires WorldOK(w)
    ensures Arq(w, k + 1) == if (k + 1) % w.ring.n == w.ring.lead then (Arq(w, k) + 1) % 16 else Arq(w, k)
  {
    TurnsStep(w.ring.n, w.ring.lead, k);
  }

  lemma {:induction false} ExtendMany(all: seq<Packet>, d: Dstate, me: int, memb: MembId, offer: seq<Payload>, k: nat)
    requires Core(all, {}, d) && k <= |offer|
    ensures Core(all + Created(me, memb, |all|, offer, k), {}, d)
  {
    hide Core;
    if k == 0 {
      assert all + [] == all;
    } else {
      ExtendMany(all, d, me, memb, offer, k - 1);
      var less := Created(me, memb, |all|, offer, k - 1);
      CreatedAt(me, memb, |all|, offer, k - 1);
      var p := Packet(|all| + k, me, memb, offer[k - 1]);
      ExtendKeeps(all + less, {}, d, p);
      assert all + (less + [p]) == (all + less) + [p];
    }
  }

  // The daemons that are not visited.
  lemma {:induction false} OthersKeep(w: World, all: seq<Packet>, more: seq<Packet>, h: seq<Visit>, v: Visit,
                                      sent: seq<Token>, u: Token, j: int, d: Dstate, a: int)
    requires DaemonOK(w, all, h, sent, j, d, a) && j != |h| % w.ring.n
    requires Core(all + more, {}, d)
    ensures DaemonOK(w, all + more, h + [v], sent + [u], j, d, a)
  {
    hide Core, Arq, Stable, SameToken;
    var n := w.ring.n;
    OneRound(n, |h|);
    StableKept(n, h, v, a);
    QueueExtends(w, all, more, h, v, d, a);
    assert LastOK(w, sent + [u], d, a);
  }

  lemma {:induction false} QueueExtends(w: World, all: seq<Packet>, more: seq<Packet>, h: seq<Visit>, v: Visit, d: Dstate, a: int)
    requires WorldOK(w) && a < |h| && QueueOK(w, all, h, d, a)
    ensures QueueOK(w, all + more, h + [v], d, a)
  {
  }

  // The daemon that was visited.
  lemma {:induction false} VisitedOK(w: World, s: Rstate, i: int, t: Token, offer: seq<Payload>)
    requires Turn(w, s, i, t)
    ensures s.ds[i].me == i
    ensures var s' := Accepted(w, s, i, t, offer);
            && s'.all == s.all + Fresher(w.ring, s.all, s.ds[i], t, offer)
            && s'.hist == s.hist + [NewVisit(w, s, i, t, offer)]
            && s'.sent == s.sent + [Leaves(w.ring, s.ds[i], t, offer)]
            && Chain(false, w.ring.n, s'.hist)
            && s'.hist[|s.hist|].seqNo == |s'.all|
            && DaemonOK(w, s'.all, s'.hist, s'.sent, i, s'.ds[i], s'.at[i])
  {
    hide Core, Chain, Stable, Leaves, Ready, NumSent, Created, VisitPre, HandleToken, Arq, HistOK, NetworkOK, DaemonsOK, RequestsOK, CastOK;
    TurnPre(w, s, i, t);
    TurnExtends(w, s, i, t, offer);
    TurnAru(w, s, i, t, offer);
    TurnTop(w, s, i, t);
    QueueFresh(w.ring, s.all, s.ds[i], t, offer);
    VisitKeeps(w.ring, s.all, s.ds[i], t, offer);
    TurnArq(w, s, i, t, offer);
    var s' := Accepted(w, s, i, t, offer);
    CoreBounds(s'.all, {}, s'.ds[i]);
  }

  lemma {:induction false} TurnTop(w: World, s: Rstate, i: int, t: Token)
    requires Turn(w, s, i, t)
    ensures s.hist[|s.hist| - 1].seqNo == |s.all| && s.ds[i].memb == w.memb
  {
    hide NetworkOK, RequestsOK, CastOK, Core, Chain, Arq, LastOK, QueueOK, Stable;
    assert DaemonOK(w, s.all, s.hist, s.sent, i, s.ds[i], s.at[i]);
  }

  lemma {:induction false} TurnArq(w: World, s: Rstate, i: int, t: Token, offer: seq<Payload>)
    requires Turn(w, s, i, t) && VisitPre(w.ring, s.all, s.ds[i], t) && s.ds[i].me == i
    ensures var u := Leaves(w.ring, s.ds[i], t, offer); u.from == i && u.arq == Arq(w, |s.sent|)
  {
    hide Core, Arq, DaemonsOK, RequestsOK, CastOK, NetworkOK, AnswerAll, OwnRequests;
    PreparedKeeps(w.ring, s.all, s.ds[i], t, offer);
    assert TokenOK(w, s, |s.sent| - 1);
    ArqStep(w, |s.sent| - 1);
  }

  lemma {:induction false} AcceptedHist(w: World, s: Rstate, i: int, t: Token, offer: seq<Payload>)
    requires Turn(w, s, i, t)
    ensures s.ds[i].me == i && ShapeOK(w, Accepted(w, s, i, t, offer)) && HistOK(w, Accepted(w, s, i, t, offer))
  {
    hide Core, Chain, Stable, Leaves, Ready, NumSent, Created, VisitPre, HandleToken, Arq, NetworkOK, DaemonsOK, RequestsOK, CastOK, DaemonOK, Fresher;
    VisitedOK(w, s, i, t, offer);
    TurnPre(w, s, i, t);
    TurnArq(w, s, i, t, offer);
    var s' := Accepted(w, s, i, t, offer);
    forall x | 0 <= x < |s'.hist| ensures TokenOK(w, s', x) {
      if x < |s.hist| { assert TokenOK(w, s, x); }
    }
  }

  lemma {:induction false} AcceptedDaemons(w: World, s: Rstate, i: int, t: Token, offer: seq<Payload>)
    requires Turn(w, s, i, t)
    ensures s.ds[i].me == i && ShapeOK(w, Accepted(w, s, i, t, offer)) && DaemonsOK(w, Accepted(w, s, i, t, offer))
  {
    hide Core, Chain, Stable, Leaves, Ready, NumSent, VisitPre, HandleToken, Arq, NetworkOK, RequestsOK, CastOK, HistOK, LastOK, QueueOK, Created;
    VisitedOK(w, s, i, t, offer);
    TurnPre(w, s, i, t);
    var s' := Accepted(w, s, i, t, offer);
    var v, u := NewVisit(w, s, i, t, offer), Leaves(w.ring, s.ds[i], t, offer);
    var more := Fresher(w.ring, s.all, s.ds[i], t, offer);
    forall j | 0 <= j < w.ring.n ensures DaemonOK(w, s'.all, s'.hist, s'.sent, j, s'.ds[j], s'.at[j]) {
      if j != i {
        assert DaemonOK(w, s.all, s.hist, s.sent, j, s.ds[j], s.at[j]);
        ExtendMany(s.all, s.ds[j], s.ds[i].me, s.ds[i].memb, offer, Min(|offer|, NumSent(s.ds[i], w.ring, t, offer)));
        OthersKeep(w, s.all, more, s.hist, v, s.sent, u, j, s.ds[j], s.at[j]);
      }
    }
  }

  // What a visit puts on the network are packets of the ring.
  lemma {:induction false} CastsKnown(ring: Ring, all: seq<Packet>, d: Dstate, t: Token, offer: seq<Payload>, p: Packet)
    requires VisitPre(ring, all, d, t) && Numbered(all)
    requires p in Answered(ring, d, t).casts + Ready(ring, d, t, offer).casts
    ensures var all' := all + Fresher(ring, all, d, t, offer);
            1 <= p.seqNo <= |all'| && p == all'[p.seqNo - 1]
  {
    QueueFresh(ring, all, d, t, offer);
    var more := Fresher(ring, all, d, t, offer);
    hide Prepared, NumSent, AnswerAll, LogOK;
    if p in Answered(ring, d, t).casts {
      RaiseKeeps(all, d, t);
      AnswerAllCasts(Raise(d, t), ring.seg[d.me], t.rtr, |t.rtr|, p);
      var q :| q in d.pk && !d.pk[q].Hole? && d.pk[q].p == p;
      assert SlotOK(all, {}, q, d.pk[q]);
    } else {
      var b := Ready(ring, d, t, offer);
      var x :| 0 <= x < |b.casts| && b.casts[x] == p;
      assert p == more[x];
    }
  }

  lemma {:induction false} AcceptedNetwork(w: World, s: Rstate, i: int, t: Token, offer: seq<Payload>)
    requires Turn(w, s, i, t)
    ensures s.ds[i].me == i && ShapeOK(w, Accepted(w, s, i, t, offer)) && NetworkOK(w, Accepted(w, s, i, t, offer))
  {
    hide Chain, Stable, Leaves, Ready, NumSent, HandleToken, Arq, RequestsOK, CastOK, HistOK, DaemonsOK, DaemonOK, Created, LogOK, BufferOK, Answered;
    VisitedOK(w, s, i, t, offer);
    TurnPre(w, s, i, t);
    TurnArq(w, s, i, t, offer);
    TurnAru(w, s, i, t, offer);
    VisitKeeps(w.ring, s.all, s.ds[i], t, offer);
    var s' := Accepted(w, s, i, t, offer);
    var o := HandleToken(w.ring, s.ds[i], t, offer);
    forall c | c in s'.tokens ensures CopyOK(w, s', c) {
      if c in s.tokens { assert CopyOK(w, s, c); }
    }
    forall p | p in s'.packets && p.memb == w.memb ensures 1 <= p.seqNo <= |s'.all| && p == s'.all[p.seqNo - 1] {
      if p !in s.packets {
        assert p in o.casts;
        CastsKnown(w.ring, s.all, s.ds[i], t, offer, p);
      }
    }
  }

  // The request list a daemon adds names only packets it misses.
  lemma {:induction false} OwnRequestsBounds(ring: Ring, d: Dstate, a: Answer, x: int, y: int)
    requires forall z :: 0 <= z < |a.foreign| ==> a.foreign[z].memb != d.memb
    requires 0 <= x < |OwnRequests(d, ring, a)| && OwnRequests(d, ring, a)[x].memb == d.memb
    requires 0 <= y < |OwnRequests(d, ring, a)[x].seqs|
    ensures d.myAru < OwnRequests(d, ring, a)[x].seqs[y] <= MaxRtrSeq(d, ring)
  {
    var m := MaxRtrSeq(d, ring);
    var r := OwnRequests(d, ring, a);
    assert x == |a.foreign|;
    MissingBounds(d.pk, d.myAru + 1, m, RoomFor(a.foreign), r[x].seqs[y]);
  }

  // Everything the list is computed from.
  lemma {:induction false} VisitRequests(ring: Ring, all: seq<Packet>, d: Dstate, t: Token, offer: seq<Payload>)
    requires VisitPre(ring, all, d, t)
    ensures var b, a := Ready(ring, d, t, offer).d, Answered(ring, d, t);
            && Leaves(ring, d, t, offer).rtr == OwnRequests(b, ring, a)
            && b.memb == d.memb
            && (forall z :: 0 <= z < |a.foreign| ==> a.foreign[z].memb != b.memb)
            && MaxRtrSeq(b, ring) == if ring.accelerated then d.last.seqNo else |all| + NumSent(d, ring, t, offer)
  {
    hide Core, Prepared, NumSent, OwnRequests, AnswerAll;
    PreparedKeeps(ring, all, d, t, offer);
    RaiseKeeps(all, d, t);
    NoHoles(all, Raise(d, t), t.rtr);
    RaiseRequests(d, t);
    AnswerAllNoFault(Raise(d, t), ring.seg[d.me], t.rtr, |t.rtr|);
  }

  lemma {:induction false} AcceptedRequests(w: World, s: Rstate, i: int, t: Token, offer: seq<Payload>)
    requires Turn(w, s, i, t)
    ensures s.ds[i].me == i && ShapeOK(w, Accepted(w, s, i, t, offer)) && RequestsOK(w, Accepted(w, s, i, t, offer))
  {
    hide Core, Chain, Stable, Leaves, Ready, NumSent, Created, VisitPre, HandleToken, Arq, NetworkOK, CastOK, QueueOK, Fresher, OwnRequests, MaxRtrSeq, Answered;
    VisitedOK(w, s, i, t, offer);
    TurnPre(w, s, i, t);
    TurnTop(w, s, i, t);
    TurnExtends(w, s, i, t, offer);
    VisitRequests(w.ring, s.all, s.ds[i], t, offer);
    var s' := Accepted(w, s, i, t, offer);
    var d, k := s.ds[i], |s.hist|;
    assert DaemonOK(w, s.all, s.hist, s.sent, i, d, s.at[i]);
    var b, a := Ready(w.ring, d, t, offer).d, Answered(w.ring, d, t);
    var rtr := s'.sent[k].rtr;
    assert rtr == OwnRequests(b, w.ring, a);
    assert d.last.seqNo == SeqAt(s.hist, k - w.ring.n) <= |s.all| by {
      if 0 < k - w.ring.n {
        assert TokenOK(w, s, k - w.ring.n);
        SeqMonotone(false, w.ring.n, s.hist, k - w.ring.n, k - 1);
      }
    }
    forall x, y | 0 <= x < |rtr| && rtr[x].memb == w.memb && 0 <= y < |rtr[x].seqs|
      ensures s'.hist[k].my < rtr[x].seqs[y] <= |s'.all|
      ensures w.ring.accelerated ==> rtr[x].seqs[y] <= SeqAt(s'.hist, k - w.ring.n)
    {
      OwnRequestsBounds(w.ring, b, a, x, y);
    }
  }

  lemma {:induction false} AcceptedCasts(w: World, s: Rstate, i: int, t: Token, offer: seq<Payload>)
    requires Turn(w, s, i, t)
    ensures s.ds[i].me == i && CastOK(w, Accepted(w, s, i, t, offer))
  {
    hide Core, Chain, Stable, Leaves, Ready, NumSent, Created, VisitPre, HandleToken, Arq, NetworkOK, RequestsOK, DaemonsOK, HistOK, Fresher, Answered;
    VisitedOK(w, s, i, t, offer);
    TurnPre(w, s, i, t);
    TurnTop(w, s, i, t);
    TurnExtends(w, s, i, t, offer);
    TurnAru(w, s, i, t, offer);
    VisitKeeps(w.ring, s.all, s.ds[i], t, offer);
    QueueFresh(w.ring, s.all, s.ds[i], t, offer);
    var s' := Accepted(w, s, i, t, offer);
    var o := HandleToken(w.ring, s.ds[i], t, offer);
    var b := Ready(w.ring, s.ds[i], t, offer);
    var more := Fresher(w.ring, s.all, s.ds[i], t, offer);
    forall k | 0 <= k < |s'.all|
      ensures s'.all[k].memb == w.memb && (s'.all[k] in s'.packets || Waiting(s', s'.all[k]))
    {
      if k < |s.all| {
        if s.all[k] !in s.packets {
          var j :| 0 <= j < |s.ds| && s.all[k] in s.ds[j].queue;
          assert j != i && s'.ds[j] == s.ds[j];
        }
      } else {
        var p := more[k - |s.all|];
        assert s'.all[k] == p;
        if p in b.casts {
          assert p in o.casts;
        } else {
          assert p in b.d.queue && s'.ds[i].queue == b.d.queue;
        }
      }
    }
  }

  lemma {:induction false} AcceptKeeps(w: World, s: Rstate, i: int, t: Token, offer: seq<Payload>)
    requires Turn(w, s, i, t)
    ensures s.ds[i].me == i && Inv(w, Accepted(w, s, i, t, offer))
  {
    hide HistOK, NetworkOK, DaemonsOK, RequestsOK, CastOK, Accepted, Turn;
    AcceptedHist(w, s, i, t, offer);
    AcceptedNetwork(w, s, i, t, offer);
    AcceptedDaemons(w, s, i, t, offer);
    AcceptedRequests(w, s, i, t, offer);
    AcceptedCasts(w, s, i, t, offer);
  }
}
