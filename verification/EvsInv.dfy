// The invariant of a ring in recovery, and its proof step by step.
module EvsInv {
  import opened Types
  import opened RingArith
  import opened TokenHistory
  import opened Protocol
  import opened Delivery
  import opened TokenVisit
  import opened Form
  import opened FormRecords
  import opened Evs
  import opened FormEvs
  import opened EvsVisit
  import opened OpRing
  import opened OpInv
  import opened OpWindows
  import opened EvsRing

  ghost predicate ETokenOK(v: Recovery, s: Estate, t: int)
    requires EShapeOK(v, s) && 0 <= t < |s.sent| == |s.hist|
  {
    && s.hist[t] == Visit(0, s.sent[t].aru, s.sent[t].aruLast, s.hist[t].my) && s.sent[t].seqNo == 0
    && s.sent[t].from == t % v.w.ring.n && s.sent[t].arq == Arq(v.w, t)
  }

  // The daemon of visit t had not reached `last` at its visit before that one.
  ghost predicate NotYet(n: int, h: seq<Visit>, last: int, t: int) {
    0 < n && t - n < |h| && Stable(n, h, t - n) != last
  }

  ghost predicate EHistOK(v: Recovery, s: Estate)
    requires EShapeOK(v, s)
  {
    && Chain(true, v.w.ring.n, s.hist)
    && (forall t :: 0 <= t < |s.hist| ==> ETokenOK(v, s, t))
    && s.hist[0] == Visit(0, INT32_MAX, -1, 0)
    && (forall t :: 1 <= t < |s.hist| ==> s.hist[t].my <= v.last && NotYet(v.w.ring.n, s.hist, v.last, t))
  }

  ghost predicate ECopyOK(v: Recovery, s: Estate, c: Copy)
    requires EShapeOK(v, s)
  {
    && 0 <= c.visit < |s.sent| && SameToken(c.token, s.sent[c.visit])
    && c.token.from == c.visit % v.w.ring.n && c.token.arq == Arq(v.w, c.visit)
  }

  ghost predicate ENetworkOK(v: Recovery, s: Estate)
    requires EShapeOK(v, s)
  {
    && (forall c :: c in s.tokens ==> ECopyOK(v, s, c))
    && (forall p :: p in s.packets ==> PacketOK(v, p))
  }

  // A daemon in recovery.
  ghost predicate Behind(v: Recovery, i: int, d: Dstate)
    requires RecoveryOK(v) && 0 <= i < |v.olds|
  {
    var o := v.olds[i];
    && d.me == i && d.memb == o.r.memb && d.future == v.w.memb && d.lastSeq == v.last
    && Recovering(o.all, d, o.r) && Pace(d, o.r) && BelowHoles(o.r.holes, d.delivered)
  }

  ghost predicate ELastOK(v: Recovery, sent: seq<Token>, d: Dstate, a: int)
    requires RecoveryOK(v) && a < |sent|
  {
    && d.last.seqNo == 0 && d.last.arq == Arq(v.w, a)
    && (if 1 <= a then SameToken(d.last, sent[a]) else LastAru(d) == 0)
    && d.queue == [] && d.numSent == 0 <= d.numRetrans
  }

  // Daemon i, which last handled the token at visit a.  It has installed the
  // new membership exactly if the Aru it computed then was Last_seq.
  ghost predicate EDaemonOK(v: Recovery, h: seq<Visit>, sent: seq<Token>, i: int, d: Dstate, a: int)
    requires RecoveryOK(v) && 0 <= i < |v.olds|
  {
    && |h| == |sent| && |h| - v.w.ring.n <= a < |h| && a % v.w.ring.n == i
    && ELastOK(v, sent, d, a)
    && (if Stable(v.w.ring.n, h, a) == v.last
        then 1 <= a && Installed(v.olds[i].all, v.olds[i].r, d, i, v.w.memb)
        else Behind(v, i, d) && d.aru == Stable(v.w.ring.n, h, a) && MyAt(h, a) <= d.myAru
             && (1 <= a ==> !d.justInstalled))
  }

  ghost predicate EDaemonsOK(v: Recovery, s: Estate)
    requires EShapeOK(v, s)
  {
    forall i :: 0 <= i < v.w.ring.n ==> EDaemonOK(v, s.hist, s.sent, i, s.ds[i], s.at[i])
  }

  // A request for packet q of ring memb comes from the latest visit to one of
  // that ring's daemons, which missed it.
  ghost predicate AskedBy(v: Recovery, h: seq<Visit>, memb: MembId, q: int, t: int)
    requires RecoveryOK(v)
  {
    && 1 <= t < |h| && |h| - 1 - v.w.ring.n < t
    && 0 <= t % v.w.ring.n < |v.olds| && v.olds[t % v.w.ring.n].r.memb == memb
    && h[t].my < q <= v.olds[t % v.w.ring.n].r.highest && q !in v.olds[t % v.w.ring.n].r.holes
    && forall u :: t < u < |h| ==> 0 <= u % v.w.ring.n < |v.olds| && v.olds[u % v.w.ring.n].r.memb != memb
  }

  ghost predicate IsAsked(v: Recovery, h: seq<Visit>, memb: MembId, q: int)
    requires RecoveryOK(v)
  {
    exists t :: AskedBy(v, h, memb, q, t)
  }

  ghost predicate ERequestsOK(v: Recovery, s: Estate)
    requires EShapeOK(v, s)
  {
    var rtr := s.sent[|s.sent| - 1].rtr;
    forall x, y :: 0 <= x < |rtr| && 0 <= y < |rtr[x].seqs| ==> IsAsked(v, s.hist, rtr[x].memb, rtr[x].seqs[y])
  }

  // Lists of requests only come from rings that take part.
  ghost predicate EOwnersOK(v: Recovery, s: Estate)
    requires EShapeOK(v, s)
  {
    var rtr := s.sent[|s.sent| - 1].rtr;
    forall x :: 0 <= x < |rtr| ==> rtr[x].memb != v.w.memb
  }

  ghost predicate EFlowOK(s: Estate) {
    |s.sent| >= 1 && s.sent[|s.sent| - 1].flowControl == SumFlow(s.ds)
  }

  ghost predicate EInv(v: Recovery, s: Estate) {
    && EShapeOK(v, s)
    && EHistOK(v, s)
    && ENetworkOK(v, s)
    && EDaemonsOK(v, s)
    && ERequestsOK(v, s)
    && EOwnersOK(v, s)
    && EFlowOK(s)
  }

  // ------------------------------------------------- which token gets accepted

  lemma {:induction false} EAcceptedIsNext(v: Recovery, s: Estate, i: int, c: Copy)
    requires EShapeOK(v, s) && 0 <= i < v.w.ring.n && ECopyOK(v, s, c)
    requires EDaemonOK(v, s.hist, s.sent, i, s.ds[i], s.at[i])
    requires Judge(s.ds[i], v.w.ring, c.token) == Accept && ERecent(v, s, i, c)
    ensures c.visit == |s.sent| - 1 && |s.sent| % v.w.ring.n == i && s.at[i] == |s.sent| - v.w.ring.n
    ensures SameToken(c.token, s.sent[|s.sent| - 1])
  {
    hide Stable, Installed, Behind, Arq, Turns;
    var a := s.at[i];
    MeOf(v, s.hist, s.sent, i, s.ds[i], a);
    Predecessor(v.w, a);
    ArqAround(v.w, a);
    OnlyNext(v.w, a, c.visit);
  }

  lemma {:induction false} MeOf(v: Recovery, h: seq<Visit>, sent: seq<Token>, i: int, d: Dstate, a: int)
    requires RecoveryOK(v) && 0 <= i < |v.olds| && EDaemonOK(v, h, sent, i, d, a)
    ensures d.me == i
    ensures d.evs <==> Stable(v.w.ring.n, h, a) != v.last
    ensures d.evs ==> Behind(v, i, d)
  {
  }

  // --------------------------------------------------- the daemon that is visited

  ghost predicate ETurn(v: Recovery, s: Estate, i: int, t: Token) {
    && EInv(v, s) && 0 <= i < v.w.ring.n
    && |s.sent| % v.w.ring.n == i && s.at[i] == |s.sent| - v.w.ring.n
    && SameToken(t, s.sent[|s.sent| - 1]) && s.ds[i].evs
  }

  lemma {:induction false} Asked(v: Recovery, s: Estate, i: int, t: Token, x: int, y: int)
    requires ETurn(v, s, i, t) && 0 <= x < |t.rtr| && 0 <= y < |t.rtr[x].seqs| && t.rtr[x].memb == v.olds[i].r.memb
    ensures s.at[i] < |s.hist| && Stable(v.w.ring.n, s.hist, s.at[i]) <= t.rtr[x].seqs[y] && t.rtr[x].seqs[y] !in v.olds[i].r.holes
  {
    hide EDaemonsOK, ENetworkOK, EOwnersOK, EFlowOK, Stable, Arq;
    var n, k, q := v.w.ring.n, |s.hist| - 1, t.rtr[x].seqs[y];
    assert t.rtr == s.sent[k].rtr;
    assert IsAsked(v, s.hist, t.rtr[x].memb, q);
    var o :| AskedBy(v, s.hist, t.rtr[x].memb, q, o);
    assert v.olds[o % n] == v.olds[i];
    StableMonotone(true, n, s.hist, s.at[i], k);
    StableBelowMy(true, n, s.hist, k, o);
  }

  lemma {:induction false} ETurnPre(v: Recovery, s: Estate, i: int, t: Token)
    requires ETurn(v, s, i, t)
    ensures EvsPre(v.w.ring, v.olds[i].all, v.olds[i].r, s.ds[i], t) && Behind(v, i, s.ds[i])
    ensures s.ds[i].aru == Stable(v.w.ring.n, s.hist, s.at[i])
  {
    hide ENetworkOK, EOwnersOK, EFlowOK, Stable, Arq, ERequestsOK, ELastOK, Core, AskedBy;
    var d, o := s.ds[i], v.olds[i];
    assert EDaemonOK(v, s.hist, s.sent, i, d, s.at[i]);
    MeOf(v, s.hist, s.sent, i, d, s.at[i]);
    assert ETokenOK(v, s, |s.sent| - 1);
    forall x, y | 0 <= x < |t.rtr| && t.rtr[x].memb == d.memb && 0 <= y < |t.rtr[x].seqs|
      ensures d.aru <= t.rtr[x].seqs[y] && (t.rtr[x].seqs[y] in d.pk ==> !d.pk[t.rtr[x].seqs[y]].Hole?)
    {
      Asked(v, s, i, t, x, y);
      if t.rtr[x].seqs[y] in d.pk { EntryIs(o.all, ToSet(o.r.holes), d, t.rtr[x].seqs[y]); }
    }
  }

  function ENewVisit(v: Recovery, s: Estate, i: int, t: Token): Visit
    requires 0 <= i < |s.ds| && 0 <= s.ds[i].me < |v.w.ring.seg|
  {
    var u := Sent(v.w.ring, s.ds[i], t);
    Visit(u.seqNo, u.aru, u.aruLast, Complete(Kept(v.w.ring, s.ds[i], t)).myAru)
  }

  lemma {:induction false} ETurnExtends(v: Recovery, s: Estate, i: int, t: Token)
    requires ETurn(v, s, i, t) && s.ds[i].me == i
    ensures Chain(true, v.w.ring.n, s.hist + [ENewVisit(v, s, i, t)])
    ensures ENewVisit(v, s, i, t).seqNo == 0 && ENewVisit(v, s, i, t).my <= v.last
  {
    hide ENetworkOK, EOwnersOK, EFlowOK, Stable, Arq, ERequestsOK, Core, AskedBy, Kept, OwnRequests, AnswerAll, EvsPre;
    ETurnPre(v, s, i, t);
    var d, k := s.ds[i], |s.hist| - 1;
    assert EDaemonOK(v, s.hist, s.sent, i, d, s.at[i]);
    assert ETokenOK(v, s, k);
    KeptPace(v.w.ring, v.olds[i].all, v.olds[i].r, d, t);
    Extend(true, v.w.ring.n, s.hist, ENewVisit(v, s, i, t));
  }
}
