// Recovery comes to an end: when every daemon holds all that is to be had of its
// old ring, three more rounds of the token are the most that can follow.
module EvsProgress {
  import opened Types
  import opened RingArith
  import opened TokenHistory
  import opened Protocol
  import opened Delivery
  import opened TokenVisit
  import opened Form
  import opened FormRecords
  import opened Evs
  import opened FormEvs
  import opened EvsVisit
  import opened OpRing
  import opened OpInv
  import opened OpWindows
  import opened EvsRing
  import opened EvsInv
  import opened EvsSafety
  import opened FormAttempts

  // A daemon that misses nothing says so at its next visit.
  lemma {:induction false} CompletesAtOnce(ring: Ring, all: seq<Packet>, r: RingInfo, d: Dstate, t: Token)
    requires EvsPre(ring, all, r, d, t) && NothingMissing(d)
    ensures Complete(Kept(ring, d, t)).myAru == d.lastSeq
  {
    hide AnswerAll, LogOK, SlotOK;
    KeptPace(ring, all, r, d, t);
    if d.myAru <= d.highest { AdvanceTo(d.pk, d.myAru, d.highest, d.highest); }
  }

  // Every daemon has installed, or misses nothing, and each visit from a on says
  // that it has got everything.
  ghost predicate AllComplete(v: Recovery, s: Estate, a: int) {
    && (forall j :: 0 <= j < |s.ds| && s.ds[j].evs ==> NothingMissing(s.ds[j]))
    && (forall t :: 0 <= t && a <= t < |s.hist| ==> s.hist[t].my == v.last)
  }

  lemma {:induction false} AcceptCompletes(v: Recovery, s: Estate, i: int, t: Token, offer: seq<Payload>, a: int)
    requires ETurn(v, s, i, t) && (forall x :: 0 <= x && a <= x < |s.hist| ==> s.hist[x].my == v.last) && NothingMissing(s.ds[i])
    ensures s.ds[i].me == i
    ensures forall x :: 0 <= x && a <= x < |s.hist| + 1 == |EAccepted(v, s, i, t, offer).hist| ==> EAccepted(v, s, i, t, offer).hist[x].my == v.last
    ensures |EAccepted(v, s, i, t, offer).hist| == |s.hist| + 1
  {
    hide Core, Chain, Arq, EHistOK, ENetworkOK, EDaemonsOK, ERequestsOK, EOwnersOK, EFlowOK, Kept, Sent, Settle, Answered, EvsPre, Complete;
    EAcceptedIs(v, s, i, t, offer);
    ETurnPre(v, s, i, t);
    CompletesAtOnce(v.w.ring, v.olds[i].all, v.olds[i].r, s.ds[i], t);
    LastOf(v, s, i);
  }

  lemma {:induction false} LastOf(v: Recovery, s: Estate, i: int)
    requires RecoveryOK(v) && 0 <= i < |v.olds| && 0 <= i < |s.ds|
    ensures Behind(v, i, s.ds[i]) ==> s.ds[i].lastSeq == v.last && s.ds[i].discarded == v.olds[i].r.aru && s.ds[i].highest == v.olds[i].r.highest
  {
  }

  lemma {:induction false} StillComplete(v: Recovery, s: Estate, step: Estep, s': Estate, j: int)
    requires EInv(v, s) && EInv(v, s') && EStepFrom(v, s, step, s') && 0 <= j < v.w.ring.n
    requires |s.ds| == v.w.ring.n == |s'.ds|
    requires s.ds[j].evs ==> NothingMissing(s.ds[j])
    ensures s'.ds[j].evs ==> NothingMissing(s'.ds[j])
  {
    hide EInv, EStepFrom, Behind;
    StepTries(v, s, step, s', j);
    StillBehind(v, s, j);
    StillBehind(v, s', j);
    if s'.ds[j].evs {
      EShape(v, s);
      LastOf(v, s, j);
      LastOf(v, s', j);
      forall q | s'.ds[j].discarded < q <= s'.ds[j].highest ensures q in s'.ds[j].pk { assert q in s.ds[j].pk.Keys; }
    }
  }

  lemma {:induction false} EShape(v: Recovery, s: Estate)
    requires EInv(v, s)
    ensures RecoveryOK(v) && |v.olds| == |s.ds| == |s.at| == v.w.ring.n && |s.hist| == |s.sent|
  {
    hide EHistOK, ERequestsOK, EOwnersOK, EFlowOK, EDaemonsOK, ENetworkOK, Arq;
  }

  lemma {:induction false} StepCompletes(v: Recovery, s: Estate, step: Estep, s': Estate, a: int)
    requires EInv(v, s) && EInv(v, s') && EStepFrom(v, s, step, s') && AllComplete(v, s, a)
    ensures AllComplete(v, s', a)
  {
    hide EInv, Receive, Judge, ECopyOK, EDaemonOK, ERecent, EAccepted, NothingMissing;
    EShape(v, s);
    EShape(v, s');
    forall j | 0 <= j < |s'.ds| && s'.ds[j].evs ensures NothingMissing(s'.ds[j]) { StillComplete(v, s, step, s', j); }
    match step {
      case Take(i, c, offer) =>
        if Judge(s.ds[i], v.w.ring, c.token) == Accept {
          assert ECopyOK(v, s, c) && EDaemonOK(v, s.hist, s.sent, i, s.ds[i], s.at[i]) by { ESound(v, s, i, c); }
          EAcceptedIsNext(v, s, i, c);
          AcceptCompletes(v, s, i, c.token, offer, a);
        }
      case _ =>
    }
  }

  lemma {:induction false} ESound(v: Recovery, s: Estate, i: int, c: Copy)
    requires EInv(v, s) && 0 <= i < v.w.ring.n && c in s.tokens
    ensures ECopyOK(v, s, c) && EDaemonOK(v, s.hist, s.sent, i, s.ds[i], s.at[i])
  {
    hide EHistOK, ERequestsOK, EOwnersOK, EFlowOK, Arq;
    EPart(v, s, i);
  }

  lemma {:induction false} RunCompletes(v: Recovery, ss: seq<Estate>, l: nat, k: nat)
    requires ERun(v, ss) && l <= k < |ss| && AllComplete(v, ss[l], |ss[l].hist|)
    ensures AllComplete(v, ss[k], |ss[l].hist|)
    decreases k
  {
    hide EInit, EStepFrom, EInv, AllComplete;
    if l < k {
      RunCompletes(v, ss, l, k - 1);
      ERunInv(v, ss, k - 1);
      ERunInv(v, ss, k);
      assert ECanStep(v, ss[k - 1], ss[k]);
      var step :| EStepFrom(v, ss[k - 1], step, ss[k]);
      StepCompletes(v, ss[k - 1], step, ss[k], |ss[l].hist|);
    }
  }

  // From the moment at which every daemon has all packets of its old ring that are
  // no holes, or has installed the membership, the token is handled at most three
  // times n more in recovery: by then every daemon has installed, and the next
  // token it accepts is one of normal operation.
  lemma {:induction false} RecoveryEnds(v: Recovery, ss: seq<Estate>, l: nat, k: nat)
    requires ERun(v, ss) && l <= k < |ss|
    requires forall j :: 0 <= j < |ss[l].ds| && ss[l].ds[j].evs ==> NothingMissing(ss[l].ds[j])
    ensures |ss[k].sent| <= |ss[l].sent| + 3 * v.w.ring.n
  {
    hide ERun, EInv, NothingMissing;
    ERunInv(v, ss, l);
    ERunInv(v, ss, k);
    EShape(v, ss[l]);
    EShape(v, ss[k]);
    RunCompletes(v, ss, l, k);
    var n, a, h := v.w.ring.n, |ss[l].hist|, ss[k].hist;
    HistFacts(v, ss[l]);
    HistFacts(v, ss[k]);
    if a + 3 * n < |h| {
      assert NotYet(n, h, v.last, a + 3 * n);
      StableBelowMy(true, n, h, a + 2 * n, a + 2 * n);
      StableReaches(true, n, h, a, a + 2 * n, v.last);
    }
  }

  lemma {:induction false} HistFacts(v: Recovery, s: Estate)
    requires EInv(v, s)
    ensures 0 < v.w.ring.n && 1 <= |s.hist| && Chain(true, v.w.ring.n, s.hist) && s.hist[0].aru == INT32_MAX && v.last < INT32_MAX
    ensures forall t :: 1 <= t < |s.hist| ==> s.hist[t].my <= v.last && NotYet(v.w.ring.n, s.hist, v.last, t)
  {
    hide ERequestsOK, EOwnersOK, EFlowOK, EDaemonsOK, ENetworkOK, Arq, Chain, NotYet, ETokenOK;
  }
}
