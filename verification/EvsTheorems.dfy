// What recovery guarantees, for every run of it.
module EvsTheorems {
  import opened Types
  import opened RingArith
  import opened TokenHistory
  import opened Protocol
  import opened Delivery
  import opened TokenVisit
  import opened Form
  import opened FormRecords
  import opened Evs
  import opened FormEvs
  import opened EvsVisit
  import opened OpRing
  import opened OpInv
  import opened OpWindows
  import opened EvsRing
  import opened EvsInv
  import opened EvsSafety

  // ------------------------------------------------------- recovery is complete

  // A daemon that has installed the membership computed Aru == Last_seq.
  lemma {:induction false} InstalledAt(v: Recovery, s: Estate, i: int)
    requires EInv(v, s) && 0 <= i < v.w.ring.n && !s.ds[i].evs
    ensures 1 <= s.at[i] < |s.hist| && Stable(v.w.ring.n, s.hist, s.at[i]) == v.last
    ensures Installed(v.olds[i].all, v.olds[i].r, s.ds[i], i, v.w.memb)
  {
    hide EHistOK, ENetworkOK, ERequestsOK, EOwnersOK, EFlowOK, Stable, Arq;
    EPart(v, s, i);
  }

  // Aru == Last_seq at one daemon forces My_aru == Last_seq at every other.
  lemma {:induction false} AllReached(v: Recovery, s: Estate, i: int, j: int)
    requires EInv(v, s) && 0 <= i < v.w.ring.n && 0 <= j < v.w.ring.n && !s.ds[i].evs
    ensures 1 <= s.at[j] < |s.hist| && s.hist[s.at[j]].my == v.last
  {
    hide ENetworkOK, ERequestsOK, EOwnersOK, EFlowOK, Stable, Arq, Chain, Installed, Behind;
    InstalledAt(v, s, i);
    EPart(v, s, j);
    var n, k := v.w.ring.n, |s.hist| - 1;
    StableMonotone(true, n, s.hist, s.at[i], k);
    StableShort(n, s.hist, k);
    StableBelowMy(true, n, s.hist, k, s.at[j]);
  }

  lemma {:induction false} StableShort(n: int, h: seq<Visit>, k: int)
    requires 0 < n && k < |h|
    ensures Stable(n, h, k) != 0 ==> n < k
  {
  }

  // No daemon installs the new membership, delivering what is left of its old
  // ring, before every daemon of the new membership holds everything of its own
  // old ring that is not a hole and has committed.
  lemma {:induction false} RecoveryCompleteness(v: Recovery, ss: seq<Estate>, k: nat, i: int, j: int)
    requires ERun(v, ss) && k < |ss| && 0 <= i < v.w.ring.n && 0 <= j < v.w.ring.n
    ensures |ss[k].ds| == |v.olds| == v.w.ring.n
    ensures var d := ss[k].ds[j];
            !ss[k].ds[i].evs ==>
              if d.evs then Recovering(v.olds[j].all, d, v.olds[j].r) && Done(d, v.olds[j].r)
              else Installed(v.olds[j].all, v.olds[j].r, d, j, v.w.memb)
  {
    ERunInv(v, ss, k);
    hide ERun, ENetworkOK, ERequestsOK, EOwnersOK, EFlowOK, Stable, Arq, Chain, Installed, Recovering;
    var s := ss[k];
    if !s.ds[i].evs {
      AllReached(v, s, i, j);
      if s.ds[j].evs {
        EPart(v, s, j);
        MeOf(v, s.hist, s.sent, j, s.ds[j], s.at[j]);
        RecoveringTop(v.olds[j].all, s.ds[j], v.olds[j].r);
      } else {
        InstalledAt(v, s, j);
      }
    }
  }

  lemma {:induction false} RecoveringTop(all: seq<Packet>, d: Dstate, r: RingInfo)
    requires Recovering(all, d, r)
    ensures d.highest < d.lastSeq
  {
  }

  // Extended virtual synchrony: daemons of one old ring that have installed the
  // new membership have delivered the same packets of the old one in the same
  // order, with the transitional signal at the same place.
  lemma {:induction false} VirtualSynchrony(v: Recovery, ss: seq<Estate>, k: nat, i: int, j: int)
    requires ERun(v, ss) && k < |ss| && 0 <= i < v.w.ring.n && 0 <= j < v.w.ring.n
    ensures |ss[k].ds| == |v.olds| == v.w.ring.n
    ensures !ss[k].ds[i].evs && !ss[k].ds[j].evs && v.olds[i].r.memb == v.olds[j].r.memb ==>
              InOrder(ss[k].ds[i].log) == InOrder(ss[k].ds[j].log)
  {
    ERunInv(v, ss, k);
    hide ERun, ENetworkOK, ERequestsOK, EOwnersOK, EFlowOK, EHistOK, EDaemonsOK;
    if !ss[k].ds[i].evs && !ss[k].ds[j].evs && v.olds[i].r.memb == v.olds[j].r.memb {
      InstalledAt(v, ss[k], i);
      InstalledAt(v, ss[k], j);
    }
  }

  // No EXIT or FATAL branch is taken in recovery.
  lemma {:induction false} RecoveryNoFatal(v: Recovery, ss: seq<Estate>, k: nat, i: int)
    requires ERun(v, ss) && k < |ss| && 0 <= i < v.w.ring.n
    ensures |ss[k].ds| == v.w.ring.n && !ss[k].ds[i].fault
  {
    ERunInv(v, ss, k);
    hide ERun, ENetworkOK, ERequestsOK, EOwnersOK, EFlowOK, EHistOK, Stable;
    EPart(v, ss[k], i);
  }

  // -------------------------------------------- what the last token of EVS says

  // Facts about the newest token when it comes back to a daemon that installed
  // the membership at visit b.
  ghost predicate Returning(n: int, h: seq<Visit>, last: int, b: int) {
    && Chain(true, n, h) && 1 <= b && |h| == b + n && 0 < last < INT32_MAX
    && Stable(n, h, b) == last && h[0] == Visit(0, INT32_MAX, -1, 0)
    && (forall t :: 1 <= t < |h| ==> h[t].my <= last)
    && (forall t :: 1 <= t < |h| ==> NotYet(n, h, last, t))
  }

  lemma {:induction false} AruIsLast(n: int, h: seq<Visit>, last: int, b: int, t: int)
    requires Returning(n, h, last, b) && b - n <= t < |h|
    ensures n < b && 1 <= t && h[t].aru == last == h[t].my
  {
    hide Chain;
    StableShort(n, h, b);
    AruBelowMy(true, n, h, t);
    if t <= b {
      Window(true, n, h, b, t);
    } else {
      StableMonotone(true, n, h, b, t);
      StableBelowAru(n, h, t);
    }
  }

  lemma {:induction false} StableBelowAru(n: int, h: seq<Visit>, t: int)
    requires 0 < n < t < |h|
    ensures Stable(n, h, t) <= h[t].aru
  {
  }

  // The daemon that installed first is the one that raised the aru to Last_seq,
  // a round before.
  lemma {:induction false} Raiser(n: int, h: seq<Visit>, last: int, b: int)
    requires Returning(n, h, last, b)
    ensures n < b && h[b - n].last == b % n
  {
    AruIsLast(n, h, last, b, b - n);
    AruIsLast(n, h, last, b, b - 1);
    assert Link(true, n, h, b - n);
    OneRound(n, b);
    if n + 1 < b {
      assert NotYet(n, h, last, b - 1 + n);
      AruBelowMy(true, n, h, b - 1 - n);
    }
  }

  // And nobody else has overwritten it since.
  lemma {:induction false} RaiserStays(n: int, h: seq<Visit>, last: int, b: int, t: int)
    requires Returning(n, h, last, b) && b - n <= t < |h|
    ensures h[t].last == b % n
    decreases t
  {
    hide Stable;
    Raiser(n, h, last, b);
    if b - n < t {
      RaiserStays(n, h, last, b, t - 1);
      AruIsLast(n, h, last, b, t);
      AruIsLast(n, h, last, b, t - 1);
      assert Link(true, n, h, t);
    }
  }
}
