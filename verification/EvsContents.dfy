// What recovery delivers of the old ring, packet by packet, and on which side of
// the transitional signal.
module EvsContents {
  import opened Types
  import opened RingArith
  import opened Protocol
  import opened Delivery
  import opened Form
  import opened FormRecords
  import opened Evs
  import opened FormEvs
  import opened EvsVisit
  import opened OpRing
  import opened EvsRing
  import opened EvsInv
  import opened EvsSafety
  import opened EvsTheorems

  // Packet p has been delivered before a transitional membership.
  ghost predicate BeforeSignal(log: seq<Event>, p: Packet) {
    exists y :: 0 <= y < |log| && log[y].TransMemb? && Msg(p) in log[..y]
  }

  lemma {:induction false} BeforeMore(log: seq<Event>, e: Event, p: Packet)
    ensures BeforeSignal(log + [e], p) <==> BeforeSignal(log, p) || (e.TransMemb? && Msg(p) in log)
  {
    var l := log + [e];
    assert l[..|log|] == log;
    if BeforeSignal(l, p) {
      var y :| 0 <= y < |l| && l[y].TransMemb? && Msg(p) in l[..y];
      if y < |log| { assert log[y] == l[y] && log[..y] == l[..y]; }
    }
    if BeforeSignal(log, p) {
      var y :| 0 <= y < |log| && log[y].TransMemb? && Msg(p) in log[..y];
      assert l[y] == log[y] && l[..y] == log[..y];
    }
    if e.TransMemb? && Msg(p) in log { assert l[|log|] == e; }
  }

  // Early packets left out, the others are where they were.
  lemma {:induction false} OthersStay(log: seq<Event>, p: Packet)
    requires !p.Early()
    ensures Msg(p) in InOrder(log) <==> Msg(p) in log
    ensures BeforeSignal(InOrder(log), p) <==> BeforeSignal(log, p)
    decreases |log|
  {
    hide BeforeSignal;
    if log != [] {
      var less, e := log[..|log| - 1], log[|log| - 1];
      assert log == less + [e];
      OthersStay(less, p);
      BeforeMore(less, e, p);
      InOrderAppend(less, e);
      if e.Msg? && e.p.Early() {
        assert InOrder(less) + [] == InOrder(less);
      } else {
        BeforeMore(InOrder(less), e, p);
      }
    }
  }

  lemma {:induction false} OrderedHas(all: seq<Packet>, k: int, s: int)
    requires k <= |all| && Numbered(all) && 1 <= s <= |all| && !all[s - 1].Early()
    ensures Msg(all[s - 1]) in Ordered(all, k) <==> s <= k
  {
    if k > 0 {
      OrderedHas(all, k - 1, s);
      assert all[k - 1].seqNo == k && all[s - 1].seqNo == s;
    }
  }

  lemma {:induction false} RestHas(all: seq<Packet>, holes: set<int>, commit: seq<int>, from: int, top: int, found: bool, s: int)
    requires 1 <= from && top <= |all| && Numbered(all) && 1 <= s <= |all| && !all[s - 1].Early()
    ensures Msg(all[s - 1]) in Rest(all, holes, commit, from, top, found) <==>
              from <= s <= top && s !in holes && (all[s - 1].sender in commit || (!found && forall h :: from <= h < s ==> h !in holes))
    decreases top - from
  {
    hide Rest;
    RestUnfold(all, holes, commit, from, top, found);
    if from <= top {
      RestHas(all, holes, commit, from + 1, top, found || from in holes, s);
      assert all[from - 1].seqNo == from && all[s - 1].seqNo == s;
      if from < s && forall h :: from + 1 <= h < s ==> h !in holes {
        assert from !in holes ==> forall h :: from <= h < s ==> h !in holes;
      }
    }
  }

  lemma {:induction false} NoneBeforeAnother(a: seq<Event>, m: set<int>, b: seq<Event>, id: MembId, p: Packet)
    requires (forall e :: e in a ==> e.Msg?) && forall e :: e in b ==> e.Msg?
    ensures var l := a + [TransMemb(m)] + b + [RegMemb(id)];
            && (Msg(p) in l <==> Msg(p) in a || Msg(p) in b)
            && (BeforeSignal(l, p) <==> Msg(p) in a)
  {
    var l := a + [TransMemb(m)] + b + [RegMemb(id)];
    assert l[|a|] == TransMemb(m) && l[..|a|] == a;
    forall y | 0 <= y < |l| && y != |a| ensures !l[y].TransMemb? {
      if y < |a| { assert l[y] in a; }
      if |a| < y < |l| - 1 { assert l[y] == b[y - |a| - 1] && b[y - |a| - 1] in b; }
    }
  }

  lemma {:induction false} OrderedMessages(all: seq<Packet>, k: int)
    requires k <= |all|
    ensures forall e :: e in Ordered(all, k) ==> e.Msg?
  {
    if k > 0 { OrderedMessages(all, k - 1); }
  }

  lemma {:induction false} RestMessages(all: seq<Packet>, holes: set<int>, commit: seq<int>, s: int, top: int, found: bool)
    requires top <= |all|
    ensures forall e :: e in Rest(all, holes, commit, s, top, found) ==> e.Msg?
    decreases top - s
  {
    if 1 <= s <= top { RestMessages(all, holes, commit, s + 1, top, found || s in holes); }
  }

  // The holes and the cut, as the record has them.
  lemma {:induction false} CutIs(all: seq<Packet>, r: RingInfo, s: int)
    requires 0 <= r.aru <= r.highest <= |all| && 1 <= s <= r.highest && forall h :: h in r.holes ==> r.aru < h
    ensures var c := Cut(all, ToSet(r.holes), r.aru + 1, r.highest);
            && 1 <= c <= |all| + 1
            && (s < c <==> forall q :: r.aru < q <= s ==> q !in r.holes && !SafeAt(all, q))
            && (s < c ==> s !in r.holes && forall h :: h in r.holes ==> s < h)
            && (c <= s && s !in r.holes ==>
                  ((forall h :: c <= h < s ==> h !in ToSet(r.holes)) <==> forall h :: h in r.holes ==> s < h))
  {
    var holes := ToSet(r.holes);
    var c := Cut(all, holes, r.aru + 1, r.highest);
    forall h ensures h in holes <==> h in r.holes { }
    forall h | h in r.holes ensures c <= h { }
    if c <= s && s !in r.holes && forall h :: c <= h < s ==> h !in holes {
      forall h | h in r.holes ensures s < h { }
    }
  }

  // What the reference log holds.
  lemma {:induction false} EvsLogHas(all: seq<Packet>, r: RingInfo, id: MembId, s: int)
    requires 0 <= r.aru <= r.highest <= |all| && Numbered(all) && 1 <= s <= r.highest && !all[s - 1].Early()
    requires forall h :: h in r.holes ==> r.aru < h
    ensures Msg(all[s - 1]) in EvsLog(all, r, id) <==>
              s !in r.holes && ((forall h :: h in r.holes ==> s < h) || all[s - 1].sender in r.commit)
    ensures BeforeSignal(EvsLog(all, r, id), all[s - 1]) <==> forall q :: r.aru < q <= s ==> q !in r.holes && !SafeAt(all, q)
  {
    hide Ordered, Rest, BeforeSignal, TransMembers, Cut;
    var holes := ToSet(r.holes);
    var c := Cut(all, holes, r.aru + 1, r.highest);
    CutIs(all, r, s);
    OrderedMessages(all, c - 1);
    RestMessages(all, holes, r.commit, c, r.highest, false);
    NoneBeforeAnother(Ordered(all, c - 1), TransMembers(CommitSet(r.commit, r.trans)), Rest(all, holes, r.commit, c, r.highest, false), id, all[s - 1]);
    OrderedHas(all, c - 1, s);
    RestHas(all, holes, r.commit, c, r.highest, false, s);
  }

  // What a daemon enters recovery with.
  lemma {:induction false} RecordFits(v: Recovery, ss: seq<Estate>, i: int)
    requires ERun(v, ss) && 0 <= i < v.w.ring.n
    ensures |v.olds| == v.w.ring.n
    ensures var r, all := v.olds[i].r, v.olds[i].all;
            0 <= r.aru <= r.highest <= |all| && Numbered(all) && forall h :: h in r.holes ==> r.aru < h
  {
    assert Entered(v, i, ss[0].ds[i], ss[0].at[i]);
  }

  // In every run of recovery a daemon that has installed the membership has
  // delivered exactly these packets of its old ring in order: all that are no
  // holes, but beyond the first hole only those of the members that committed.
  lemma {:induction false} DeliveredIff(v: Recovery, ss: seq<Estate>, k: nat, i: int, s: int)
    requires ERun(v, ss) && k < |ss| && 0 <= i < v.w.ring.n && |ss[k].ds| == |v.olds| == v.w.ring.n && !ss[k].ds[i].evs
    requires 1 <= s <= v.olds[i].r.highest <= |v.olds[i].all| && !v.olds[i].all[s - 1].Early()
    ensures var r, p := v.olds[i].r, v.olds[i].all[s - 1];
            Msg(p) in ss[k].ds[i].log <==> s !in r.holes && ((forall h :: h in r.holes ==> s < h) || p.sender in r.commit)
  {
    hide ERun, EInv, EvsLog, BeforeSignal;
    ERunInv(v, ss, k);
    InstalledAt(v, ss[k], i);
    RecordFits(v, ss, i);
    EvsLogHas(v.olds[i].all, v.olds[i].r, v.w.memb, s);
    OthersStay(ss[k].ds[i].log, v.olds[i].all[s - 1]);
  }

  // And it has delivered before the transitional signal what comes before the
  // first hole and before the first SAFE packet that nobody knew to be stable.
  lemma {:induction false} BeforeSignalIff(v: Recovery, ss: seq<Estate>, k: nat, i: int, s: int)
    requires ERun(v, ss) && k < |ss| && 0 <= i < v.w.ring.n && |ss[k].ds| == |v.olds| == v.w.ring.n && !ss[k].ds[i].evs
    requires 1 <= s <= v.olds[i].r.highest <= |v.olds[i].all| && !v.olds[i].all[s - 1].Early()
    ensures var r, all := v.olds[i].r, v.olds[i].all;
            BeforeSignal(ss[k].ds[i].log, all[s - 1]) <==> forall q :: r.aru < q <= s ==> q !in r.holes && !SafeAt(all, q)
  {
    hide ERun, EInv, EvsLog, BeforeSignal;
    ERunInv(v, ss, k);
    InstalledAt(v, ss[k], i);
    RecordFits(v, ss, i);
    EvsLogHas(v.olds[i].all, v.olds[i].r, v.w.memb, s);
    OthersStay(ss[k].ds[i].log, v.olds[i].all[s - 1]);
  }

  // So a SAFE packet delivered before the signal is one that every member of the
  // old ring whom the FORM1 token found had by then, holes or not.
  lemma {:induction false} SafeBeforeSignal(v: Recovery, ss: seq<Estate>, k: nat, i: int, s: int, ms: seq<Dstate>, ids: set<int>, y: int)
    requires ERun(v, ss) && k < |ss| && 0 <= i < v.w.ring.n && |ss[k].ds| == |v.olds| == v.w.ring.n && !ss[k].ds[i].evs
    requires Visitable(ms, ids) && RecordOK(ms, v.olds[i].r, ids) && 0 <= y < |ms|
    requires 1 <= s <= v.olds[i].r.highest <= |v.olds[i].all| && SafeAt(v.olds[i].all, s) && BeforeSignal(ss[k].ds[i].log, v.olds[i].all[s - 1])
    ensures s <= ms[y].myAru
  {
    hide ERun, BeforeSignal;
    BeforeSignalIff(v, ss, k, i, s);
    var r := v.olds[i].r;
    assert s <= r.aru;
    var x :| 0 <= x < |ms| && ms[x].aru == r.aru;
    assert ms[x].memb == ms[y].memb;
  }

  // What a daemon that the FORM1 token found has sent on the old ring, every
  // daemon of that ring delivers that installs the next membership: holes of
  // others do not keep it from anybody.
  lemma {:induction false} SentIsDelivered(v: Recovery, ss: seq<Estate>, k: nat, i: int, s: int, ms: seq<Dstate>, ids: set<int>, y: int)
    requires ERun(v, ss) && k < |ss| && 0 <= i < v.w.ring.n && |ss[k].ds| == |v.olds| == v.w.ring.n && !ss[k].ds[i].evs
    requires RecordOK(ms, v.olds[i].r, ids) && 0 <= y < |ms| && KeepsOwn(v.olds[i].all, ms[y])
    requires 1 <= s <= v.olds[i].r.highest <= |v.olds[i].all| && v.olds[i].all[s - 1].sender == ms[y].me && !v.olds[i].all[s - 1].Early()
    ensures Msg(v.olds[i].all[s - 1]) in ss[k].ds[i].log
  {
    hide ERun;
    DeliveredIff(v, ss, k, i, s);
    var r := v.olds[i].r;
    assert HasNumber(ms[y], s);
    assert r.commit[..r.trans][y] == ms[y].me;
  }
}
