// The transitional membership: which daemons a daemon is told it comes from its
// old ring with.
module EvsSignal {
  import opened Types
  import opened RingArith
  import opened Protocol
  import opened Delivery
  import opened Form
  import opened FormRecords
  import opened Evs
  import opened FormEvs
  import opened EvsVisit
  import opened OpRing
  import opened EvsRing
  import opened EvsInv
  import opened EvsSafety
  import opened EvsTheorems
  import opened FormToEvs
  import F = FormToken

  // The transitional memberships that a daemon has delivered.
  ghost function Signals(log: seq<Event>): seq<set<int>>
    decreases |log|
  {
    if log == [] then []
    else
      var e := log[|log| - 1];
      Signals(log[..|log| - 1]) + (if e.TransMemb? then [e.members] else [])
  }

  lemma {:induction false} SignalsMore(log: seq<Event>, e: Event)
    ensures Signals(log + [e]) == Signals(log) + (if e.TransMemb? then [e.members] else [])
  {
    assert (log + [e])[..|log|] == log;
  }

  lemma {:induction false} SignalsJoin(a: seq<Event>, b: seq<Event>)
    ensures Signals(a + b) == Signals(a) + Signals(b)
    decreases |b|
  {
    if b == [] {
      assert a + b == a;
    } else {
      var less, e := b[..|b| - 1], b[|b| - 1];
      SignalsJoin(a, less);
      SignalsMore(a + less, e);
      assert a + b == (a + less) + [e] && b == less + [e];
    }
  }

  lemma {:induction false} SignalsInOrder(log: seq<Event>)
    ensures Signals(InOrder(log)) == Signals(log)
    decreases |log|
  {
    if log != [] {
      var less, e := log[..|log| - 1], log[|log| - 1];
      SignalsInOrder(less);
      SignalsMore(InOrder(less), e);
      assert e.Msg? && e.p.Early() ==> InOrder(log) == InOrder(less) + [] == InOrder(less);
    }
  }

  lemma {:induction false} NoneOrdered(all: seq<Packet>, k: int)
    requires k <= |all|
    ensures Signals(Ordered(all, k)) == []
  {
    if k > 0 {
      NoneOrdered(all, k - 1);
      SignalsJoin(Ordered(all, k - 1), if all[k - 1].Early() then [] else [Msg(all[k - 1])]);
    }
  }

  lemma {:induction false} NoneInRest(all: seq<Packet>, holes: set<int>, commit: seq<int>, s: int, top: int, found: bool)
    requires top <= |all|
    ensures Signals(Rest(all, holes, commit, s, top, found)) == []
    decreases top - s
  {
    if 1 <= s <= top {
      NoneInRest(all, holes, commit, s + 1, top, found || s in holes);
      if s !in holes {
        SignalsJoin(if !all[s - 1].Early() && (!found || all[s - 1].sender in commit) then [Msg(all[s - 1])] else [],
                    Rest(all, holes, commit, s + 1, top, found));
      }
    }
  }

  lemma {:induction false} SignalsBetween(a: seq<Event>, m: set<int>, b: seq<Event>, id: MembId)
    requires Signals(a) == [] && Signals(b) == []
    ensures Signals(a + [TransMemb(m)] + b + [RegMemb(id)]) == [m]
  {
    SignalsMore(a, TransMemb(m));
    SignalsJoin(a + [TransMemb(m)], b);
    SignalsMore(a + [TransMemb(m)] + b, RegMemb(id));
  }

  lemma {:induction false} EvsLogSignals(all: seq<Packet>, r: RingInfo, id: MembId)
    requires r.highest <= |all| && 0 <= r.trans <= |r.commit|
    ensures Signals(EvsLog(all, r, id)) == [set m | m in r.commit[..r.trans]]
  {
    hide Ordered, Rest, Cut, Signals;
    var holes := ToSet(r.holes);
    var c := Cut(all, holes, r.aru + 1, r.highest);
    if c - 1 <= |all| { NoneOrdered(all, c - 1); }
    NoSignals();
    NoneInRest(all, holes, r.commit, c, r.highest, false);
    SignalsBetween(if c - 1 <= |all| then Ordered(all, c - 1) else [], TransMembers(CommitSet(r.commit, r.trans)),
                   Rest(all, holes, r.commit, c, r.highest, false), id);
  }

  lemma {:induction false} NoSignals()
    ensures Signals([]) == []
  {
  }

  // Every daemon that has installed has been told once, and it was told of the
  // members of its old ring on whose records the recovery rests.
  lemma {:induction false} ToldOfMembers(v: Recovery, ss: seq<Estate>, k: nat, i: int, ms: seq<Dstate>, ids: set<int>)
    requires ERun(v, ss) && k < |ss| && 0 <= i < v.w.ring.n && |ss[k].ds| == |v.olds| == v.w.ring.n && !ss[k].ds[i].evs
    requires RecordOK(ms, v.olds[i].r, ids)
    ensures Signals(ss[k].ds[i].log) == [set x | 0 <= x < |ms| :: ms[x].me]
  {
    ERunInv(v, ss, k);
    hide ERun, ENetworkOK, ERequestsOK, EOwnersOK, EFlowOK, EHistOK, EDaemonsOK, EvsLog;
    InstalledAt(v, ss[k], i);
    var r := v.olds[i].r;
    SignalsInOrder(ss[k].ds[i].log);
    EvsLogSignals(v.olds[i].all, r, v.w.memb);
    RecordedMembers(ms, r, ids);
  }

  lemma {:induction false} RecordedMembers(ms: seq<Dstate>, r: RingInfo, ids: set<int>)
    requires RecordOK(ms, r, ids)
    ensures 0 <= r.trans <= |r.commit| && (set m | m in r.commit[..r.trans]) == set x | 0 <= x < |ms| :: ms[x].me
  {
    var t := r.commit[..r.trans];
    forall m ensures m in t <==> exists x :: 0 <= x < |ms| && ms[x].me == m {
      if m in t {
        var x :| 0 <= x < |t| && t[x] == m;
        assert ms[x].me == m;
      }
      if x :| 0 <= x < |ms| && ms[x].me == m { assert t[x] == m; }
    }
  }

  // Whose record is on the token is on its list.
  lemma {:induction false} SeenListed(ds: seq<F.Daemon1>, memb: MembId, d: Dstate) returns (x: int)
    requires d in Seen(F.States(ds), memb)
    ensures 0 <= x < |ds| && ds[x].d == d && d.memb == memb && ds[x].id in F.Listed(ds)
    decreases |ds|
  {
    hide FillRings, FoldRings;
    var less, k := ds[..|ds| - 1], |ds| - 1;
    assert F.States(ds)[..k] == F.States(less) && F.States(ds)[k] == ds[k].d;
    if d in Seen(F.States(less), memb) {
      x := SeenListed(less, memb, d);
      assert less[x] == ds[x];
    } else {
      x := k;
    }
  }

  // For every journey of a FORM1 token, every run of recovery that follows, and
  // every daemon that has installed: it has been told of one transitional
  // membership, and in that are exactly those daemons of its old ring that are on
  // the list of the FORM2 token, all of which the token visited.
  lemma {:induction false} TransitionalMembership(w: World, all: seq<Packet>, ms: seq<Dstate>, ids: set<int>, names: seq<int>,
                                                  p: F.Places, c: F.Daemon1, vs: seq<F.Daemon1>, ts: seq<F.Token1>, f: F.Token1,
                                                  v: Recovery, ss: seq<Estate>, k: nat, i: int, j: int)
    requires F.Completed(p, c, vs, ts, f) && NamedBy(w, names, [c] + vs)
    requires Gathered(all, w.memb, ms, ids, F.States([c] + vs))
    requires ERun(v, ss) && k < |ss| && 0 <= i < v.w.ring.n && |ss[k].ds| == |v.olds| == v.w.ring.n && !ss[k].ds[i].evs
    requires RecordOf(w.memb, f.rings) == SomeRing(v.olds[i].r) && 0 <= j < w.ring.n
    ensures |Signals(ss[k].ds[i].log)| == 1
    ensures j in Signals(ss[k].ds[i].log)[0] <==> names[j] in f.members
    ensures j in Signals(ss[k].ds[i].log)[0] <==> exists x :: 0 <= x < |ms| && ms[x].me == j
    ensures j in Signals(ss[k].ds[i].log)[0] ==> exists y :: 0 <= y < |[c] + vs| && ([c] + vs)[y].id == names[j] && ([c] + vs)[y].d.memb == w.memb
  {
    hide ERun, Visitable, CommitsTo, Seen, Core, KeepsOwn, FoldRings, RecordOf, F.Completed, RecordOK;
    var ds := [c] + vs;
    F.FormedOfVisited(p, c, vs, ts, f);
    HoleAgreement(F.States(ds), ids, w.memb);
    ToldOfMembers(v, ss, k, i, ms, ids);
    if names[j] in f.members {
      SamePermutation(f.members, F.Listed(ds), names[j]);
      var y := ListedSeen(ds, names[j]);
      assert names[j] in names;
      assert ds[y].d.memb == w.memb && ds[y].d.me == j && ds[y].d in ms;
      var x :| 0 <= x < |ms| && ms[x] == ds[y].d;
    }
    if x :| 0 <= x < |ms| && ms[x].me == j {
      var y := SeenListed(ds, w.memb, ms[x]);
      assert names[ds[y].d.me] == ds[y].id;
      SamePermutation(F.Listed(ds), f.members, names[j]);
    }
  }

  // The daemon itself is in it.
  lemma {:induction false} AmongThem(all: seq<Packet>, ms: seq<Dstate>, ids: set<int>, r: RingInfo, t: Form2,
                                     v: Recovery, ss: seq<Estate>, k: nat, i: int, x: int, ps: seq<Packet>)
    requires ERun(v, ss) && k < |ss| && 0 <= i < v.w.ring.n && |ss[k].ds| == |v.olds| == v.w.ring.n && !ss[k].ds[i].evs
    requires RecordOK(ms, r, ids) && v.olds[i].r == r && 0 <= x < |ms|
    requires |ss[0].ds| == v.w.ring.n && ss[0].ds[i] == Enter(ReceiveAll(ms[x], ps), r, t).(me := i)
    ensures |Signals(ss[k].ds[i].log)| == 1 && ms[x].me in Signals(ss[k].ds[i].log)[0]
  {
    hide ERun, RecordOK, Enter, ReceiveAll;
    ToldOfMembers(v, ss, k, i, ms, ids);
  }
}
