// From the runs of the old rings to recovery: what normal operation leaves, the
// FORM tokens collect and hand out, is what recovery starts from.
module FormToEvs {
  import opened Types
  import opened RingArith
  import opened TokenHistory
  import opened Protocol
  import opened Delivery
  import opened Form
  import opened FormRecords
  import opened Evs
  import opened FormEvs
  import opened OpRing
  import opened EvsVisit
  import opened EvsRing
  import F = FormToken

  // ------------------------------------------- while the membership is formed

  function ReceiveAll(d: Dstate, ps: seq<Packet>): Dstate {
    if ps == [] then d else Receive(ReceiveAll(d, ps[..|ps| - 1]), ps[|ps| - 1])
  }

  // Packets of the ring up to `top`, or of other rings.
  predicate Late(all: seq<Packet>, memb: MembId, ps: seq<Packet>, top: int) {
    forall x :: 0 <= x < |ps| && ps[x].memb == memb ==>
      1 <= ps[x].seqNo <= top && ps[x].seqNo <= |all| && ps[x] == all[ps[x].seqNo - 1]
  }

  lemma {:induction false} StillMember(all: seq<Packet>, d: Dstate)
    requires Core(all, {}, d) && d.discarded == d.aru && d.myAru <= d.highest
    ensures OldMember(d)
  {
    forall s | s in d.pk ensures d.discarded < s <= d.highest && !d.pk[s].Hole? { assert SlotOK(all, {}, s, d.pk[s]); }
  }

  // Whatever comes in then, the daemon stays a member whose record is right.
  lemma {:induction false} StaysReady(all: seq<Packet>, m: Dstate, ps: seq<Packet>, top: int)
    requires Core(all, {}, m) && OldMember(m) && !m.evs && m.threshold == BLOCK_REGULAR_DELIVERY
    requires m.highest <= top && Late(all, m.memb, ps, top)
    ensures var d := ReceiveAll(m, ps); Later(m, d, top) && Core(all, {}, d) && OldMember(d)
    decreases |ps|
  {
    hide Core, Receive, Later, OldMember;
    if ps == [] {
      LaterWide(m, top);
    } else {
      var less, p := ps[..|ps| - 1], ps[|ps| - 1];
      StaysReady(all, m, less, top);
      var d := ReceiveAll(m, less);
      LaterShape(m, d, top);
      MemberShape(d);
      if p.memb == m.memb {
        ReceiveKeeps(all, {}, d, p);
        LaterReceive(m, d, top, p);
        StillMember(all, Receive(d, p));
      } else {
        Foreign(d, p);
      }
    }
  }

  lemma {:induction false} LaterWide(m: Dstate, top: int)
    requires m.highest <= top
    ensures Later(m, m, top)
  {
  }

  lemma {:induction false} LaterShape(m: Dstate, d: Dstate, top: int)
    requires Later(m, d, top)
    ensures d == m.(pk := d.pk, myAru := d.myAru, highest := d.highest)
  {
  }

  lemma {:induction false} MemberShape(d: Dstate)
    requires OldMember(d)
    ensures d.discarded == d.aru && d.myAru <= d.highest
  {
  }

  lemma {:induction false} Foreign(d: Dstate, p: Packet)
    requires p.memb != d.memb
    ensures Receive(d, p) == d
  {
  }

  // --------------------------------------------------------- acting on FORM2

  // A daemon that acts on the record of its ring enters recovery as daemon i of
  // the new ring.
  lemma {:induction false} EntersRecovery(v: Recovery, i: int, at: int, ms: seq<Dstate>, ids: set<int>, t: Form2, x: int, d: Dstate)
    requires RecoveryOK(v) && 0 <= i < |v.olds| && -v.w.ring.n < at <= 0 && at % v.w.ring.n == i
    requires t.seqNo == v.last && t.id == v.w.memb
    requires Formed(v.olds[i].all, ms, v.olds[i].r, ids, t) && 0 <= x < |ms| && Later(ms[x], d, v.olds[i].r.highest)
    requires Core(v.olds[i].all, {}, d) && OldMember(d) && d.queue == []
    ensures var e := Enter(d, v.olds[i].r, t); !e.fault && Entered(v, i, e.(me := i), at)
  {
    hide Core, Enter, Formed, Later, RecordOK;
    var o := v.olds[i];
    FormReady(o.all, ms, o.r, ids, t, x, d);
    RecordBounds(o.all, ms, o.r, ids, t, x);
    LaterShape(ms[x], d, o.r.highest);
    EnterKeeps(o.all, d, o.r, t);
    var e := Enter(d, o.r, t);
    MemberShape(d);
    CoreOfRing(o.all, ToSet(o.r.holes), e, e.(me := i));
  }

  // ------------------------------------------------------ all of the way round

  // A daemon of ring memb that has stopped handling its token.
  predicate Still(d: Dstate, memb: MembId) {
    d.memb == memb && !d.evs && !d.fault && d.threshold == BLOCK_REGULAR_DELIVERY && d.queue == []
  }

  // Such daemons, each at a moment of its own, and all the packets of the ring.
  ghost predicate Members(all: seq<Packet>, memb: MembId, ms: seq<Dstate>, ids: set<int>) {
    && Visitable(ms, ids)
    && (forall x :: 0 <= x < |ms| ==> Core(all, {}, ms[x]) && KeepsOwn(all, ms[x]) && Still(ms[x], memb))
    && (forall s :: 0 <= s < |all| ==> all[s].memb == memb)
  }

  // They are what the FORM1 token found of the ring among all that it visited.
  ghost predicate Gathered(all: seq<Packet>, memb: MembId, ms: seq<Dstate>, ids: set<int>, visited: seq<Dstate>) {
    Members(all, memb, ms, ids) && visited != [] && Visitable(visited, ids) && Seen(visited, memb) == ms != []
  }

  // The FORM2 token made of the records: its number is above those of the ring,
  // and every sender of the ring that is on it has been visited.
  ghost predicate Concludes(all: seq<Packet>, ms: seq<Dstate>, t: Form2) {
    && (forall x :: 0 <= x < |ms| ==> ms[x].highest < t.seqNo)
    && (forall s :: 0 <= s < |all| && all[s].sender in t.members ==> Visited(ms, all[s].sender))
  }

  lemma {:induction false} RingIsFormed(all: seq<Packet>, memb: MembId, ms: seq<Dstate>, ids: set<int>, visited: seq<Dstate>, t: Form2)
    requires Gathered(all, memb, ms, ids, visited) && Concludes(all, ms, t)
    ensures var r := RecordOf(memb, FoldRings(visited).rings);
            && !FoldRings(visited).fault
            && r.SomeRing? && r.r.memb == memb && Formed(all, ms, r.r, ids, t)
  {
    hide Visitable, RecordOK, FoldRings, Core, KeepsOwn, Seen;
    HoleAgreement(visited, ids, memb);
  }

  // A member of a ring whose record is on a token that concludes.
  lemma {:induction false} MemberEntersRecovery(all: seq<Packet>, memb: MembId, ms: seq<Dstate>, ids: set<int>, visited: seq<Dstate>, t: Form2,
                                             x: int, ps: seq<Packet>, v: Recovery, i: int, at: int)
    requires Gathered(all, memb, ms, ids, visited) && Concludes(all, ms, t)
    requires RecoveryOK(v) && 0 <= i < |v.olds| && -v.w.ring.n < at <= 0 && at % v.w.ring.n == i
    requires t.seqNo == v.last && t.id == v.w.memb
    requires RecordOf(memb, FoldRings(visited).rings) == SomeRing(v.olds[i].r) && v.olds[i].all == all
    requires 0 <= x < |ms| && Late(all, memb, ps, v.olds[i].r.highest)
    ensures var d := ReceiveAll(ms[x], ps);
            !Enter(d, v.olds[i].r, t).fault && Entered(v, i, Enter(d, v.olds[i].r, t).(me := i), at)
  {
    hide Visitable, CommitsTo, Seen, Concludes, Core, KeepsOwn, Enter, Entered, FoldRings, RecordOf, Formed, Later, OldMember, ReceiveAll, RecoveryOK;
    RingIsFormed(all, memb, ms, ids, visited, t);
    RecordBounds(all, ms, v.olds[i].r, ids, t, x);
    StaysReady(all, ms[x], ps, v.olds[i].r.highest);
    LaterShape(ms[x], ReceiveAll(ms[x], ps), v.olds[i].r.highest);
    EntersRecovery(v, i, at, ms, ids, t, x, ReceiveAll(ms[x], ps));
  }

  // names[j] is the id of daemon j of ring w; who is visited under one of these
  // ids is that daemon of the ring, and under any other id not of the ring.
  predicate NamedBy(w: World, names: seq<int>, ds: seq<F.Daemon1>) {
    && |names| == w.ring.n && (forall x, y :: 0 <= x < y < |names| ==> names[x] != names[y])
    && forall x :: 0 <= x < |ds| ==>
         if ds[x].d.memb == w.memb then 0 <= ds[x].d.me < w.ring.n && names[ds[x].d.me] == ds[x].id else ds[x].id !in names
  }

  // The daemons of the ring that are on a list of ids.
  function OnList(names: seq<int>, members: seq<int>): set<int> {
    set j | 0 <= j < |names| && names[j] in members
  }

  // What the FORM2 token says to the daemons of the ring.
  function Says2(names: seq<int>, f: F.Token1, id: MembId): Form2 {
    Form2(f.seqNo, f.rings, id, OnList(names, f.members))
  }

  // Who is listed has been seen: its record is on the token.
  lemma {:induction false} ListedSeen(ds: seq<F.Daemon1>, m: int) returns (x: int)
    requires m in F.Listed(ds)
    ensures 0 <= x < |ds| && ds[x].id == m && ds[x].d in Seen(F.States(ds), ds[x].d.memb)
    decreases |ds|
  {
    hide FillRings, FoldRings;
    var less, k := ds[..|ds| - 1], |ds| - 1;
    assert F.States(ds)[..k] == F.States(less) && F.States(ds)[k] == ds[k].d;
    if m in F.Listed(less) {
      x := ListedSeen(less, m);
      assert less[x] == ds[x];
    } else {
      x := k;
    }
  }

  lemma {:induction false} SamePermutation(a: seq<int>, b: seq<int>, m: int)
    requires multiset(a) == multiset(b) && m in a
    ensures m in b
  {
    assert m in multiset(a);
    assert m in multiset(b);
  }

  // The journey of the token concludes for every ring.
  lemma {:induction false} JourneyConcludes(w: World, all: seq<Packet>, ms: seq<Dstate>, names: seq<int>,
                                            p: F.Places, c: F.Daemon1, vs: seq<F.Daemon1>, ts: seq<F.Token1>, f: F.Token1, id: MembId)
    requires F.Completed(p, c, vs, ts, f) && NamedBy(w, names, [c] + vs)
    requires ms == Seen(F.States([c] + vs), w.memb)
    ensures Concludes(all, ms, Says2(names, f, id))
  {
    hide F.Completed, F.Listed, Seen;
    var ds := [c] + vs;
    F.FormedOfVisited(p, c, vs, ts, f);
    var at := SeenFrom(F.States(ds), w.memb);
    forall x | 0 <= x < |ms| ensures ms[x].highest < f.seqNo { assert ms[x] == ds[at[x]].d; }
    forall s | 0 <= s < |all| && all[s].sender in OnList(names, f.members)
      ensures Visited(ms, all[s].sender)
    {
      var j := all[s].sender;
      SamePermutation(f.members, F.Listed(ds), names[j]);
      var x := ListedSeen(ds, names[j]);
      assert names[j] in names;
      assert ds[x].d.me == j;
      var y :| 0 <= y < |ms| && ms[y] == ds[x].d;
    }
  }

  // For every journey of a FORM1 token, and whatever members of an old ring it
  // found: on the FORM2 token that it becomes, the number and the members are
  // such that, whatever they received since, none of these members faults on
  // it; each of them is then in the state that recovery starts from, or has
  // dropped a token with too many holes.
  lemma {:induction false} MembersEnterRecovery(w: World, all: seq<Packet>, ms: seq<Dstate>, ids: set<int>, names: seq<int>,
                                                p: F.Places, c: F.Daemon1, vs: seq<F.Daemon1>, ts: seq<F.Token1>, f: F.Token1,
                                                x: int, ps: seq<Packet>, v: Recovery, i: int, at: int)
    requires F.Completed(p, c, vs, ts, f) && NamedBy(w, names, [c] + vs)
    requires Gathered(all, w.memb, ms, ids, F.States([c] + vs))
    requires RecoveryOK(v) && 0 <= i < |v.olds| && -v.w.ring.n < at <= 0 && at % v.w.ring.n == i && v.last == f.seqNo
    requires RecordOf(w.memb, f.rings) == SomeRing(v.olds[i].r) && v.olds[i].all == all
    requires 0 <= x < |ms| && Late(all, w.memb, ps, v.olds[i].r.highest)
    ensures var d := ReceiveAll(ms[x], ps);
            var t := Says2(names, f, v.w.memb);
            var e := ReadForm2(d, t);
            if WellFormed(f.rings) then !e.fault && Entered(v, i, e.(me := i), at) else e == d
  {
    hide Visitable, CommitsTo, Seen, Core, KeepsOwn, Enter, Entered, FoldRings, RecordOf, Late, ReceiveAll, RecoveryOK, F.Completed, WellFormed, NamedBy, OnList;
    F.FormedOfVisited(p, c, vs, ts, f);
    JourneyConcludes(w, all, ms, names, p, c, vs, ts, f, v.w.memb);
    MemberEntersRecovery(all, w.memb, ms, ids, F.States([c] + vs), Says2(names, f, v.w.memb), x, ps, v, i, at);
    ReceiveMemb(ms[x], ps);
  }

  lemma {:induction false} ReceiveMemb(d: Dstate, ps: seq<Packet>)
    ensures ReceiveAll(d, ps).memb == d.memb
    decreases |ps|
  {
    hide Receive;
    if ps != [] {
      ReceiveMemb(d, ps[..|ps| - 1]);
      ReceiveTouches(ReceiveAll(d, ps[..|ps| - 1]), ps[|ps| - 1]);
    }
  }

  // Daemons that have entered recovery make up an initial state of it.
  lemma {:induction false} RecoveryStarts(v: Recovery, ds: seq<Dstate>, at: seq<int>, packets: set<Packet>)
    requires RecoveryOK(v) && |ds| == |at| == v.w.ring.n
    requires forall i :: 0 <= i < v.w.ring.n ==> Entered(v, i, ds[i], at[i])
    requires forall p :: p in packets ==> PacketOK(v, p)
    ensures EInit(v, Estate(ds, at, [FirstToken()], [Visit(0, INT32_MAX, -1, 0)], {Copy(0, FirstToken())}, packets))
  {
  }
}
