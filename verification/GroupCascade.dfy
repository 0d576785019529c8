// A membership that breaks while groups are exchanged.  A daemon that hears of
// it before the last group message marks the groups that lose daemons, and
// finishes the exchange in GGT; one that hears of it afterwards finishes in
// GGATHER.  In the end it makes no difference.
module GroupCascade {
  import opened Types
  import opened Groups
  import opened GroupBookkeeping
  import opened GroupView

  // ------------------------------------------------------------ marks and merges

  // The groups of a daemon that a transitional membership takes daemons from.
  function Losing(gs: map<Name, Group>, trans: set<Proc>): set<Name> {
    set n | n in gs && Outside(gs[n], trans)
  }

  function Marked(gs: map<Name, Group>, ns: set<Name>): map<Name, Group> {
    map n | n in gs :: gs[n].(changed := gs[n].changed || n in ns)
  }

  lemma {:induction false} TransMarks(s: Groups, trans: set<Proc>, id: MembId)
    requires s.phase == GGATHER
    ensures Trans(s, trans, id) == s.(phase := GGT, trans := trans, transId := id, groups := Marked(s.groups, Losing(s.groups, trans)))
  {
    hide Outside;
    assert Trans(s, trans, id).groups == Marked(s.groups, Losing(s.groups, trans));
  }

  lemma {:induction false} MergeMarked(gs: map<Name, Group>, os: map<Name, Group>, ns: set<Name>)
    requires ns <= gs.Keys
    ensures Merge(Marked(gs, ns), os) == Marked(Merge(gs, os), ns) && ns <= Merge(gs, os).Keys
  {
    hide Pairs, Incoming;
  }

  // Marks go through all merges.
  lemma {:induction false} MergeAllMarked(gs: map<Name, Group>, ms: seq<SetMessage>, ns: set<Name>)
    requires ns <= gs.Keys
    ensures MergeAll(Marked(gs, ns), ms) == Marked(MergeAll(gs, ms), ns) && ns <= MergeAll(gs, ms).Keys
    decreases |ms|
  {
    hide Merge, Marked;
    if ms != [] {
      MergeAllMarked(gs, ms[..|ms| - 1], ns);
      MergeMarked(MergeAll(gs, ms[..|ms| - 1]), ms[|ms| - 1].groups, ns);
    }
  }

  lemma {:induction false} MergeLoses(gs: map<Name, Group>, os: map<Name, Group>, trans: set<Proc>, n: Name)
    requires n in gs && Outside(gs[n], trans)
    ensures n in Merge(gs, os) && Outside(Merge(gs, os)[n], trans)
  {
    hide Pairs;
    var p :| p in gs[n].daemons && p !in trans;
    assert p in Merge(gs, os)[n].daemons;
  }

  // A group that loses daemons loses them after all merges, too.
  lemma {:induction false} MergeAllLoses(gs: map<Name, Group>, ms: seq<SetMessage>, trans: set<Proc>, n: Name)
    requires n in gs && Outside(gs[n], trans)
    ensures n in MergeAll(gs, ms) && Outside(MergeAll(gs, ms)[n], trans)
    decreases |ms|
  {
    hide Merge, Outside;
    if ms != [] {
      MergeAllLoses(gs, ms[..|ms| - 1], trans, n);
      MergeLoses(MergeAll(gs, ms[..|ms| - 1]), ms[|ms| - 1].groups, trans, n);
    }
  }

  // ------------------------------------------------------------------ one group

  // What is lost in any case gets its new id from the transitional membership,
  // renewed before or not.
  lemma {:induction false} MarkForgotten(g: Group, regId: MembId, trans: set<Proc>, id: MembId)
    requires NonePartitioned(g) && !Unknown(regId) && !Unknown(g.id.memb) && Outside(g, trans)
    ensures TransGroup(Renewed(g.(changed := true), regId), trans, id) == TransGroup(Renewed(g, regId), trans, id)
  {
    var a, b := Renewed(g.(changed := true), regId), Renewed(g, regId);
    var p :| p in g.daemons && p !in trans;
    assert Outside(a, trans) && Outside(b, trans);
    assert a.daemons.Keys == b.daemons.Keys == g.daemons.Keys;
    assert TransGroup(a, trans, id).daemons == TransGroup(b, trans, id).daemons;
  }

  lemma {:induction false} MarksForgotten(gs: map<Name, Group>, ns: set<Name>, regId: MembId, trans: set<Proc>, id: MembId)
    requires !Unknown(regId) && forall n :: n in gs ==> NonePartitioned(gs[n]) && !Unknown(gs[n].id.memb)
    requires forall n :: n in ns ==> n in gs && Outside(gs[n], trans)
    ensures var a, b := RenewAll(Marked(gs, ns), regId), RenewAll(gs, regId);
            (map n | n in a :: TransGroup(a[n], trans, id)) == (map n | n in b :: TransGroup(b[n], trans, id))
  {
    hide TransGroup, Renewed, NonePartitioned, Outside;
    var a, b := RenewAll(Marked(gs, ns), regId), RenewAll(gs, regId);
    forall n | n in gs ensures TransGroup(a[n], trans, id) == TransGroup(b[n], trans, id) {
      var g := gs[n];
      if n in ns {
        MarkForgotten(g, regId, trans, id);
      } else {
        assert g.(changed := g.changed || n in ns) == g;
      }
    }
  }

  // ------------------------------------------------------------- before or after

  lemma {:induction false} MergedGroups(s: Groups, ms: seq<SetMessage>)
    requires Inv(s) && Busy(s) && Exchangeable(s, ms)
    ensures !Unknown(s.regId) && AddSets(s.conf, s.synced, ms).Merged?
    ensures forall n :: n in MergeAll(s.groups, ms) ==> NonePartitioned(MergeAll(s.groups, ms)[n]) && !Unknown(MergeAll(s.groups, ms)[n].id.memb)
  {
    hide Exchangeable, BoxesOK, CountOK;
    MergeAllOK(s, ms);
    var u := s.(synced := AddSets(s.conf, s.synced, ms).procs, groups := MergeAll(s.groups, ms));
    forall n | n in u.groups ensures NonePartitioned(u.groups[n]) && !Unknown(u.groups[n].id.memb) {
      assert GroupOK(u, u.groups[n]);
    }
  }

  // Hearing of the next transitional membership before the last group message,
  // or after it, leaves the daemon in the same state.
  lemma {:induction false} CascadeCommutes(s: Groups, ms: seq<SetMessage>, trans: set<Proc>, id: MembId)
    requires Inv(s) && s.phase == GGATHER && Exchangeable(s, ms)
    ensures Gathered(Trans(s, trans, id), ms) == Trans(Gathered(s, ms), trans, id)
  {
    hide Inv, Exchangeable, MergeAll, AddSets, Outside, RenewAll, NonePartitioned, TransGroup, Marked, Keep;
    var gs, ns := MergeAll(s.groups, ms), Losing(s.groups, trans);
    TransMarks(s, trans, id);
    MergeAllMarked(s.groups, ms, ns);
    MergedGroups(s, ms);
    forall n | n in ns ensures n in gs && Outside(gs[n], trans) { MergeAllLoses(s.groups, ms, trans, n); }
    MarksForgotten(gs, ns, s.regId, trans, id);
  }

  // ------------------------------------------------------------------- agreement

  // When a daemon hears of the membership that follows: not yet, before the last
  // group message, or after it.
  datatype News = Unheard | Early | Late

  function Outcome(s: Groups, ms: seq<SetMessage>, news: News, trans: set<Proc>, id: MembId): Groups {
    match news
    case Unheard => Gathered(s, ms)
    case Early => Gathered(Trans(s, trans, id), ms)
    case Late => Trans(Gathered(s, ms), trans, id)
  }

  // Two daemons with the same view of the groups.
  ghost predicate SameView(a: Groups, b: Groups, n: Name) {
    && a.phase == b.phase && !a.fault && !b.fault && a.synced == b.synced && a.regId == b.regId
    && (n in a.groups <==> n in b.groups)
    && (n in a.groups ==> Alike(a.groups[n], b.groups[n]))
  }

  lemma {:induction false} TransAlike(g: Group, h: Group, trans: set<Proc>, id: MembId)
    requires Alike(g, h)
    ensures Alike(TransGroup(g, trans, id), TransGroup(h, trans, id))
  {
  }

  lemma {:induction false} TransSame(a: Groups, b: Groups, trans: set<Proc>, id: MembId, n: Name)
    requires SameView(a, b, n) && a.phase == GOP
    ensures SameView(Trans(a, trans, id), Trans(b, trans, id), n) && Trans(a, trans, id).phase == GTRANS
  {
    hide TransGroup, Keep, Alike;
    if n in a.groups { TransAlike(a.groups[n], b.groups[n], trans, id); }
  }

  lemma {:induction false} GathererInv(w: Sets, s: Groups, j: int, order: seq<int>)
    requires Gatherer(w, s, j, order) && Whole(w, s)
    ensures Inv(s) && Exchangeable(s, Taken(w, order)) && forall x :: 0 <= x < |order| ==> 0 <= order[x] < |w|
  {
    hide MessageOK, InOrder, Apart, Alike, Inv;
    TakenExchangeable(w, s, j, order);
  }

  // Daemons of the membership that have gathered all group messages have the
  // same view, in whatever order these came, and whether each of them heard of
  // the next transitional membership before or after the last message.
  lemma {:induction false} CascadeAgreement(w: Sets, s: Groups, j: int, order: seq<int>, t: Groups, k: int, order': seq<int>,
                                            x: News, y: News, trans: set<Proc>, id: MembId, n: Name)
    requires Gatherer(w, s, j, order) && Gatherer(w, t, k, order') && Whole(w, s) && Whole(w, t) && NoUnseenMerge(w)
    requires s.regId == t.regId && s.phase == t.phase == GGATHER && !s.fault && !t.fault && s.conf == t.conf
    requires x.Unheard? <==> y.Unheard?
    ensures var a, b := Outcome(s, Taken(w, order), x, trans, id), Outcome(t, Taken(w, order'), y, trans, id);
            && SameView(a, b, n) && a.phase == (if x.Unheard? then GOP else GTRANS)
            && InOrder(s.conf, a.synced)
            && forall p :: p in a.synced <==> InWorld(w, p) && (x.Unheard? || p in trans)
  {
    hide Gatherer, Whole, NoUnseenMerge, Gathered, Trans, Alike, InOrder, InWorld, Inv, Exchangeable, SameView;
    GathererInv(w, s, j, order);
    GathererInv(w, t, k, order');
    GathererInWorld(w, s, j, order, t, k, order', n);
    var a, b := Gathered(s, Taken(w, order)), Gathered(t, Taken(w, order'));
    CascadeCommutes(s, Taken(w, order), trans, id);
    CascadeCommutes(t, Taken(w, order'), trans, id);
    TransSame(a, b, trans, id, n);
    AfterTrans(a, trans, id);
    KeepHolds(a.synced, trans);
    KeepInOrder(s.conf, a.synced, trans);
  }

  lemma {:induction false} AfterTrans(a: Groups, trans: set<Proc>, id: MembId)
    requires a.phase == GOP
    ensures Trans(a, trans, id).synced == Keep(a.synced, trans)
  {
  }

  lemma {:induction false} GathererInWorld(w: Sets, s: Groups, j: int, order: seq<int>, t: Groups, k: int, order': seq<int>, n: Name)
    requires Gatherer(w, s, j, order) && Gatherer(w, t, k, order') && Whole(w, s) && Whole(w, t) && NoUnseenMerge(w)
    requires s.regId == t.regId && s.phase == t.phase == GGATHER && !s.fault && !t.fault && s.conf == t.conf
    requires forall x :: 0 <= x < |order| ==> 0 <= order[x] < |w|
    requires forall x :: 0 <= x < |order'| ==> 0 <= order'[x] < |w|
    ensures var a, b := Gathered(s, Taken(w, order)), Gathered(t, Taken(w, order'));
            && SameView(a, b, n) && a.phase == GOP && InOrder(s.conf, a.synced)
            && forall p :: p in a.synced <==> InWorld(w, p)
  {
    hide Gatherer, Whole, NoUnseenMerge, Alike, InOrder, InWorld, MergeAll, AddSets, RenewAll, Trans;
    GroupViewAgreement(w, s, j, order, t, k, order', n);
  }

  // ------------------------------------------- before the next membership is handled

  // G_compute_and_notify alone.
  function Computed(s: Groups, ms: seq<SetMessage>): map<Name, Group> {
    RenewAll(MergeAll(s.groups, ms), s.regId)
  }

  // No other set has group n.
  predicate Alone(w: Sets, j: int, n: Name) {
    forall i :: 0 <= i < |w| && i != j ==> n !in w[i].groups
  }

  // Group n is in one set only, that of the daemon, unchanged, and about to lose
  // daemons.
  ghost predicate OnlyHere(w: Sets, j: int, n: Name, trans: set<Proc>) {
    && 0 <= j < |w| && n in w[j].groups && !w[j].groups[n].changed && Outside(w[j].groups[n], trans)
    && Alone(w, j, n)
  }

  lemma {:induction false} OneOrMany(w: Sets, js: seq<int>, j: int, n: Name)
    requires 0 <= j < |w| && j in js && n in w[j].groups && forall i :: 0 <= i < |w| ==> i in js
    ensures if Alone(w, j, n) then One(w, js, n, j) else Many(w, js, n)
  {
    var x :| 0 <= x < |js| && js[x] == j;
    if !Alone(w, j, n) {
      var i :| 0 <= i < |w| && i != j && n in w[i].groups;
      assert i in js;
      var y :| 0 <= y < |js| && js[y] == i;
      if x < y { assert js[x] != js[y]; } else { assert js[y] != js[x]; }
    }
  }

  lemma {:induction false} HeldSo(w: Sets, js: seq<int>, n: Name, gs: map<Name, Group>, j: int)
    requires Holds(w, js, n, gs) && n in gs
    ensures Many(w, js, n) ==> gs[n].changed
    ensures One(w, js, n, j) ==> gs[n].changed == w[j].groups[n].changed && gs[n].id == w[j].groups[n].id
  {
    hide One, Many, None, Everybody;
  }

  // What the merge makes of a group that is in the daemon's own list.
  lemma {:induction false} OwnMerged(w: Sets, s: Groups, j: int, order: seq<int>, trans: set<Proc>, n: Name)
    requires Gatherer(w, s, j, order) && Whole(w, s) && NoUnseenMerge(w)
    requires (forall x :: 0 <= x < |order| ==> 0 <= order[x] < |w|) && n in MergeAll(s.groups, Taken(w, order))
    ensures var h := MergeAll(s.groups, Taken(w, order))[n];
            && (n in Losing(s.groups, trans) && !h.changed <==> OnlyHere(w, j, n, trans))
            && (OnlyHere(w, j, n, trans) ==> h.id == w[j].groups[n].id)
  {
    hide Gatherer, Whole, NoUnseenMerge, Inv, MergeAll, Outside, Losing, Holds, One, Many, Alone;
    var js := Sofar(j, order, |order|);
    assert Taken(w, order)[..|order|] == Taken(w, order);
    HoldsAll(w, s, j, order, |order|, n);
    HeldSo(w, js, n, MergeAll(s.groups, Taken(w, order)), j);
    Covers(w, s, j, order);
    OwnOutside(w, s, j, order, trans, n);
    if n in w[j].groups { OneOrMany(w, js, j, n); }
  }

  lemma {:induction false} OwnOutside(w: Sets, s: Groups, j: int, order: seq<int>, trans: set<Proc>, n: Name)
    requires Gatherer(w, s, j, order)
    ensures 0 <= j < |w|
    ensures n in Losing(s.groups, trans) <==> n in w[j].groups && Outside(w[j].groups[n], trans)
  {
    assert n in s.groups <==> n in w[j].groups.Keys;
    if n in s.groups { assert Alike(s.groups[n], w[j].groups[n]); }
  }

  // Just after G_compute_and_notify, with the next transitional membership still
  // waiting, the ids do not agree yet: a daemon in GGT has renewed groups that
  // one in GGATHER has left alone.  These are exactly the groups that are only in
  // the set of the GGT daemon, unchanged, and lose daemons; all others agree.
  lemma {:induction false} EarlyIds(w: Sets, s: Groups, j: int, order: seq<int>, t: Groups, k: int, order': seq<int>,
                                    trans: set<Proc>, id: MembId, n: Name)
    requires Gatherer(w, s, j, order) && Gatherer(w, t, k, order') && Whole(w, s) && Whole(w, t) && NoUnseenMerge(w)
    requires s.regId == t.regId && s.phase == t.phase == GGATHER && !s.fault && !t.fault && s.conf == t.conf
    ensures var a, b := Computed(Trans(s, trans, id), Taken(w, order)), Computed(t, Taken(w, order'));
            && (n in a <==> n in b)
            && (n in a ==>
                 && Pairs(a[n].daemons) == Pairs(b[n].daemons) && a[n].numMembers == b[n].numMembers && !a[n].changed && !b[n].changed
                 && (OnlyHere(w, j, n, trans) ==> a[n].id == GroupId(s.regId, 1) && b[n].id == w[j].groups[n].id)
                 && (!OnlyHere(w, j, n, trans) ==> Alike(a[n], b[n]))
                 && (a[n].id != b[n].id <==> OnlyHere(w, j, n, trans) && w[j].groups[n].id != GroupId(s.regId, 1)))
  {
    hide Gatherer, Whole, NoUnseenMerge, Inv, InOrder, InWorld, MergeAll, OnlyHere, Renewed, Pairs, Outside, Exchangeable;
    GathererInv(w, s, j, order);
    GathererInv(w, t, k, order');
    var ns, gs := Losing(s.groups, trans), MergeAll(s.groups, Taken(w, order));
    ComputedAgree(w, s, j, order, t, k, order', n);
    TransMarks(s, trans, id);
    MergeAllMarked(s.groups, Taken(w, order), ns);
    if n in gs {
      OwnMerged(w, s, j, order, trans, n);
      MergedGroups(s, Taken(w, order));
      MarkedOne(gs[n], s.regId, n in ns);
    }
  }

  // The same members, but a new id where the mark is new.
  lemma {:induction false} MarkedOne(g: Group, regId: MembId, mark: bool)
    ensures var a, b := Renewed(g.(changed := g.changed || mark), regId), Renewed(g, regId);
            && Pairs(a.daemons) == Pairs(b.daemons) && a.numMembers == b.numMembers && !a.changed && !b.changed
            && (mark && !g.changed ==> a.id == GroupId(regId, 1) && b.id == g.id)
            && (!(mark && !g.changed) ==> a == b)
  {
    hide Pairs;
    var a, b := Renewed(g.(changed := g.changed || mark), regId), Renewed(g, regId);
    if mark && !g.changed {
      PairsSame(a.daemons, g.daemons);
    } else {
      assert g.(changed := g.changed || mark) == g;
    }
  }

  lemma {:induction false} ComputedAgree(w: Sets, s: Groups, j: int, order: seq<int>, t: Groups, k: int, order': seq<int>, n: Name)
    requires Gatherer(w, s, j, order) && Gatherer(w, t, k, order') && Whole(w, s) && Whole(w, t) && NoUnseenMerge(w)
    requires s.regId == t.regId && s.phase == t.phase == GGATHER && !s.fault && !t.fault && s.conf == t.conf
    requires forall x :: 0 <= x < |order| ==> 0 <= order[x] < |w|
    requires forall x :: 0 <= x < |order'| ==> 0 <= order'[x] < |w|
    ensures var a, b := Computed(s, Taken(w, order)), Computed(t, Taken(w, order'));
            (n in a <==> n in b) && (n in a ==> Alike(a[n], b[n]))
  {
    hide Gatherer, Whole, NoUnseenMerge, Alike, InOrder, InWorld, MergeAll, RenewAll, Inv, Exchangeable;
    GroupViewAgreement(w, s, j, order, t, k, order', n);
    GathererInv(w, s, j, order);
    GathererInv(w, t, k, order');
    MergedGroups(s, Taken(w, order));
    MergedGroups(t, Taken(w, order'));
  }

  // Such an input: daemons 0 and 1 share a group and have gathered what daemon 2
  // sent; daemon 0 hears of a membership without daemon 1 before that, daemon 1
  // does not.
  const FIRST := MembId(1, 1)
  const SECOND := MembId(2, 2)
  const SHARED := [1]
  const ANN := [65]
  const BOB := [66]

  function SharedDaemons(): map<Proc, DaemonMembers> {
    map[Proc(0) := DaemonMembers(FIRST, {ANN}), Proc(1) := DaemonMembers(FIRST, {BOB})]
  }

  function SharedGroup(mboxes: seq<int>): Group {
    Group(GroupId(FIRST, 1), false, SharedDaemons(), 2, mboxes)
  }

  function Sharer(me: int, name: Name, box: int): Groups {
    Groups(GGATHER, Proc(me), map[SHARED := SharedGroup([box])], [Proc(0), Proc(1)], {}, UNKNOWN, {Proc(0), Proc(1), Proc(2)}, SECOND,
           map[name := box], map[Proc(0) := 0, Proc(1) := 1, Proc(2) := 2], false)
  }

  function SharedSets(): Sets {
    [SetMessage([Proc(0), Proc(1)], map[SHARED := SharedGroup([])]), SetMessage([Proc(2)], map[])]
  }

  lemma {:induction false} SharedPairs()
    ensures Pairs(SharedDaemons()) == {(Proc(0), ANN), (Proc(1), BOB)} && |Pairs(SharedDaemons())| == 2
  {
    assert (Proc(0), ANN) != (Proc(1), BOB);
  }

  lemma {:induction false} SharerInv(me: int, name: Name, box: int)
    requires (me == 0 && name == ANN) || (me == 1 && name == BOB)
    ensures Inv(Sharer(me, name, box))
  {
    hide Pairs;
    SharedPairs();
    var s := Sharer(me, name, box);
    assert Local(s.groups[SHARED], s.me) == {name};
    assert BoxesOK(s.boxes, {name}, [box]);
  }

  lemma {:induction false} SharedMessages()
    ensures MessageOK(SharedSets()[0]) && MessageOK(SharedSets()[1])
  {
    hide Pairs;
    SharedPairs();
    var m := SharedSets()[0];
    assert m.groups[SHARED].daemons == SharedDaemons() && m.groups.Keys == {SHARED};
    assert Proc(0) in SharedDaemons() && SharedDaemons().Keys == {Proc(0), Proc(1)};
    assert CountOK(SharedGroup([]));
    assert Proc(0) == m.procs[0] && Proc(1) == m.procs[1];
  }

  lemma {:induction false} SharedWhole()
    ensures NoUnseenMerge(SharedSets()) && Whole(SharedSets(), Sharer(0, ANN, 7)) && Whole(SharedSets(), Sharer(1, BOB, 8))
  {
    hide MessageOK, SharedGroup;
    SharedMessages();
  }

  lemma {:induction false} SharedGatherer(me: int, name: Name, box: int)
    requires (me == 0 && name == ANN) || (me == 1 && name == BOB)
    ensures Gatherer(SharedSets(), Sharer(me, name, box), 0, [1])
  {
    hide Inv;
    SharerInv(me, name, box);
  }

  lemma {:induction false} EarlyIdsDiffer(id: MembId)
    ensures var w, s, t := SharedSets(), Sharer(0, ANN, 7), Sharer(1, BOB, 8);
            var a, b := Computed(Trans(s, {Proc(0)}, id), Taken(w, [1])), Computed(t, Taken(w, [1]));
            && Gatherer(w, s, 0, [1]) && Gatherer(w, t, 0, [1]) && Whole(w, s) && Whole(w, t) && NoUnseenMerge(w)
            && SHARED in a && SHARED in b && a[SHARED].id == GroupId(SECOND, 1) && b[SHARED].id == GroupId(FIRST, 1)
  {
    hide Gatherer, Whole, NoUnseenMerge, Computed, Trans;
    var w, s, t := SharedSets(), Sharer(0, ANN, 7), Sharer(1, BOB, 8);
    SharedGatherer(0, ANN, 7);
    SharedGatherer(1, BOB, 8);
    SharedWhole();
    EarlyIds(w, s, 0, [1], t, 0, [1], {Proc(0)}, id, SHARED);
    assert Proc(1) in w[0].groups[SHARED].daemons;
    SharedMerged(t);
  }

  lemma {:induction false} SharedMerged(t: Groups)
    requires t == Sharer(1, BOB, 8)
    ensures SHARED in Computed(t, Taken(SharedSets(), [1]))
  {
    var ms := Taken(SharedSets(), [1]);
    assert ms[..0] == [];
    assert MergeAll(t.groups, ms) == Merge(MergeAll(t.groups, []), map[]);
  }
}
