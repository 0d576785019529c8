// Agreement: when the state exchange is over, all daemons of the membership have
// the same groups, whichever synced set they come from and in whatever order the
// sets' messages were taken in.
module GroupView {
  import opened Types
  import opened Groups
  import opened GroupBookkeeping

  // The synced sets that make up a regular membership, each with the groups its
  // members agree on.
  type Sets = seq<SetMessage>

  // No two sets hold the same unchanged group under the same membership id.
  predicate NoUnseenMerge(w: Sets) {
    forall i, j, n :: 0 <= i < |w| && 0 <= j < |w| && i != j && n in w[i].groups && n in w[j].groups ==>
      Conflict(w[i].groups[n], w[j].groups[n])
  }

  predicate Conflict(a: Group, b: Group) {
    a.changed || b.changed || a.id.memb != b.id.memb
  }

  // A daemon of set j that gathered the messages of all other sets, in the order
  // `order`.
  predicate Gatherer(w: Sets, s: Groups, j: int, order: seq<int>) {
    && 0 <= j < |w| && Inv(s) && Busy(s) && s.synced == w[j].procs
    && s.groups.Keys == w[j].groups.Keys
    && (forall n :: n in s.groups ==> Alike(s.groups[n], w[j].groups[n]))
    && (forall x :: 0 <= x < |order| ==> 0 <= order[x] < |w| && order[x] != j)
    && (forall x, y :: 0 <= x < y < |order| ==> order[x] != order[y])
    && (forall i :: 0 <= i < |w| && i != j ==> i in order)
  }

  // Equal but for the mailboxes, which are local.
  predicate Alike(g: Group, o: Group) {
    g == o.(mboxes := g.mboxes)
  }

  function Taken(w: Sets, order: seq<int>): seq<SetMessage>
    requires forall x :: 0 <= x < |order| ==> 0 <= order[x] < |w|
  {
    seq(|order|, x requires 0 <= x < |order| => w[order[x]])
  }

  // ------------------------------------------------------------ who has a group

  predicate None(w: Sets, js: seq<int>, n: Name) {
    forall x :: 0 <= x < |js| && 0 <= js[x] < |w| ==> n !in w[js[x]].groups
  }

  predicate One(w: Sets, js: seq<int>, n: Name, i: int) {
    0 <= i < |w| && i in js && n in w[i].groups
    && forall x :: 0 <= x < |js| && 0 <= js[x] < |w| && n in w[js[x]].groups ==> js[x] == i
  }

  predicate Many(w: Sets, js: seq<int>, n: Name) {
    exists x, y :: 0 <= x < y < |js| && 0 <= js[x] < |w| && 0 <= js[y] < |w| && n in w[js[x]].groups && n in w[js[y]].groups && js[x] != js[y]
  }

  // Everybody in group n, over the sets js.
  function Everybody(w: Sets, js: seq<int>, n: Name): set<(Proc, Name)> {
    set x, q | 0 <= x < |js| && 0 <= js[x] < |w| && n in w[js[x]].groups && q in Pairs(w[js[x]].groups[n].daemons) :: q
  }

  // What group n is when the sets js have been put together.
  ghost predicate Holds(w: Sets, js: seq<int>, n: Name, gs: map<Name, Group>) {
    && (None(w, js, n) <==> n !in gs)
    && (n in gs ==> Pairs(gs[n].daemons) == Everybody(w, js, n))
    && (forall i :: One(w, js, n, i) ==> gs[n].changed == w[i].groups[n].changed && gs[n].id == w[i].groups[n].id)
    && (Many(w, js, n) ==> gs[n].changed)
  }

  lemma {:induction false} EverybodyMore(w: Sets, js: seq<int>, i: int, n: Name)
    requires 0 <= i < |w|
    ensures Everybody(w, js + [i], n) == Everybody(w, js, n) + (if n in w[i].groups then Pairs(w[i].groups[n].daemons) else {})
  {
    var ks := js + [i];
    forall q | q in Everybody(w, js, n) ensures q in Everybody(w, ks, n) {
      var x :| 0 <= x < |js| && 0 <= js[x] < |w| && n in w[js[x]].groups && q in Pairs(w[js[x]].groups[n].daemons);
      assert ks[x] == js[x];
    }
    assert ks[|js|] == i;
  }

  // One more set, taken in by one more round of the loop.
  lemma {:induction false} HoldsMore(w: Sets, js: seq<int>, i: int, n: Name, u: Groups)
    requires NoUnseenMerge(w) && 0 <= i < |w| && i !in js && (forall x :: 0 <= x < |js| ==> 0 <= js[x] < |w|)
    requires Holds(w, js, n, u.groups) && MessageOK(w[i]) && Inv(u) && Busy(u) && forall p :: p in w[i].procs ==> p !in u.synced
    ensures Holds(w, js + [i], n, Merge(u.groups, w[i].groups))
  {
    hide Pairs, Inv, CountOK, MessageOK, Everybody;
    var ks, gs, hs := js + [i], u.groups, Merge(u.groups, w[i].groups);
    EverybodyMore(w, js, i, n);
    NoneMore(w, js, i, n);
    OneMore(w, js, i, n);
    if n in w[i].groups {
      MergePairs(u, w[i], n);
      if n in gs { Second(w, js, i, n, gs[n]); } else { ManyNot(w, js, n); }
    }
  }

  lemma {:induction false} NoneMore(w: Sets, js: seq<int>, i: int, n: Name)
    requires 0 <= i < |w|
    ensures None(w, js + [i], n) <==> None(w, js, n) && n !in w[i].groups
  {
    assert (js + [i])[|js|] == i && forall x :: 0 <= x < |js| ==> (js + [i])[x] == js[x];
  }

  // Who is the only one, or one of many, with one more set.
  lemma {:induction false} OneMore(w: Sets, js: seq<int>, i: int, n: Name)
    requires 0 <= i < |w| && i !in js
    ensures n !in w[i].groups ==> (forall k :: One(w, js + [i], n, k) ==> One(w, js, n, k)) && (Many(w, js + [i], n) ==> Many(w, js, n))
    ensures n in w[i].groups ==> forall k :: One(w, js + [i], n, k) ==> k == i && None(w, js, n)
  {
    var ks := js + [i];
    assert ks[|js|] == i && forall x :: 0 <= x < |js| ==> ks[x] == js[x];
  }

  lemma {:induction false} ManyNot(w: Sets, js: seq<int>, n: Name)
    requires None(w, js, n)
    ensures forall i :: 0 <= i < |w| ==> !Many(w, js + [i], n)
    ensures Everybody(w, js, n) == {}
  {
    forall i | 0 <= i < |w| ensures !Many(w, js + [i], n) {
      assert forall x :: 0 <= x < |js| ==> (js + [i])[x] == js[x];
    }
  }

  // The second holder of a group sees that it has changed.
  lemma {:induction false} Second(w: Sets, js: seq<int>, i: int, n: Name, g: Group)
    requires NoUnseenMerge(w) && 0 <= i < |w| && i !in js && (forall x :: 0 <= x < |js| ==> 0 <= js[x] < |w|)
    requires n in w[i].groups && CountOK(w[i].groups[n]) && !None(w, js, n)
    requires (forall k :: One(w, js, n, k) ==> g.changed == w[k].groups[n].changed && g.id == w[k].groups[n].id)
    requires Many(w, js, n) ==> g.changed
    ensures MergeGroup(g, w[i].groups[n]).changed
  {
    var x :| 0 <= x < |js| && 0 <= js[x] < |w| && n in w[js[x]].groups;
    var k := js[x];
    if !Many(w, js, n) {
      assert One(w, js, n, k);
      assert Conflict(w[k].groups[n], w[i].groups[n]);
    }
  }

  lemma {:induction false} MergePairs(u: Groups, m: SetMessage, n: Name)
    requires Inv(u) && Busy(u) && MessageOK(m) && n in m.groups && forall p :: p in m.procs ==> p !in u.synced
    ensures var h := Merge(u.groups, m.groups)[n]; var o := Pairs(m.groups[n].daemons);
            && Pairs(h.daemons) == (if n in u.groups then Pairs(u.groups[n].daemons) + o else o)
            && CountOK(m.groups[n])
            && (n in u.groups ==> h == MergeGroup(u.groups[n], m.groups[n]))
            && (n !in u.groups ==> h.changed == m.groups[n].changed && h.id == m.groups[n].id)
  {
    var i := Incoming(m.groups[n]);
    PairsSame(m.groups[n].daemons, i);
    if n in u.groups {
      var g := u.groups[n];
      GroupHere(u, g);
      assert g.daemons.Keys !! i.Keys;
      PairsJoin(g.daemons, i);
    }
  }

  // ----------------------------------------------------------- all sets together

  lemma {:induction false} HoldsOwn(w: Sets, s: Groups, j: int, order: seq<int>, n: Name)
    requires Gatherer(w, s, j, order)
    ensures Holds(w, [j], n, s.groups)
  {
    hide Inv, Pairs, Everybody, Many;
    EverybodyMore(w, [], j, n);
    ManyNot(w, [], n);
    NoneMore(w, [], j, n);
    OneMore(w, [], j, n);
    assert [] + [j] == [j];
    assert n in s.groups.Keys <==> n in w[j].groups.Keys;
    if n in s.groups { assert Alike(s.groups[n], w[j].groups[n]); }
  }

  // The sets of a gatherer: its own, then the first k it took in.
  function Sofar(j: int, order: seq<int>, k: nat): seq<int>
    requires k <= |order|
  {
    [j] + order[..k]
  }

  predicate Whole(w: Sets, s: Groups) {
    && (forall i :: 0 <= i < |w| ==> MessageOK(w[i]) && InOrder(s.conf, w[i].procs))
    && forall i, k :: 0 <= i < |w| && 0 <= k < |w| && i != k ==> Apart(s.conf, w[i].procs, w[k].procs)
  }

  lemma {:induction false} TakenExchangeable(w: Sets, s: Groups, j: int, order: seq<int>)
    requires Gatherer(w, s, j, order) && Whole(w, s)
    ensures Exchangeable(s, Taken(w, order))
    ensures forall k :: 0 <= k <= |order| ==> Exchangeable(s, Taken(w, order)[..k]) && Taken(w, order)[..k] == Taken(w, order[..k])
  {
    hide MessageOK, InOrder, Apart, Inv;
  }

  lemma {:induction false} HoldsAll(w: Sets, s: Groups, j: int, order: seq<int>, k: nat, n: Name)
    requires Gatherer(w, s, j, order) && Whole(w, s) && NoUnseenMerge(w) && k <= |order|
    ensures Holds(w, Sofar(j, order, k), n, MergeAll(s.groups, Taken(w, order)[..k]))
  {
    hide Holds, Merge, Inv, Exchangeable, NoUnseenMerge, MessageOK, Apart, InOrder, Alike;
    var ms := Taken(w, order);
    TakenExchangeable(w, s, j, order);
    if k == 0 {
      HoldsOwn(w, s, j, order, n);
      assert Sofar(j, order, 0) == [j] && ms[..0] == [];
      NoSets(s);
    } else {
      HoldsAll(w, s, j, order, k - 1, n);
      MergeAllOK(s, ms[..k - 1]);
      var u := s.(synced := AddSets(s.conf, s.synced, ms[..k - 1]).procs, groups := MergeAll(s.groups, ms[..k - 1]));
      assert ms[..k][..k - 1] == ms[..k - 1] && ms[..k][k - 1] == w[order[k - 1]];
      ExchangeLess(s, ms[..k]);
      InvSet(s);
      AddSetsHolds(s, ms[..k - 1]);
      ApartNow(s, ms[..k - 1], w[order[k - 1]], u);
      assert Sofar(j, order, k) == Sofar(j, order, k - 1) + [order[k - 1]];
      WholeAt(w, s, order[k - 1]);
      HoldsMore(w, Sofar(j, order, k - 1), order[k - 1], n, u);
    }
  }

  lemma {:induction false} InvSet(s: Groups)
    requires Inv(s)
    ensures SetOK(s)
  {
  }

  lemma {:induction false} WholeAt(w: Sets, s: Groups, i: int)
    requires Whole(w, s) && 0 <= i < |w|
    ensures MessageOK(w[i])
  {
  }

  // A daemon list all of which carries one id is determined by who is in it.
  lemma {:induction false} Determined(a: map<Proc, DaemonMembers>, b: map<Proc, DaemonMembers>, c: MembId)
    requires Pairs(a) == Pairs(b) && NoneEmpty(a) && NoneEmpty(b)
    requires (forall p :: p in a ==> a[p].memb == c) && (forall p :: p in b ==> b[p].memb == c)
    ensures a == b
  {
    hide Pairs;
    forall p ensures p in a <==> p in b {
      PairsAt(a, b, p);
      PairsAt(b, a, p);
    }
    forall p | p in a ensures a[p] == b[p] {
      PairsAt(a, b, p);
      PairsAt(b, a, p);
      assert a[p].members == b[p].members;
    }
    assert a == b;
  }

  lemma {:induction false} PairsAt(a: map<Proc, DaemonMembers>, b: map<Proc, DaemonMembers>, p: Proc)
    requires Pairs(a) == Pairs(b) && NoneEmpty(a)
    ensures p in a ==> p in b && a[p].members <= b[p].members
  {
    if p in a {
      forall m | m in a[p].members ensures p in b && m in b[p].members {
        assert (p, m) in Pairs(a);
        assert (p, m) in Pairs(b);
      }
      var m :| m in a[p].members;
    }
  }

  lemma {:induction false} StampedOne(g: Group, regId: MembId)
    requires CountOK(g) && NonePartitioned(g) && !Unknown(g.id.memb) && !Unknown(regId) && (!g.changed ==> SameId(g))
    ensures var h := Renewed(g, regId);
            && Pairs(h.daemons) == Pairs(g.daemons) && h.numMembers == |Pairs(h.daemons)| && NoneEmpty(h.daemons)
            && !h.changed && h.id == (if g.changed then GroupId(regId, 1) else g.id)
            && forall p :: p in h.daemons ==> h.daemons[p].memb == h.id.memb
  {
    hide Pairs;
    PairsSame(g.daemons, Renewed(g, regId).daemons);
  }

  // Two groups put together from the same sets come out the same.
  lemma {:induction false} SameRenewed(g: Group, o: Group, regId: MembId)
    requires CountOK(g) && NonePartitioned(g) && !Unknown(g.id.memb) && !Unknown(regId) && (!g.changed ==> SameId(g))
    requires CountOK(o) && NonePartitioned(o) && !Unknown(o.id.memb) && (!o.changed ==> SameId(o))
    requires Pairs(g.daemons) == Pairs(o.daemons) && g.changed == o.changed && (!g.changed ==> g.id == o.id)
    ensures Alike(Renewed(g, regId), Renewed(o, regId))
  {
    hide Pairs;
    StampedOne(g, regId);
    StampedOne(o, regId);
    Determined(Renewed(g, regId).daemons, Renewed(o, regId).daemons, Renewed(g, regId).id.memb);
  }

  predicate SameMembers(w: Sets, js: seq<int>, ks: seq<int>) {
    forall i :: 0 <= i < |w| ==> (i in js <==> i in ks)
  }

  lemma {:induction false} SameSides(w: Sets, js: seq<int>, ks: seq<int>, n: Name)
    requires SameMembers(w, js, ks)
    ensures None(w, js, n) ==> None(w, ks, n)
    ensures forall i :: One(w, js, n, i) ==> One(w, ks, n, i)
    ensures Everybody(w, js, n) <= Everybody(w, ks, n)
  {
    forall x | 0 <= x < |ks| && 0 <= ks[x] < |w| ensures ks[x] in js { }
    forall q | q in Everybody(w, js, n) ensures q in Everybody(w, ks, n) {
      var x :| 0 <= x < |js| && 0 <= js[x] < |w| && n in w[js[x]].groups && q in Pairs(w[js[x]].groups[n].daemons);
      assert js[x] in ks;
      var y :| 0 <= y < |ks| && ks[y] == js[x];
    }
  }

  lemma {:induction false} NoneOneMany(w: Sets, js: seq<int>, n: Name)
    requires !None(w, js, n) && !Many(w, js, n)
    ensures exists i :: One(w, js, n, i)
  {
    var x :| 0 <= x < |js| && 0 <= js[x] < |w| && n in w[js[x]].groups;
    assert One(w, js, n, js[x]);
  }

  lemma {:induction false} NotBoth(w: Sets, js: seq<int>, n: Name)
    ensures forall i :: One(w, js, n, i) ==> !Many(w, js, n)
  {
  }

  // What a gatherer has before G_compute_and_notify renews it.
  function GatheredGroups(w: Sets, s: Groups, order: seq<int>): map<Name, Group>
    requires forall x :: 0 <= x < |order| ==> 0 <= order[x] < |w|
  {
    MergeAll(s.groups, Taken(w, order))
  }

  lemma {:induction false} SameHolds(w: Sets, js: seq<int>, ks: seq<int>, n: Name, a: map<Name, Group>, b: map<Name, Group>)
    requires Holds(w, js, n, a) && Holds(w, ks, n, b) && SameMembers(w, js, ks)
    ensures n in a <==> n in b
    ensures n in a ==> Pairs(a[n].daemons) == Pairs(b[n].daemons) && a[n].changed == b[n].changed && (!a[n].changed ==> a[n].id == b[n].id)
  {
    SameSides(w, js, ks, n);
    SameSides(w, ks, js, n);
    hide None, One, Many, Everybody, Pairs;
    if n in a {
      if !Many(w, js, n) {
        NoneOneMany(w, js, n);
        var i :| One(w, js, n, i);
        assert One(w, ks, n, i);
      } else if !Many(w, ks, n) {
        NotBoth(w, js, n);
        NoneOneMany(w, ks, n);
      }
    }
  }

  lemma {:induction false} AllSame(w: Sets, s: Groups, j: int, order: seq<int>, t: Groups, k: int, order': seq<int>, n: Name)
    requires Gatherer(w, s, j, order) && Gatherer(w, t, k, order') && Whole(w, s) && Whole(w, t) && NoUnseenMerge(w)
    ensures var a, b := GatheredGroups(w, s, order), GatheredGroups(w, t, order');
            && (n in a <==> n in b)
            && (n in a ==> Pairs(a[n].daemons) == Pairs(b[n].daemons) && a[n].changed == b[n].changed && (!a[n].changed ==> a[n].id == b[n].id))
  {
    hide Holds, Inv, MergeAll, Pairs, MessageOK, InOrder, Apart, Alike, NoUnseenMerge;
    assert Taken(w, order)[..|order|] == Taken(w, order) && Taken(w, order')[..|order'|] == Taken(w, order');
    Covers(w, s, j, order);
    Covers(w, t, k, order');
    HoldsAll(w, s, j, order, |order|, n);
    HoldsAll(w, t, k, order', |order'|, n);
    SameHolds(w, Sofar(j, order, |order|), Sofar(k, order', |order'|), n, GatheredGroups(w, s, order), GatheredGroups(w, t, order'));
  }

  lemma {:induction false} Covers(w: Sets, s: Groups, j: int, order: seq<int>)
    requires Gatherer(w, s, j, order)
    ensures forall i :: 0 <= i < |w| ==> i in Sofar(j, order, |order|)
  {
    hide Inv;
    assert order[..|order|] == order;
  }

  // ------------------------------------------------------------------ agreement

  lemma {:induction false} GatheredOne(w: Sets, s: Groups, j: int, order: seq<int>, n: Name)
    requires Gatherer(w, s, j, order) && Whole(w, s)
    ensures var a := GatheredGroups(w, s, order);
            n in a ==> CountOK(a[n]) && NonePartitioned(a[n]) && !Unknown(a[n].id.memb) && (!a[n].changed ==> SameId(a[n]))
    ensures AddSets(s.conf, s.synced, Taken(w, order)).Merged?
  {
    hide MessageOK, InOrder, Apart, Alike;
    TakenExchangeable(w, s, j, order);
    MergeAllOK(s, Taken(w, order));
    var u := s.(synced := AddSets(s.conf, s.synced, Taken(w, order)).procs, groups := MergeAll(s.groups, Taken(w, order)));
    if n in u.groups { assert GroupOK(u, u.groups[n]); }
  }

  // Daemons of the membership that have gathered all group messages end with the
  // same groups: the same daemons, members and counts, the same ids, and the same
  // decision which groups have changed; and with the same synced set, which is
  // the whole membership in configuration order.
  lemma {:induction false} GroupViewAgreement(w: Sets, s: Groups, j: int, order: seq<int>, t: Groups, k: int, order': seq<int>, n: Name)
    requires Gatherer(w, s, j, order) && Gatherer(w, t, k, order') && Whole(w, s) && Whole(w, t) && NoUnseenMerge(w)
    requires s.regId == t.regId && s.phase == t.phase == GGATHER && !s.fault && !t.fault && s.conf == t.conf
    ensures var a, b := Gathered(s, Taken(w, order)), Gathered(t, Taken(w, order'));
            && a.phase == b.phase == GOP && !a.fault && !b.fault
            && (n in a.groups <==> n in b.groups)
            && (n in a.groups ==> Alike(a.groups[n], b.groups[n]))
            && a.synced == b.synced && InOrder(s.conf, a.synced)
            && forall p :: p in a.synced <==> InWorld(w, p)
  {
    hide Pairs, MergeAll, Inv, CountOK, NonePartitioned, SameId, Gatherer, Whole, NoUnseenMerge, Renewed, AddSets, Alike, InWorld, InOrder;
    AllSame(w, s, j, order, t, k, order', n);
    GatheredOne(w, s, j, order, n);
    GatheredOne(w, t, k, order', n);
    WholeSet(w, s, j, order);
    WholeSet(w, t, k, order');
    RegKnown(w, s, j, order);
    RegKnown(w, t, k, order');
    var x, y := GatheredGroups(w, s, order), GatheredGroups(w, t, order');
    if n in x { SameRenewed(x[n], y[n], s.regId); }
    OrderUnique(s.conf, AddSets(s.conf, s.synced, Taken(w, order)).procs, AddSets(t.conf, t.synced, Taken(w, order')).procs);
  }

  predicate InWorld(w: Sets, p: Proc) {
    exists i :: 0 <= i < |w| && p in w[i].procs
  }

  lemma {:induction false} RegKnown(w: Sets, s: Groups, j: int, order: seq<int>)
    requires Gatherer(w, s, j, order)
    ensures !Unknown(s.regId) && Busy(s) && forall x :: 0 <= x < |order| ==> 0 <= order[x] < |w|
  {
  }

  lemma {:induction false} WholeSet(w: Sets, s: Groups, j: int, order: seq<int>)
    requires Gatherer(w, s, j, order) && Whole(w, s)
    ensures var r := AddSets(s.conf, s.synced, Taken(w, order));
            r.Merged? && InOrder(s.conf, r.procs) && forall p :: p in r.procs <==> InWorld(w, p)
  {
    hide MessageOK, Apart, Alike, InOrder, AddSets, GroupOK;
    TakenExchangeable(w, s, j, order);
    var ms := Taken(w, order);
    assert ms[..|order|] == ms;
    AddSetsHolds(s, ms);
    forall p ensures p in AllProcs(ms) || p in s.synced <==> InWorld(w, p) {
      if p in AllProcs(ms) {
        var x :| 0 <= x < |ms| && p in ms[x].procs;
        assert p in w[order[x]].procs;
      }
      if InWorld(w, p) && p !in s.synced {
        var i :| 0 <= i < |w| && p in w[i].procs;
        assert i != j && i in order;
        var x :| 0 <= x < |order| && order[x] == i;
        assert p in ms[x].procs;
      }
    }
  }

  // What the exchange comes to: a group has everybody whom any set had in it.  A
  // group that one set alone had keeps its id, unless it had changed; any other
  // has the first id of the new membership.
  lemma {:induction false} ExchangeResult(w: Sets, s: Groups, j: int, order: seq<int>, n: Name)
    requires Gatherer(w, s, j, order) && Whole(w, s) && NoUnseenMerge(w) && s.phase == GGATHER
    ensures forall x :: 0 <= x < |order| ==> 0 <= order[x] < |w|
    ensures var t := Gathered(s, Taken(w, order));
            && (n in t.groups <==> exists i :: 0 <= i < |w| && n in w[i].groups)
            && (n in t.groups ==>
                  && (forall q :: q in Pairs(t.groups[n].daemons) <==>
                        exists i :: 0 <= i < |w| && n in w[i].groups && q in Pairs(w[i].groups[n].daemons))
                  && forall i :: 0 <= i < |w| && n in w[i].groups ==>
                       t.groups[n].id ==
                         if !w[i].groups[n].changed && (forall k :: 0 <= k < |w| && n in w[k].groups ==> k == i) then w[i].groups[n].id
                         else GroupId(s.regId, 1))
  {
    hide Holds, MergeAll, Pairs, MessageOK, InOrder, Apart, Alike, NoUnseenMerge, Inv, AddSets, Gatherer, Whole, Renewed, CountOK, NonePartitioned, SameId;
    RegKnown(w, s, j, order);
    assert Taken(w, order)[..|order|] == Taken(w, order);
    Covers(w, s, j, order);
    HoldsAll(w, s, j, order, |order|, n);
    GatheredOne(w, s, j, order, n);
    HeldBy(w, Sofar(j, order, |order|), n, GatheredGroups(w, s, order));
    var gs := GatheredGroups(w, s, order);
    if n in gs { StampedOne(gs[n], s.regId); }
  }

  lemma {:induction false} HeldBy(w: Sets, js: seq<int>, n: Name, gs: map<Name, Group>)
    requires Holds(w, js, n, gs) && (forall i :: 0 <= i < |w| ==> i in js)
    ensures n in gs <==> exists i :: 0 <= i < |w| && n in w[i].groups
    ensures n in gs ==> forall q :: q in Pairs(gs[n].daemons) <==>
              exists i :: 0 <= i < |w| && n in w[i].groups && q in Pairs(w[i].groups[n].daemons)
    ensures n in gs ==> forall i :: 0 <= i < |w| && n in w[i].groups ==>
              if forall k :: 0 <= k < |w| && n in w[k].groups ==> k == i
              then gs[n].changed == w[i].groups[n].changed && gs[n].id == w[i].groups[n].id
              else gs[n].changed
  {
    hide Pairs;
    forall i | 0 <= i < |w| && n in w[i].groups ensures n in gs {
      assert i in js;
      var x :| 0 <= x < |js| && js[x] == i;
    }
    if n in gs {
      forall q, i | 0 <= i < |w| && n in w[i].groups && q in Pairs(w[i].groups[n].daemons) ensures q in Everybody(w, js, n) {
        assert i in js;
        var x :| 0 <= x < |js| && js[x] == i;
      }
      forall i | 0 <= i < |w| && n in w[i].groups
        ensures if forall k :: 0 <= k < |w| && n in w[k].groups ==> k == i
                then gs[n].changed == w[i].groups[n].changed && gs[n].id == w[i].groups[n].id
                else gs[n].changed
      {
        if forall k :: 0 <= k < |w| && n in w[k].groups ==> k == i {
          assert One(w, js, n, i);
        } else {
          var k :| 0 <= k < |w| && n in w[k].groups && k != i;
          TwoAreMany(w, js, n, i, k);
        }
      }
    }
  }

  lemma {:induction false} TwoAreMany(w: Sets, js: seq<int>, n: Name, i: int, k: int)
    requires i in js && k in js && i != k && 0 <= i < |w| && 0 <= k < |w| && n in w[i].groups && n in w[k].groups
    ensures Many(w, js, n)
  {
    var x :| 0 <= x < |js| && js[x] == i;
    var y :| 0 <= y < |js| && js[y] == k;
    if x < y { assert js[x] != js[y]; } else { assert js[y] != js[x]; }
  }
}
