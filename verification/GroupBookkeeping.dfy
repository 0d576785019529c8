// What every handler of groups.c keeps: the counts of a group, its mailboxes,
// and which membership id each of its daemons carries.
module GroupBookkeeping {
  import opened Types
  import opened Groups

  // The mailboxes of a group are those of its local members, one each.
  predicate BoxesOK(boxes: map<Name, int>, local: set<Name>, mboxes: seq<int>) {
    && local <= boxes.Keys
    && |mboxes| == |local|
    && (forall m :: m in local ==> boxes[m] in mboxes)
    && (forall x :: 0 <= x < |mboxes| ==> exists m :: m in local && boxes[m] == mboxes[x])
    && (forall x, y :: 0 <= x < y < |mboxes| ==> mboxes[x] != mboxes[y])
  }

  predicate OneBoxEach(boxes: map<Name, int>) {
    forall m, n :: m in boxes && n in boxes && boxes[m] == boxes[n] ==> m == n
  }

  predicate NoneEmpty(ds: map<Proc, DaemonMembers>) {
    forall p :: p in ds ==> ds[p].members != {}
  }

  // num_members is the sum over the daemons, none of which is empty.
  predicate CountOK(g: Group) {
    g.numMembers == |Pairs(g.daemons)| && g.daemons != map[] && NoneEmpty(g.daemons)
  }

  // Every daemon that is not partitioned carries the id of its group.
  predicate SameId(g: Group) {
    !Unknown(g.id.memb) && forall p :: p in g.daemons ==> Unknown(g.daemons[p].memb) || g.daemons[p].memb == g.id.memb
  }

  predicate NonePartitioned(g: Group) {
    forall p :: p in g.daemons ==> !Unknown(g.daemons[p].memb)
  }

  // Daemons that are not partitioned belong to the synced set.
  predicate InSet(g: Group, synced: seq<Proc>) {
    forall p :: p in g.daemons && !Unknown(g.daemons[p].memb) ==> p in synced
  }

  // In GOP no group is changed; outside GTRANS no daemon is partitioned, and in
  // GTRANS only those of changed groups are; the ids agree except in a group that
  // a cascade of memberships has changed.
  predicate PhaseOK(phase: Phase, g: Group) {
    && !Unknown(g.id.memb)
    && (phase == GOP ==> !g.changed)
    && (phase == GTRANS && g.changed ==> SameId(g))
    && (phase != GTRANS || !g.changed ==> NonePartitioned(g))
    && (!g.changed ==> SameId(g))
  }

  // The daemon itself is never partitioned from itself.
  predicate Here(g: Group, me: Proc) {
    me in g.daemons ==> !Unknown(g.daemons[me].memb)
  }

  predicate GroupOK(s: Groups, g: Group) {
    CountOK(g) && Here(g, s.me) && InSet(g, s.synced) && BoxesOK(s.boxes, Local(g, s.me), g.mboxes) && PhaseOK(s.phase, g)
  }

  // In configuration order, without repetition.
  predicate InOrder(conf: map<Proc, int>, ps: seq<Proc>) {
    && (forall x :: 0 <= x < |ps| ==> ps[x] in conf)
    && forall x, y :: 0 <= x < y < |ps| ==> conf[ps[x]] < conf[ps[y]]
  }

  predicate SetOK(s: Groups) {
    && s.me in s.synced && !Unknown(s.regId) && InOrder(s.conf, s.synced)
    && (s.phase == GTRANS ==> !Unknown(s.transId) && forall p :: p in s.synced ==> p in s.trans)
    && (s.phase == GGT ==> !Unknown(s.transId) && s.me in s.trans)
  }

  predicate Inv(s: Groups) {
    OneBoxEach(s.boxes) && SetOK(s) && forall n :: n in s.groups ==> GroupOK(s, s.groups[n])
  }

  // A daemon that has just started, alone in its membership.
  lemma {:induction false} StartKeeps(me: Proc, conf: map<Proc, int>, regId: MembId)
    requires me in conf && !Unknown(regId)
    ensures Inv(Groups(GOP, me, map[], [me], {}, UNKNOWN, {me}, regId, map[], conf, false))
  {
  }

  // --------------------------------------------------------------- the counts

  lemma {:induction false} PairsAdd(ds: map<Proc, DaemonMembers>, p: Proc, d: DaemonMembers, m: Name)
    requires m !in d.members && (if p in ds then ds[p].members == d.members else d.members == {})
    ensures var e := ds[p := d.(members := d.members + {m})];
            Pairs(e) == Pairs(ds) + {(p, m)} && |Pairs(e)| == |Pairs(ds)| + 1
  {
    var e := ds[p := d.(members := d.members + {m})];
    forall q, n ensures (q, n) in Pairs(e) <==> (q, n) in Pairs(ds) + {(p, m)} {
      assert q != p ==> (q in e <==> q in ds);
    }
    assert Pairs(e) == Pairs(ds) + {(p, m)};
    assert (p, m) !in Pairs(ds);
  }

  lemma {:induction false} PairsRemove(ds: map<Proc, DaemonMembers>, p: Proc, m: Name)
    requires p in ds && m in ds[p].members
    ensures var d := ds[p].(members := ds[p].members - {m});
            var e := if d.members == {} then ds - {p} else ds[p := d];
            Pairs(e) == Pairs(ds) - {(p, m)} && |Pairs(e)| == |Pairs(ds)| - 1
  {
  }

  lemma {:induction false} PairsNone(ds: map<Proc, DaemonMembers>)
    requires NoneEmpty(ds)
    ensures |Pairs(ds)| == 0 <==> ds == map[]
  {
    if ds != map[] {
      assert exists p :: p in ds;
      var p :| p in ds;
      var m :| m in ds[p].members;
      assert (p, m) in Pairs(ds);
    }
  }

  lemma {:induction false} PairsJoin(a: map<Proc, DaemonMembers>, b: map<Proc, DaemonMembers>)
    requires a.Keys !! b.Keys
    ensures Pairs(a + b) == Pairs(a) + Pairs(b) && |Pairs(a + b)| == |Pairs(a)| + |Pairs(b)|
  {
    assert Pairs(a) !! Pairs(b);
  }

  lemma {:induction false} PairsSame(a: map<Proc, DaemonMembers>, b: map<Proc, DaemonMembers>)
    requires a.Keys == b.Keys && forall p :: p in a ==> a[p].members == b[p].members
    ensures Pairs(a) == Pairs(b)
  {
  }

  // ---------------------------------------------------------------- mailboxes

  lemma {:induction false} BoxAdded(boxes: map<Name, int>, local: set<Name>, mboxes: seq<int>, m: Name)
    requires BoxesOK(boxes, local, mboxes) && OneBoxEach(boxes) && m in boxes && m !in local
    ensures BoxesOK(boxes, local + {m}, mboxes + [boxes[m]])
  {
    forall x | 0 <= x < |mboxes| ensures mboxes[x] != boxes[m] {
      var k :| k in local && boxes[k] == mboxes[x];
    }
  }

  lemma {:induction false} BoxRemoved(boxes: map<Name, int>, local: set<Name>, mboxes: seq<int>, m: Name)
    requires BoxesOK(boxes, local, mboxes) && OneBoxEach(boxes) && m in local
    ensures boxes[m] in mboxes && BoxesOK(boxes, local - {m}, RemoveBox(mboxes, boxes[m]))
  {
    var i, last := IndexOf(mboxes, boxes[m]), |mboxes| - 1;
    var r := RemoveBox(mboxes, boxes[m]);
    assert forall x :: 0 <= x < last ==> r[x] == if x == i then mboxes[last] else mboxes[x];
    forall x | 0 <= x < |r| ensures exists k :: k in local - {m} && boxes[k] == r[x] {
      var y := if x == i then last else x;
      var k :| k in local && boxes[k] == mboxes[y];
      assert y != i;
    }
    forall k | k in local - {m} ensures boxes[k] in r {
      var y :| 0 <= y < |mboxes| && mboxes[y] == boxes[k];
      assert y != i;
      assert r[if y == last then i else y] == boxes[k];
    }
  }

  // ------------------------------------------------------------ join and leave

  predicate Blank(g: Group) {
    g.daemons == map[] && g.numMembers == 0 && g.mboxes == [] && !g.changed && !Unknown(g.id.memb)
  }

  lemma {:induction false} AddCount(g: Group, p: Proc, name: Name, memb: MembId)
    requires (CountOK(g) || Blank(g)) && !Has(g, p, name)
    ensures CountOK(AddMember(g, p, name, memb))
  {
    hide Pairs;
    var d := if p in g.daemons then g.daemons[p] else DaemonMembers(memb, {});
    PairsAdd(g.daemons, p, d, name);
    NoPairs();
  }

  lemma {:induction false} AddBoxes(s: Groups, g: Group, p: Proc, name: Name, memb: MembId)
    requires OneBoxEach(s.boxes) && (BoxesOK(s.boxes, Local(g, s.me), g.mboxes) || Blank(g))
    requires !Has(g, p, name) && (p == s.me ==> name in s.boxes)
    ensures BoxesOK(s.boxes, Local(AddMember(g, p, name, memb), s.me), if p == s.me then g.mboxes + [s.boxes[name]] else g.mboxes)
  {
    hide BoxesOK;
    if Blank(g) { NoBoxes(s.boxes); }
    var h := AddMember(g, p, name, memb);
    if p == s.me {
      BoxAdded(s.boxes, Local(g, s.me), g.mboxes, name);
      assert Local(h, s.me) == Local(g, s.me) + {name};
    } else {
      assert Local(h, s.me) == Local(g, s.me);
    }
  }

  lemma {:induction false} AddPhase(s: Groups, g: Group, p: Proc, name: Name, memb: MembId)
    requires SetOK(s) && !Busy(s) && ((InSet(g, s.synced) && PhaseOK(s.phase, g)) || Blank(g))
    requires memb == if s.phase == GOP || p in s.trans then g.id.memb else UNKNOWN
    requires s.phase == GOP || p in s.trans ==> p in s.synced
    ensures var h := AddMember(g, p, name, memb);
            var k := h.(changed := h.changed || Unknown(h.daemons[p].memb));
            InSet(k, s.synced) && PhaseOK(s.phase, k)
    ensures (Here(g, s.me) || Blank(g)) && (p == s.me ==> p in s.synced) ==> Here(AddMember(g, p, name, memb), s.me)
  {
  }

  lemma {:induction false} AddOK(s: Groups, g: Group, p: Proc, name: Name, memb: MembId)
    requires OneBoxEach(s.boxes) && SetOK(s) && !Busy(s)
    requires GroupOK(s, g) || Blank(g)
    requires !Has(g, p, name) && (p == s.me ==> name in s.boxes)
    requires memb == if s.phase == GOP || p in s.trans then g.id.memb else UNKNOWN
    requires s.phase == GOP || p in s.trans ==> p in s.synced
    ensures var h := AddMember(g, p, name, memb);
            var k := if p == s.me then h.(mboxes := h.mboxes + [s.boxes[name]]) else h;
            GroupOK(s, k.(changed := k.changed || Unknown(k.daemons[p].memb)))
  {
    hide Pairs, BoxesOK, NoneEmpty;
    AddCount(g, p, name, memb);
    AddBoxes(s, g, p, name, memb);
    AddPhase(s, g, p, name, memb);
    hide AddMember, PhaseOK, CountOK, InSet;
    AddKeeps(g, p, name, memb);
    var h := AddMember(g, p, name, memb);
    var k := if p == s.me then h.(mboxes := h.mboxes + [s.boxes[name]]) else h;
    Relabel(s, h, k.(changed := k.changed || Unknown(k.daemons[p].memb)));
  }

  lemma {:induction false} AddKeeps(g: Group, p: Proc, name: Name, memb: MembId)
    ensures AddMember(g, p, name, memb).mboxes == g.mboxes && p in AddMember(g, p, name, memb).daemons
  {
  }

  // Mailboxes and the changed flag do not matter for the counts, nor mailboxes
  // for the ids.
  lemma {:induction false} Relabel(s: Groups, h: Group, k: Group)
    requires k == h.(mboxes := k.mboxes, changed := k.changed)
    ensures CountOK(h) ==> CountOK(k)
    ensures Local(k, s.me) == Local(h, s.me)
    ensures Here(h, s.me) ==> Here(k, s.me)
    ensures InSet(h.(changed := k.changed), s.synced) && PhaseOK(s.phase, h.(changed := k.changed)) ==>
              InSet(k, s.synced) && PhaseOK(s.phase, k)
  {
  }

  lemma {:induction false} NoPairs()
    ensures Pairs(map[]) == {}
  {
  }

  lemma {:induction false} NoBoxes(boxes: map<Name, int>)
    ensures BoxesOK(boxes, {}, [])
  {
  }

  lemma {:induction false} JoinKeeps(s: Groups, owner: Proc, name: Name, group: Name)
    requires Inv(s) && !s.fault && !Busy(s) && (owner == s.me ==> name in s.boxes)
    requires s.phase == GOP || owner in s.trans ==> owner in s.synced
    ensures var t := Join(s, owner, name, group);
            Inv(t) && !t.fault && group in t.groups && Has(t.groups[group], owner, name)
  {
    hide AddMember, GroupOK, SetOK;
    if group !in s.groups { IdKnown(s); }
    var g := if group in s.groups then s.groups[group]
             else Group(GroupId(if s.phase == GOP then s.regId else s.transId, 0), false, map[], 0, []);
    var t := Join(s, owner, name, group);
    if !Has(g, owner, name) {
      var memb := if s.phase == GOP || owner in s.trans then g.id.memb else UNKNOWN;
      AddOK(s, g, owner, name, memb);
      AddHas(g, owner, name, memb);
      SameOK(s, t, g);
      forall n | n in t.groups ensures GroupOK(t, t.groups[n]) {
        if n != group { SameOK(s, t, s.groups[n]); } else { SameOK(s, t, t.groups[n]); }
      }
    }
  }

  lemma {:induction false} IdKnown(s: Groups)
    requires SetOK(s) && !Busy(s)
    ensures !Unknown(if s.phase == GOP then s.regId else s.transId)
  {
  }

  lemma {:induction false} AddHas(g: Group, p: Proc, name: Name, memb: MembId)
    ensures Has(AddMember(g, p, name, memb), p, name)
  {
  }

  lemma {:induction false} SameOK(s: Groups, t: Groups, g: Group)
    requires t == s.(groups := t.groups)
    ensures GroupOK(s, g) ==> GroupOK(t, g)
    ensures SetOK(s) ==> SetOK(t)
  {
  }

  // A member that goes leaves a sound group or none, and the exits on the way are
  // not taken.
  lemma {:induction false} DepartOK(s: Groups, g: Group, owner: Proc, name: Name)
    requires OneBoxEach(s.boxes) && GroupOK(s, g) && Has(g, owner, name)
    ensures var r := Depart(g, s.me, s.boxes, owner, name);
            && !r.Broken?
            && (r.Gone? <==> Pairs(g.daemons) == {(owner, name)})
            && (r.Stays? ==> GroupOK(s, r.g) && Pairs(r.g.daemons) == Pairs(g.daemons) - {(owner, name)}
                             && r.g.id.index == g.id.index + 1)
  {
    hide Pairs, BoxesOK, RemoveBox, PhaseOK;
    DepartPhase(s, g, owner, name);
    PairsRemove(g.daemons, owner, name);
    PairIn(g.daemons, owner, name);
    if owner == s.me { BoxRemoved(s.boxes, Local(g, s.me), g.mboxes, name); BoxHas(s.boxes, Local(g, s.me), g.mboxes); }
    var h := RemoveMember(if owner == s.me then g.(mboxes := RemoveBox(g.mboxes, s.boxes[name])) else g, owner, name);
    assert owner == s.me ==> Local(h, s.me) == Local(g, s.me) - {name};
    assert owner != s.me ==> Local(h, s.me) == Local(g, s.me);
    PairsNone(h.daemons);
    BoxCount(s.boxes, Local(h, s.me), h.mboxes);
  }

  // Fewer members or daemons, and another index, leave the membership ids alone.
  lemma {:induction false} DepartPhase(s: Groups, g: Group, owner: Proc, name: Name)
    requires PhaseOK(s.phase, g) && Has(g, owner, name)
    ensures forall h: Group, i :: h == RemoveMember(g, owner, name).(mboxes := h.mboxes, id := g.id.(index := i)) ==> PhaseOK(s.phase, h)
  {
  }

  lemma {:induction false} PairIn(ds: map<Proc, DaemonMembers>, p: Proc, m: Name)
    requires p in ds && m in ds[p].members
    ensures (p, m) in Pairs(ds) && (|Pairs(ds)| == 1 <==> Pairs(ds) == {(p, m)})
  {
    var r := Pairs(ds) - {(p, m)};
    assert Pairs(ds) == r + {(p, m)};
    if |Pairs(ds)| == 1 { assert |r| == 0; }
  }

  lemma {:induction false} BoxHas(boxes: map<Name, int>, local: set<Name>, mboxes: seq<int>)
    requires BoxesOK(boxes, local, mboxes)
    ensures forall m :: m in local ==> m in boxes && boxes[m] in mboxes
  {
  }

  lemma {:induction false} BoxCount(boxes: map<Name, int>, local: set<Name>, mboxes: seq<int>)
    requires BoxesOK(boxes, local, mboxes)
    ensures local == {} ==> mboxes == []
  {
  }

  lemma {:induction false} LeaveKeeps(s: Groups, owner: Proc, name: Name, group: Name)
    requires Inv(s) && !s.fault && !Busy(s)
    ensures var t := Leave(s, owner, name, group);
            Inv(t) && !t.fault && !(group in t.groups && Has(t.groups[group], owner, name))
  {
    hide GroupOK, Depart, SetOK;
    var t := Leave(s, owner, name, group);
    if group in s.groups && Has(s.groups[group], owner, name) {
      DepartOK(s, s.groups[group], owner, name);
      SameOK(s, t, s.groups[group]);
      DepartedNow(s, s.groups[group], owner, name);
      forall n | n in t.groups ensures GroupOK(t, t.groups[n]) { SameOK(s, t, t.groups[n]); }
    }
  }

  lemma {:induction false} DepartedNow(s: Groups, g: Group, owner: Proc, name: Name)
    requires Has(g, owner, name)
    ensures var r := Depart(g, s.me, s.boxes, owner, name); r.Stays? ==> !Has(r.g, owner, name)
  {
    hide RemoveBox;
  }

  // After a kill the member is in no group.
  lemma {:induction false} KillKeeps(s: Groups, owner: Proc, name: Name)
    requires Inv(s) && !s.fault && !Busy(s)
    ensures var t := Kill(s, owner, name);
            Inv(t) && !t.fault && forall n :: n in t.groups ==> !Has(t.groups[n], owner, name)
  {
    hide GroupOK, Depart, SetOK;
    forall n | n in s.groups && Has(s.groups[n], owner, name)
      ensures !Depart(s.groups[n], s.me, s.boxes, owner, name).Broken?
    {
      DepartOK(s, s.groups[n], owner, name);
    }
    assert !Breaks(s, owner, name);
    var t := Kill(s, owner, name);
    SameOK(s, t, Group(GroupId(UNKNOWN, 0), false, map[], 0, []));
    forall n | n in t.groups ensures GroupOK(t, t.groups[n]) && !Has(t.groups[n], owner, name) {
      SameOK(s, t, t.groups[n]);
      if Has(s.groups[n], owner, name) {
        DepartOK(s, s.groups[n], owner, name);
        DepartedNow(s, s.groups[n], owner, name);
      }
    }
  }

  // ---------------------------------------------------------------- memberships

  lemma {:induction false} KeepHolds(ps: seq<Proc>, memb: set<Proc>)
    ensures forall p :: p in Keep(ps, memb) <==> p in ps && p in memb
  {
    if ps != [] {
      KeepHolds(ps[..|ps| - 1], memb);
      assert ps == ps[..|ps| - 1] + [ps[|ps| - 1]];
    }
  }

  lemma {:induction false} KeepInOrder(conf: map<Proc, int>, ps: seq<Proc>, memb: set<Proc>)
    requires InOrder(conf, ps)
    ensures InOrder(conf, Keep(ps, memb))
  {
    if ps != [] {
      var less := ps[..|ps| - 1];
      KeepInOrder(conf, less, memb);
      KeepHolds(less, memb);
      var r := Keep(less, memb);
      forall x | 0 <= x < |r| ensures conf[r[x]] < conf[ps[|ps| - 1]] {
        assert r[x] in r;
        assert r[x] in less;
      }
    }
  }

  lemma {:induction false} TransGroupOK(s: Groups, t: Groups, g: Group)
    requires GroupOK(s, g) && s.phase == GOP && !Unknown(t.transId) && s.me in t.trans && t.phase == GTRANS
    requires t.boxes == s.boxes && t.me == s.me && (forall p :: p in s.synced && p in t.trans ==> p in t.synced)
    ensures GroupOK(t, TransGroup(g, t.trans, t.transId))
  {
    hide BoxesOK, Pairs;
    var h := TransGroup(g, t.trans, t.transId);
    PairsSame(g.daemons, h.daemons);
    assert Local(h, t.me) == Local(g, s.me);
  }

  lemma {:induction false} TransKeeps(s: Groups, trans: set<Proc>, id: MembId)
    requires Inv(s) && !s.fault && (s.phase == GOP || s.phase == GGATHER) && s.me in trans && !Unknown(id)
    ensures Inv(Trans(s, trans, id)) && !Trans(s, trans, id).fault
  {
    hide GroupOK, TransGroup;
    KeepHolds(s.synced, trans);
    KeepInOrder(s.conf, s.synced, trans);
    var t := Trans(s, trans, id);
    forall n | n in t.groups ensures GroupOK(t, t.groups[n]) {
      if s.phase == GOP { TransGroupOK(s, t, s.groups[n]); } else { ChangedOK(s, t, s.groups[n], t.groups[n]); }
    }
  }

  // In GGATHER and GGT the changed flag is free.
  lemma {:induction false} ChangedOK(s: Groups, t: Groups, g: Group, h: Group)
    requires GroupOK(s, g) && Busy(s) && Busy(t) && h == g.(changed := h.changed) && (g.changed ==> h.changed)
    requires t.boxes == s.boxes && t.me == s.me && t.synced == s.synced
    ensures GroupOK(t, h)
  {
    assert Local(h, t.me) == Local(g, s.me);
  }

  // ---------------------------------------------------------- daemons that leave

  lemma {:induction false} Shrunk(s: Groups, t: Groups, g: Group, gone: set<Proc>)
    requires GroupOK(s, g) && s.me !in gone && t.boxes == s.boxes && t.me == s.me
    requires forall p :: p in s.synced && p !in gone ==> p in t.synced
    requires (s.phase == GTRANS && forall p :: p in g.daemons && Unknown(g.daemons[p].memb) ==> p in gone) || Busy(s)
    ensures var h := WithoutDaemons(g, gone);
            && h.numMembers == |Pairs(h.daemons)| && (h.numMembers == 0 <==> h.daemons == map[])
            && (h.daemons != map[] && Busy(t) ==> GroupOK(t, h) && GroupOK(t, h.(changed := true)))
            && h.changed == g.changed && h.id == g.id
  {
    hide Pairs, BoxesOK;
    var h := WithoutDaemons(g, gone);
    PairsNone(h.daemons);
    assert Local(h, t.me) == Local(g, s.me);
  }

  lemma {:induction false} RenewedOK(s: Groups, t: Groups, g: Group)
    requires GroupOK(s, g) && NonePartitioned(g) && t.phase == GOP && !Unknown(t.regId)
    requires t.boxes == s.boxes && t.me == s.me && t.synced == s.synced
    ensures GroupOK(t, Renewed(g, t.regId))
  {
    hide Pairs, BoxesOK;
    var h := Renewed(g, t.regId);
    PairsSame(g.daemons, h.daemons);
    assert Local(h, t.me) == Local(g, s.me);
  }

  lemma {:induction false} CleanedOK(s: Groups, t: Groups)
    requires Inv(s) && s.phase == GTRANS && t == s.(phase := GGATHER, groups := Cleaned(s.groups), reg := t.reg, regId := t.regId) && !Unknown(t.regId)
    ensures Inv(t)
  {
    hide WithoutDaemons;
    forall n | n in t.groups ensures GroupOK(t, t.groups[n]) {
      var g := s.groups[n];
      if g.changed {
        Shrunk(s, t, g, Partitioned(g));
      } else {
        assert Local(g, t.me) == Local(g, s.me);
      }
    }
  }

  lemma {:induction false} RegKeepsInTrans(s: Groups, reg: set<Proc>, id: MembId)
    requires Inv(s) && !s.fault && s.phase == GTRANS && !Unknown(id)
    ensures Inv(Reg(s, reg, id, [])) && !Reg(s, reg, id, []).fault
  {
    hide GroupOK, Cleaned, Renewed;
    var t := s.(phase := GGATHER, groups := Cleaned(s.groups), reg := reg, regId := id);
    CleanedOK(s, t);
    var u := Reg(s, reg, id, []);
    if u.phase == GOP {
      forall n | n in u.groups ensures GroupOK(u, u.groups[n]) {
        GroupHere(t, t.groups[n]);
        RenewedOK(t, u, t.groups[n]);
      }
    }
  }

  lemma {:induction false} GroupHere(s: Groups, g: Group)
    requires GroupOK(s, g) && s.phase != GTRANS
    ensures NonePartitioned(g)
  {
  }

  // ------------------------------------------------------------ group messages

  // What the other synced sets say: they share no daemon with this one, and
  // their groups are not empty.
  predicate MessageOK(m: SetMessage) {
    forall n :: n in m.groups ==>
      CountOK(m.groups[n]) && !Unknown(m.groups[n].id.memb) && forall p :: p in m.groups[n].daemons ==> p in m.procs
  }

  predicate Apart(conf: map<Proc, int>, a: seq<Proc>, b: seq<Proc>) {
    && (forall x :: 0 <= x < |a| ==> a[x] in conf) && (forall y :: 0 <= y < |b| ==> b[y] in conf)
    && forall x, y :: 0 <= x < |a| && 0 <= y < |b| ==> conf[a[x]] != conf[b[y]]
  }

  predicate Exchangeable(s: Groups, ms: seq<SetMessage>) {
    && (forall k :: 0 <= k < |ms| ==> MessageOK(ms[k]) && InOrder(s.conf, ms[k].procs) && Apart(s.conf, s.synced, ms[k].procs))
    && forall k, l :: 0 <= k < l < |ms| ==> Apart(s.conf, ms[k].procs, ms[l].procs)
  }

  lemma {:induction false} MergeGroupOK(s: Groups, t: Groups, g: Group, o: Group, procs: seq<Proc>)
    requires GroupOK(s, g) && Busy(s) && CountOK(o) && !Unknown(o.id.memb)
    requires (forall p :: p in o.daemons ==> p in procs) && (forall p :: p in procs ==> p !in s.synced) && s.me in s.synced
    requires t == s.(synced := t.synced, groups := t.groups) && (forall p :: p in s.synced || p in procs ==> p in t.synced)
    ensures GroupOK(t, MergeGroup(g, o))
  {
    hide Pairs, BoxesOK;
    var h, i := MergeGroup(g, o), Incoming(o);
    PairsSame(o.daemons, i);
    PairsJoin(g.daemons, i);
    assert Local(h, t.me) == Local(g, s.me);
    PairsNone(h.daemons);
    PairsNone(o.daemons);
  }

  lemma {:induction false} NewGroupOK(s: Groups, t: Groups, o: Group, procs: seq<Proc>)
    requires Busy(s) && CountOK(o) && !Unknown(o.id.memb) && s.me in s.synced
    requires (forall p :: p in o.daemons ==> p in procs) && (forall p :: p in procs ==> p !in s.synced)
    requires t == s.(synced := t.synced, groups := t.groups) && (forall p :: p in procs ==> p in t.synced)
    ensures GroupOK(t, NewGroup(o))
  {
    hide Pairs;
    PairsSame(o.daemons, Incoming(o));
    PairsNone(o.daemons);
    PairsNone(Incoming(o));
  }

  // ---------------------------------------------------------------- synced sets

  // Merging two sets that are in configuration order gives their union, in
  // configuration order.
  lemma {:induction false} AddToSyncedHolds(conf: map<Proc, int>, a: seq<Proc>, b: seq<Proc>)
    requires InOrder(conf, a) && InOrder(conf, b) && Apart(conf, a, b)
    ensures var r := AddToSynced(conf, a, b);
            && r.Merged? && InOrder(conf, r.procs) && (forall p :: p in r.procs <==> p in a || p in b)
            && |r.procs| == |a| + |b|
    decreases |a| + |b|
  {
    if a != [] || b != [] {
      if b == [] || (a != [] && conf[a[0]] < conf[b[0]]) {
        AddToSyncedHolds(conf, a[1..], b);
        Front(conf, a[0], a[1..], b, AddToSynced(conf, a[1..], b).procs);
        assert a == [a[0]] + a[1..];
      } else {
        AddToSyncedHolds(conf, a, b[1..]);
        Front(conf, b[0], a, b[1..], AddToSynced(conf, a, b[1..]).procs);
        assert b == [b[0]] + b[1..];
      }
    }
  }

  lemma {:induction false} Front(conf: map<Proc, int>, p: Proc, a: seq<Proc>, b: seq<Proc>, r: seq<Proc>)
    requires p in conf && InOrder(conf, r) && (forall q :: q in r <==> q in a || q in b)
    requires (forall q :: q in a ==> q in conf && conf[p] < conf[q]) && (forall q :: q in b ==> q in conf && conf[p] < conf[q])
    ensures InOrder(conf, [p] + r)
  {
    forall y | 0 <= y < |r| ensures conf[p] < conf[r[y]] { assert r[y] in r; }
  }

  // A list in configuration order is determined by its members.
  lemma {:induction false} OrderUnique(conf: map<Proc, int>, a: seq<Proc>, b: seq<Proc>)
    requires InOrder(conf, a) && InOrder(conf, b) && forall p :: p in a <==> p in b
    ensures a == b
  {
    FirstIn(a);
    FirstIn(b);
    if a != [] {
      assert b != [] && a[0] == b[0] by {
        var x :| 0 <= x < |b| && b[x] == a[0];
        assert b[0] in b;
        var y :| 0 <= y < |a| && a[y] == b[0];
      }
      forall p ensures p in a[1..] <==> p in b[1..] {
        Tails(conf, a, p);
        Tails(conf, b, p);
      }
      OrderUnique(conf, a[1..], b[1..]);
    }
  }

  lemma {:induction false} FirstIn(a: seq<Proc>)
    ensures a != [] ==> a[0] in a
  {
  }

  lemma {:induction false} Tails(conf: map<Proc, int>, a: seq<Proc>, p: Proc)
    requires a != [] && InOrder(conf, a)
    ensures p in a[1..] <==> p in a && p != a[0]
  {
  }

  // The synced sets of other daemons, all together.
  function AllProcs(ms: seq<SetMessage>): set<Proc> {
    set k, p | 0 <= k < |ms| && p in ms[k].procs :: p
  }

  lemma {:induction false} ApartWhole(conf: map<Proc, int>, r: seq<Proc>, a: seq<Proc>, ms: seq<SetMessage>, b: seq<Proc>)
    requires (forall p :: p in r ==> p in a || p in AllProcs(ms)) && Apart(conf, a, b)
    requires forall k :: 0 <= k < |ms| ==> Apart(conf, ms[k].procs, b)
    requires forall x :: 0 <= x < |r| ==> r[x] in conf
    ensures Apart(conf, r, b)
  {
    forall x, y | 0 <= x < |r| && 0 <= y < |b| ensures conf[r[x]] != conf[b[y]] {
      assert r[x] in r;
    }
  }

  lemma {:induction false} ExchangeLess(s: Groups, ms: seq<SetMessage>)
    requires Exchangeable(s, ms) && ms != []
    ensures var less, m := ms[..|ms| - 1], ms[|ms| - 1];
            && Exchangeable(s, less) && MessageOK(m) && InOrder(s.conf, m.procs) && Apart(s.conf, s.synced, m.procs)
            && (forall k :: 0 <= k < |less| ==> Apart(s.conf, less[k].procs, m.procs))
  {
    hide Apart, InOrder, MessageOK;
  }

  lemma {:induction false} ProcsMore(ms: seq<SetMessage>)
    ensures ms == [] ==> AllProcs(ms) == {}
    ensures ms != [] ==> forall p :: p in AllProcs(ms) <==> p in AllProcs(ms[..|ms| - 1]) || p in ms[|ms| - 1].procs
  {
    if ms != [] {
      var less, m := ms[..|ms| - 1], ms[|ms| - 1];
      assert ms == less + [m];
      forall p | p in AllProcs(less) ensures p in AllProcs(ms) {
        var k :| 0 <= k < |less| && p in less[k].procs;
        assert p in ms[k].procs;
      }
      forall p | p in AllProcs(ms) ensures p in AllProcs(less) || p in m.procs {
        var k :| 0 <= k < |ms| && p in ms[k].procs;
        if k < |less| { assert p in less[k].procs; }
      }
    }
  }

  lemma {:induction false} AddSetsHolds(s: Groups, ms: seq<SetMessage>)
    requires SetOK(s) && Exchangeable(s, ms)
    ensures var r := AddSets(s.conf, s.synced, ms);
            && r.Merged? && InOrder(s.conf, r.procs) && (forall p :: p in r.procs <==> p in s.synced || p in AllProcs(ms))
  {
    hide SetOK, Exchangeable, AddToSynced, AllProcs, Apart, MessageOK;
    SetInOrder(s);
    ProcsMore(ms);
    if ms != [] {
      var less, m := ms[..|ms| - 1], ms[|ms| - 1];
      ExchangeLess(s, ms);
      AddSetsHolds(s, less);
      var q := AddSets(s.conf, s.synced, less);
      AllIn(s.conf, q.procs);
      ApartWhole(s.conf, q.procs, s.synced, less, m.procs);
      AddToSyncedHolds(s.conf, q.procs, m.procs);
    }
  }

  lemma {:induction false} AllIn(conf: map<Proc, int>, r: seq<Proc>)
    requires InOrder(conf, r)
    ensures forall x :: 0 <= x < |r| ==> r[x] in conf
  {
  }

  lemma {:induction false} SetInOrder(s: Groups)
    requires SetOK(s)
    ensures InOrder(s.conf, s.synced) && s.me in s.synced
  {
  }

  // ------------------------------------------------------- taking the messages in

  lemma {:induction false} MergeAllOK(s: Groups, ms: seq<SetMessage>)
    requires Inv(s) && Busy(s) && Exchangeable(s, ms)
    ensures var r := AddSets(s.conf, s.synced, ms);
            r.Merged? && Inv(s.(synced := r.procs, groups := MergeAll(s.groups, ms)))
  {
    hide GroupOK, Merge, MergeGroup, NewGroup, CountOK, Apart, AddToSynced, Exchangeable, AllProcs, AddSets, MessageOK;
    AddSetsHolds(s, ms);
    var t := s.(synced := AddSets(s.conf, s.synced, ms).procs, groups := MergeAll(s.groups, ms));
    if ms != [] {
      var less, m := ms[..|ms| - 1], ms[|ms| - 1];
      ExchangeLess(s, ms);
      MergeAllOK(s, less);
      AddSetsHolds(s, less);
      var u := s.(synced := AddSets(s.conf, s.synced, less).procs, groups := MergeAll(s.groups, less));
      ProcsMore(ms);
      ApartNow(s, less, m, u);
      forall n | n in t.groups ensures GroupOK(t, t.groups[n]) { MergedOne(u, t, m, n); }
    } else {
      NoSets(s);
    }
  }

  lemma {:induction false} NoSets(s: Groups)
    ensures AddSets(s.conf, s.synced, []) == Merged(s.synced) && MergeAll(s.groups, []) == s.groups
  {
  }

  lemma {:induction false} ApartNow(s: Groups, less: seq<SetMessage>, m: SetMessage, u: Groups)
    requires u.conf == s.conf && (forall p :: p in u.synced ==> p in s.synced || p in AllProcs(less))
    requires InOrder(s.conf, u.synced) && Apart(s.conf, s.synced, m.procs)
    requires forall k :: 0 <= k < |less| ==> Apart(s.conf, less[k].procs, m.procs)
    ensures forall p :: p in m.procs ==> p !in u.synced
  {
    ApartWhole(s.conf, u.synced, s.synced, less, m.procs);
  }

  lemma {:induction false} MergedOne(u: Groups, t: Groups, m: SetMessage, n: Name)
    requires Inv(u) && Busy(u) && MessageOK(m) && t == u.(synced := t.synced, groups := Merge(u.groups, m.groups)) && n in t.groups
    requires (forall p :: p in m.procs ==> p !in u.synced) && (forall p :: p in u.synced || p in m.procs ==> p in t.synced)
    ensures GroupOK(t, t.groups[n])
  {
    hide GroupOK, MergeGroup, NewGroup, CountOK;
    if n !in m.groups {
      Wider(u, t, u.groups[n]);
    } else if n in u.groups {
      MergeGroupOK(u, t, u.groups[n], m.groups[n], m.procs);
    } else {
      NewGroupOK(u, t, m.groups[n], m.procs);
    }
  }

  lemma {:induction false} Wider(u: Groups, t: Groups, g: Group)
    requires GroupOK(u, g) && t == u.(synced := t.synced, groups := t.groups) && forall p :: p in u.synced ==> p in t.synced
    ensures GroupOK(t, g)
  {
  }

  // The exchange completes: back in GOP, or on in GTRANS if the next membership
  // has been announced.
  lemma {:induction false} GatheredKeeps(s: Groups, ms: seq<SetMessage>)
    requires Inv(s) && !s.fault && Busy(s) && Exchangeable(s, ms)
    ensures Inv(Gathered(s, ms)) && !Gathered(s, ms).fault
    ensures Gathered(s, ms).phase == if s.phase == GGT then GTRANS else GOP
  {
    hide GroupOK, MergeAll, AddSets, Renewed, Exchangeable;
    MergeAllOK(s, ms);
    var u := s.(synced := AddSets(s.conf, s.synced, ms).procs, groups := MergeAll(s.groups, ms));
    var t := u.(phase := GOP, groups := RenewAll(u.groups, s.regId));
    forall n | n in t.groups ensures GroupOK(t, t.groups[n]) {
      GroupHere(u, u.groups[n]);
      RenewedOK(u, t, u.groups[n]);
    }
    if s.phase == GGT { TransKeeps(t, s.trans, s.transId); }
  }

  // A new membership before the exchange is over.
  lemma {:induction false} RegKeepsInCascade(s: Groups, reg: set<Proc>, id: MembId, complete: seq<SetMessage>)
    requires Inv(s) && !s.fault && s.phase == GGT && !Unknown(id) && Exchangeable(s, complete)
    ensures Inv(Reg(s, reg, id, complete)) && !Reg(s, reg, id, complete).fault
  {
    hide GroupOK, MergeAll, AddSets, Cascaded, Exchangeable, WithoutDaemons;
    MergeAllOK(s, complete);
    var r := AddSets(s.conf, s.synced, complete);
    var u := s.(synced := r.procs, groups := MergeAll(s.groups, complete));
    var t := Reg(s, reg, id, complete);
    KeepHolds(r.procs, s.trans);
    KeepInOrder(s.conf, r.procs, s.trans);
    forall n | n in t.groups ensures GroupOK(t, t.groups[n]) { CascadedOK(u, t, u.groups[n]); }
  }

  lemma {:induction false} CascadedOK(u: Groups, t: Groups, g: Group)
    requires GroupOK(u, g) && Busy(u) && Busy(t) && u.me in u.trans && t.boxes == u.boxes && t.me == u.me
    requires forall p :: p in u.synced && p in u.trans ==> p in t.synced
    requires !(Absentees(g, u.trans) != {} && WithoutDaemons(g, Absentees(g, u.trans)).numMembers == 0)
    ensures GroupOK(t, Cascaded(g, u.trans))
  {
    hide WithoutDaemons, BoxesOK, Pairs;
    var gone := Absentees(g, u.trans);
    if gone == {} {
      assert forall p :: p in g.daemons && p !in u.trans ==> p in gone;
    } else {
      ShrunkBusy(u, t, g, gone);
    }
  }

  lemma {:induction false} ShrunkBusy(s: Groups, t: Groups, g: Group, gone: set<Proc>)
    requires GroupOK(s, g) && Busy(s) && Busy(t) && s.me !in gone && t.boxes == s.boxes && t.me == s.me
    requires gone == Absentees(g, s.trans) && forall p :: p in s.synced && p in s.trans ==> p in t.synced
    requires WithoutDaemons(g, gone).numMembers != 0
    ensures GroupOK(t, WithoutDaemons(g, gone).(changed := true))
  {
    hide Pairs, BoxesOK;
    var h := WithoutDaemons(g, gone);
    PairsNone(h.daemons);
    assert Local(h, t.me) == Local(g, s.me);
  }
}
