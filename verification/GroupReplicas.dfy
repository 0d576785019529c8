// Between two exchanges the groups are a replicated state machine: daemons that
// agree on them and deliver the same joins, leaves, kills and memberships go on
// agreeing.  And the id of a group tells its member lists apart.
module GroupReplicas {
  import opened Types
  import opened Groups
  import opened GroupBookkeeping
  import opened GroupView

  // The same view of all groups, of the synced set and of the memberships.
  ghost predicate SameViews(a: Groups, b: Groups) {
    && a.phase == b.phase && !a.fault && !b.fault && a.synced == b.synced && a.conf == b.conf
    && a.trans == b.trans && a.transId == b.transId && a.reg == b.reg && a.regId == b.regId
    && a.groups.Keys == b.groups.Keys
    && forall n :: n in a.groups ==> Alike(a.groups[n], b.groups[n])
  }

  // What a daemon delivers in the total order, outside the state exchange.
  datatype Op =
    | Joins(owner: Proc, name: Name, group: Name)
    | Leaves(owner: Proc, name: Name, group: Name)
    | Dies(owner: Proc, name: Name)
    | TransMembership(trans: set<Proc>, id: MembId)
    | RegMembership(reg: set<Proc>, id: MembId)

  function Apply(s: Groups, op: Op): Groups {
    match op
    case Joins(owner, name, group) => Join(s, owner, name, group)
    case Leaves(owner, name, group) => Leave(s, owner, name, group)
    case Dies(owner, name) => Kill(s, owner, name)
    case TransMembership(trans, id) => Trans(s, trans, id)
    case RegMembership(reg, id) => Reg(s, reg, id, [])
  }

  // When it is delivered: joins of own clients are of known ones, and a daemon
  // that is in the membership is in the synced set; memberships come in turn.
  predicate InItsTurn(s: Groups, op: Op) {
    match op
    case Joins(owner, name, _) => !Busy(s) && (owner == s.me ==> name in s.boxes) && (s.phase == GOP || owner in s.trans ==> owner in s.synced)
    case Leaves(_, _, _) => !Busy(s)
    case Dies(_, _) => !Busy(s)
    case TransMembership(trans, id) => s.phase == GOP && s.me in trans && !Unknown(id)
    case RegMembership(_, id) => s.phase == GTRANS && !Unknown(id)
  }

  lemma {:induction false} ApplyKeeps(s: Groups, op: Op)
    requires Inv(s) && !s.fault && InItsTurn(s, op)
    ensures Inv(Apply(s, op)) && !Apply(s, op).fault
  {
    hide Inv, Join, Leave, Kill, Trans, Reg;
    match op
    case Joins(owner, name, group) => JoinKeeps(s, owner, name, group);
    case Leaves(owner, name, group) => LeaveKeeps(s, owner, name, group);
    case Dies(owner, name) => KillKeeps(s, owner, name);
    case TransMembership(trans, id) => TransKeeps(s, trans, id);
    case RegMembership(reg, id) => RegKeepsInTrans(s, reg, id);
  }

  // ---------------------------------------------------------- handler by handler

  lemma {:induction false} AddAlike(g: Group, h: Group, owner: Proc, name: Name, memb: MembId)
    requires Alike(g, h)
    ensures Has(g, owner, name) <==> Has(h, owner, name)
    ensures var x, y := AddMember(g, owner, name, memb), AddMember(h, owner, name, memb);
            Alike(x, y) && owner in x.daemons && owner in y.daemons
  {
  }

  // The group that a join changes, before and after.
  function JoinedFrom(s: Groups, group: Name): Group {
    if group in s.groups then s.groups[group]
    else Group(GroupId(if s.phase == GOP then s.regId else s.transId, 0), false, map[], 0, [])
  }

  function MembFor(s: Groups, g: Group, owner: Proc): MembId {
    if s.phase == GOP || owner in s.trans then g.id.memb else UNKNOWN
  }

  lemma {:induction false} JoinIs(s: Groups, owner: Proc, name: Name, group: Name)
    requires !Join(s, owner, name, group).fault
    ensures var t, g := Join(s, owner, name, group), JoinedFrom(s, group);
            if Has(g, owner, name) then t == s
            else
              var h := AddMember(g, owner, name, MembFor(s, g, owner));
              && t == s.(groups := t.groups) && t.groups.Keys == s.groups.Keys + {group} && owner in h.daemons
              && (forall n :: n in s.groups && n != group ==> t.groups[n] == s.groups[n])
              && t.groups[group] == h.(mboxes := t.groups[group].mboxes, changed := h.changed || Unknown(h.daemons[owner].memb))
  {
  }

  lemma {:induction false} JoinAlike(a: Groups, b: Groups, owner: Proc, name: Name, group: Name)
    requires SameViews(a, b) && !Join(a, owner, name, group).fault && !Join(b, owner, name, group).fault
    ensures SameViews(Join(a, owner, name, group), Join(b, owner, name, group))
  {
    hide AddMember, Join, Has;
    JoinIs(a, owner, name, group);
    JoinIs(b, owner, name, group);
    assert group in a.groups.Keys <==> group in b.groups.Keys;
    var g, h := JoinedFrom(a, group), JoinedFrom(b, group);
    assert Alike(g, h);
    AddAlike(g, h, owner, name, MembFor(a, g, owner));
    var s, t := Join(a, owner, name, group), Join(b, owner, name, group);
    forall n | n in s.groups ensures n in t.groups && Alike(s.groups[n], t.groups[n]) { assert n in s.groups.Keys; }
  }

  lemma {:induction false} DepartAlike(a: Groups, b: Groups, g: Group, h: Group, owner: Proc, name: Name)
    requires Alike(g, h) && Has(g, owner, name)
    ensures Has(h, owner, name)
    ensures var r, q := Depart(g, a.me, a.boxes, owner, name), Depart(h, b.me, b.boxes, owner, name);
            !r.Broken? && !q.Broken? ==> (r.Gone? <==> q.Gone?) && (r.Stays? ==> q.Stays? && Alike(r.g, q.g))
  {
  }

  lemma {:induction false} LeaveIs(s: Groups, owner: Proc, name: Name, group: Name)
    requires !Leave(s, owner, name, group).fault
    ensures var t := Leave(s, owner, name, group);
            if group !in s.groups || !Has(s.groups[group], owner, name) then t == s
            else
              var r := Depart(s.groups[group], s.me, s.boxes, owner, name);
              && !r.Broken? && t == s.(groups := t.groups)
              && t.groups == if r.Gone? then s.groups - {group} else s.groups[group := r.g]
  {
    hide Depart;
  }

  lemma {:induction false} LeaveAlike(a: Groups, b: Groups, owner: Proc, name: Name, group: Name)
    requires SameViews(a, b) && !Leave(a, owner, name, group).fault && !Leave(b, owner, name, group).fault
    ensures SameViews(Leave(a, owner, name, group), Leave(b, owner, name, group))
  {
    hide Depart, Leave, Has;
    LeaveIs(a, owner, name, group);
    LeaveIs(b, owner, name, group);
    assert group in a.groups.Keys <==> group in b.groups.Keys;
    if group in a.groups {
      assert Alike(a.groups[group], b.groups[group]);
      SameHas(a.groups[group], b.groups[group], owner, name);
      if Has(a.groups[group], owner, name) { DepartAlike(a, b, a.groups[group], b.groups[group], owner, name); }
    }
    var s, t := Leave(a, owner, name, group), Leave(b, owner, name, group);
    assert s.groups.Keys == t.groups.Keys;
  }

  lemma {:induction false} SameHas(g: Group, h: Group, owner: Proc, name: Name)
    requires Alike(g, h)
    ensures Has(g, owner, name) <==> Has(h, owner, name)
  {
  }

  // What a kill leaves of one group.
  function KilledOne(s: Groups, g: Group, owner: Proc, name: Name): Remains {
    if Has(g, owner, name) then Depart(g, s.me, s.boxes, owner, name) else Stays(g)
  }

  lemma {:induction false} KillIs(s: Groups, owner: Proc, name: Name)
    requires !Kill(s, owner, name).fault
    ensures var t := Kill(s, owner, name);
            && t == s.(groups := t.groups)
            && (forall n :: n in s.groups ==> !KilledOne(s, s.groups[n], owner, name).Broken?)
            && (forall n :: n in t.groups <==> n in s.groups && !KilledOne(s, s.groups[n], owner, name).Gone?)
            && (forall n :: n in t.groups ==> t.groups[n] == KilledOne(s, s.groups[n], owner, name).g)
  {
    hide Depart;
  }

  lemma {:induction false} KillAlike(a: Groups, b: Groups, owner: Proc, name: Name)
    requires SameViews(a, b) && !Kill(a, owner, name).fault && !Kill(b, owner, name).fault
    ensures SameViews(Kill(a, owner, name), Kill(b, owner, name))
  {
    hide Depart, Kill;
    KillIs(a, owner, name);
    KillIs(b, owner, name);
    var s, t := Kill(a, owner, name), Kill(b, owner, name);
    forall n | n in a.groups.Keys
      ensures n in s.groups <==> n in t.groups
      ensures n in s.groups && n in t.groups ==> Alike(s.groups[n], t.groups[n])
    {
      assert Alike(a.groups[n], b.groups[n]);
      if Has(a.groups[n], owner, name) { DepartAlike(a, b, a.groups[n], b.groups[n], owner, name); }
    }
    forall n ensures n in s.groups.Keys <==> n in t.groups.Keys { assert n in a.groups.Keys <==> n in b.groups.Keys; }
    assert s.groups.Keys == t.groups.Keys;
  }

  lemma {:induction false} TransAlikeAll(a: Groups, b: Groups, trans: set<Proc>, id: MembId)
    requires SameViews(a, b) && a.phase == GOP
    ensures SameViews(Trans(a, trans, id), Trans(b, trans, id))
  {
    hide TransGroup, Keep, Alike;
    var s, t := Trans(a, trans, id), Trans(b, trans, id);
    forall n | n in a.groups.Keys ensures Alike(s.groups[n], t.groups[n]) { TransOneAlike(a.groups[n], b.groups[n], trans, id); }
    assert s.groups.Keys == a.groups.Keys && t.groups.Keys == b.groups.Keys;
  }

  lemma {:induction false} TransOneAlike(g: Group, h: Group, trans: set<Proc>, id: MembId)
    requires Alike(g, h)
    ensures Alike(TransGroup(g, trans, id), TransGroup(h, trans, id))
  {
  }

  lemma {:induction false} CleanedAlike(a: Groups, b: Groups)
    requires SameViews(a, b)
    ensures var x, y := Cleaned(a.groups), Cleaned(b.groups);
            x.Keys == y.Keys && forall n :: n in x ==> Alike(x[n], y[n])
  {
    hide Pairs;
    var x, y := Cleaned(a.groups), Cleaned(b.groups);
    forall n | n in a.groups.Keys
      ensures n in x <==> n in y
      ensures n in x && n in y ==> Alike(x[n], y[n])
    {
      assert Alike(a.groups[n], b.groups[n]);
    }
    forall n ensures n in x.Keys <==> n in y.Keys { assert n in a.groups.Keys <==> n in b.groups.Keys; }
    assert x.Keys == y.Keys;
  }

  lemma {:induction false} RegAlike(a: Groups, b: Groups, reg: set<Proc>, id: MembId)
    requires SameViews(a, b) && a.phase == GTRANS
    ensures SameViews(Reg(a, reg, id, []), Reg(b, reg, id, []))
  {
    hide Cleaned, Renewed, Alike;
    CleanedAlike(a, b);
    var x, y := Cleaned(a.groups), Cleaned(b.groups);
    forall n | n in x ensures n in y && Alike(Renewed(x[n], id), Renewed(y[n], id)) {
      assert n in x.Keys;
      RenewedAlike(x[n], y[n], id);
    }
    assert RenewAll(x, id).Keys == x.Keys && RenewAll(y, id).Keys == y.Keys;
  }

  lemma {:induction false} RenewedAlike(g: Group, h: Group, id: MembId)
    requires Alike(g, h)
    ensures Alike(Renewed(g, id), Renewed(h, id))
  {
  }

  // ------------------------------------------------- a membership in a cascade

  ghost predicate AlikeMaps(x: map<Name, Group>, y: map<Name, Group>) {
    x.Keys == y.Keys && forall n :: n in x ==> Alike(x[n], y[n])
  }

  lemma {:induction false} MergeAlike(x: map<Name, Group>, y: map<Name, Group>, os: map<Name, Group>)
    requires AlikeMaps(x, y)
    ensures AlikeMaps(Merge(x, os), Merge(y, os))
  {
    hide Incoming, Pairs;
    var a, b := Merge(x, os), Merge(y, os);
    assert a.Keys == x.Keys + os.Keys && b.Keys == y.Keys + os.Keys;
    forall n | n in a ensures n in b && Alike(a[n], b[n]) {
      assert n in x <==> n in x.Keys;
      assert n in y <==> n in y.Keys;
    }
  }

  lemma {:induction false} MergeAllAlike(x: map<Name, Group>, y: map<Name, Group>, ms: seq<SetMessage>)
    requires AlikeMaps(x, y)
    ensures AlikeMaps(MergeAll(x, ms), MergeAll(y, ms))
    decreases |ms|
  {
    hide Merge, AlikeMaps;
    if ms != [] {
      MergeAllAlike(x, y, ms[..|ms| - 1]);
      MergeAlike(MergeAll(x, ms[..|ms| - 1]), MergeAll(y, ms[..|ms| - 1]), ms[|ms| - 1].groups);
    }
  }

  lemma {:induction false} CascadedAlike(x: map<Name, Group>, y: map<Name, Group>, trans: set<Proc>)
    requires AlikeMaps(x, y)
    ensures AlikeMaps(CleanedAfterCascade(x, trans), CleanedAfterCascade(y, trans))
  {
    hide Pairs;
    var a, b := CleanedAfterCascade(x, trans), CleanedAfterCascade(y, trans);
    forall n | n in x.Keys
      ensures n in a <==> n in b
      ensures n in a && n in b ==> Alike(a[n], b[n])
    {
      assert n in y.Keys && Alike(x[n], y[n]);
    }
    forall n ensures n in a.Keys <==> n in b.Keys { assert n in x.Keys <==> n in y.Keys; }
    assert a.Keys == b.Keys;
  }

  // Daemons that agree, and for which the same sets were complete, agree when the
  // regular membership comes before the exchange is over.
  lemma {:induction false} RegAlikeInCascade(a: Groups, b: Groups, reg: set<Proc>, id: MembId, complete: seq<SetMessage>)
    requires SameViews(a, b) && a.phase == GGT && !Reg(a, reg, id, complete).fault && !Reg(b, reg, id, complete).fault
    ensures SameViews(Reg(a, reg, id, complete), Reg(b, reg, id, complete))
  {
    hide MergeAll, CleanedAfterCascade, AddSets, Keep, Alike;
    MergeAllAlike(a.groups, b.groups, complete);
    CascadedAlike(MergeAll(a.groups, complete), MergeAll(b.groups, complete), a.trans);
  }

  lemma {:induction false} ApplyAlike(a: Groups, b: Groups, op: Op)
    requires Inv(a) && Inv(b) && SameViews(a, b) && InItsTurn(a, op) && InItsTurn(b, op)
    ensures SameViews(Apply(a, op), Apply(b, op)) && Inv(Apply(a, op)) && Inv(Apply(b, op))
  {
    hide Inv, Join, Leave, Kill, Trans, Reg, Alike;
    ApplyKeeps(a, op);
    ApplyKeeps(b, op);
    match op
    case Joins(owner, name, group) => JoinAlike(a, b, owner, name, group);
    case Leaves(owner, name, group) => LeaveAlike(a, b, owner, name, group);
    case Dies(owner, name) => KillAlike(a, b, owner, name);
    case TransMembership(trans, id) => TransAlikeAll(a, b, trans, id);
    case RegMembership(reg, id) => RegAlike(a, b, reg, id);
  }

  function ApplyAll(s: Groups, ops: seq<Op>): Groups
    decreases |ops|
  {
    if ops == [] then s else Apply(ApplyAll(s, ops[..|ops| - 1]), ops[|ops| - 1])
  }

  predicate AllInTurn(s: Groups, ops: seq<Op>) {
    forall k :: 0 <= k < |ops| ==> InItsTurn(ApplyAll(s, ops[..k]), ops[k])
  }

  // Daemons that agree and deliver the same things in the same order agree all
  // the way.
  lemma {:induction false} ReplicasAgree(a: Groups, b: Groups, ops: seq<Op>)
    requires Inv(a) && Inv(b) && SameViews(a, b) && AllInTurn(a, ops) && AllInTurn(b, ops)
    ensures SameViews(ApplyAll(a, ops), ApplyAll(b, ops)) && Inv(ApplyAll(a, ops)) && Inv(ApplyAll(b, ops))
    decreases |ops|
  {
    hide Inv, SameViews, Apply, InItsTurn;
    if ops != [] {
      var less := ops[..|ops| - 1];
      forall k | 0 <= k < |less| ensures InItsTurn(ApplyAll(a, less[..k]), less[k]) && InItsTurn(ApplyAll(b, less[..k]), less[k]) {
        assert less[..k] == ops[..k] && less[k] == ops[k];
      }
      ReplicasAgree(a, b, less);
      assert InItsTurn(ApplyAll(a, ops[..|ops| - 1]), ops[|ops| - 1]);
      assert InItsTurn(ApplyAll(b, ops[..|ops| - 1]), ops[|ops| - 1]);
      ApplyAlike(ApplyAll(a, less), ApplyAll(b, less), ops[|ops| - 1]);
    }
  }

  // ------------------------------------------------------------ the id of a group

  // The group has the members it had and its id, or other members and the next id
  // of the same membership.
  predicate NextId(g: Group, h: Group) {
    if Pairs(h.daemons) == Pairs(g.daemons) then h.id == g.id else h.id == g.id.(index := g.id.index + 1)
  }

  lemma {:induction false} AddId(g: Group, owner: Proc, name: Name, memb: MembId)
    requires !Has(g, owner, name)
    ensures var h := AddMember(g, owner, name, memb);
            Pairs(h.daemons) == Pairs(g.daemons) + {(owner, name)} != Pairs(g.daemons) && h.id == g.id.(index := g.id.index + 1)
  {
    var d := if owner in g.daemons then g.daemons[owner] else DaemonMembers(memb, {});
    PairsAdd(g.daemons, owner, d, name);
    assert (owner, name) !in Pairs(g.daemons);
  }

  lemma {:induction false} DepartId(s: Groups, g: Group, owner: Proc, name: Name)
    requires OneBoxEach(s.boxes) && GroupOK(s, g) && Has(g, owner, name)
    ensures var r := Depart(g, s.me, s.boxes, owner, name);
            r.Stays? ==> NextId(g, r.g) && Pairs(r.g.daemons) != Pairs(g.daemons)
  {
    hide Pairs, GroupOK;
    DepartOK(s, g, owner, name);
    HasPair(g, owner, name);
    DepartMemb(s, g, owner, name);
  }

  lemma {:induction false} HasPair(g: Group, owner: Proc, name: Name)
    requires Has(g, owner, name)
    ensures (owner, name) in Pairs(g.daemons)
  {
  }

  lemma {:induction false} DepartMemb(s: Groups, g: Group, owner: Proc, name: Name)
    requires Has(g, owner, name)
    ensures var r := Depart(g, s.me, s.boxes, owner, name);
            r.Stays? ==> r.g.id == g.id.(index := g.id.index + 1)
  {
  }

  // Joins, leaves and deaths: a group gets the next id exactly if its members
  // change, and a new group starts with index 1.
  lemma {:induction false} IdFollowsMembers(s: Groups, op: Op, n: Name)
    requires Inv(s) && !s.fault && InItsTurn(s, op) && (op.Joins? || op.Leaves? || op.Dies?)
    ensures var t := Apply(s, op);
            && (n in s.groups && n in t.groups ==> NextId(s.groups[n], t.groups[n]))
            && (n !in s.groups && n in t.groups ==> t.groups[n].id == GroupId(if s.phase == GOP then s.regId else s.transId, 1))
  {
    hide Pairs, Join, Leave, Kill, AddMember, Depart, Has, GroupOK;
    ApplyKeeps(s, op);
    var t := Apply(s, op);
    match op
    case Joins(owner, name, group) =>
      JoinIs(s, owner, name, group);
      var g := JoinedFrom(s, group);
      if !Has(g, owner, name) { AddId(g, owner, name, MembFor(s, g, owner)); }
      assert n in t.groups <==> n in t.groups.Keys;
    case Leaves(owner, name, group) =>
      LeaveIs(s, owner, name, group);
      if group in s.groups && Has(s.groups[group], owner, name) { DepartId(s, s.groups[group], owner, name); }
    case Dies(owner, name) =>
      KillIs(s, owner, name);
      if n in s.groups && Has(s.groups[n], owner, name) { DepartId(s, s.groups[n], owner, name); }
  }

  predicate IsIn(s: Groups, n: Name, p: Proc, m: Name) {
    n in s.groups && (p, m) in Pairs(s.groups[n].daemons)
  }

  // Who is in which group after a join, a leave or a death: the one it is about
  // comes or goes, and nobody else does.
  lemma {:induction false} MembersAfter(s: Groups, op: Op, n: Name, p: Proc, m: Name)
    requires Inv(s) && !s.fault && InItsTurn(s, op)
    ensures op.Joins? ==> (IsIn(Apply(s, op), n, p, m) <==> IsIn(s, n, p, m) || (n, p, m) == (op.group, op.owner, op.name))
    ensures op.Leaves? ==> (IsIn(Apply(s, op), n, p, m) <==> IsIn(s, n, p, m) && (n, p, m) != (op.group, op.owner, op.name))
    ensures op.Dies? ==> (IsIn(Apply(s, op), n, p, m) <==> IsIn(s, n, p, m) && (p, m) != (op.owner, op.name))
  {
    hide Pairs, Join, Leave, Kill, AddMember, Depart, Has, GroupOK;
    ApplyKeeps(s, op);
    var t := Apply(s, op);
    match op
    case Joins(owner, name, group) =>
      JoinIs(s, owner, name, group);
      var g := JoinedFrom(s, group);
      NoPairs();
      if Has(g, owner, name) { HasPair(g, owner, name); } else { AddId(g, owner, name, MembFor(s, g, owner)); }
      assert forall k :: k in t.groups <==> k in t.groups.Keys;
    case Leaves(owner, name, group) =>
      LeaveIs(s, owner, name, group);
      if group in s.groups { DepartedPairs(s, group, owner, name); }
    case Dies(owner, name) =>
      KillIs(s, owner, name);
      if n in s.groups { DepartedPairs(s, n, owner, name); }
    case _ =>
  }

  lemma {:induction false} NoPairs()
    ensures Pairs(map[]) == {}
  {
  }

  lemma {:induction false} DepartedPairs(s: Groups, n: Name, owner: Proc, name: Name)
    requires Inv(s) && n in s.groups
    ensures var g := s.groups[n];
            if !Has(g, owner, name) then (owner, name) !in Pairs(g.daemons)
            else
              var r := Depart(g, s.me, s.boxes, owner, name);
              && !r.Broken? && (owner, name) in Pairs(g.daemons)
              && (if r.Gone? then Pairs(g.daemons) == {(owner, name)} else Pairs(r.g.daemons) == Pairs(g.daemons) - {(owner, name)})
  {
    hide Pairs, GroupOK, Depart, Has;
    var g := s.groups[n];
    if (owner, name) in Pairs(g.daemons) { PairHas(g, owner, name); }
    if Has(g, owner, name) {
      HasPair(g, owner, name);
      DepartOK(s, g, owner, name);
    }
  }

  predicate SameMembership(ops: seq<Op>) {
    forall k :: 0 <= k < |ops| ==> ops[k].Joins? || ops[k].Leaves? || ops[k].Dies?
  }

  // Within a membership, as long as a group exists, its id tells its member lists
  // apart: the index never falls, and as long as it stays the members stay.
  lemma {:induction false} IdTellsApart(s: Groups, ops: seq<Op>, n: Name)
    requires Inv(s) && !s.fault && SameMembership(ops) && AllInTurn(s, ops)
    requires forall k :: 0 <= k <= |ops| ==> n in ApplyAll(s, ops[..k]).groups
    ensures Inv(ApplyAll(s, ops)) && !ApplyAll(s, ops).fault && n in s.groups && n in ApplyAll(s, ops).groups
    ensures var g, h := s.groups[n], ApplyAll(s, ops).groups[n];
            && h.id.memb == g.id.memb && g.id.index <= h.id.index
            && (h.id.index == g.id.index ==> Pairs(h.daemons) == Pairs(g.daemons))
    decreases |ops|
  {
    hide Inv, Apply, InItsTurn, Pairs;
    assert ops[..0] == [] && ops[..|ops|] == ops;
    if ops != [] {
      var less := ops[..|ops| - 1];
      forall k | 0 <= k < |less| ensures InItsTurn(ApplyAll(s, less[..k]), less[k]) {
        assert less[..k] == ops[..k] && less[k] == ops[k];
      }
      forall k | 0 <= k <= |less| ensures n in ApplyAll(s, less[..k]).groups { assert less[..k] == ops[..k]; }
      IdTellsApart(s, less, n);
      assert InItsTurn(ApplyAll(s, ops[..|ops| - 1]), ops[|ops| - 1]);
      IdFollowsMembers(ApplyAll(s, less), ops[|ops| - 1], n);
      ApplyKeeps(ApplyAll(s, less), ops[|ops| - 1]);
    }
  }

  // A group that has gone and comes back starts over: within one membership its
  // first id stands for the first member each time.
  lemma {:induction false} IdStartsOver(s: Groups, owner: Proc, name: Name, group: Name, owner': Proc, name': Name)
    requires Inv(s) && !s.fault && s.phase == GOP && group in s.groups && Pairs(s.groups[group].daemons) == {(owner, name)}
    requires InItsTurn(Leave(s, owner, name, group), Joins(owner', name', group))
    ensures var t := Join(Leave(s, owner, name, group), owner', name', group);
            && group in t.groups && t.groups[group].id == GroupId(s.regId, 1)
            && Has(t.groups[group], owner', name')
  {
    hide Pairs, Join, Leave, AddMember, Depart, GroupOK, SetOK;
    assert (owner, name) in Pairs(s.groups[group].daemons);
    PairHas(s.groups[group], owner, name);
    LeaveKeeps(s, owner, name, group);
    LeaveIs(s, owner, name, group);
    DepartOK(s, s.groups[group], owner, name);
    var u := Leave(s, owner, name, group);
    JoinKeeps(u, owner', name', group);
    IdFollowsMembers(u, Joins(owner', name', group), group);
  }

  lemma {:induction false} PairHas(g: Group, owner: Proc, name: Name)
    requires (owner, name) in Pairs(g.daemons)
    ensures Has(g, owner, name)
  {
  }

  // --------------------------------------------------- what memberships do to groups

  // The daemons of g that pass the test, with the members they had.
  predicate KeepsJust(g: Group, h: Group, who: set<Proc>) {
    h.daemons.Keys == g.daemons.Keys * who && forall p :: p in h.daemons ==> h.daemons[p].members == g.daemons[p].members
  }

  lemma {:induction false} TransGroupIs(g: Group, trans: set<Proc>, id: MembId)
    requires NonePartitioned(g) && !Unknown(id)
    ensures var h := TransGroup(g, trans, id);
            if forall p :: p in g.daemons ==> p in trans then h == g
            else
              && h.id == GroupId(id, 1) && h.changed && KeepsJust(g, h, g.daemons.Keys) && h.mboxes == g.mboxes
              && forall p :: p in h.daemons ==> h.daemons[p].memb == if p in trans then id else UNKNOWN
  {
  }

  // A transitional membership leaves a group alone if it leaves it all its daemons;
  // otherwise the group has a new id, and the daemons that are not in the
  // membership are partitioned.
  lemma {:induction false} AfterTransitional(s: Groups, trans: set<Proc>, id: MembId, n: Name)
    requires Inv(s) && s.phase == GOP && n in s.groups && !Unknown(id)
    ensures var t, g := Trans(s, trans, id), s.groups[n];
            n in t.groups
            && var h := t.groups[n];
               if forall p :: p in g.daemons ==> p in trans then h == g
               else
                 && h.id == GroupId(id, 1) && h.changed && KeepsJust(g, h, g.daemons.Keys) && h.mboxes == g.mboxes
                 && forall p :: p in h.daemons ==> h.daemons[p].memb == if p in trans then id else UNKNOWN
  {
    hide Keep, TransGroup, KeepsJust, SetOK, OneBoxEach;
    NoneGone(s, n);
    TransGroupIs(s.groups[n], trans, id);
  }

  lemma {:induction false} NoneGone(s: Groups, n: Name)
    requires Inv(s) && n in s.groups
    ensures CountOK(s.groups[n]) && (s.phase != GTRANS ==> NonePartitioned(s.groups[n]))
  {
    assert GroupOK(s, s.groups[n]);
  }

  // The daemons that are not partitioned.
  function KnownDaemons(g: Group): set<Proc> {
    set p | p in g.daemons && !Unknown(g.daemons[p].memb)
  }

  lemma {:induction false} Remaining(g: Group, gone: set<Proc>, who: set<Proc>)
    requires CountOK(g) && forall p :: p in g.daemons ==> (p in gone <==> p !in who)
    ensures var h := WithoutDaemons(g, gone);
            && h == g.(daemons := h.daemons, numMembers := h.numMembers) && KeepsJust(g, h, who)
            && (h.numMembers == 0 <==> forall p :: p in g.daemons ==> p !in who)
  {
    hide Pairs;
    var h := WithoutDaemons(g, gone);
    assert h.numMembers == |Pairs(h.daemons)|;
    PairsNone(h.daemons);
    if h.daemons == map[] {
      forall p | p in g.daemons ensures p !in who { assert p !in h.daemons; }
    }
    if forall p :: p in g.daemons ==> p !in who {
      assert forall p :: p !in h.daemons;
      NoDaemons(h.daemons);
    }
  }

  lemma {:induction false} NoDaemons(ds: map<Proc, DaemonMembers>)
    requires forall p :: p !in ds
    ensures ds == map[]
  {
    var none: map<Proc, DaemonMembers> := map[];
    forall p ensures p in ds <==> p in none { }
    assert ds == none;
  }

  lemma {:induction false} RenewedIs(h: Group, id: MembId)
    requires h.changed
    ensures var k := Renewed(h, id); k.id == GroupId(id, 1) && !k.changed && KeepsJust(h, k, h.daemons.Keys) && k.mboxes == h.mboxes
  {
  }

  // A regular membership after a transitional one: groups that have not changed
  // stay as they are; of the others the partitioned daemons go, and the group with
  // the last of them; without an exchange those that stay get a new id.
  ghost predicate Renews(s: Groups, t: Groups, n: Name) {
    if n !in s.groups then n !in t.groups
    else
      var g := s.groups[n];
      if !g.changed then n in t.groups && t.groups[n] == g
      else
        && (n in t.groups <==> exists p :: p in KnownDaemons(g))
        && (n in t.groups ==>
              var h := t.groups[n];
              && KeepsJust(g, h, KnownDaemons(g)) && h.mboxes == g.mboxes
              && (if t.phase == GOP then h.id == GroupId(t.regId, 1) && !h.changed else h.id == g.id && h.changed))
  }

  lemma {:induction false} RegGroups(s: Groups, reg: set<Proc>, id: MembId, n: Name)
    requires s.phase == GTRANS
    ensures var t := Reg(s, reg, id, []);
            && t.regId == id
            && (n in t.groups <==> n in s.groups && !(s.groups[n].changed && WithoutPartitioned(s.groups[n]).numMembers == 0))
            && (n in t.groups ==>
                  var h := if s.groups[n].changed then WithoutPartitioned(s.groups[n]) else s.groups[n];
                  t.groups[n] == if t.phase == GOP then Renewed(h, id) else h)
  {
    hide WithoutPartitioned, Renewed;
  }

  lemma {:induction false} IsWithout(g: Group)
    ensures WithoutPartitioned(g) == WithoutDaemons(g, Partitioned(g))
  {
  }

  lemma {:induction false} AfterRegular(s: Groups, reg: set<Proc>, id: MembId, n: Name)
    requires Inv(s) && s.phase == GTRANS && !Unknown(id)
    ensures Renews(s, Reg(s, reg, id, []), n)
  {
    hide Pairs, WithoutDaemons, WithoutPartitioned, KeepsJust, Inv, Renewed, CountOK, Reg;
    RegGroups(s, reg, id, n);
    if n in s.groups {
      var g := s.groups[n];
      NoneGone(s, n);
      Remaining(g, Partitioned(g), KnownDaemons(g));
      var h := WithoutPartitioned(g);
      IsWithout(g);
      if g.changed {
        RenewedIs(h, id);
        KeepsTwice(g, h, Renewed(h, id), KnownDaemons(g));
      } else {
        SameRenewal(g, id);
      }
    }
  }

  lemma {:induction false} SameRenewal(g: Group, id: MembId)
    requires !g.changed
    ensures Renewed(g, id) == g
  {
  }

  lemma {:induction false} SameDaemons(g: Group, h: Group, k: Group, who: set<Proc>)
    requires KeepsJust(g, h, who) && k.daemons == h.daemons
    ensures KeepsJust(g, k, who)
  {
  }

  lemma {:induction false} KeepsTwice(g: Group, h: Group, k: Group, who: set<Proc>)
    requires KeepsJust(g, h, who) && KeepsJust(h, k, h.daemons.Keys)
    ensures KeepsJust(g, k, who)
  {
  }

  // A regular membership that comes before the exchange is over: with the complete
  // sets taken in, the daemons outside the transitional membership go, and the
  // group with the last of them; a group that loses daemons has changed.
  lemma {:induction false} AfterCascade(s: Groups, reg: set<Proc>, id: MembId, complete: seq<SetMessage>, n: Name)
    requires Inv(s) && s.phase == GGT && Exchangeable(s, complete)
    ensures var t, gs := Reg(s, reg, id, complete), MergeAll(s.groups, complete);
            if n !in gs then n !in t.groups
            else
              && (n in t.groups <==> exists p :: p in gs[n].daemons && p in s.trans)
              && (n in t.groups ==>
                    var h := t.groups[n];
                    && KeepsJust(gs[n], h, s.trans) && h.id == gs[n].id && h.mboxes == gs[n].mboxes
                    && (h.changed <==> gs[n].changed || exists p :: p in gs[n].daemons && p !in s.trans))
  {
    hide Pairs, MergeAll, AddSets, Exchangeable, Keep, WithoutDaemons, KeepsJust, GroupOK, SetOK, OneBoxEach;
    MergeAllOK(s, complete);
    var gs := MergeAll(s.groups, complete);
    if n in gs {
      var u := s.(synced := AddSets(s.conf, s.synced, complete).procs, groups := gs);
      NoneGone(u, n);
      Remaining(gs[n], Absentees(gs[n], s.trans), s.trans);
      AllThere(gs[n], s.trans);
      var h := WithoutDaemons(gs[n], Absentees(gs[n], s.trans));
      SameDaemons(gs[n], h, h.(changed := true), s.trans);
    }
  }

  // If nobody is outside, the group keeps all its daemons, of which it has some.
  lemma {:induction false} AllThere(g: Group, trans: set<Proc>)
    requires CountOK(g)
    ensures Absentees(g, trans) == {} <==> forall p :: p in g.daemons ==> p in trans
    ensures Absentees(g, trans) == {} ==> KeepsJust(g, g, trans) && exists p :: p in g.daemons && p in trans
  {
    if Absentees(g, trans) == {} {
      forall p | p in g.daemons ensures p in trans { assert p !in Absentees(g, trans); }
      if forall p :: p !in g.daemons { NoDaemons(g.daemons); }
    }
  }
}
