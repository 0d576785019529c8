// Process groups at one daemon: the group list, the state machine of the state
// exchange, and the handlers of groups.c, as functions on values.
module Groups {
  import opened Types

  type Name = seq<Byte>

  datatype Proc = Proc(addr: int)

  datatype GroupId = GroupId(memb: MembId, index: int)

  // daemon_members: the members of a group that one daemon serves.
  datatype DaemonMembers = DaemonMembers(memb: MembId, members: set<Name>)

  datatype Group = Group(id: GroupId, changed: bool, daemons: map<Proc, DaemonMembers>, numMembers: int, mboxes: seq<int>)

  datatype Phase = GOP | GTRANS | GGATHER | GGT

  // GroupsList, MySyncedSet, the last memberships, the mailboxes of the local
  // sessions, and the place of each daemon in the configuration.
  datatype Groups = Groups(
    phase: Phase, me: Proc, groups: map<Name, Group>, synced: seq<Proc>,
    trans: set<Proc>, transId: MembId, reg: set<Proc>, regId: MembId,
    boxes: map<Name, int>, conf: map<Proc, int>, fault: bool)

  // A membership id whose proc_id is -1 marks a partitioned daemon.
  const UNKNOWN := MembId(-1, -1)

  predicate Unknown(m: MembId) {
    m.procId == -1
  }

  // --------------------------------------------------------------- one group

  // Everybody in the group, with their daemons.
  function Pairs(ds: map<Proc, DaemonMembers>): set<(Proc, Name)> {
    set p, m | p in ds && m in ds[p].members :: (p, m)
  }

  function Local(g: Group, me: Proc): set<Name> {
    if me in g.daemons then g.daemons[me].members else {}
  }

  // G_update_daemon_memb_ids.
  function Stamped(g: Group): Group {
    g.(daemons := map p | p in g.daemons ::
         if Unknown(g.daemons[p].memb) then g.daemons[p] else g.daemons[p].(memb := g.id.memb))
  }

  // Mark the daemons that are not in the transitional membership.
  function MarkPartitioned(g: Group, trans: set<Proc>): Group {
    g.(daemons := map p | p in g.daemons ::
         if p in trans then g.daemons[p] else g.daemons[p].(memb := UNKNOWN))
  }

  predicate Outside(g: Group, trans: set<Proc>) {
    exists p :: p in g.daemons && p !in trans
  }

  // G_remove_daemon for those in `gone`.
  function WithoutDaemons(g: Group, gone: set<Proc>): Group {
    var ds := g.daemons - gone;
    g.(daemons := ds, numMembers := g.numMembers - (|Pairs(g.daemons)| - |Pairs(ds)|))
  }

  function Partitioned(g: Group): set<Proc> {
    set p | p in g.daemons && Unknown(g.daemons[p].memb)
  }

  function Absentees(g: Group, trans: set<Proc>): set<Proc> {
    set p | p in g.daemons && p !in trans
  }

  // The first place of mailbox m.
  function IndexOf(boxes: seq<int>, m: int): (i: int)
    ensures 0 <= i <= |boxes| && (i < |boxes| ==> boxes[i] == m) && (i == |boxes| <==> m !in boxes)
  {
    if boxes == [] then 0 else if boxes[0] == m then 0 else 1 + IndexOf(boxes[1..], m)
  }

  // G_remove_mailbox: the last one takes its place.
  function RemoveBox(boxes: seq<int>, m: int): seq<int>
    requires m in boxes
  {
    var i := IndexOf(boxes, m);
    boxes[i := boxes[|boxes| - 1]][..|boxes| - 1]
  }

  predicate Has(g: Group, p: Proc, name: Name) {
    p in g.daemons && name in g.daemons[p].members
  }

  function AddMember(g: Group, p: Proc, name: Name, memb: MembId): Group {
    var d := if p in g.daemons then g.daemons[p] else DaemonMembers(memb, {});
    g.(daemons := g.daemons[p := d.(members := d.members + {name})],
       numMembers := g.numMembers + 1, id := g.id.(index := g.id.index + 1))
  }

  // Extract a member, and its daemon if that is empty now.
  function RemoveMember(g: Group, p: Proc, name: Name): Group
    requires Has(g, p, name)
  {
    var d := g.daemons[p].(members := g.daemons[p].members - {name});
    g.(daemons := if d.members == {} then g.daemons - {p} else g.daemons[p := d], numMembers := g.numMembers - 1)
  }

  // ------------------------------------------------------------- group messages

  // What the leader of a synced set says about one of its groups is its id, its
  // changed flag and its daemons' members; every daemon comes with the group's
  // membership id.
  function Incoming(g: Group): map<Proc, DaemonMembers> {
    map p | p in g.daemons :: g.daemons[p].(memb := g.id.memb)
  }

  // G_mess_to_groups, for all that one synced set says about a group.
  function MergeGroup(g: Group, o: Group): Group {
    g.(daemons := g.daemons + Incoming(o),
       changed := g.changed || o.changed || (o.daemons != map[] && o.id.memb != g.id.memb),
       numMembers := g.numMembers + |Pairs(o.daemons)|)
  }

  function NewGroup(o: Group): Group {
    Group(o.id, o.changed, Incoming(o), |Pairs(o.daemons)|, [])
  }

  function Merge(gs: map<Name, Group>, os: map<Name, Group>): map<Name, Group> {
    map n | n in gs.Keys + os.Keys ::
      if n !in os then gs[n] else if n in gs then MergeGroup(gs[n], os[n]) else NewGroup(os[n])
  }

  // The group messages of one synced set.
  datatype SetMessage = SetMessage(procs: seq<Proc>, groups: map<Name, Group>)

  function MergeAll(gs: map<Name, Group>, ms: seq<SetMessage>): map<Name, Group> {
    if ms == [] then gs else Merge(MergeAll(gs, ms[..|ms| - 1]), ms[|ms| - 1].groups)
  }

  // G_compute_and_notify for one group.
  function Renewed(g: Group, regId: MembId): Group {
    if g.changed then Stamped(g.(id := GroupId(regId, 1), changed := false)) else g
  }

  function RenewAll(gs: map<Name, Group>, regId: MembId): map<Name, Group> {
    map n | n in gs :: Renewed(gs[n], regId)
  }

  // ----------------------------------------------------------- synced sets

  datatype MaybeSet = Merged(procs: seq<Proc>) | Clash

  // G_add_to_synced_set: merge two sets that are in configuration order.
  function AddToSynced(conf: map<Proc, int>, a: seq<Proc>, b: seq<Proc>): MaybeSet
    decreases |a| + |b|
  {
    if a == [] && b == [] then Merged([])
    else if (a != [] && a[0] !in conf) || (b != [] && b[0] !in conf) then Clash
    else if b == [] || (a != [] && conf[a[0]] < conf[b[0]]) then Consed(a[0], AddToSynced(conf, a[1..], b))
    else if a == [] || conf[b[0]] < conf[a[0]] then Consed(b[0], AddToSynced(conf, a, b[1..]))
    else Clash
  }

  function Consed(p: Proc, r: MaybeSet): MaybeSet {
    if r.Merged? then Merged([p] + r.procs) else Clash
  }

  function AddSets(conf: map<Proc, int>, a: seq<Proc>, ms: seq<SetMessage>): MaybeSet {
    if ms == [] then Merged(a)
    else
      var r := AddSets(conf, a, ms[..|ms| - 1]);
      if r.Merged? then AddToSynced(conf, r.procs, ms[|ms| - 1].procs) else Clash
  }

  // ------------------------------------------------------------------ handlers

  predicate Busy(s: Groups) {
    s.phase == GGATHER || s.phase == GGT
  }

  // G_handle_join: member `name` of daemon `owner` joins.
  function Join(s: Groups, owner: Proc, name: Name, group: Name): Groups {
    if Busy(s) then s.(fault := true)
    else
      var start := GroupId(if s.phase == GOP then s.regId else s.transId, 0);
      var g := if group in s.groups then s.groups[group] else Group(start, false, map[], 0, []);
      if Has(g, owner, name) then s
      else
        var memb := if s.phase == GOP || owner in s.trans then g.id.memb else UNKNOWN;
        var h := AddMember(g, owner, name, memb);
        if owner == s.me && name !in s.boxes then s.(fault := true)
        else
          var k := if owner == s.me then h.(mboxes := h.mboxes + [s.boxes[name]]) else h;
          s.(groups := s.groups[group := k.(changed := k.changed || Unknown(k.daemons[owner].memb))])
  }

  // What is left of a group when a member has gone, if anything.
  datatype Remains = Gone | Stays(g: Group) | Broken

  // G_handle_leave and G_handle_kill for one group the member is in.
  function Depart(g: Group, me: Proc, boxes: map<Name, int>, owner: Proc, name: Name): Remains
    requires Has(g, owner, name)
  {
    if owner == me && (name !in boxes || boxes[name] !in g.mboxes) then Broken
    else
      var h := RemoveMember(if owner == me then g.(mboxes := RemoveBox(g.mboxes, boxes[name])) else g, owner, name);
      if h.numMembers == 0 then (if h.daemons == map[] && h.mboxes == [] then Gone else Broken)
      else Stays(h.(id := h.id.(index := h.id.index + 1)))
  }

  // G_handle_leave.
  function Leave(s: Groups, owner: Proc, name: Name, group: Name): Groups {
    if Busy(s) then s.(fault := true)
    else if group !in s.groups || !Has(s.groups[group], owner, name) then s
    else
      match Depart(s.groups[group], s.me, s.boxes, owner, name)
      case Broken => s.(fault := true)
      case Gone => s.(groups := s.groups - {group})
      case Stays(g) => s.(groups := s.groups[group := g])
  }

  predicate Breaks(s: Groups, owner: Proc, name: Name) {
    exists n :: n in s.groups && Has(s.groups[n], owner, name) && Depart(s.groups[n], s.me, s.boxes, owner, name).Broken?
  }

  // G_handle_kill: out of every group.
  function Kill(s: Groups, owner: Proc, name: Name): Groups {
    if Busy(s) || Breaks(s, owner, name) then s.(fault := true)
    else
      s.(groups := map n | n in s.groups
                         && !(Has(s.groups[n], owner, name) && Depart(s.groups[n], s.me, s.boxes, owner, name).Gone?)
                       :: if Has(s.groups[n], owner, name) && Depart(s.groups[n], s.me, s.boxes, owner, name).Stays?
                          then Depart(s.groups[n], s.me, s.boxes, owner, name).g else s.groups[n])
  }

  // G_update_synced_set.
  function Keep(ps: seq<Proc>, memb: set<Proc>): seq<Proc> {
    if ps == [] then []
    else Keep(ps[..|ps| - 1], memb) + (if ps[|ps| - 1] in memb then [ps[|ps| - 1]] else [])
  }

  function TransGroup(g: Group, trans: set<Proc>, id: MembId): Group {
    if Outside(g, trans) then Stamped(MarkPartitioned(g, trans).(id := GroupId(id, 1), changed := true)) else g
  }

  // G_handle_trans_memb.
  function Trans(s: Groups, trans: set<Proc>, id: MembId): Groups {
    match s.phase
    case GOP =>
      s.(phase := GTRANS, trans := trans, transId := id, synced := Keep(s.synced, trans),
         groups := map n | n in s.groups :: TransGroup(s.groups[n], trans, id))
    case GGATHER =>
      s.(phase := GGT, trans := trans, transId := id,
         groups := map n | n in s.groups :: s.groups[n].(changed := s.groups[n].changed || Outside(s.groups[n], trans)))
    case GTRANS => s.(fault := true)
    case GGT => s.(fault := true)
  }

  function WithoutPartitioned(g: Group): Group {
    WithoutDaemons(g, Partitioned(g))
  }

  // G_handle_reg_memb in GTRANS: partitioned daemons leave the changed groups.
  function Cleaned(gs: map<Name, Group>): map<Name, Group> {
    map n | n in gs && !(gs[n].changed && WithoutPartitioned(gs[n]).numMembers == 0)
          :: if gs[n].changed then WithoutPartitioned(gs[n]) else gs[n]
  }

  function Cascaded(g: Group, trans: set<Proc>): Group {
    if Absentees(g, trans) == {} then g else WithoutDaemons(g, Absentees(g, trans)).(changed := true)
  }

  // G_handle_reg_memb in GGT: daemons outside the transitional membership leave.
  function CleanedAfterCascade(gs: map<Name, Group>, trans: set<Proc>): map<Name, Group> {
    map n | n in gs && !(Absentees(gs[n], trans) != {} && WithoutDaemons(gs[n], Absentees(gs[n], trans)).numMembers == 0)
          :: Cascaded(gs[n], trans)
  }

  // G_handle_reg_memb; `complete` are the synced sets all of whose messages have
  // come, if this daemon's own are among them.
  function Reg(s: Groups, reg: set<Proc>, id: MembId, complete: seq<SetMessage>): Groups {
    match s.phase
    case GTRANS =>
      var gs := Cleaned(s.groups);
      if |s.trans| == |reg| then
        s.(phase := GOP, reg := reg, regId := id, groups := RenewAll(gs, id))
      else s.(phase := GGATHER, reg := reg, regId := id, groups := gs)
    case GGT =>
      var r := AddSets(s.conf, s.synced, complete);
      if r.Clash? then s.(fault := true)
      else
        s.(phase := GGATHER, reg := reg, regId := id, synced := Keep(r.procs, s.trans),
           groups := CleanedAfterCascade(MergeAll(s.groups, complete), s.trans))
    case GOP => s.(fault := true)
    case GGATHER => s.(fault := true)
  }

  // The last group message has come: G_compute_and_notify, back to GOP, and on
  // to GTRANS if a transitional membership has been waiting.
  function Gathered(s: Groups, ms: seq<SetMessage>): Groups {
    var r := AddSets(s.conf, s.synced, ms);
    if !Busy(s) || r.Clash? then s.(fault := true)
    else
      var t := s.(phase := GOP, synced := r.procs, groups := RenewAll(MergeAll(s.groups, ms), s.regId));
      if s.phase == GGT then Trans(t, s.trans, s.transId) else t
  }
}
