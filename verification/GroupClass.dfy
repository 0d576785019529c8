// groups.c as it is written: the group list, the synced set and the gathered
// messages of one daemon, updated in place by the handlers.
module GroupClass {
  import opened Types
  import opened Groups
  import opened GroupCodec
  import opened GroupParts
  import opened GroupMessages
  import opened GroupSteps

  // groups_message_link: the messages of one representative, the newest first.
  datatype Link = Link(rep: Proc, messages: seq<seq<Byte>>, complete: bool)

  // ------------------------------------------- what gathered messages come to

  function SetOf(ms: seq<seq<Byte>>, set0: seq<Proc>): seq<Proc>
    decreases |ms|
  {
    if ms == [] then set0 else SetIn(ms[|ms| - 1], SetOf(ms[..|ms| - 1], set0))
  }

  function LastSet(links: seq<Link>): seq<Proc>
    decreases |links|
  {
    if links == [] then [] else SetOf(links[|links| - 1].messages, LastSet(links[..|links| - 1]))
  }

  function TakeLinks(gs: map<Name, Group>, links: seq<Link>): map<Name, Group>
    decreases |links|
  {
    if links == [] then gs else TakeAll(TakeLinks(gs, links[..|links| - 1]), links[|links| - 1].messages)
  }

  function AddLinkSets(conf: map<Proc, int>, a: seq<Proc>, links: seq<Link>): MaybeSet
    decreases |links|
  {
    if links == [] then Merged(a)
    else
      var r := AddLinkSets(conf, a, links[..|links| - 1]);
      if r.Merged? then AddToSynced(conf, r.procs, LastSet(links)) else Clash
  }

  function SetSum(links: seq<Link>): nat
    decreases |links|
  {
    if links == [] then 0 else SetSum(links[..|links| - 1]) + |LastSet(links)|
  }

  predicate Readable(links: seq<Link>) {
    forall x, y :: 0 <= x < |links| && 0 <= y < |links[x].messages| ==> ReadMessage(links[x].messages[y]).Got?
  }

  // What G_handle_reg_memb takes in after a cascade.
  function Completed(links: seq<Link>, own: bool): seq<Link>
    decreases |links|
  {
    if links == [] then []
    else Completed(links[..|links| - 1], own) + (if own && links[|links| - 1].complete then [links[|links| - 1]] else [])
  }

  // G_compute_and_notify and what follows it.
  function GatheredLinks(s: Groups, links: seq<Link>): Groups {
    var r := AddLinkSets(s.conf, s.synced, links);
    if !Busy(s) || r.Clash? then s.(fault := true)
    else
      var t := s.(phase := GOP, synced := r.procs, groups := RenewAll(TakeLinks(s.groups, links), s.regId));
      if s.phase == GGT then Trans(t, s.trans, s.transId) else t
  }

  // G_handle_reg_memb in GGT.
  function RegLinks(s: Groups, reg: set<Proc>, id: MembId, links: seq<Link>): Groups {
    var r := AddLinkSets(s.conf, s.synced, links);
    if s.phase != GGT || r.Clash? then s.(fault := true)
    else
      s.(phase := GGATHER, reg := reg, regId := id, synced := Keep(r.procs, s.trans),
         groups := CleanedAfterCascade(TakeLinks(s.groups, links), s.trans))
  }

  // Where G_handle_groups puts a message.
  function Place(links: seq<Link>, rep: Proc): (i: nat)
    ensures i <= |links| && (i < |links| ==> links[i].rep == rep)
    decreases |links|
  {
    if links == [] || links[0].rep == rep then 0 else 1 + Place(links[1..], rep)
  }

  function Stored(links: seq<Link>, rep: Proc, b: seq<Byte>, agreed: bool): seq<Link> {
    var i := Place(links, rep);
    if i < |links| then links[i := Link(rep, [b] + links[i].messages, links[i].complete || agreed)]
    else [Link(rep, [b], agreed)] + links
  }

  // A daemon with what it has gathered: the messages of the other sets, whether
  // its own set is complete, and how many daemons are represented.
  datatype Gathering = Gathering(s: Groups, links: seq<Link>, own: bool, count: int)

  // G_handle_groups.
  function Handle(g: Gathering, membId: MembId, rep: Proc, b: seq<Byte>, agreed: bool, represented: nat): Gathering {
    if !Busy(g.s) then g.(s := g.s.(fault := true))
    else if membId != g.s.regId || rep !in g.s.conf then g
    else
      var mine := g.s.synced != [] && rep == g.s.synced[0];
      var links := if mine then g.links else Stored(g.links, rep, b, agreed);
      var count := if agreed then g.count + represented else g.count;
      if count != |g.s.reg| then Gathering(g.s, links, g.own || (agreed && mine), count)
      else
        var t := GatheredLinks(g.s, links);
        if t.fault then g.(s := t) else Gathering(t, [], false, 0)
  }

  // ------------------------------------------------------------- arrays of procs

  function After(done: seq<Proc>, r: MaybeSet): MaybeSet {
    if r.Merged? then Merged(done + r.procs) else Clash
  }

  predicate Places(conf: map<Proc, int>) {
    forall p :: p in conf ==> 0 <= conf[p]
  }

  lemma {:induction false} MergeStep(conf: map<Proc, int>, a: seq<Proc>, b: seq<Proc>, i: nat, j: nat, done: seq<Proc>)
    requires i <= |a| && j <= |b| && (i < |a| || j < |b|)
    ensures var r := AddToSynced(conf, a[i..], b[j..]);
            && ((i < |a| && a[i] !in conf) || (j < |b| && b[j] !in conf) ==> r == Clash)
            && (!(i < |a| && a[i] !in conf) && !(j < |b| && b[j] !in conf) ==>
                 if j == |b| || (i < |a| && conf[a[i]] < conf[b[j]])
                 then After(done, r) == After(done + [a[i]], AddToSynced(conf, a[i + 1..], b[j..]))
                 else if i == |a| || conf[b[j]] < conf[a[i]]
                 then After(done, r) == After(done + [b[j]], AddToSynced(conf, a[i..], b[j + 1..]))
                 else r == Clash)
  {
    if i < |a| {
      assert a[i..][0] == a[i] && a[i..][1..] == a[i + 1..];
      Shift(done, a[i], AddToSynced(conf, a[i + 1..], b[j..]));
    }
    if j < |b| {
      assert b[j..][0] == b[j] && b[j..][1..] == b[j + 1..];
      Shift(done, b[j], AddToSynced(conf, a[i..], b[j + 1..]));
    }
  }

  lemma {:induction false} Shift(done: seq<Proc>, p: Proc, r: MaybeSet)
    ensures After(done, Consed(p, r)) == After(done + [p], r)
  {
    if r.Merged? { assert done + ([p] + r.procs) == (done + [p]) + r.procs; }
  }

  // G_add_to_synced_set, into `temp`: merge by place in the configuration.
  method MergeSets(conf: map<Proc, int>, temp: array<Proc>, a: array<Proc>, size: nat, b: seq<Proc>) returns (ok: bool, n: nat)
    requires Places(conf) && size <= a.Length && size + |b| <= temp.Length && temp != a
    modifies temp
    ensures n <= temp.Length && AddToSynced(conf, a[..size], b) == if ok then Merged(temp[..n]) else Clash
  {
    hide AddToSynced;
    var i, j: nat := 0, 0;
    ghost var left := a[..size];
    n := 0;
    StartMerge(conf, left, b);
    while i < size || j < |b|
      invariant i <= size && j <= |b| && n == i + j && left == a[..size]
      invariant AddToSynced(conf, left, b) == After(temp[..n], AddToSynced(conf, left[i..], b[j..]))
      decreases size - i + |b| - j
    {
      MergeStep(conf, left, b, i, j, temp[..n]);
      var l, r := -1, -1;
      if i < size {
        if a[i] !in conf { return false, 0; }
        l := conf[a[i]];
      }
      if j < |b| {
        if b[j] !in conf { return false, 0; }
        r := conf[b[j]];
      }
      ghost var done := temp[..n];
      if (l < r && l != -1) || r == -1 {
        temp[n] := a[i];
        assert temp[..n + 1] == done + [left[i]];
        n, i := n + 1, i + 1;
      } else if (r < l && r != -1) || l == -1 {
        temp[n] := b[j];
        assert temp[..n + 1] == done + [b[j]];
        n, j := n + 1, j + 1;
      } else {
        return false, 0;
      }
    }
    EndMerge(conf, left, b, temp[..n]);
    ok := true;
  }

  lemma {:induction false} StartMerge(conf: map<Proc, int>, a: seq<Proc>, b: seq<Proc>)
    ensures AddToSynced(conf, a, b) == After([], AddToSynced(conf, a[0..], b[0..]))
  {
    assert a[0..] == a && b[0..] == b;
    var r := AddToSynced(conf, a, b);
    if r.Merged? { assert [] + r.procs == r.procs; }
  }

  lemma {:induction false} EndMerge(conf: map<Proc, int>, a: seq<Proc>, b: seq<Proc>, done: seq<Proc>)
    ensures After(done, AddToSynced(conf, a[|a|..], b[|b|..])) == Merged(done)
  {
    assert done + [] == done;
  }

  // G_update_synced_set_status: those who stay move down over the others.
  method CompactSet(a: array<Proc>, size: nat, memb: set<Proc>) returns (j: nat)
    requires size <= a.Length
    modifies a
    ensures j <= size && a[..j] == Keep(old(a[..size]), memb)
  {
    ghost var was := a[..size];
    j := 0;
    var i := 0;
    while i < size
      invariant 0 <= j <= i <= size && a[..j] == Keep(was[..i], memb) && a[i..size] == was[i..]
    {
      assert was[..i + 1][..i] == was[..i] && a[i] == a[i..size][0] == was[i];
      ghost var kept := a[..j];
      if a[i] in memb {
        a[j] := a[i];
        assert a[..j + 1] == kept + [was[i]];
        j := j + 1;
      }
      assert a[i + 1..size] == was[i + 1..];
      i := i + 1;
    }
    assert was[..size] == was;
  }

  // ---------------------------------------------------- facts about the links

  function Chosen(links: seq<Link>, complete: bool, own: bool): seq<Link> {
    if complete then Completed(links, own) else links
  }

  lemma {:induction false} ChosenMore(links: seq<Link>, complete: bool, own: bool, k: nat)
    requires k < |links|
    ensures Chosen(links[..k + 1], complete, own)
         == if complete && !(own && links[k].complete) then Chosen(links[..k], complete, own)
            else Chosen(links[..k], complete, own) + [links[k]]
  {
    assert links[..k + 1][..k] == links[..k];
  }

  lemma {:induction false} CompletedPrefix(links: seq<Link>, own: bool, k: nat)
    requires k <= |links|
    ensures Completed(links[..k], own) <= Completed(links, own)
    decreases |links|
  {
    if k == |links| {
      assert links[..k] == links;
    } else {
      CompletedPrefix(links[..|links| - 1], own, k);
      assert links[..|links| - 1][..k] == links[..k];
    }
  }

  lemma {:induction false} ClashStays(conf: map<Proc, int>, a: seq<Proc>, p: seq<Link>, l: seq<Link>)
    requires p <= l && AddLinkSets(conf, a, p).Clash?
    ensures AddLinkSets(conf, a, l).Clash?
    decreases |l|
  {
    hide AddToSynced, LastSet;
    if |p| < |l| {
      ClashStays(conf, a, p, l[..|l| - 1]);
    } else {
      assert p == l;
    }
  }

  lemma {:induction false} SumGrows(p: seq<Link>, l: seq<Link>)
    requires p <= l
    ensures SetSum(p) <= SetSum(l)
    decreases |l|
  {
    hide LastSet;
    if |p| < |l| {
      SumGrows(p, l[..|l| - 1]);
    } else {
      assert p == l;
    }
  }

  lemma {:induction false} MergedSize(conf: map<Proc, int>, a: seq<Proc>, b: seq<Proc>)
    ensures var r := AddToSynced(conf, a, b); r.Merged? ==> |r.procs| == |a| + |b|
    decreases |a| + |b|
  {
    if a != [] { MergedSize(conf, a[1..], b); }
    if b != [] { MergedSize(conf, a, b[1..]); }
  }

  // One more link is taken in.
  lemma {:induction false} LinkMore(conf: map<Proc, int>, a: seq<Proc>, gs: map<Name, Group>, p: seq<Link>, l: Link)
    ensures var q := p + [l];
            && LastSet(q) == SetOf(l.messages, LastSet(p)) && TakeLinks(gs, q) == TakeAll(TakeLinks(gs, p), l.messages)
            && SetSum(q) == SetSum(p) + |LastSet(q)|
            && AddLinkSets(conf, a, q) == (if AddLinkSets(conf, a, p).Merged? then AddToSynced(conf, AddLinkSets(conf, a, p).procs, LastSet(q)) else Clash)
  {
    hide AddToSynced, SetOf, TakeAll;
    assert (p + [l])[..|p|] == p;
  }

  lemma {:induction false} RegLinksIs(s: Groups, reg: set<Proc>, id: MembId, links: seq<Link>)
    requires s.phase == GGT && !s.fault
    ensures var r := AddLinkSets(s.conf, s.synced, links); var t := RegLinks(s, reg, id, links);
            && (r.Clash? ==> t.fault)
            && (r.Merged? ==> t == Groups(GGATHER, s.me, CleanedAfterCascade(TakeLinks(s.groups, links), s.trans), Keep(r.procs, s.trans),
                                          s.trans, s.transId, reg, id, s.boxes, s.conf, false))
  {
    hide AddLinkSets, TakeLinks, CleanedAfterCascade, Keep;
  }

  lemma {:induction false} NoLinks(conf: map<Proc, int>, a: seq<Proc>, gs: map<Name, Group>, links: seq<Link>, complete: bool, own: bool)
    ensures Chosen(links[..0], complete, own) == []
    ensures LastSet([]) == [] && TakeLinks(gs, []) == gs && SetSum([]) == 0 && AddLinkSets(conf, a, []) == Merged(a)
  {
  }

  // ------------------------------------------------------------------ the daemon

  class GroupDaemon {
    const me: Proc
    const conf: map<Proc, int>
    const procIds: array<Proc>
    var size: nat
    var phase: Phase
    var groups: map<Name, Group>
    var trans: set<Proc>
    var transId: MembId
    var reg: set<Proc>
    var regId: MembId
    var boxes: map<Name, int>
    var fault: bool
    var gathered: seq<Link>
    var ownComplete: bool
    var numDaemons: int

    ghost predicate Valid()
      reads this
    {
      size <= procIds.Length == MAX_PROCS_RING && Places(conf) && Readable(gathered)
    }

    ghost function Synced(): seq<Proc>
      requires Valid()
      reads this, procIds
    {
      procIds[..size]
    }

    ghost function State(): Groups
      requires Valid()
      reads this, procIds
    {
      Groups(phase, me, groups, Synced(), trans, transId, reg, regId, boxes, conf, fault)
    }

    // A fault is an exit of the process; what it leaves behind does not matter.
    ghost predicate Became(t: Groups)
      requires Valid()
      reads this, procIds
    {
      fault == t.fault && (!fault ==> State() == t)
    }

    constructor (me: Proc, conf: map<Proc, int>, regId: MembId)
      requires Places(conf)
      ensures Valid() && fresh(procIds)
      ensures State() == Groups(GOP, me, map[], [me], {}, UNKNOWN, {me}, regId, map[], conf, false)
      ensures gathered == [] && !ownComplete && numDaemons == 0
    {
      this.me, this.conf, this.regId := me, conf, regId;
      procIds := new Proc[MAX_PROCS_RING](_ => me);
      size, phase, groups, trans, transId, reg := 1, GOP, map[], {}, UNKNOWN, {me};
      boxes, fault, gathered, ownComplete, numDaemons := map[], false, [], false, 0;
      new;
      assert Synced() == [me];
    }

    // G_add_to_synced_set.
    method AddToSyncedSet(b: seq<Proc>)
      requires Valid() && size + |b| <= MAX_PROCS_RING
      modifies this`size, this`fault, procIds
      ensures Valid()
      ensures AddToSynced(conf, old(Synced()), b).Clash? ==> fault
      ensures AddToSynced(conf, old(Synced()), b).Merged? ==> fault == old(fault) && Synced() == AddToSynced(conf, old(Synced()), b).procs
    {
      var temp := new Proc[MAX_PROCS_RING](_ => me);
      var ok, n := MergeSets(conf, temp, procIds, size, b);
      if !ok { fault := true; return; }
      ghost var merged := temp[..n];
      var i := 0;
      while i < n
        invariant i <= n && procIds[..i] == temp[..i] && temp[..n] == merged
        invariant size == old(size) && fault == old(fault)
      {
        procIds[i] := temp[i];
        i := i + 1;
      }
      size := n;
    }

    // G_handle_join.
    method HandleJoin(owner: Proc, name: Name, group: Name)
      requires Valid()
      modifies this`groups, this`fault
      ensures Valid() && Became(Join(old(State()), owner, name, group))
    {
      hide AddMember;
      if phase == GGATHER || phase == GGT { fault := true; return; }
      var g := if group in groups then groups[group]
               else Group(GroupId(if phase == GOP then regId else transId, 0), false, map[], 0, []);
      if owner in g.daemons && name in g.daemons[owner].members { return; }
      var memb := if phase == GOP || owner in trans then g.id.memb else UNKNOWN;
      g := PutMember(g, owner, name, memb);
      if owner == me {
        if name !in boxes { fault := true; return; }
        g := g.(mboxes := g.mboxes + [boxes[name]]);
      }
      if g.daemons[owner].memb.procId == -1 && !g.changed { g := g.(changed := true); }
      groups := groups[group := g];
    }

    // G_handle_leave.
    method HandleLeave(owner: Proc, name: Name, group: Name)
      requires Valid()
      modifies this`groups, this`fault
      ensures Valid() && Became(Leave(old(State()), owner, name, group))
    {
      hide Depart;
      if phase == GGATHER || phase == GGT { fault := true; return; }
      if group !in groups || owner !in groups[group].daemons || name !in groups[group].daemons[owner].members { return; }
      var r := TakeOutMember(groups[group], me, boxes, owner, name);
      match r {
        case Broken => fault := true;
        case Gone => groups := groups - {group};
        case Stays(g) => groups := groups[group := g];
      }
    }

    // The loop of G_handle_kill over the groups.
    method KillEverywhere(owner: Proc, name: Name)
      requires Valid() && !fault
      modifies this`groups, this`fault
      ensures Valid()
      ensures fault <==> exists n :: n in old(groups) && Killed(old(groups)[n], me, boxes, owner, name).Broken?
      ensures !fault ==> forall n :: n in old(groups) ==> KilledIn(groups, n, Killed(old(groups)[n], me, boxes, owner, name))
      ensures !fault ==> groups.Keys <= old(groups).Keys
    {
      hide Depart;
      ghost var was := groups;
      var todo := groups.Keys;
      while todo != {}
        invariant todo <= was.Keys && groups.Keys <= was.Keys && !fault
        invariant forall n :: n in was && n in todo ==> n in groups && groups[n] == was[n]
        invariant forall n :: n in was && n !in todo ==> !Killed(was[n], me, boxes, owner, name).Broken?
                                                         && KilledIn(groups, n, Killed(was[n], me, boxes, owner, name))
        decreases |todo|
      {
        var n :| n in todo;
        if owner in groups[n].daemons && name in groups[n].daemons[owner].members {
          var r := TakeOutMember(groups[n], me, boxes, owner, name);
          match r {
            case Broken => fault := true; return;
            case Gone => groups := groups - {n};
            case Stays(g) => groups := groups[n := g];
          }
        }
        todo := todo - {n};
      }
    }

    // G_handle_kill.
    method HandleKill(owner: Proc, name: Name)
      requires Valid() && !fault
      modifies this`groups, this`fault
      ensures Valid() && Became(Kill(old(State()), owner, name))
    {
      if phase == GGATHER || phase == GGT { fault := true; return; }
      ghost var s := State();
      KillEverywhere(owner, name);
      KillIs(s, owner, name, groups, fault);
    }

    // The loops of G_handle_trans_memb over the groups.
    method MarkGroups()
      requires Valid()
      modifies this`groups
      ensures Valid() && groups == map n | n in old(groups) :: TransGroup(old(groups)[n], trans, transId)
    {
      hide MarkPartitioned, Stamped, Outside;
      ghost var was := groups;
      var todo := groups.Keys;
      while todo != {}
        invariant todo <= groups.Keys == was.Keys
        invariant forall n :: n in was ==> groups[n] == if n in todo then was[n] else TransGroup(was[n], trans, transId)
        decreases |todo|
      {
        var n :| n in todo;
        var g, any := MarkDaemons(groups[n], trans);
        if any {
          g := UpdateDaemonMembIds(g.(id := GroupId(transId, 1), changed := true));
          groups := groups[n := g];
        }
        todo := todo - {n};
      }
    }

    method NoteCascade()
      requires Valid()
      modifies this`groups
      ensures Valid() && groups == map n | n in old(groups) :: old(groups)[n].(changed := old(groups)[n].changed || Outside(old(groups)[n], trans))
    {
      hide Outside;
      ghost var was := groups;
      var todo := groups.Keys;
      while todo != {}
        invariant todo <= groups.Keys == was.Keys
        invariant forall n :: n in was ==>
          groups[n] == if n in todo then was[n] else was[n].(changed := was[n].changed || Outside(was[n], trans))
        decreases |todo|
      {
        var n :| n in todo;
        var any := ChangedByCascade(groups[n], trans);
        if any { groups := groups[n := groups[n].(changed := true)]; }
        todo := todo - {n};
      }
    }

    // G_handle_trans_memb.
    method HandleTrans(memb: set<Proc>, id: MembId)
      requires Valid()
      modifies this`phase, this`trans, this`transId, this`groups, this`size, this`fault, procIds
      ensures Valid() && Became(Trans(old(State()), memb, id))
    {
      hide TransGroup, Outside, Keep;
      if phase == GTRANS || phase == GGT { fault := true; return; }
      trans, transId := memb, id;
      if phase == GOP {
        MarkGroups();
        phase := GTRANS;
        size := CompactSet(procIds, size, trans);
      } else {
        NoteCascade();
        phase := GGT;
      }
    }

    // The loops of G_handle_reg_memb over the groups: partitioned daemons leave
    // the changed groups, and groups that are empty then are removed.
    method CleanGroups()
      requires Valid() && phase != GGT
      modifies this`groups
      ensures Valid() && groups == Cleaned(old(groups))
    {
      hide WithoutDaemons, Partitioned;
      ghost var was := groups;
      var todo := groups.Keys;
      while todo != {}
        invariant todo <= was.Keys && groups.Keys <= was.Keys
        invariant forall n :: n in was && n in todo ==> n in groups && groups[n] == was[n]
        invariant forall n :: n in was && n !in todo ==> (n in groups <==> n in Cleaned(was)) && (n in groups ==> groups[n] == Cleaned(was)[n])
        decreases |todo|
      {
        var n :| n in todo;
        if groups[n].changed {
          var g, any := EliminatePartitioned(groups[n], phase, trans);
          groups := if g.numMembers == 0 then groups - {n} else groups[n := g];
        }
        todo := todo - {n};
      }
      assert groups == Cleaned(was);
    }

    method CleanGroupsAfterCascade()
      requires Valid() && phase == GGT
      modifies this`groups
      ensures Valid() && groups == CleanedAfterCascade(old(groups), trans)
    {
      hide WithoutDaemons, Absentees;
      ghost var was := groups;
      var todo := groups.Keys;
      while todo != {}
        invariant todo <= was.Keys && groups.Keys <= was.Keys
        invariant forall n :: n in was && n in todo ==> n in groups && groups[n] == was[n]
        invariant forall n :: n in was && n !in todo ==>
          (n in groups <==> n in CleanedAfterCascade(was, trans)) && (n in groups ==> groups[n] == CleanedAfterCascade(was, trans)[n])
        decreases |todo|
      {
        var n :| n in todo;
        var g, any := EliminatePartitioned(groups[n], phase, trans);
        if any {
          groups := if g.numMembers == 0 then groups - {n} else groups[n := g.(changed := true)];
        }
        todo := todo - {n};
      }
      assert groups == CleanedAfterCascade(was, trans);
    }

    // Changed groups get a new id, and their daemons with them.
    method RenewGroups()
      requires Valid()
      modifies this`groups
      ensures Valid() && groups == RenewAll(old(groups), regId)
    {
      hide Stamped;
      ghost var was := groups;
      var todo := groups.Keys;
      while todo != {}
        invariant todo <= groups.Keys == was.Keys
        invariant forall n :: n in was ==> groups[n] == if n in todo then was[n] else Renewed(was[n], regId)
        decreases |todo|
      {
        var n :| n in todo;
        if groups[n].changed {
          var g := UpdateDaemonMembIds(groups[n].(id := GroupId(regId, 1), changed := false));
          groups := groups[n := g];
        }
        todo := todo - {n};
      }
    }

    // The messages of one representative.
    method TakeMessages(messages: seq<seq<Byte>>, set0: seq<Proc>) returns (sset: seq<Proc>)
      requires Valid() && forall y :: 0 <= y < |messages| ==> ReadMessage(messages[y]).Got?
      modifies this`groups
      ensures Valid() && groups == TakeAll(old(groups), messages) && sset == SetOf(messages, set0)
    {
      hide ReadMessage, AddChunks, ChunksIn, SetIn;
      sset := set0;
      var i := 0;
      assert messages[0..] == messages;
      while i < |messages|
        invariant i <= |messages| && TakeAll(old(groups), messages) == TakeAll(groups, messages[i..])
        invariant sset == SetOf(messages[..i], set0)
      {
        assert messages[i..][0] == messages[i] && messages[i..][1..] == messages[i + 1..];
        assert messages[..i + 1][..i] == messages[..i];
        groups, sset := MessToGroups(groups, sset, messages[i]);
        i := i + 1;
      }
      assert messages[..i] == messages;
    }

    // The gathered messages go into the group list and their senders into the
    // synced set; after a cascade only those of sets that are complete.
    method TakeGathered(complete: bool)
      requires Valid() && !fault && size + SetSum(Chosen(gathered, complete, ownComplete)) <= MAX_PROCS_RING
      modifies this`groups, this`size, this`fault, this`gathered, procIds
      ensures Valid()
      ensures var links := Chosen(old(gathered), complete, ownComplete);
              var r := AddLinkSets(conf, old(Synced()), links);
              if r.Clash? then fault
              else !fault && Synced() == r.procs && groups == TakeLinks(old(groups), links) && gathered == []
    {
      hide Completed, AddLinkSets, TakeLinks, SetSum, LastSet, Readable, AddToSynced, TakeAll, SetOf, Chosen;
      ghost var links, set0, gs := Chosen(gathered, complete, ownComplete), Synced(), groups;
      ghost var was := gathered;
      var sset: seq<Proc> := [];
      var i := 0;
      NoLinks(conf, set0, gs, was, complete, ownComplete);
      while i < |gathered|
        invariant Valid() && gathered == was && i <= |was| && !fault
        invariant var p := Chosen(was[..i], complete, ownComplete);
                  && AddLinkSets(conf, set0, p) == Merged(Synced()) && groups == TakeLinks(gs, p) && sset == LastSet(p)
                  && size == |set0| + SetSum(p)
      {
        var l := gathered[i];
        ghost var p := Chosen(was[..i], complete, ownComplete);
        ChosenMore(was, complete, ownComplete, i);
        if !complete || (ownComplete && l.complete) {
          ChosenPrefix(was, complete, ownComplete, i + 1);
          ReadableAt(gathered, i);
          LinkMore(conf, set0, gs, p, l);
          SumGrows(p + [l], links);
          MergedSize(conf, Synced(), LastSet(p + [l]));
          sset := TakeMessages(l.messages, sset);
          AddToSyncedSet(sset);
          if fault {
            ClashStays(conf, set0, p + [l], links);
            return;
          }
        }
        i := i + 1;
      }
      assert was[..i] == was;
      gathered := [];
      NothingReadable();
    }

    // G_handle_reg_memb in GTRANS.
    method RegInTrans(memb: set<Proc>, id: MembId)
      requires Valid() && phase == GTRANS
      modifies this`reg, this`regId, this`groups, this`phase
      ensures Valid() && State() == Reg(old(State()), memb, id, [])
    {
      hide Cleaned, RenewAll;
      reg, regId := memb, id;
      CleanGroups();
      if |trans| == |reg| {
        RenewGroups();
        phase := GOP;
      } else {
        phase := GGATHER;
      }
    }

    // G_handle_reg_memb in GGT.
    method RegInCascade(memb: set<Proc>, id: MembId)
      requires Valid() && !fault && phase == GGT && size + SetSum(Completed(gathered, ownComplete)) <= MAX_PROCS_RING
      modifies this`reg, this`regId, this`groups, this`phase, this`size, this`fault, this`gathered, this`ownComplete, this`numDaemons, procIds
      ensures Valid() && Became(RegLinks(old(State()), memb, id, Completed(old(gathered), old(ownComplete))))
      ensures !fault ==> gathered == [] && !ownComplete && numDaemons == 0
    {
      hide Completed, AddLinkSets, TakeLinks, SetSum, Readable, CleanedAfterCascade, Keep, RegLinks;
      RegLinksIs(State(), memb, id, Completed(gathered, ownComplete));
      reg, regId := memb, id;
      TakeGathered(true);
      if fault { return; }
      LeaveBehind();
      ownComplete, numDaemons, phase := false, 0, GGATHER;
    }

    // Whoever is not in the last transitional membership leaves.
    method LeaveBehind()
      requires Valid() && phase == GGT
      modifies this`groups, this`size, procIds
      ensures Valid() && groups == CleanedAfterCascade(old(groups), trans) && Synced() == Keep(old(Synced()), trans)
    {
      hide CleanedAfterCascade, Keep;
      CleanGroupsAfterCascade();
      size := CompactSet(procIds, size, trans);
    }

    // G_handle_reg_memb.
    method HandleReg(memb: set<Proc>, id: MembId)
      requires Valid() && !fault && (phase == GGT ==> size + SetSum(Completed(gathered, ownComplete)) <= MAX_PROCS_RING)
      modifies this`reg, this`regId, this`groups, this`phase, this`size, this`fault, this`gathered, this`ownComplete, this`numDaemons, procIds
      ensures Valid()
      ensures old(phase) != GGT ==> Became(Reg(old(State()), memb, id, [])) && gathered == old(gathered)
      ensures old(phase) == GGT ==> Became(RegLinks(old(State()), memb, id, Completed(old(gathered), old(ownComplete))))
      ensures old(phase) == GGT && !fault ==> gathered == [] && !ownComplete && numDaemons == 0
    {
      hide Completed, RegLinks, SetSum, Cleaned, RenewAll;
      match phase {
        case GOP => fault := true;
        case GGATHER => fault := true;
        case GTRANS => RegInTrans(memb, id);
        case GGT => RegInCascade(memb, id);
      }
    }

    // G_compute_and_notify, G_shift_to_GOP, and the transitional membership that
    // has been waiting.
    method ComputeAndNotify()
      requires Valid() && !fault && (phase == GGATHER || phase == GGT) && size + SetSum(gathered) <= MAX_PROCS_RING
      modifies this`groups, this`phase, this`size, this`fault, this`gathered, this`ownComplete, this`numDaemons, this`trans, this`transId, procIds
      ensures Valid() && Became(GatheredLinks(old(State()), old(gathered)))
      ensures !fault ==> gathered == [] && !ownComplete && numDaemons == 0
    {
      hide Completed, AddLinkSets, TakeLinks, SetSum, Readable, RenewAll, Trans;
      TakeGathered(false);
      if fault { return; }
      RenewGroups();
      ownComplete, numDaemons := false, 0;
      var cascade := phase == GGT;
      phase := GOP;
      if cascade { HandleTrans(trans, transId); }
    }

    // Where G_handle_groups would put the message: with its representative's, if
    // it is not that of this daemon's own set, which needs no processing.
    ghost function NextLinks(rep: Proc, b: seq<Byte>, agreed: bool): seq<Link>
      requires Valid() && size > 0
      reads this, procIds
    {
      if rep == Synced()[0] then gathered else Stored(gathered, rep, b, agreed)
    }

    ghost function Gathered(): Gathering
      requires Valid()
      reads this, procIds
    {
      Gathering(State(), gathered, ownComplete, numDaemons)
    }

    // G_handle_groups: a message of the representative `rep`, in the membership
    // `membId`; an agreed one is its last, and says how many daemons its set has.
    method HandleGroups(membId: MembId, rep: Proc, b: seq<Byte>, agreed: bool, represented: nat)
      requires Valid() && !fault && size > 0 && ReadMessage(b).Got?
      requires size + SetSum(NextLinks(rep, b, agreed)) <= MAX_PROCS_RING
      modifies this, procIds
      ensures Valid()
      ensures var h := Handle(old(Gathered()), membId, rep, b, agreed, represented);
              fault == h.s.fault && (!fault ==> Gathered() == h)
    {
      hide GatheredLinks, SetSum, Stored, Readable, ReadMessage;
      if phase == GOP || phase == GTRANS { fault := true; return; }
      if membId != regId || rep !in conf { return; }
      if rep == procIds[0] {
        ownComplete := ownComplete || agreed;
      } else {
        StoredReadable(gathered, rep, b, agreed);
        gathered := StoreMessage(gathered, rep, b, agreed);
      }
      if agreed { numDaemons := numDaemons + represented; }
      if numDaemons != |reg| { return; }
      ComputeAndNotify();
    }
  }

  // The search for the representative's link, and the new message at its head.
  method StoreMessage(links: seq<Link>, rep: Proc, b: seq<Byte>, agreed: bool) returns (r: seq<Link>)
    ensures r == Stored(links, rep, b, agreed)
  {
    var i := 0;
    assert links[0..] == links;
    while i < |links| && links[i].rep != rep
      invariant i <= |links| && Place(links, rep) == i + Place(links[i..], rep)
    {
      assert links[i..][0] == links[i] && links[i..][1..] == links[i + 1..];
      i := i + 1;
    }
    if i == |links| { return [Link(rep, [b], agreed)] + links; }
    assert links[i..][0] == links[i];
    r := links[i := Link(rep, [b] + links[i].messages, links[i].complete || agreed)];
  }

  lemma {:induction false} StoredReadable(links: seq<Link>, rep: Proc, b: seq<Byte>, agreed: bool)
    requires Readable(links) && ReadMessage(b).Got?
    ensures Readable(Stored(links, rep, b, agreed))
  {
    hide ReadMessage;
  }

  lemma {:induction false} NothingReadable()
    ensures Readable([])
  {
  }

  lemma {:induction false} ReadableAt(links: seq<Link>, x: nat)
    requires Readable(links) && x < |links|
    ensures forall y :: 0 <= y < |links[x].messages| ==> ReadMessage(links[x].messages[y]).Got?
  {
  }

  lemma {:induction false} ChosenPrefix(links: seq<Link>, complete: bool, own: bool, k: nat)
    requires k <= |links|
    ensures Chosen(links[..k], complete, own) <= Chosen(links, complete, own)
  {
    CompletedPrefix(links, own, k);
  }

  // What killing a member makes of a group.
  function Killed(g: Group, me: Proc, boxes: map<Name, int>, owner: Proc, name: Name): Remains {
    if Has(g, owner, name) then Depart(g, me, boxes, owner, name) else Stays(g)
  }

  predicate KilledIn(gs: map<Name, Group>, n: Name, r: Remains) {
    if r.Stays? then n in gs && gs[n] == r.g else n !in gs
  }

  lemma {:induction false} KillIs(s: Groups, owner: Proc, name: Name, gs: map<Name, Group>, fault: bool)
    requires !Busy(s) && !s.fault
    requires fault <==> exists n :: n in s.groups && Killed(s.groups[n], s.me, s.boxes, owner, name).Broken?
    requires !fault ==> gs.Keys <= s.groups.Keys && forall n :: n in s.groups ==> KilledIn(gs, n, Killed(s.groups[n], s.me, s.boxes, owner, name))
    ensures fault == Kill(s, owner, name).fault && (!fault ==> Kill(s, owner, name) == s.(groups := gs))
  {
    hide Depart;
    assert Breaks(s, owner, name) <==> fault;
    if !fault { assert Kill(s, owner, name).groups == gs; }
  }
}
