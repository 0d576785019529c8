// The loops of groups.c over one group, one synced set or one message.
module GroupSteps {
  import opened Types
  import opened Groups
  import opened GroupCodec
  import opened GroupParts
  import opened GroupMessages
  import B = GroupBookkeeping

  // ---------------------------------------------------------------- one group

  // G_update_daemon_memb_ids.
  method UpdateDaemonMembIds(g: Group) returns (h: Group)
    ensures h == Stamped(g)
  {
    var ds, todo := g.daemons, g.daemons.Keys;
    while todo != {}
      invariant todo <= g.daemons.Keys && ds.Keys == g.daemons.Keys
      invariant forall p :: p in ds ==> ds[p] == if p in todo then g.daemons[p] else Stamped(g).daemons[p]
      decreases |todo|
    {
      var p :| p in todo;
      if ds[p].memb.procId != -1 { ds := ds[p := ds[p].(memb := g.id.memb)]; }
      todo := todo - {p};
    }
    h := g.(daemons := ds);
    assert h.daemons == Stamped(g).daemons;
  }

  // The loop of G_handle_trans_memb over the daemons of a group.
  method MarkDaemons(g: Group, trans: set<Proc>) returns (h: Group, any: bool)
    ensures h == MarkPartitioned(g, trans) && (any <==> Outside(g, trans))
  {
    var ds, todo := g.daemons, g.daemons.Keys;
    any := false;
    while todo != {}
      invariant todo <= g.daemons.Keys && ds.Keys == g.daemons.Keys
      invariant forall p :: p in ds ==> ds[p] == if p in todo || p in trans then g.daemons[p] else g.daemons[p].(memb := UNKNOWN)
      invariant any ==> Outside(g, trans)
      invariant !any ==> forall p :: p in g.daemons && p !in todo ==> p in trans
      decreases |todo|
    {
      var p :| p in todo;
      if p !in trans { ds, any := ds[p := ds[p].(memb := UNKNOWN)], true; }
      todo := todo - {p};
    }
    h := g.(daemons := ds);
    assert h.daemons == MarkPartitioned(g, trans).daemons;
  }

  // G_check_if_changed_by_cascade.
  method ChangedByCascade(g: Group, trans: set<Proc>) returns (any: bool)
    ensures any <==> Outside(g, trans)
  {
    var todo := g.daemons.Keys;
    while todo != {}
      invariant todo <= g.daemons.Keys && forall p :: p in g.daemons && p !in todo ==> p in trans
      decreases |todo|
    {
      var p :| p in todo;
      if p !in trans { return true; }
      todo := todo - {p};
    }
    any := false;
  }

  // Which daemons G_eliminate_partitioned_daemons_status wants out.
  function Unwanted(g: Group, phase: Phase, trans: set<Proc>): set<Proc> {
    if phase == GGT then Absentees(g, trans) else Partitioned(g)
  }

  lemma {:induction false} PairsWithout(ds: map<Proc, DaemonMembers>, p: Proc)
    requires p in ds
    ensures |Pairs(ds - {p})| == |Pairs(ds)| - |ds[p].members|
  {
    hide Pairs;
    OnePairs(p, ds[p]);
    B.PairsJoin(ds - {p}, map[p := ds[p]]);
    assert (ds - {p}) + map[p := ds[p]] == ds;
  }

  // G_remove_daemon, after those in `gone`.
  lemma {:induction false} OneMoreGone(g: Group, gone: set<Proc>, p: Proc)
    requires p in g.daemons && p !in gone
    ensures var h := WithoutDaemons(g, gone);
            p in h.daemons && h.daemons[p] == g.daemons[p]
            && WithoutDaemons(g, gone + {p}) == h.(daemons := h.daemons - {p}, numMembers := h.numMembers - |h.daemons[p].members|)
  {
    hide Pairs;
    PairsWithout(g.daemons - gone, p);
    assert (g.daemons - gone) - {p} == g.daemons - (gone + {p});
  }

  lemma {:induction false} NoneGone(g: Group)
    ensures WithoutDaemons(g, {}) == g
  {
    assert g.daemons - {} == g.daemons;
  }

  method EliminatePartitioned(g: Group, phase: Phase, trans: set<Proc>) returns (h: Group, any: bool)
    ensures h == WithoutDaemons(g, Unwanted(g, phase, trans)) && (any <==> Unwanted(g, phase, trans) != {})
  {
    hide Pairs, WithoutDaemons, Unwanted;
    var todo := g.daemons.Keys;
    h, any := g, false;
    ghost var gone: set<Proc> := {};
    NoneGone(g);
    while todo != {}
      invariant todo <= g.daemons.Keys && gone <= g.daemons.Keys && gone !! todo
      invariant forall p :: p in g.daemons && p !in todo ==> (p in gone <==> p in Unwanted(g, phase, trans))
      invariant h == WithoutDaemons(g, gone) && (any <==> gone != {})
      decreases |todo|
    {
      var p :| p in todo;
      var needed := if phase == GGT then p !in trans else g.daemons[p].memb.procId == -1;
      IsUnwanted(g, phase, trans, p);
      if needed {
        OneMoreGone(g, gone, p);
        h := h.(daemons := h.daemons - {p}, numMembers := h.numMembers - |h.daemons[p].members|);
        any, gone := true, gone + {p};
      }
      todo := todo - {p};
    }
    UnwantedIn(g, phase, trans);
    assert gone == Unwanted(g, phase, trans);
  }

  lemma {:induction false} IsUnwanted(g: Group, phase: Phase, trans: set<Proc>, p: Proc)
    requires p in g.daemons
    ensures p in Unwanted(g, phase, trans) <==> if phase == GGT then p !in trans else g.daemons[p].memb.procId == -1
  {
  }

  lemma {:induction false} UnwantedIn(g: Group, phase: Phase, trans: set<Proc>)
    ensures Unwanted(g, phase, trans) <= g.daemons.Keys
  {
  }

  // G_remove_mailbox.
  method RemoveMailbox(boxes: seq<int>, m: int) returns (found: bool, r: seq<int>)
    ensures found <==> m in boxes
    ensures found ==> r == RemoveBox(boxes, m)
  {
    var i := 0;
    while i < |boxes| && boxes[i] != m
      invariant 0 <= i <= |boxes| && m !in boxes[..i]
    {
      i := i + 1;
    }
    if i == |boxes| { return false, boxes; }
    FirstPlace(boxes, m, i);
    r := boxes[i := boxes[|boxes| - 1]];
    return true, r[..|boxes| - 1];
  }

  lemma {:induction false} FirstPlace(boxes: seq<int>, m: int, i: nat)
    requires i < |boxes| && boxes[i] == m && m !in boxes[..i]
    ensures IndexOf(boxes, m) == i
    decreases i
  {
    if i > 0 {
      assert boxes[..i][0] == boxes[0];
      assert boxes[1..][..i - 1] == boxes[..i][1..];
      FirstPlace(boxes[1..], m, i - 1);
    }
  }

  // A new member, and its daemon if that is new.
  method PutMember(g: Group, owner: Proc, name: Name, memb: MembId) returns (h: Group)
    requires !Has(g, owner, name)
    ensures h == AddMember(g, owner, name, memb) && owner in h.daemons
  {
    var d := if owner in g.daemons then g.daemons[owner] else DaemonMembers(memb, {});
    d := d.(members := d.members + {name});
    h := g.(daemons := g.daemons[owner := d], numMembers := g.numMembers + 1, id := g.id.(index := g.id.index + 1));
  }

  // The part of G_handle_leave and G_handle_kill that takes the member out.
  method TakeOutMember(g: Group, me: Proc, boxes: map<Name, int>, owner: Proc, name: Name) returns (r: Remains)
    requires Has(g, owner, name)
    ensures r == Depart(g, me, boxes, owner, name)
  {
    var h := g;
    if owner == me {
      if name !in boxes { return Broken; }
      var found, mboxes := RemoveMailbox(g.mboxes, boxes[name]);
      if !found { return Broken; }
      h := h.(mboxes := mboxes);
    }
    var d := h.daemons[owner].(members := h.daemons[owner].members - {name});
    h := h.(daemons := h.daemons[owner := d], numMembers := h.numMembers - 1);
    if d.members == {} {
      h := h.(daemons := h.daemons - {owner});
      assert h.daemons == g.daemons - {owner};
    }
    if h.numMembers == 0 {
      return if h.daemons == map[] && h.mboxes == [] then Gone else Broken;
    }
    return Stays(h.(id := h.id.(index := h.id.index + 1)));
  }

  // ---------------------------------------------------------- reading a message

  function After<T>(done: seq<T>, r: Parse<seq<T>>): Parse<seq<T>> {
    if r.Got? then Got(done + r.value, r.rest) else Short
  }

  lemma {:induction false} AfterMore<T>(done: seq<T>, x: T, r: Parse<seq<T>>)
    requires r.Got?
    ensures After(done, Got([x] + r.value, r.rest)) == After(done + [x], r)
  {
    assert done + ([x] + r.value) == (done + [x]) + r.value;
  }

  lemma {:induction false} AfterNothing<T>(r: Parse<seq<T>>)
    ensures After([], r) == r
  {
    if r.Got? { assert [] + r.value == r.value; }
  }

  // The names of `n` members, from `pos` on.
  method ReadNames(b: seq<Byte>, pos: nat, n: nat) returns (names: seq<Name>, at: nat)
    requires pos <= |b| && ReadMembers(b[pos..], n).Got?
    ensures at <= |b| && ReadMembers(b[pos..], n) == Got(names, b[at..])
  {
    names, at := [], pos;
    var j := 0;
    AfterNothing(ReadMembers(b[pos..], n));
    while j < n
      invariant j <= n && at <= |b| && ReadMembers(b[at..], n - j).Got?
      invariant ReadMembers(b[pos..], n) == After(names, ReadMembers(b[at..], n - j))
    {
      var name := b[at..at + MAX_GROUP_NAME];
      assert b[at..][..MAX_GROUP_NAME] == name && b[at..][MAX_GROUP_NAME..] == b[at + MAX_GROUP_NAME..];
      AfterMore(names, name, ReadMembers(b[at + MAX_GROUP_NAME..], n - j - 1));
      names, at, j := names + [name], at + MAX_GROUP_NAME, j + 1;
    }
    assert names + [] == names;
  }

  method ReadDaemon(b: seq<Byte>, pos: nat) returns (d: Dmn, at: nat)
    requires pos <= |b| && ReadDmn(b[pos..]).Got?
    ensures at <= |b| && ReadDmn(b[pos..]) == Got(d, b[at..])
  {
    var s := b[pos..];
    assert s[14..] == b[pos + 14..];
    var names;
    names, at := ReadNames(b, pos + 14, Decode16(s[12..14]));
    d := Dmn(Decode32(s[..4]), MembId(Decode32(s[4..8]), Decode32(s[8..12])), names);
  }

  // The daemons of a chunk go into their group one by one.
  method TakeDaemons(g: Group, b: seq<Byte>, pos: nat, n: nat) returns (h: Group, at: nat, ghost ds: seq<Dmn>)
    requires pos <= |b| && ReadDmns(b[pos..], n).Got?
    ensures at <= |b| && ReadDmns(b[pos..], n) == Got(ds, b[at..])
    ensures h == AddDmns(g, ds)
  {
    hide ReadDmn, AddDmn;
    h, at, ds := g, pos, [];
    var j := 0;
    AfterNothing(ReadDmns(b[pos..], n));
    while j < n
      invariant j <= n && at <= |b| && ReadDmns(b[at..], n - j).Got?
      invariant ReadDmns(b[pos..], n) == After(ds, ReadDmns(b[at..], n - j))
      invariant h == AddDmns(g, ds)
    {
      var d, next := ReadDaemon(b, at);
      AfterMore(ds, d, ReadDmns(b[next..], n - j - 1));
      AddLast(g, ds, d);
      ds := ds + [d];
      PutDaemon(h, d);
      h := h.(daemons := h.daemons[Proc(d.id) := DaemonMembers(d.memb, set m | m in d.members)],
              changed := h.changed || d.memb != h.id.memb, numMembers := h.numMembers + |d.members|);
      at, j := next, j + 1;
    }
    assert ds + [] == ds;
  }

  lemma {:induction false} PutDaemon(g: Group, d: Dmn)
    ensures AddDmn(g, d) == g.(daemons := g.daemons[Proc(d.id) := DaemonMembers(d.memb, set m | m in d.members)],
                               changed := g.changed || d.memb != g.id.memb, numMembers := g.numMembers + |d.members|)
  {
  }

  lemma {:induction false} AddLast(g: Group, ds: seq<Dmn>, d: Dmn)
    ensures AddDmns(g, ds + [d]) == AddDmn(AddDmns(g, ds), d)
  {
    hide AddDmn;
    DmnsConcat(g, ds, [d]);
    assert [d][1..] == [];
    assert AddDmns(AddDmn(AddDmns(g, ds), d), []) == AddDmn(AddDmns(g, ds), d);
  }

  // The groups from `pos` to the end of the message.
  method TakeGroups(gs: map<Name, Group>, b: seq<Byte>, pos: nat) returns (hs: map<Name, Group>)
    requires pos <= |b| && ReadGrps(b[pos..]).Got?
    ensures hs == AddChunks(gs, ReadGrps(b[pos..]).value)
  {
    hide ReadGrp, AddChunk;
    hs := gs;
    var at := pos;
    ghost var cs: seq<Grp> := [];
    AfterNothing(ReadGrps(b[pos..]));
    while at < |b|
      invariant pos <= at <= |b| && ReadGrps(b[at..]).Got?
      invariant ReadGrps(b[pos..]) == After(cs, ReadGrps(b[at..]))
      invariant hs == AddChunks(gs, cs)
    {
      ghost var c;
      ghost var was := at;
      hs, at, c := TakeChunk(hs, b, at);
      AfterMore(cs, c, ReadGrps(b[at..]));
      ChunksConcat(gs, cs, [c]);
      OneChunk(AddChunks(gs, cs), c);
      cs := cs + [c];
    }
    assert b[at..] == [] && cs + [] == cs;
  }

  lemma {:induction false} OneChunk(gs: map<Name, Group>, c: Grp)
    ensures AddChunks(gs, [c]) == AddChunk(gs, c)
  {
    hide AddChunk;
    assert [c][1..] == [];
  }

  method TakeChunk(gs: map<Name, Group>, b: seq<Byte>, pos: nat) returns (hs: map<Name, Group>, at: nat, ghost c: Grp)
    requires pos < |b| && ReadGrp(b[pos..]).Got?
    ensures pos < at <= |b| && ReadGrp(b[pos..]) == Got(c, b[at..]) && hs == AddChunk(gs, c)
  {
    hide ReadDmns, AddDmns, Decode32, Decode16;
    var s := b[pos..];
    assert s[48..] == b[pos + 48..];
    var name := s[..32];
    var id := GroupId(MembId(Decode32(s[32..36]), Decode32(s[36..40])), Decode32(s[40..44]));
    var changed, num := Decode16(s[44..46]) != 0, Decode16(s[46..48]);
    var g := if name in gs then gs[name] else Group(id, false, map[], 0, []);
    if changed { g := g.(changed := true); }
    ghost var ds;
    g, at, ds := TakeDaemons(g, b, pos + 48, num);
    c := Grp(name, id, changed, ds);
    ReadDmnsShrinks(b[pos + 48..], num);
    hs := gs[name := g];
  }

  method ReadSet(b: seq<Byte>, pos: nat, n: nat) returns (ids: seq<int>, at: nat)
    requires pos <= |b| && ReadIds(b[pos..], n).Got?
    ensures at <= |b| && ReadIds(b[pos..], n) == Got(ids, b[at..])
  {
    hide Decode32;
    ids, at := [], pos;
    var j := 0;
    AfterNothing(ReadIds(b[pos..], n));
    while j < n
      invariant j <= n && at <= |b| && ReadIds(b[at..], n - j).Got?
      invariant ReadIds(b[pos..], n) == After(ids, ReadIds(b[at..], n - j))
    {
      var id := Decode32(b[at..at + 4]);
      assert b[at..][..4] == b[at..at + 4] && b[at..][4..] == b[at + 4..];
      AfterMore(ids, id, ReadIds(b[at + 4..], n - j - 1));
      ids, at, j := ids + [id], at + 4, j + 1;
    }
    assert ids + [] == ids;
  }

  // G_mess_to_groups: the synced set, if this message has it, and its chunks.
  method MessToGroups(gs: map<Name, Group>, set0: seq<Proc>, b: seq<Byte>) returns (hs: map<Name, Group>, sset: seq<Proc>)
    requires ReadMessage(b).Got?
    ensures hs == AddChunks(gs, ChunksIn(b))
    ensures sset == SetIn(b, set0)
  {
    hide ReadIds, ReadGrps, AddChunks, Decode32;
    sset := set0;
    var at := PREAMBLE_SIZE;
    if b[8] == 1 {
      var ids;
      ids, at := ReadSet(b, 13, Decode32(b[9..13]));
      sset := Procs(ids);
    }
    hs := TakeGroups(gs, b, at);
  }

  function Procs(ids: seq<int>): seq<Proc> {
    seq(|ids|, x requires 0 <= x < |ids| => Proc(ids[x]))
  }

  // The synced set a message carries, or the one that was read before.
  function SetIn(b: seq<Byte>, set0: seq<Proc>): seq<Proc> {
    match ReadMessage(b)
    case Short => set0
    case Got(m, _) => if m.first then Procs(m.synced) else set0
  }
}
