// Taking in the buffers of a group list, chunk by chunk: their order does not
// matter, and together they are the list.
module GroupParts {
  import opened Types
  import opened Groups
  import opened GroupBookkeeping
  import opened GroupCodec
  import opened GroupBuffers

  // ------------------------------------------------------------------- reading

  // One daemon of a chunk, as G_mess_to_groups puts it into a group.
  function AddDmn(g: Group, d: Dmn): Group {
    g.(daemons := g.daemons[Proc(d.id) := DaemonMembers(d.memb, set m | m in d.members)],
       changed := g.changed || d.memb != g.id.memb,
       numMembers := g.numMembers + |d.members|)
  }

  function AddDmns(g: Group, ds: seq<Dmn>): Group
    decreases |ds|
  {
    if ds == [] then g else AddDmns(AddDmn(g, ds[0]), ds[1..])
  }

  // The group a chunk goes to, created if need be.
  function Target(gs: map<Name, Group>, c: Grp): Group {
    if c.name in gs then gs[c.name] else Group(c.id, false, map[], 0, [])
  }

  function Taken(g: Group, c: Grp): Group {
    AddDmns(g.(changed := g.changed || c.changed), c.dmns)
  }

  function AddChunk(gs: map<Name, Group>, c: Grp): map<Name, Group> {
    gs[c.name := Taken(Target(gs, c), c)]
  }

  function AddChunks(gs: map<Name, Group>, cs: seq<Grp>): map<Name, Group>
    decreases |cs|
  {
    if cs == [] then gs else AddChunks(AddChunk(gs, cs[0]), cs[1..])
  }

  // --------------------------------------------------------------- closed form

  function One(d: Dmn): map<Proc, DaemonMembers> {
    map[Proc(d.id) := DaemonMembers(d.memb, set m | m in d.members)]
  }

  function DaemonsOf(ds: seq<Dmn>): map<Proc, DaemonMembers> {
    if ds == [] then map[] else One(ds[0]) + DaemonsOf(ds[1..])
  }

  function CountOf(ds: seq<Dmn>): nat {
    if ds == [] then 0 else |ds[0].members| + CountOf(ds[1..])
  }

  predicate Foreign(ds: seq<Dmn>, memb: MembId) {
    exists x :: 0 <= x < |ds| && ds[x].memb != memb
  }

  lemma {:induction false} ForeignMore(ds: seq<Dmn>, memb: MembId)
    requires ds != []
    ensures Foreign(ds, memb) <==> ds[0].memb != memb || Foreign(ds[1..], memb)
  {
    if Foreign(ds[1..], memb) {
      var x :| 0 <= x < |ds[1..]| && ds[1..][x].memb != memb;
      assert ds[x + 1].memb != memb;
    }
    if Foreign(ds, memb) && ds[0].memb == memb {
      var x :| 0 <= x < |ds| && ds[x].memb != memb;
      assert ds[1..][x - 1].memb != memb;
    }
  }

  function With(g: Group, ds: seq<Dmn>): Group {
    g.(daemons := g.daemons + DaemonsOf(ds), changed := g.changed || Foreign(ds, g.id.memb), numMembers := g.numMembers + CountOf(ds))
  }

  lemma {:induction false} AddDmnsIs(g: Group, ds: seq<Dmn>)
    ensures AddDmns(g, ds) == With(g, ds)
    decreases |ds|
  {
    hide Foreign, One;
    if ds == [] {
      assert g.daemons + DaemonsOf(ds) == g.daemons;
      NoneForeign(g.id.memb);
    } else {
      AddDmnsIs(AddDmn(g, ds[0]), ds[1..]);
      ForeignMore(ds, g.id.memb);
      AddOne(g.daemons, ds[0]);
      assert (g.daemons + One(ds[0])) + DaemonsOf(ds[1..]) == g.daemons + (One(ds[0]) + DaemonsOf(ds[1..]));
    }
  }

  lemma {:induction false} NoneForeign(memb: MembId)
    ensures !Foreign([], memb)
  {
  }

  lemma {:induction false} AddOne(ds: map<Proc, DaemonMembers>, d: Dmn)
    ensures ds[Proc(d.id) := DaemonMembers(d.memb, set m | m in d.members)] == ds + One(d)
  {
  }

  // ------------------------------------------------------------------ any order

  predicate Listed(p: Proc, ds: seq<Dmn>) {
    exists x :: 0 <= x < |ds| && Proc(ds[x].id) == p
  }

  lemma {:induction false} ListedIn(p: Proc, ds: seq<Dmn>)
    ensures p in DaemonsOf(ds) <==> Listed(p, ds)
    decreases |ds|
  {
    if ds != [] {
      ListedIn(p, ds[1..]);
      if Listed(p, ds[1..]) {
        var x :| 0 <= x < |ds[1..]| && Proc(ds[1..][x].id) == p;
        assert ds[x + 1] == ds[1..][x];
      }
      if Listed(p, ds) && Proc(ds[0].id) != p {
        var x :| 0 <= x < |ds| && Proc(ds[x].id) == p;
        assert ds[1..][x - 1] == ds[x];
      }
    }
  }

  // Chunks of one group agree on its id and flag, and share no daemon.
  predicate Separate(a: Grp, b: Grp) {
    a.name == b.name ==>
      a.id == b.id && a.changed == b.changed
      && forall x, y :: 0 <= x < |a.dmns| && 0 <= y < |b.dmns| ==> a.dmns[x].id != b.dmns[y].id
  }

  predicate AllSeparate(cs: seq<Grp>) {
    forall x, y :: 0 <= x < y < |cs| ==> Separate(cs[x], cs[y])
  }

  lemma {:induction false} SeparateKeys(a: Grp, b: Grp)
    requires Separate(a, b) && a.name == b.name
    ensures DaemonsOf(a.dmns).Keys !! DaemonsOf(b.dmns).Keys
  {
    forall p ensures !(p in DaemonsOf(a.dmns) && p in DaemonsOf(b.dmns)) {
      ListedIn(p, a.dmns);
      ListedIn(p, b.dmns);
    }
  }

  lemma {:induction false} CommuteInGroup(g: Group, a: Grp, b: Grp)
    requires Separate(a, b) && a.name == b.name
    ensures Taken(Taken(g, a), b) == Taken(Taken(g, b), a)
  {
    hide Foreign, DaemonsOf, CountOf, AddDmns, Separate;
    TakenIs(g, a);
    TakenIs(g, b);
    TakenIs(Taken(g, a), b);
    TakenIs(Taken(g, b), a);
    SeparateKeys(a, b);
    assert (g.daemons + DaemonsOf(a.dmns)) + DaemonsOf(b.dmns) == (g.daemons + DaemonsOf(b.dmns)) + DaemonsOf(a.dmns);
  }

  lemma {:induction false} TakenIs(g: Group, c: Grp)
    ensures Taken(g, c) == With(g.(changed := g.changed || c.changed), c.dmns)
  {
    AddDmnsIs(g.(changed := g.changed || c.changed), c.dmns);
  }

  lemma {:induction false} Commute(gs: map<Name, Group>, a: Grp, b: Grp)
    requires Separate(a, b)
    ensures AddChunk(AddChunk(gs, a), b) == AddChunk(AddChunk(gs, b), a)
  {
    hide Taken, Separate;
    if a.name == b.name {
      SeparateHead(a, b);
      CommuteInGroup(Target(gs, a), a, b);
    }
  }

  lemma {:induction false} SeparateHead(a: Grp, b: Grp)
    requires Separate(a, b) && a.name == b.name
    ensures a.id == b.id && a.changed == b.changed
  {
  }

  lemma {:induction false} ChunksConcat(gs: map<Name, Group>, a: seq<Grp>, b: seq<Grp>)
    ensures AddChunks(gs, a + b) == AddChunks(AddChunks(gs, a), b)
    decreases |a|
  {
    hide AddChunk;
    if a == [] {
      assert a + b == b;
    } else {
      ChunksConcat(AddChunk(gs, a[0]), a[1..], b);
      assert (a + b)[1..] == a[1..] + b;
    }
  }

  // A chunk may come first.
  lemma {:induction false} ChunkFirst(gs: map<Name, Group>, before: seq<Grp>, c: Grp, after: seq<Grp>)
    requires forall x :: 0 <= x < |before| ==> Separate(before[x], c)
    ensures AddChunks(gs, before + [c] + after) == AddChunks(AddChunk(gs, c), before + after)
    decreases |before|
  {
    hide AddChunk, Separate;
    var s := before + [c] + after;
    if before == [] {
      assert s[0] == c && s[1..] == before + after;
    } else {
      var b := before[0];
      assert s[0] == b && s[1..] == before[1..] + [c] + after;
      ChunkFirst(AddChunk(gs, b), before[1..], c, after);
      Commute(gs, b, c);
      assert (before + after)[0] == b && (before + after)[1..] == before[1..] + after;
    }
  }

  lemma {:induction false} TakeOut(cs: seq<Grp>, i: nat)
    requires i < |cs|
    ensures var rest := cs[..i] + cs[i + 1..];
            && cs == cs[..i] + [cs[i]] + cs[i + 1..]
            && multiset(rest) == multiset(cs) - multiset{cs[i]}
            && (AllSeparate(cs) ==> AllSeparate(rest) && forall x :: 0 <= x < i ==> Separate(cs[x], cs[i]))
  {
    hide Separate;
    assert cs == cs[..i] + [cs[i]] + cs[i + 1..];
    assert multiset(cs) == multiset(cs[..i]) + multiset{cs[i]} + multiset(cs[i + 1..]);
  }

  lemma {:induction false} AnyOrder(gs: map<Name, Group>, cs: seq<Grp>, ds: seq<Grp>)
    requires multiset(cs) == multiset(ds) && AllSeparate(ds)
    ensures AddChunks(gs, cs) == AddChunks(gs, ds)
    decreases |cs|
  {
    hide AddChunk, AllSeparate, Separate;
    if cs == [] {
      assert |multiset(ds)| == 0;
    } else {
      var c := cs[0];
      assert c in multiset(cs);
      var i :| 0 <= i < |ds| && ds[i] == c;
      TakeOut(ds, i);
      TakeOut(cs, 0);
      assert cs[..0] + cs[1..] == cs[1..];
      ChunkFirst(gs, ds[..i], c, ds[i + 1..]);
      AnyOrder(AddChunk(gs, c), cs[1..], ds[..i] + ds[i + 1..]);
    }
  }

  // ------------------------------------------------------- the chunks of one list

  predicate DistinctIds(ds: seq<Dmn>) {
    forall x, y :: 0 <= x < y < |ds| ==> ds[x].id != ds[y].id
  }

  predicate Proper(gs: seq<Grp>) {
    (forall x :: 0 <= x < |gs| ==> DistinctIds(gs[x].dmns)) && AllSeparate(gs)
  }

  predicate SeparateFrom(c: Grp, gs: seq<Grp>) {
    forall x :: 0 <= x < |gs| ==> Separate(c, gs[x])
  }

  lemma {:induction false} CutSeparate(used: int, gs: seq<Grp>, d: Grp)
    requires SeparateFrom(d, gs)
    ensures SeparateFrom(d, CutGroups(used, gs).chunks) && SeparateFrom(d, CutGroups(used, gs).rest)
    decreases |gs|
  {
    if gs != [] && GROUP_INFO_SIZE + MESSAGE_HEADER_SIZE <= GROUPS_BUF_SIZE - used {
      CutSeparate(used + GROUP_INFO_SIZE + Sizes(gs[0].dmns), gs[1..], d);
    }
  }

  lemma {:induction false} SplitSeparate(g: Grp, k: nat, more: seq<Grp>)
    requires k <= |g.dmns| && DistinctIds(g.dmns) && SeparateFrom(g, more)
    ensures var c, h := AsSent(g, g.dmns[..k]), g.(dmns := g.dmns[k..]);
            Separate(c, h) && SeparateFrom(c, more) && SeparateFrom(h, more) && DistinctIds(c.dmns) && DistinctIds(h.dmns)
  {
  }

  lemma {:induction false} ProperMore(c: Grp, gs: seq<Grp>)
    ensures Proper([c] + gs) <==> DistinctIds(c.dmns) && SeparateFrom(c, gs) && Proper(gs)
  {
    hide Separate, DistinctIds;
    var s := [c] + gs;
    assert s[0] == c && forall x :: 0 <= x < |gs| ==> s[x + 1] == gs[x];
    if Proper(s) {
      forall x, y | 0 <= x < y < |gs| ensures Separate(gs[x], gs[y]) { assert Separate(s[x + 1], s[y + 1]); }
      forall x | 0 <= x < |gs| ensures DistinctIds(gs[x].dmns) && Separate(c, gs[x]) { assert s[x + 1] == gs[x]; }
    }
  }

  lemma {:induction false} SeparateBoth(c: Grp, a: seq<Grp>, b: seq<Grp>)
    requires SeparateFrom(c, a) && SeparateFrom(c, b)
    ensures SeparateFrom(c, a + b)
  {
    hide Separate;
  }

  lemma {:induction false} CutProper(used: int, gs: seq<Grp>)
    requires Proper(gs)
    ensures Proper(CutGroups(used, gs).chunks + CutGroups(used, gs).rest)
    decreases |gs|
  {
    hide Separate, SeparateFrom, DistinctIds, Sizes, AsSent, Fitting, Proper;
    var r := CutGroups(used, gs);
    if gs == [] || GROUP_INFO_SIZE + MESSAGE_HEADER_SIZE > GROUPS_BUF_SIZE - used {
      assert r.chunks + r.rest == gs;
    } else {
      var g, at := gs[0], used + GROUP_INFO_SIZE;
      var k := Fitting(at, g.dmns);
      var c, h := AsSent(g, g.dmns[..k]), g.(dmns := g.dmns[k..]);
      assert gs == [g] + gs[1..];
      ProperMore(g, gs[1..]);
      SplitSeparate(g, k, gs[1..]);
      if k < |g.dmns| {
        ProperMore(h, gs[1..]);
        SeparateOne(c, h, gs[1..]);
        ProperMore(c, [h] + gs[1..]);
        assert r.chunks + r.rest == [c] + ([h] + gs[1..]);
      } else {
        var q := CutGroups(at + Sizes(g.dmns), gs[1..]);
        CutProper(at + Sizes(g.dmns), gs[1..]);
        CutSeparate(at + Sizes(g.dmns), gs[1..], c);
        SeparateBoth(c, q.chunks, q.rest);
        ProperMore(c, q.chunks + q.rest);
        assert r.chunks + r.rest == [c] + (q.chunks + q.rest);
      }
    }
  }

  lemma {:induction false} SeparateOne(c: Grp, h: Grp, gs: seq<Grp>)
    requires Separate(c, h) && SeparateFrom(c, gs)
    ensures SeparateFrom(c, [h] + gs)
  {
    hide Separate;
  }

  // ------------------------------------------------- cut or whole, it is the same

  function Sent(gs: seq<Grp>): seq<Grp> {
    if gs == [] then [] else [AsSent(gs[0], gs[0].dmns)] + Sent(gs[1..])
  }

  lemma {:induction false} DmnsConcat(g: Group, a: seq<Dmn>, b: seq<Dmn>)
    ensures AddDmns(g, a + b) == AddDmns(AddDmns(g, a), b)
    decreases |a|
  {
    hide AddDmn;
    if a == [] {
      assert a + b == b;
    } else {
      DmnsConcat(AddDmn(g, a[0]), a[1..], b);
      assert (a + b)[1..] == a[1..] + b;
    }
  }

  lemma {:induction false} JoinInGroup(t: Group, g: Grp, k: nat)
    requires k <= |g.dmns|
    ensures Taken(Taken(t, AsSent(g, g.dmns[..k])), AsSent(g, g.dmns[k..])) == Taken(t, AsSent(g, g.dmns))
  {
    hide DaemonsOf, CountOf, Foreign, AddDmns;
    var a, b := AsSent(g, g.dmns[..k]), AsSent(g, g.dmns[k..]);
    assert AsSent(g, g.dmns).dmns == a.dmns + b.dmns;
    DmnsConcat(t.(changed := t.changed || g.changed), a.dmns, b.dmns);
    TakenIs(t, a);
  }

  lemma {:induction false} JoinChunks(gs: map<Name, Group>, g: Grp, k: nat)
    requires k <= |g.dmns|
    ensures AddChunk(AddChunk(gs, AsSent(g, g.dmns[..k])), AsSent(g, g.dmns[k..])) == AddChunk(gs, AsSent(g, g.dmns))
  {
    hide Taken;
    JoinInGroup(Target(gs, g), g, k);
  }

  lemma {:induction false} CutAdds(m: map<Name, Group>, used: int, gs: seq<Grp>)
    ensures AddChunks(AddChunks(m, CutGroups(used, gs).chunks), Sent(CutGroups(used, gs).rest)) == AddChunks(m, Sent(gs))
    decreases |gs|
  {
    hide AddChunk, AsSent, Sizes, Fitting;
    if gs != [] && GROUP_INFO_SIZE + MESSAGE_HEADER_SIZE <= GROUPS_BUF_SIZE - used {
      var g, at := gs[0], used + GROUP_INFO_SIZE;
      var k := Fitting(at, g.dmns);
      var c, h := AsSent(g, g.dmns[..k]), g.(dmns := g.dmns[k..]);
      assert Sent(gs)[1..] == Sent(gs[1..]);
      if k < |g.dmns| {
        JoinChunks(m, g, k);
        SentHead(g, h, k);
        var rest := [h] + gs[1..];
        assert rest[1..] == gs[1..];
        assert Sent(rest)[0] == AsSent(h, h.dmns) && Sent(rest)[1..] == Sent(gs[1..]);
        assert AddChunks(m, [c]) == AddChunk(m, c) by { assert [c][1..] == []; }
      } else {
        assert g.dmns[..k] == g.dmns;
        var q := CutGroups(at + Sizes(g.dmns), gs[1..]);
        CutAdds(AddChunk(m, c), at + Sizes(g.dmns), gs[1..]);
        assert ([c] + q.chunks)[1..] == q.chunks;
      }
    }
  }

  lemma {:induction false} SentHead(g: Grp, h: Grp, k: nat)
    requires k <= |g.dmns| && h == g.(dmns := g.dmns[k..])
    ensures AsSent(h, h.dmns) == AsSent(g, g.dmns[k..])
  {
  }

  // -------------------------------------------------- what the list describes

  predicate NoRepeats(ns: seq<Name>) {
    forall x, y :: 0 <= x < y < |ns| ==> ns[x] != ns[y]
  }

  // A listing of a group: its daemons once each, their members once each.
  predicate ListsGroup(g: Grp, o: Group) {
    && g.id == o.id && g.changed == o.changed && DistinctIds(g.dmns)
    && (forall x :: 0 <= x < |g.dmns| ==> NoRepeats(g.dmns[x].members))
    && DaemonsOf(g.dmns) == o.daemons
  }

  // GroupsList, written down group by group.
  ghost predicate Lists(gs: seq<Grp>, m: map<Name, Group>) {
    && (forall x, y :: 0 <= x < y < |gs| ==> gs[x].name != gs[y].name)
    && (forall n :: n in m <==> exists x :: 0 <= x < |gs| && gs[x].name == n)
    && forall x :: 0 <= x < |gs| ==> ListsGroup(gs[x], m[gs[x].name])
  }

  lemma {:induction false} MembersCount(ns: seq<Name>)
    requires NoRepeats(ns)
    ensures |(set m | m in ns)| == |ns|
    decreases |ns|
  {
    if ns != [] {
      MembersCount(ns[1..]);
      assert (set m | m in ns) == {ns[0]} + (set m | m in ns[1..]);
      assert ns[0] !in ns[1..];
    }
  }

  lemma {:induction false} OnePairs(p: Proc, d: DaemonMembers)
    ensures |Pairs(map[p := d])| == |d.members|
    decreases |d.members|
  {
    var ps := Pairs(map[p := d]);
    if d.members == {} {
      assert ps == {};
    } else {
      var m :| m in d.members;
      OnePairs(p, d.(members := d.members - {m}));
      assert ps == Pairs(map[p := d.(members := d.members - {m})]) + {(p, m)};
    }
  }

  lemma {:induction false} CountPairs(ds: seq<Dmn>)
    requires DistinctIds(ds) && forall x :: 0 <= x < |ds| ==> NoRepeats(ds[x].members)
    ensures CountOf(ds) == |Pairs(DaemonsOf(ds))|
    decreases |ds|
  {
    if ds == [] {
      NoPairs();
    } else {
      CountPairs(ds[1..]);
      MembersCount(ds[0].members);
      var p, d := Proc(ds[0].id), DaemonMembers(ds[0].memb, set m | m in ds[0].members);
      OnePairs(p, d);
      ListedIn(p, ds[1..]);
      PairsJoin(map[p := d], DaemonsOf(ds[1..]));
    }
  }

  // The daemons of a chunk are those of the group, all with the group's id.
  function Stamp(ds: map<Proc, DaemonMembers>, memb: MembId): map<Proc, DaemonMembers> {
    map p | p in ds :: ds[p].(memb := memb)
  }

  lemma {:induction false} StampJoin(d: Dmn, ds: map<Proc, DaemonMembers>, memb: MembId)
    ensures Stamp(One(d) + ds, memb) == One(d.(memb := memb)) + Stamp(ds, memb)
  {
  }

  lemma {:induction false} SentDaemons(g: Grp, ds: seq<Dmn>)
    ensures var e := AsSent(g, ds).dmns;
            DaemonsOf(e) == Stamp(DaemonsOf(ds), g.id.memb) && CountOf(e) == CountOf(ds)
    decreases |ds|
  {
    hide One, Stamp;
    var e := AsSent(g, ds).dmns;
    if ds == [] {
      StampNone(g.id.memb);
    } else {
      SentDaemons(g, ds[1..]);
      assert e[1..] == AsSent(g, ds[1..]).dmns;
      StampJoin(ds[0], DaemonsOf(ds[1..]), g.id.memb);
    }
  }

  lemma {:induction false} StampNone(memb: MembId)
    ensures Stamp(map[], memb) == map[]
  {
  }

  lemma {:induction false} SentForeign(g: Grp, ds: seq<Dmn>, m: MembId)
    ensures Foreign(AsSent(g, ds).dmns, m) <==> ds != [] && g.id.memb != m
  {
    var e := AsSent(g, ds).dmns;
    if ds != [] { assert e[0].memb == g.id.memb; }
  }

  lemma {:induction false} TakeWhole(t: Group, g: Grp, o: Group)
    requires ListsGroup(g, o)
    ensures Taken(t, AsSent(g, g.dmns)) == MergeGroup(t, o)
  {
    hide Foreign, CountOf, AddDmns, Pairs, DistinctIds, NoRepeats, DaemonsOf;
    TakenIs(t, AsSent(g, g.dmns));
    SentDaemons(g, g.dmns);
    SentForeign(g, g.dmns, t.id.memb);
    CountPairs(g.dmns);
    assert Stamp(DaemonsOf(g.dmns), g.id.memb) == Incoming(o);
    Inhabited(g.dmns);
  }

  lemma {:induction false} MergeBlank(o: Group)
    ensures MergeGroup(Group(o.id, false, map[], 0, []), o) == NewGroup(o)
  {
    hide Pairs;
    assert map[] + Incoming(o) == Incoming(o);
  }

  // A whole group comes in as Merge says.
  lemma {:induction false} AddWhole(gs: map<Name, Group>, g: Grp, o: Group)
    requires ListsGroup(g, o)
    ensures AddChunk(gs, AsSent(g, g.dmns)) == Merge(gs, map[g.name := o])
  {
    hide Taken, MergeGroup, NewGroup, DaemonsOf, NoRepeats, DistinctIds;
    TakeWhole(Target(gs, g), g, o);
    MergeBlank(o);
  }

  lemma {:induction false} Inhabited(ds: seq<Dmn>)
    ensures DaemonsOf(ds) == map[] <==> ds == []
  {
    if ds != [] { assert Proc(ds[0].id) in DaemonsOf(ds); }
  }

  lemma {:induction false} MergeTwo(base: map<Name, Group>, n: Name, o: Group, less: map<Name, Group>)
    requires n !in less
    ensures Merge(Merge(base, map[n := o]), less) == Merge(base, less[n := o])
  {
    hide MergeGroup, NewGroup;
  }

  lemma {:induction false} AddAll(base: map<Name, Group>, gs: seq<Grp>, m: map<Name, Group>)
    requires Lists(gs, m)
    ensures AddChunks(base, Sent(gs)) == Merge(base, m)
    decreases |gs|
  {
    hide AddChunk, AsSent, ListsGroup, Merge, Lists;
    if gs == [] {
      ListsNothing(base, m);
    } else {
      var g := gs[0];
      var less := m - {g.name};
      ListsLess(gs, m);
      AddWhole(base, g, m[g.name]);
      AddAll(Merge(base, map[g.name := m[g.name]]), gs[1..], less);
      assert Sent(gs)[1..] == Sent(gs[1..]);
      MergeTwo(base, g.name, m[g.name], less);
      assert less[g.name := m[g.name]] == m;
    }
  }

  lemma {:induction false} ListsNothing(base: map<Name, Group>, m: map<Name, Group>)
    requires Lists([], m)
    ensures Merge(base, m) == base
  {
    assert m == map[];
  }

  lemma {:induction false} ListsLess(gs: seq<Grp>, m: map<Name, Group>)
    requires gs != [] && Lists(gs, m)
    ensures gs[0].name in m && ListsGroup(gs[0], m[gs[0].name]) && Lists(gs[1..], m - {gs[0].name})
  {
    hide ListsGroup;
    var less := m - {gs[0].name};
    forall n ensures n in less <==> exists x :: 0 <= x < |gs[1..]| && gs[1..][x].name == n {
      if n in less {
        var x :| 0 <= x < |gs| && gs[x].name == n;
        assert gs[1..][x - 1].name == n;
      }
    }
  }

  // ------------------------------------------------------------- the round trip

  lemma {:induction false} LaterMore(gs: seq<Grp>)
    requires Sendable(gs) && gs != []
    ensures var c := CutGroups(PREAMBLE_SIZE, gs);
            Sendable(c.rest) && Todo(c.rest) < Todo(gs) && Flatten(LaterChunks(gs)) == c.chunks + Flatten(LaterChunks(c.rest))
  {
    hide CutGroups;
    CutProgress(gs);
    assert LaterChunks(gs)[1..] == LaterChunks(CutGroups(PREAMBLE_SIZE, gs).rest);
  }

  lemma {:induction false} LaterAdds(m: map<Name, Group>, gs: seq<Grp>)
    requires Sendable(gs)
    ensures AddChunks(m, Flatten(LaterChunks(gs))) == AddChunks(m, Sent(gs))
    decreases Todo(gs)
  {
    hide AddChunk, CutGroups, Sendable;
    if gs != [] {
      LaterMore(gs);
      var c := CutGroups(PREAMBLE_SIZE, gs);
      CutAdds(m, PREAMBLE_SIZE, gs);
      LaterAdds(AddChunks(m, c.chunks), c.rest);
      ChunksConcat(m, c.chunks, Flatten(LaterChunks(c.rest)));
    }
  }

  lemma {:induction false} LaterSeparate(cs: seq<Grp>, gs: seq<Grp>)
    requires Sendable(gs) && Proper(cs + gs)
    ensures Proper(cs + Flatten(LaterChunks(gs)))
    decreases Todo(gs)
  {
    hide CutGroups, Proper, Sendable;
    if gs != [] {
      LaterMore(gs);
      var c := CutGroups(PREAMBLE_SIZE, gs);
      PutProper(PREAMBLE_SIZE, cs, gs);
      LaterSeparate(cs + c.chunks, c.rest);
      assert cs + Flatten(LaterChunks(gs)) == cs + c.chunks + Flatten(LaterChunks(c.rest));
    } else {
      assert Flatten(LaterChunks(gs)) == gs;
    }
  }

  lemma {:induction false} PutProper(used: int, cs: seq<Grp>, gs: seq<Grp>)
    requires Proper(cs + gs)
    ensures Proper(cs + CutGroups(used, gs).chunks + CutGroups(used, gs).rest)
  {
    hide CutGroups, Separate, DistinctIds;
    var c := CutGroups(used, gs);
    var all := c.chunks + c.rest;
    assert Proper(gs) by { assert forall x :: 0 <= x < |gs| ==> gs[x] == (cs + gs)[|cs| + x]; }
    CutProper(used, gs);
    forall x | 0 <= x < |cs| ensures SeparateFrom(cs[x], all) && DistinctIds(cs[x].dmns) {
      assert (cs + gs)[x] == cs[x];
      assert SeparateFrom(cs[x], gs) by { assert forall y :: 0 <= y < |gs| ==> gs[y] == (cs + gs)[|cs| + y]; }
      CutSeparate(used, gs, cs[x]);
    }
    forall x, y | 0 <= x < y < |cs + all| ensures Separate((cs + all)[x], (cs + all)[y]) {
      if y < |cs| { assert (cs + gs)[x] == cs[x] && (cs + gs)[y] == cs[y]; }
    }
    assert cs + c.chunks + c.rest == cs + all;
  }

  // Each daemon of each group is in one chunk only, and chunks of one group agree
  // on its id and flag.
  lemma {:induction false} OneChunkEach(m: map<Name, Group>, gs: seq<Grp>, synced: nat)
    requires Lists(gs, m) && Sendable(gs)
    ensures Proper(Flatten(AllChunks(synced, gs)))
  {
    hide CutGroups, Lists, Proper;
    var used := PREAMBLE_SIZE + 4 + 4 * synced;
    CutSendable(used, gs);
    var c := CutGroups(used, gs);
    assert AllChunks(synced, gs)[1..] == LaterChunks(c.rest);
    ListsProper(gs, m);
    CutProper(used, gs);
    LaterSeparate(c.chunks, c.rest);
  }

  // However the chunks of all buffers of a group list are ordered, taking them in
  // adds to any list exactly the groups, daemons and members of that list.
  lemma {:induction false} GroupListRoundTrip(base: map<Name, Group>, m: map<Name, Group>, gs: seq<Grp>, synced: nat, cs: seq<Grp>)
    requires Lists(gs, m) && Sendable(gs) && multiset(cs) == multiset(Flatten(AllChunks(synced, gs)))
    ensures AddChunks(base, cs) == Merge(base, m)
  {
    hide AddChunk, CutGroups, Lists, Separate, DistinctIds, Merge;
    var used := PREAMBLE_SIZE + 4 + 4 * synced;
    CutSendable(used, gs);
    var c := CutGroups(used, gs);
    assert AllChunks(synced, gs)[1..] == LaterChunks(c.rest);
    CutAdds(base, used, gs);
    LaterAdds(AddChunks(base, c.chunks), c.rest);
    ChunksConcat(base, c.chunks, Flatten(LaterChunks(c.rest)));
    AddAll(base, gs, m);
    OneChunkEach(m, gs, synced);
    AnyOrder(base, cs, Flatten(AllChunks(synced, gs)));
  }

  lemma {:induction false} ListsProper(gs: seq<Grp>, m: map<Name, Group>)
    requires Lists(gs, m)
    ensures Proper(gs)
  {
  }
}
