// From a group list to its messages and back: what is built, sent and taken in,
// in any order, is the list.
module GroupMessages {
  import opened Types
  import opened Groups
  import opened GroupCodec
  import opened GroupBuffers
  import opened GroupParts
  import opened GroupBufferMethods

  predicate Writable(all: seq<Grp>, reg: MembId, synced: seq<int>) {
    GrpsOK(all) && Sendable(all) && MembOK(reg) && SetFits(synced)
  }

  predicate AllOK(bs: seq<seq<Grp>>) {
    forall x :: 0 <= x < |bs| ==> GrpsOK(bs[x])
  }

  function MessageOf(reg: MembId, first: bool, synced: seq<int>, cs: seq<Grp>): seq<Byte>
    requires MembOK(reg) && SetFits(synced) && GrpsOK(cs)
  {
    Preamble(reg, first, synced) + EncodeGrps(cs)
  }

  // Groups_bufs: the newest buffer is at the head of the list.
  function Later(reg: MembId, synced: seq<int>, bs: seq<seq<Grp>>): seq<seq<Byte>>
    requires MembOK(reg) && SetFits(synced) && AllOK(bs)
    decreases |bs|
  {
    if bs == [] then [] else Later(reg, synced, bs[1..]) + [MessageOf(reg, false, synced, bs[0])]
  }

  function Buffers(reg: MembId, synced: seq<int>, bs: seq<seq<Grp>>): seq<seq<Byte>>
    requires MembOK(reg) && SetFits(synced) && AllOK(bs) && bs != []
  {
    Later(reg, synced, bs[1..]) + [MessageOf(reg, true, synced, bs[0])]
  }

  // ------------------------------------------------------------ well-formedness

  lemma {:induction false} CutOK(used: int, gs: seq<Grp>)
    requires GrpsOK(gs)
    ensures GrpsOK(CutGroups(used, gs).chunks) && GrpsOK(CutGroups(used, gs).rest)
    decreases |gs|
  {
    hide GrpOK, Sizes, Fitting, AsSent;
    if gs != [] && GROUP_INFO_SIZE + MESSAGE_HEADER_SIZE <= GROUPS_BUF_SIZE - used {
      var g, at := gs[0], used + GROUP_INFO_SIZE;
      var k := Fitting(at, g.dmns);
      PartOK(g, k);
      CutOK(at + Sizes(g.dmns), gs[1..]);
    }
  }

  lemma {:induction false} PartOK(g: Grp, k: nat)
    requires GrpOK(g) && k <= |g.dmns|
    ensures GrpOK(AsSent(g, g.dmns[..k])) && GrpOK(g.(dmns := g.dmns[k..]))
  {
    SentOK(g, g.dmns[..k]);
  }

  lemma {:induction false} LaterOK(gs: seq<Grp>)
    requires GrpsOK(gs) && Sendable(gs)
    ensures AllOK(LaterChunks(gs))
    decreases Todo(gs)
  {
    hide GrpsOK, CutGroups, Todo;
    if gs != [] {
      CutProgress(gs);
      CutOK(PREAMBLE_SIZE, gs);
      LaterOK(CutGroups(PREAMBLE_SIZE, gs).rest);
    }
  }

  lemma {:induction false} ChunksOK(synced: nat, gs: seq<Grp>)
    requires GrpsOK(gs) && Sendable(gs)
    ensures AllOK(AllChunks(synced, gs))
  {
    hide GrpsOK, CutGroups;
    var used := PREAMBLE_SIZE + 4 + 4 * synced;
    CutSendable(used, gs);
    CutOK(used, gs);
    LaterOK(CutGroups(used, gs).rest);
  }

  // ------------------------------------------------------------------ building

  // With what is still to be sent of `left`, the buffers will be `target`.
  predicate Owing(reg: MembId, synced: seq<int>, left: seq<Grp>, bufs: seq<seq<Byte>>, target: seq<seq<Byte>>)
    requires MembOK(reg) && SetFits(synced)
  {
    && Sendable(left) && AllOK(LaterChunks(left)) && target == Later(reg, synced, LaterChunks(left)) + bufs
    && AllFit(bufs)
  }

  predicate AllFit(bufs: seq<seq<Byte>>) {
    forall x :: 0 <= x < |bufs| ==> |bufs[x]| + MESSAGE_HEADER_SIZE <= GROUPS_BUF_SIZE
  }

  // G_build_new_groups_bufs.  It ends, because a later buffer always takes
  // something off the list.
  method BuildNewGroupsBufs(all: seq<Grp>, reg: MembId, synced: seq<int>) returns (bufs: seq<seq<Byte>>)
    requires Writable(all, reg, synced)
    ensures AllOK(AllChunks(|synced|, all)) && bufs == Buffers(reg, synced, AllChunks(|synced|, all))
    ensures AllFit(bufs)
  {
    hide Writable, GrpsOK, Sendable, MembOK, SetFits, CutGroups, Todo, Preamble, Owing, Buffers, AllChunks, AllOK, AllFit, Left, Written;
    Parts(all, reg, synced);
    ChunksOK(|synced|, all);
    SomeChunks(|synced|, all);
    ghost var target := Buffers(reg, synced, AllChunks(|synced|, all));
    var buf := new Byte[GROUPS_BUF_SIZE];
    var n: nat, git: nat, dit: nat := BuildGroupsBuf(buf, all, 0, 0, reg, true, synced);
    bufs := [buf[..n]];
    FirstCut(all, reg, synced, buf[..n], Left(all, git, dit));
    while git < |all|
      invariant git <= |all| && (git < |all| ==> dit <= |all[git].dmns|)
      invariant Owing(reg, synced, Left(all, git, dit), bufs, target)
      decreases Todo(Left(all, git, dit))
    {
      ghost var left, was := Left(all, git, dit), bufs;
      SomeLeft(all, git, dit);
      buf := new Byte[GROUPS_BUF_SIZE];
      n, git, dit := BuildGroupsBuf(buf, all, git, dit, reg, false, synced);
      bufs := [buf[..n]] + bufs;
      OweLess(left, reg, synced, was, buf[..n], target);
    }
    NoneLeft(all, git, dit);
    OweNothing(reg, synced, bufs, target);
  }

  lemma {:induction false} Parts(all: seq<Grp>, reg: MembId, synced: seq<int>)
    requires Writable(all, reg, synced)
    ensures GrpsOK(all) && Sendable(all) && MembOK(reg) && SetFits(synced)
  {
  }

  lemma {:induction false} SomeLeft(all: seq<Grp>, git: nat, dit: nat)
    requires git < |all| && dit <= |all[git].dmns|
    ensures Left(all, git, dit) != []
  {
  }

  lemma {:induction false} OweNothing(reg: MembId, synced: seq<int>, bufs: seq<seq<Byte>>, target: seq<seq<Byte>>)
    requires MembOK(reg) && SetFits(synced) && Owing(reg, synced, [], bufs, target)
    ensures bufs == target && AllFit(bufs)
  {
    assert [] + bufs == bufs;
  }

  lemma {:induction false} OweLess(left: seq<Grp>, reg: MembId, synced: seq<int>, bufs: seq<seq<Byte>>, bytes: seq<Byte>, target: seq<seq<Byte>>)
    requires MembOK(reg) && SetFits(synced) && Owing(reg, synced, left, bufs, target) && left != []
    requires |bytes| + MESSAGE_HEADER_SIZE <= GROUPS_BUF_SIZE
    requires Written(bytes, Preamble(reg, false, synced), CutGroups(|Preamble(reg, false, synced)|, left).chunks)
    ensures var rest := CutGroups(|Preamble(reg, false, synced)|, left).rest;
            Owing(reg, synced, rest, [bytes] + bufs, target) && Todo(rest) < Todo(left)
  {
    hide GrpsOK, Sendable, CutGroups, Preamble, Todo, MembOK, Written, Later, AllOK, LaterChunks;
    NextCut(left, reg, synced, bytes);
    var rest := CutGroups(|Preamble(reg, false, synced)|, left).rest;
    assert (Later(reg, synced, LaterChunks(rest)) + [bytes]) + bufs == Later(reg, synced, LaterChunks(rest)) + ([bytes] + bufs);
  }

  lemma {:induction false} FirstCut(all: seq<Grp>, reg: MembId, synced: seq<int>, bytes: seq<Byte>, rest: seq<Grp>)
    requires Writable(all, reg, synced) && |bytes| + MESSAGE_HEADER_SIZE <= GROUPS_BUF_SIZE
    requires var c := CutGroups(|Preamble(reg, true, synced)|, Left(all, 0, 0));
             Written(bytes, Preamble(reg, true, synced), c.chunks) && rest == c.rest
    ensures AllOK(AllChunks(|synced|, all))
    ensures AllChunks(|synced|, all) != [] && Owing(reg, synced, rest, [bytes], Buffers(reg, synced, AllChunks(|synced|, all)))
  {
    hide GrpsOK, Sendable, CutGroups, Preamble, Left;
    PreambleSize(reg, true, synced);
    AllLeft(all, 0);
    assert all[0..] == all;
    ChunksOK(|synced|, all);
    CutSendable(|Preamble(reg, true, synced)|, all);
    assert AllChunks(|synced|, all)[1..] == LaterChunks(rest);
  }

  lemma {:induction false} NextCut(left: seq<Grp>, reg: MembId, synced: seq<int>, bytes: seq<Byte>)
    requires MembOK(reg) && SetFits(synced) && Sendable(left) && AllOK(LaterChunks(left)) && left != []
    requires Written(bytes, Preamble(reg, false, synced), CutGroups(|Preamble(reg, false, synced)|, left).chunks)
    ensures var rest := CutGroups(|Preamble(reg, false, synced)|, left).rest;
            && Sendable(rest) && AllOK(LaterChunks(rest)) && Todo(rest) < Todo(left)
            && Later(reg, synced, LaterChunks(left)) == Later(reg, synced, LaterChunks(rest)) + [bytes]
  {
    hide GrpsOK, Sendable, CutGroups, Preamble, Todo;
    PreambleSize(reg, false, synced);
    CutProgress(left);
    assert LaterChunks(left)[1..] == LaterChunks(CutGroups(PREAMBLE_SIZE, left).rest);
  }

  // ------------------------------------------------------------------- reading

  // What a message says about the groups.
  function ChunksIn(b: seq<Byte>): seq<Grp> {
    match ReadMessage(b)
    case Short => []
    case Got(m, _) => m.groups
  }

  function TakeAll(gs: map<Name, Group>, ms: seq<seq<Byte>>): map<Name, Group>
    decreases |ms|
  {
    if ms == [] then gs else TakeAll(AddChunks(gs, ChunksIn(ms[0])), ms[1..])
  }

  function Decoded(ms: seq<seq<Byte>>): seq<Grp>
    decreases |ms|
  {
    if ms == [] then [] else ChunksIn(ms[0]) + Decoded(ms[1..])
  }

  lemma {:induction false} TakeAllIs(gs: map<Name, Group>, ms: seq<seq<Byte>>)
    ensures TakeAll(gs, ms) == AddChunks(gs, Decoded(ms))
    decreases |ms|
  {
    hide ChunksIn, AddChunk;
    if ms != [] {
      TakeAllIs(AddChunks(gs, ChunksIn(ms[0])), ms[1..]);
      ChunksConcat(gs, ChunksIn(ms[0]), Decoded(ms[1..]));
    }
  }

  lemma {:induction false} DecodedConcat(a: seq<seq<Byte>>, b: seq<seq<Byte>>)
    ensures Decoded(a + b) == Decoded(a) + Decoded(b)
    decreases |a|
  {
    hide ChunksIn;
    if a == [] {
      assert a + b == b;
    } else {
      DecodedConcat(a[1..], b);
      assert (a + b)[1..] == a[1..] + b;
    }
  }

  // The messages may come in any order: the same chunks come in.
  lemma {:induction false} DecodedAnyOrder(ms: seq<seq<Byte>>, ns: seq<seq<Byte>>)
    requires multiset(ms) == multiset(ns)
    ensures multiset(Decoded(ms)) == multiset(Decoded(ns))
    decreases |ms|
  {
    hide ChunksIn, Decoded;
    if ms == [] {
      assert |multiset(ns)| == 0;
      assert ns == ms;
    } else {
      assert ms[0] in multiset(ms);
      var i :| 0 <= i < |ns| && ns[i] == ms[0];
      MessageOut(ns, i);
      MessageOut(ms, 0);
      assert ms[..0] + ms[1..] == ms[1..];
      DecodedAnyOrder(ms[1..], ns[..i] + ns[i + 1..]);
    }
  }

  lemma {:induction false} MessageOut(ms: seq<seq<Byte>>, i: nat)
    requires i < |ms|
    ensures var rest := ms[..i] + ms[i + 1..];
            multiset(rest) == multiset(ms) - multiset{ms[i]}
            && multiset(Decoded(ms)) == multiset(Decoded(rest)) + multiset(ChunksIn(ms[i]))
  {
    hide ChunksIn;
    assert ms == ms[..i] + ([ms[i]] + ms[i + 1..]);
    DecodedConcat(ms[..i], [ms[i]] + ms[i + 1..]);
    DecodedConcat([ms[i]], ms[i + 1..]);
    DecodedConcat(ms[..i], ms[i + 1..]);
    assert Decoded([ms[i]]) == ChunksIn(ms[i]) + Decoded([]);
    assert multiset(ms) == multiset(ms[..i]) + multiset{ms[i]} + multiset(ms[i + 1..]);
  }

  // ------------------------------------------------------------- the round trip

  lemma {:induction false} MessageBack(reg: MembId, first: bool, synced: seq<int>, cs: seq<Grp>)
    requires MembOK(reg) && SetFits(synced) && GrpsOK(cs)
    ensures ChunksIn(MessageOf(reg, first, synced, cs)) == cs
    ensures ReadMessage(MessageOf(reg, first, synced, cs)) == Got(Message(first, if first then synced else [], cs), [])
  {
    hide ReadMessage, Preamble;
    MessageRoundTrip(reg, first, synced, cs);
  }

  lemma {:induction false} LaterBack(reg: MembId, synced: seq<int>, bs: seq<seq<Grp>>)
    requires MembOK(reg) && SetFits(synced) && AllOK(bs)
    ensures multiset(Decoded(Later(reg, synced, bs))) == multiset(Flatten(bs))
    ensures forall x :: 0 <= x < |Later(reg, synced, bs)| ==> NotFirst(Later(reg, synced, bs)[x])
    decreases |bs|
  {
    hide ReadMessage, GrpsOK, SetFits, MembOK, ChunksIn, MessageOf;
    if bs != [] {
      LaterBack(reg, synced, bs[1..]);
      var b := MessageOf(reg, false, synced, bs[0]);
      MessageBack(reg, false, synced, bs[0]);
      DecodedConcat(Later(reg, synced, bs[1..]), [b]);
      assert Decoded([b]) == ChunksIn(b) + Decoded([]);
    }
  }

  // A message that does not name a synced set.
  predicate NotFirst(b: seq<Byte>) {
    ReadMessage(b).Got? && !ReadMessage(b).value.first
  }

  lemma {:induction false} BuffersBack(reg: MembId, synced: seq<int>, bs: seq<seq<Grp>>)
    requires MembOK(reg) && SetFits(synced) && AllOK(bs) && bs != []
    ensures var bufs := Buffers(reg, synced, bs);
            && multiset(Decoded(bufs)) == multiset(Flatten(bs))
            && bufs != [] && ReadMessage(bufs[|bufs| - 1]) == Got(Message(true, synced, bs[0]), [])
            && forall x :: 0 <= x < |bufs| - 1 ==> NotFirst(bufs[x])
  {
    hide ReadMessage, GrpsOK, SetFits, MembOK, ChunksIn, MessageOf, Later;
    LaterBack(reg, synced, bs[1..]);
    var b := MessageOf(reg, true, synced, bs[0]);
    MessageBack(reg, true, synced, bs[0]);
    DecodedConcat(Later(reg, synced, bs[1..]), [b]);
    assert Decoded([b]) == ChunksIn(b) + Decoded([]);
  }

  // The messages built from a group list, taken in by another daemon in any
  // order, add exactly that list to its own.
  lemma {:induction false} GroupsRoundTrip(base: map<Name, Group>, m: map<Name, Group>, all: seq<Grp>, reg: MembId, synced: seq<int>, ms: seq<seq<Byte>>)
    requires Writable(all, reg, synced) && Lists(all, m) && AllOK(AllChunks(|synced|, all))
    requires multiset(ms) == multiset(Buffers(reg, synced, AllChunks(|synced|, all)))
    ensures TakeAll(base, ms) == Merge(base, m)
  {
    hide Buffers, GrpsOK, Sendable, MembOK, SetFits, Lists, AllChunks, Merge, AllOK;
    var bs := AllChunks(|synced|, all);
    SomeChunks(|synced|, all);
    TakeAllIs(base, ms);
    DecodedAnyOrder(ms, Buffers(reg, synced, bs));
    BuffersBack(reg, synced, bs);
    GroupListRoundTrip(base, m, all, |synced|, Decoded(ms));
  }

  lemma {:induction false} SomeChunks(synced: nat, all: seq<Grp>)
    requires Sendable(all)
    ensures AllChunks(synced, all) != []
  {
  }

  // Into an empty list, the list comes back as it was, without the mailboxes.
  lemma {:induction false} EmptyListGetsAll(m: map<Name, Group>, all: seq<Grp>, reg: MembId, synced: seq<int>, ms: seq<seq<Byte>>)
    requires Writable(all, reg, synced) && Lists(all, m) && AllOK(AllChunks(|synced|, all))
    requires multiset(ms) == multiset(Buffers(reg, synced, AllChunks(|synced|, all)))
    requires forall n :: n in m ==> OneId(m[n])
    ensures TakeAll(map[], ms) == map n | n in m :: m[n].(mboxes := [])
  {
    hide Buffers, GrpsOK, Sendable, MembOK, SetFits, Lists, AllChunks, AllOK, Pairs;
    GroupsRoundTrip(map[], m, all, reg, synced, ms);
    forall n | n in m ensures NewGroup(m[n]) == m[n].(mboxes := []) {
      assert Incoming(m[n]) == m[n].daemons;
    }
  }

  // The count is right and every daemon carries the id of its group.
  predicate OneId(g: Group) {
    g.numMembers == |Pairs(g.daemons)| && forall p :: p in g.daemons ==> g.daemons[p].memb == g.id.memb
  }
}
