// G_build_groups_buf and G_mess_to_groups as they run: one writes a buffer in
// place from where the last one stopped, the other takes a message in.
module GroupBufferMethods {
  import opened Types
  import opened Groups
  import opened GroupCodec
  import opened GroupBuffers
  import opened GroupParts

  // ------------------------------------------------------------------- writing

  // What the two iterators have not passed yet.
  function Left(all: seq<Grp>, git: nat, dit: nat): seq<Grp>
    requires git < |all| ==> dit <= |all[git].dmns|
  {
    if git >= |all| then [] else [all[git].(dmns := all[git].dmns[dit..])] + all[git + 1..]
  }

  // memcpy to the end of what is in the buffer.
  method Put(buf: array<Byte>, at: nat, bytes: seq<Byte>)
    requires at + |bytes| <= buf.Length
    modifies buf
    ensures buf[..at + |bytes|] == old(buf[..at]) + bytes
  {
    var i := 0;
    while i < |bytes|
      invariant i <= |bytes| && buf[..at + i] == old(buf[..at]) + bytes[..i]
    {
      buf[at + i] := bytes[i];
      i := i + 1;
    }
  }

  lemma {:induction false} StampedOK(g: Grp, d: Dmn)
    requires HeadOK(g) && DmnOK(d)
    ensures DmnOK(d.(memb := g.id.memb)) && |EncodeDmn(d.(memb := g.id.memb))| == DmnSize(d)
  {
    MembersRoundTrip(d.members, []);
  }

  lemma {:induction false} SentOK(g: Grp, ds: seq<Dmn>)
    requires GrpOK(g) && |ds| < 0x1_0000 && forall x :: 0 <= x < |ds| ==> DmnOK(ds[x])
    ensures GrpOK(AsSent(g, ds))
  {
    forall x | 0 <= x < |ds| ensures DmnOK(AsSent(g, ds).dmns[x]) { StampedOK(g, ds[x]); }
  }

  lemma {:induction false} DmnsMore(ds: seq<Dmn>, d: Dmn)
    requires DmnOK(d) && forall x :: 0 <= x < |ds| ==> DmnOK(ds[x])
    ensures EncodeDmns(ds + [d]) == EncodeDmns(ds) + EncodeDmn(d)
    decreases |ds|
  {
    hide DmnOK, EncodeDmn;
    if ds == [] {
      assert ds + [d] == [d] && [d][1..] == [];
      assert EncodeDmns([d]) == EncodeDmn(d) + EncodeDmns([]);
    } else {
      DmnsMore(ds[1..], d);
      assert (ds + [d])[1..] == ds[1..] + [d];
    }
  }

  // What the daemons from dit up to last come to.
  function DmnBytes(g: Grp, dit: nat, last: nat): seq<Byte>
    requires GrpOK(g) && dit <= last <= |g.dmns|
  {
    SentOK(g, g.dmns[dit..last]);
    EncodeDmns(AsSent(g, g.dmns[dit..last]).dmns)
  }

  // The daemons from `dit` on, as many as go in.
  method PutDaemons(buf: array<Byte>, g: Grp, dit: nat, at: nat) returns (n: nat, last: nat)
    requires GrpOK(g) && dit <= |g.dmns| && buf.Length == GROUPS_BUF_SIZE && at + MESSAGE_HEADER_SIZE <= GROUPS_BUF_SIZE
    modifies buf
    ensures dit <= last <= |g.dmns| && last - dit == Fitting(at, g.dmns[dit..])
    ensures n == at + Sizes(g.dmns[dit..last]) && n + MESSAGE_HEADER_SIZE <= GROUPS_BUF_SIZE
    ensures buf[..n] == old(buf[..at]) + DmnBytes(g, dit, last)
  {
    hide GrpOK, DmnOK, DmnBytes, Fitting, Sizes, EncodeDmn;
    n, last := at, dit;
    NoBytes(g, dit);
    while last < |g.dmns|
      invariant dit <= last <= |g.dmns|
      invariant n + MESSAGE_HEADER_SIZE <= GROUPS_BUF_SIZE && n == at + Sizes(g.dmns[dit..last])
      invariant Fitting(at, g.dmns[dit..]) == last - dit + Fitting(n, g.dmns[last..])
      invariant buf[..n] == old(buf[..at]) + DmnBytes(g, dit, last)
    {
      var d := g.dmns[last];
      FittingOne(g, last, n);
      if DAEMON_INFO_SIZE + |d.members| * MAX_GROUP_NAME + MESSAGE_HEADER_SIZE > GROUPS_BUF_SIZE - n { return; }
      OneMore(g, dit, last);
      var bytes := EncodeDmn(d.(memb := g.id.memb));
      Put(buf, n, bytes);
      n, last := n + |bytes|, last + 1;
    }
    NoneFit(g, n);
  }

  lemma {:induction false} NoBytes(g: Grp, dit: nat)
    requires GrpOK(g) && dit <= |g.dmns|
    ensures DmnBytes(g, dit, dit) == [] && Sizes(g.dmns[dit..dit]) == 0
  {
  }

  lemma {:induction false} NoneFit(g: Grp, n: int)
    ensures Fitting(n, g.dmns[|g.dmns|..]) == 0
  {
  }

  lemma {:induction false} FittingOne(g: Grp, last: nat, n: int)
    requires last < |g.dmns|
    ensures Fitting(n, g.dmns[last..]) == if DmnSize(g.dmns[last]) + MESSAGE_HEADER_SIZE > GROUPS_BUF_SIZE - n then 0
                                          else 1 + Fitting(n + DmnSize(g.dmns[last]), g.dmns[last + 1..])
  {
    assert g.dmns[last..][1..] == g.dmns[last + 1..];
  }

  lemma {:induction false} SizesMore(ds: seq<Dmn>, d: Dmn)
    ensures Sizes(ds + [d]) == Sizes(ds) + DmnSize(d)
    decreases |ds|
  {
    if ds == [] {
      assert ds + [d] == [d] && [d][1..] == [];
    } else {
      SizesMore(ds[1..], d);
      assert (ds + [d])[1..] == ds[1..] + [d];
    }
  }

  lemma {:induction false} OneMore(g: Grp, dit: nat, last: nat)
    requires GrpOK(g) && dit <= last < |g.dmns|
    ensures Sizes(g.dmns[dit..last + 1]) == Sizes(g.dmns[dit..last]) + DmnSize(g.dmns[last])
    ensures var d := g.dmns[last].(memb := g.id.memb);
            && DmnOK(d) && |EncodeDmn(d)| == DmnSize(g.dmns[last])
            && DmnBytes(g, dit, last + 1) == DmnBytes(g, dit, last) + EncodeDmn(d)
  {
    hide EncodeDmns, EncodeDmn, Sizes, DmnOK;
    StampedOK(g, g.dmns[last]);
    assert g.dmns[dit..last + 1] == g.dmns[dit..last] + [g.dmns[last]];
    SizesMore(g.dmns[dit..last], g.dmns[last]);
    SentOK(g, g.dmns[dit..last]);
    SentOK(g, g.dmns[dit..last + 1]);
    var a := AsSent(g, g.dmns[dit..last]).dmns;
    assert AsSent(g, g.dmns[dit..last + 1]).dmns == a + [g.dmns[last].(memb := g.id.memb)];
    DmnsMore(a, g.dmns[last].(memb := g.id.memb));
  }

  // --------------------------------------------------------------- one buffer

  // Filling in two bytes that were left open.
  method Patch(buf: array<Byte>, at: nat, x: nat, ghost n: nat)
    requires at + 2 <= n <= buf.Length && x < 0x1_0000
    modifies buf
    ensures buf[..n] == old(buf[..n])[..at] + Encode16(x) + old(buf[..n])[at + 2..]
  {
    var e := Encode16(x);
    buf[at], buf[at + 1] := e[0], e[1];
  }

  lemma {:induction false} Patched(pre: seq<Byte>, head: seq<Byte>, ds: seq<Byte>, e: seq<Byte>)
    requires |head| == 48
    ensures var was := pre + head + ds; was[..|pre| + 46] + e + was[|pre| + 48..] == pre + (head[..46] + e + ds)
  {
    var was := pre + head + ds;
    assert was[..|pre| + 46] == pre + head[..46] && was[|pre| + 48..] == ds;
  }

  lemma {:induction false} ChunkOK(g: Grp, dit: nat, last: nat)
    requires GrpOK(g) && dit <= last <= |g.dmns|
    ensures var c := AsSent(g, g.dmns[dit..last]);
            HeadOK(g) && GrpOK(c) && last - dit < 0x1_0000 && EncodeGrp(c) == EncodeHead(g, 0)[..46] + Encode16(last - dit) + DmnBytes(g, dit, last)
            && |EncodeHead(g, 0)| == GROUP_INFO_SIZE
  {
    hide EncodeDmns, DmnOK, Encode32, Encode16;
    SentOK(g, g.dmns[dit..last]);
    var c := AsSent(g, g.dmns[dit..last]);
    assert EncodeHead(g, last - dit) == EncodeHead(g, 0)[..46] + Encode16(last - dit);
  }

  // A group's head, then its daemons, then their number.
  method PutGroup(buf: array<Byte>, g: Grp, dit: nat, at: nat) returns (n: nat, last: nat)
    requires GrpOK(g) && dit <= |g.dmns| && buf.Length == GROUPS_BUF_SIZE
    requires at + GROUP_INFO_SIZE + MESSAGE_HEADER_SIZE <= GROUPS_BUF_SIZE
    modifies buf
    ensures dit <= last <= |g.dmns| && last - dit == Fitting(at + GROUP_INFO_SIZE, g.dmns[dit..])
    ensures n == at + GROUP_INFO_SIZE + Sizes(g.dmns[dit..last]) && n + MESSAGE_HEADER_SIZE <= GROUPS_BUF_SIZE
    ensures GrpOK(AsSent(g, g.dmns[dit..last])) && buf[..n] == old(buf[..at]) + EncodeGrp(AsSent(g, g.dmns[dit..last]))
  {
    hide GrpOK, DmnOK, DmnBytes, Fitting, Sizes, EncodeGrp, AsSent, Encode16;
    ChunkOK(g, dit, dit);
    var head := EncodeHead(g, 0);
    Put(buf, at, head);
    n, last := PutDaemons(buf, g, dit, at + GROUP_INFO_SIZE);
    ChunkOK(g, dit, last);
    Patched(old(buf[..at]), head, DmnBytes(g, dit, last), Encode16(last - dit));
    Patch(buf, at + 46, last - dit, n);
  }

  lemma {:induction false} CutStep(all: seq<Grp>, git: nat, dit: nat, n: int, k: nat)
    requires git < |all| && dit <= |all[git].dmns| && GROUP_INFO_SIZE + MESSAGE_HEADER_SIZE <= GROUPS_BUF_SIZE - n
    requires k == Fitting(n + GROUP_INFO_SIZE, all[git].dmns[dit..])
    ensures var c := AsSent(all[git], all[git].dmns[dit..dit + k]);
            var r := CutGroups(n + GROUP_INFO_SIZE + Sizes(all[git].dmns[dit..dit + k]), Left(all, git + 1, 0));
            CutGroups(n, Left(all, git, dit)) ==
              if dit + k < |all[git].dmns| then Cut([c], Left(all, git, dit + k)) else Cut([c] + r.chunks, r.rest)
  {
    hide Sizes, Fitting;
    var g := all[git];
    var l := Left(all, git, dit);
    assert l[0].dmns == g.dmns[dit..] && l[1..] == all[git + 1..];
    assert l[0].dmns[..k] == g.dmns[dit..dit + k] && l[0].dmns[k..] == g.dmns[dit + k..];
    if dit + k == |g.dmns| { assert g.dmns[dit..dit + k] == g.dmns[dit..]; }
    AllLeft(all, git + 1);
  }

  lemma {:induction false} AllLeft(all: seq<Grp>, git: nat)
    requires git <= |all|
    ensures Left(all, git, 0) == all[git..]
  {
    if git < |all| { assert all[git].(dmns := all[git].dmns[0..]) == all[git]; }
  }

  lemma {:induction false} GrpsMore(gs: seq<Grp>, g: Grp)
    requires GrpsOK(gs) && GrpOK(g)
    ensures GrpsOK(gs + [g]) && EncodeGrps(gs + [g]) == EncodeGrps(gs) + EncodeGrp(g)
    decreases |gs|
  {
    hide GrpOK, EncodeGrp;
    if gs == [] {
      assert gs + [g] == [g] && [g][1..] == [];
      assert EncodeGrps([g]) == EncodeGrp(g) + EncodeGrps([]);
    } else {
      GrpsMore(gs[1..], g);
      assert (gs + [g])[1..] == gs[1..] + [g];
    }
  }

  predicate SetFits(synced: seq<int>) {
    |synced| <= MAX_PROCS_RING && forall x :: 0 <= x < |synced| ==> Int32(synced[x])
  }

  lemma {:induction false} PreambleSize(reg: MembId, first: bool, synced: seq<int>)
    requires MembOK(reg) && SetFits(synced)
    ensures |Preamble(reg, first, synced)| == PREAMBLE_SIZE + if first then 4 + 4 * |synced| else 0
  {
    IdsSize(synced);
  }

  lemma {:induction false} IdsSize(ids: seq<int>)
    requires forall x :: 0 <= x < |ids| ==> Int32(ids[x])
    ensures |EncodeIds(ids)| == 4 * |ids|
    decreases |ids|
  {
    if ids != [] { IdsSize(ids[1..]); }
  }

  predicate Written(bytes: seq<Byte>, preamble: seq<Byte>, done: seq<Grp>) {
    GrpsOK(done) && bytes == preamble + EncodeGrps(done)
  }

  // The chunks written so far, and those still to be cut from `left`.
  predicate Cutting(whole: Cut, done: seq<Grp>, n: int, left: seq<Grp>) {
    whole == Cut(done + CutGroups(n, left).chunks, CutGroups(n, left).rest)
  }

  lemma {:induction false} WriteMore(bytes: seq<Byte>, preamble: seq<Byte>, done: seq<Grp>, c: Grp)
    requires Written(bytes, preamble, done) && GrpOK(c)
    ensures Written(bytes + EncodeGrp(c), preamble, done + [c])
  {
    hide GrpOK, EncodeGrp;
    GrpsMore(done, c);
  }

  lemma {:induction false} CutMore(whole: Cut, done: seq<Grp>, all: seq<Grp>, git: nat, dit: nat, n: int, k: nat)
    requires git < |all| && dit <= |all[git].dmns| && GROUP_INFO_SIZE + MESSAGE_HEADER_SIZE <= GROUPS_BUF_SIZE - n
    requires k == Fitting(n + GROUP_INFO_SIZE, all[git].dmns[dit..]) && Cutting(whole, done, n, Left(all, git, dit))
    ensures var c := AsSent(all[git], all[git].dmns[dit..dit + k]);
            if dit + k < |all[git].dmns| then whole == Cut(done + [c], Left(all, git, dit + k))
            else Cutting(whole, done + [c], n + GROUP_INFO_SIZE + Sizes(all[git].dmns[dit..dit + k]), Left(all, git + 1, 0))
  {
    hide CutGroups, Left, Fitting, Sizes, AsSent;
    CutStep(all, git, dit, n, k);
    Regroup(done, AsSent(all[git], all[git].dmns[dit..dit + k]),
            CutGroups(n + GROUP_INFO_SIZE + Sizes(all[git].dmns[dit..dit + k]), Left(all, git + 1, 0)).chunks);
  }

  lemma {:induction false} CutDone(whole: Cut, done: seq<Grp>, n: int, left: seq<Grp>)
    requires Cutting(whole, done, n, left) && (left == [] || GROUP_INFO_SIZE + MESSAGE_HEADER_SIZE > GROUPS_BUF_SIZE - n)
    ensures whole == Cut(done, left)
  {
    assert done + [] == done;
  }

  lemma {:induction false} WriteStart(whole: Cut, n: int, left: seq<Grp>, preamble: seq<Byte>)
    requires whole == CutGroups(n, left)
    ensures Cutting(whole, [], n, left) && Written(preamble, preamble, [])
  {
    assert [] + whole.chunks == whole.chunks && preamble + [] == preamble;
  }

  // G_build_groups_buf: what is in the buffer when it returns is the message of
  // the chunks that were cut off, and the iterators stand at what is left.
  method BuildGroupsBuf(buf: array<Byte>, all: seq<Grp>, git0: nat, dit0: nat, reg: MembId, first: bool, synced: seq<int>)
    returns (n: nat, git: nat, dit: nat)
    requires buf.Length == GROUPS_BUF_SIZE && GrpsOK(all) && MembOK(reg) && SetFits(synced)
    requires git0 <= |all| && (git0 < |all| ==> dit0 <= |all[git0].dmns|)
    requires first ==> git0 == 0 && dit0 == 0
    modifies buf
    ensures git <= |all| && (git < |all| ==> dit <= |all[git].dmns|)
    ensures n + MESSAGE_HEADER_SIZE <= GROUPS_BUF_SIZE
    ensures var c := CutGroups(|Preamble(reg, first, synced)|, Left(all, git0, dit0));
            && Written(buf[..n], Preamble(reg, first, synced), c.chunks)
            && Left(all, git, dit) == c.rest
  {
    hide GrpOK, MembOK, Preamble, CutGroups, EncodeGrp, AsSent, Left, Fitting, Sizes, Written, Cutting;
    PreambleSize(reg, first, synced);
    var preamble := Preamble(reg, first, synced);
    Put(buf, 0, preamble);
    assert buf[..|preamble|] == preamble;
    n, git, dit := |preamble|, git0, dit0;
    ghost var whole, done: seq<Grp> := CutGroups(n, Left(all, git, dit)), [];
    WriteStart(whole, n, Left(all, git, dit), preamble);
    while git < |all|
      invariant git <= |all| && (git < |all| ==> dit <= |all[git].dmns|)
      invariant n + MESSAGE_HEADER_SIZE <= GROUPS_BUF_SIZE
      invariant Written(buf[..n], preamble, done) && Cutting(whole, done, n, Left(all, git, dit))
      decreases |all| - git
    {
      if GROUP_INFO_SIZE + MESSAGE_HEADER_SIZE > GROUPS_BUF_SIZE - n {
        CutDone(whole, done, n, Left(all, git, dit));
        return;
      }
      ghost var at, from, was := n, dit, buf[..n];
      n, dit := PutGroup(buf, all[git], dit, n);
      ghost var c := AsSent(all[git], all[git].dmns[from..dit]);
      CutMore(whole, done, all, git, from, at, dit - from);
      WriteMore(was, preamble, done, c);
      done := done + [c];
      if dit < |all[git].dmns| { return; }
      git, dit := git + 1, 0;
    }
    NoneLeft(all, git, dit);
    CutDone(whole, done, n, Left(all, git, dit));
  }

  lemma {:induction false} NoneLeft(all: seq<Grp>, git: nat, dit: nat)
    requires git >= |all|
    ensures Left(all, git, dit) == []
  {
  }

  lemma {:induction false} Regroup(done: seq<Grp>, c: Grp, more: seq<Grp>)
    ensures (done + [c]) + more == done + ([c] + more)
  {
  }
}
