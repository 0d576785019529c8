// The GROUPS messages of the state exchange, byte by byte: G_build_groups_buf and
// G_build_new_groups_bufs write them, G_mess_to_groups reads them.
module GroupCodec {
  import opened Types
  import opened Groups

  const GROUPS_BUF_SIZE := 100000
  const MAX_GROUP_NAME := 32
  const MESSAGE_HEADER_SIZE := 48
  const GROUP_INFO_SIZE := 48
  const DAEMON_INFO_SIZE := 14
  const PREAMBLE_SIZE := 9

  // A group as the lists have it: daemons in configuration order, members by
  // name.  On the wire the same shape holds what one buffer says of a group.
  datatype Dmn = Dmn(id: int, memb: MembId, members: seq<Name>)

  datatype Grp = Grp(name: Name, id: GroupId, changed: bool, dmns: seq<Dmn>)

  // ------------------------------------------------------------------- numbers

  predicate Int32(x: int) {
    -0x8000_0000 <= x < 0x8000_0000
  }

  function Encode32(x: int): (r: seq<Byte>)
    requires Int32(x)
    ensures |r| == 4
  {
    var u := if x < 0 then x + 0x1_0000_0000 else x;
    [u % 256, u / 0x100 % 256, u / 0x1_0000 % 256, u / 0x100_0000]
  }

  function Decode32(s: seq<Byte>): int
    requires |s| == 4
  {
    var u: int := s[0] as int + 0x100 * s[1] as int + 0x1_0000 * s[2] as int + 0x100_0000 * s[3] as int;
    if u < 0x8000_0000 then u else u - 0x1_0000_0000
  }

  function Encode16(x: nat): (r: seq<Byte>)
    requires x < 0x1_0000
    ensures |r| == 2
  {
    [x % 256, x / 256]
  }

  function Decode16(s: seq<Byte>): nat
    requires |s| == 2
  {
    s[0] as int + 256 * s[1] as int
  }

  lemma {:induction false} Number32(x: int)
    requires Int32(x)
    ensures Decode32(Encode32(x)) == x
  {
    var u := if x < 0 then x + 0x1_0000_0000 else x;
    var a, b, c := u / 0x100, u / 0x1_0000, u / 0x100_0000;
    assert u == 0x100 * a + u % 0x100 && a == 0x100 * b + a % 0x100 && b == 0x100 * c + b % 0x100;
  }

  // ------------------------------------------------------------------- writing

  predicate MembOK(m: MembId) {
    Int32(m.procId) && Int32(m.time)
  }

  predicate DmnOK(d: Dmn) {
    Int32(d.id) && MembOK(d.memb) && |d.members| < 0x1_0000 && forall x :: 0 <= x < |d.members| ==> |d.members[x]| == MAX_GROUP_NAME
  }

  predicate HeadOK(g: Grp) {
    |g.name| == MAX_GROUP_NAME && MembOK(g.id.memb) && Int32(g.id.index)
  }

  predicate GrpOK(g: Grp) {
    HeadOK(g) && |g.dmns| < 0x1_0000 && forall x :: 0 <= x < |g.dmns| ==> DmnOK(g.dmns[x])
  }

  predicate GrpsOK(gs: seq<Grp>) {
    forall x :: 0 <= x < |gs| ==> GrpOK(gs[x])
  }

  function Concat(ns: seq<Name>): seq<Byte> {
    if ns == [] then [] else ns[0] + Concat(ns[1..])
  }

  function EncodeMemb(m: MembId): seq<Byte>
    requires MembOK(m)
  {
    Encode32(m.procId) + Encode32(m.time)
  }

  function EncodeDmn(d: Dmn): seq<Byte>
    requires DmnOK(d)
  {
    Encode32(d.id) + EncodeMemb(d.memb) + Encode16(|d.members|) + Concat(d.members)
  }

  function EncodeDmns(ds: seq<Dmn>): seq<Byte>
    requires forall x :: 0 <= x < |ds| ==> DmnOK(ds[x])
  {
    if ds == [] then [] else EncodeDmn(ds[0]) + EncodeDmns(ds[1..])
  }

  function EncodeHead(g: Grp, num: nat): seq<Byte>
    requires HeadOK(g) && num < 0x1_0000
  {
    g.name + EncodeMemb(g.id.memb) + Encode32(g.id.index) + Encode16(if g.changed then 1 else 0) + Encode16(num)
  }

  function EncodeGrp(g: Grp): seq<Byte>
    requires GrpOK(g)
  {
    EncodeHead(g, |g.dmns|) + EncodeDmns(g.dmns)
  }

  function EncodeGrps(gs: seq<Grp>): seq<Byte>
    requires GrpsOK(gs)
  {
    if gs == [] then [] else EncodeGrp(gs[0]) + EncodeGrps(gs[1..])
  }

  // A message: the membership id, the flag, the synced set in the first one.
  function Preamble(reg: MembId, first: bool, synced: seq<int>): seq<Byte>
    requires MembOK(reg) && |synced| < 0x8000_0000 && forall x :: 0 <= x < |synced| ==> Int32(synced[x])
  {
    EncodeMemb(reg) + (if first then [1] + Encode32(|synced|) + EncodeIds(synced) else [0])
  }

  function EncodeIds(ids: seq<int>): seq<Byte>
    requires forall x :: 0 <= x < |ids| ==> Int32(ids[x])
  {
    if ids == [] then [] else Encode32(ids[0]) + EncodeIds(ids[1..])
  }

  // ------------------------------------------------------------------- reading

  datatype Parse<T> = Got(value: T, rest: seq<Byte>) | Short

  function Take(b: seq<Byte>, n: nat): Parse<seq<Byte>> {
    if |b| < n then Short else Got(b[..n], b[n..])
  }

  function ReadMembers(b: seq<Byte>, n: nat): Parse<seq<Name>> {
    if n == 0 then Got([], b)
    else
      match Take(b, MAX_GROUP_NAME)
      case Short => Short
      case Got(name, rest) =>
        match ReadMembers(rest, n - 1)
        case Short => Short
        case Got(names, more) => Got([name] + names, more)
  }

  function ReadDmn(b: seq<Byte>): Parse<Dmn> {
    if |b| < DAEMON_INFO_SIZE then Short
    else
      match ReadMembers(b[14..], Decode16(b[12..14]))
      case Short => Short
      case Got(names, rest) => Got(Dmn(Decode32(b[..4]), MembId(Decode32(b[4..8]), Decode32(b[8..12])), names), rest)
  }

  function ReadDmns(b: seq<Byte>, n: nat): Parse<seq<Dmn>>
    decreases n
  {
    if n == 0 then Got([], b)
    else
      match ReadDmn(b)
      case Short => Short
      case Got(d, rest) =>
        match ReadDmns(rest, n - 1)
        case Short => Short
        case Got(ds, more) => Got([d] + ds, more)
  }

  function ReadGrp(b: seq<Byte>): Parse<Grp> {
    if |b| < GROUP_INFO_SIZE then Short
    else
      match ReadDmns(b[48..], Decode16(b[46..48]))
      case Short => Short
      case Got(ds, rest) =>
        Got(Grp(b[..32], GroupId(MembId(Decode32(b[32..36]), Decode32(b[36..40])), Decode32(b[40..44])),
                Decode16(b[44..46]) != 0, ds), rest)
  }

  lemma {:induction false} ReadMembersShrinks(b: seq<Byte>, n: nat)
    ensures var r := ReadMembers(b, n); r.Got? ==> |r.rest| <= |b|
    decreases n
  {
    if n > 0 && MAX_GROUP_NAME <= |b| { ReadMembersShrinks(b[MAX_GROUP_NAME..], n - 1); }
  }

  lemma {:induction false} ReadDmnsShrinks(b: seq<Byte>, n: nat)
    ensures var r := ReadDmns(b, n); r.Got? ==> |r.rest| <= |b|
    decreases n
  {
    if n > 0 && DAEMON_INFO_SIZE <= |b| {
      ReadMembersShrinks(b[14..], Decode16(b[12..14]));
      if ReadDmn(b).Got? { ReadDmnsShrinks(ReadDmn(b).rest, n - 1); }
    }
  }

  // The groups to the end of the message.
  function ReadGrps(b: seq<Byte>): Parse<seq<Grp>>
    decreases |b|
  {
    if b == [] then Got([], [])
    else
      match ReadGrp(b)
      case Short => Short
      case Got(g, rest) =>
        ReadDmnsShrinks(b[48..], Decode16(b[46..48]));
        match ReadGrps(rest)
        case Short => Short
        case Got(gs, more) => Got([g] + gs, more)
  }

  function ReadIds(b: seq<Byte>, n: nat): Parse<seq<int>> {
    if n == 0 then Got([], b)
    else if |b| < 4 then Short
    else
      match ReadIds(b[4..], n - 1)
      case Short => Short
      case Got(ids, rest) => Got([Decode32(b[..4])] + ids, rest)
  }

  datatype Message = Message(first: bool, synced: seq<int>, groups: seq<Grp>)

  function ReadMessage(b: seq<Byte>): Parse<Message> {
    if |b| < PREAMBLE_SIZE then Short
    else if b[8] != 1 then
      match ReadGrps(b[9..])
      case Short => Short
      case Got(gs, rest) => Got(Message(false, [], gs), rest)
    else if |b| < 13 || Decode32(b[9..13]) < 0 then Short
    else
      match ReadIds(b[13..], Decode32(b[9..13]))
      case Short => Short
      case Got(ids, rest) =>
        match ReadGrps(rest)
        case Short => Short
        case Got(gs, more) => Got(Message(true, ids, gs), more)
  }

  // ---------------------------------------------------------------- round trips

  lemma {:induction false} MembersRoundTrip(ns: seq<Name>, more: seq<Byte>)
    requires forall x :: 0 <= x < |ns| ==> |ns[x]| == MAX_GROUP_NAME
    ensures ReadMembers(Concat(ns) + more, |ns|) == Got(ns, more)
    ensures |Concat(ns)| == MAX_GROUP_NAME * |ns|
    decreases |ns|
  {
    if ns == [] {
      assert Concat(ns) + more == more;
    } else {
      MembersRoundTrip(ns[1..], more);
      var b := Concat(ns) + more;
      assert b[..MAX_GROUP_NAME] == ns[0] && b[MAX_GROUP_NAME..] == Concat(ns[1..]) + more;
      assert [ns[0]] + ns[1..] == ns;
    }
  }

  lemma {:induction false} DmnRoundTrip(d: Dmn, more: seq<Byte>)
    requires DmnOK(d)
    ensures ReadDmn(EncodeDmn(d) + more) == Got(d, more)
    ensures |EncodeDmn(d)| == DAEMON_INFO_SIZE + MAX_GROUP_NAME * |d.members|
  {
    hide Encode32, Decode32, Encode16, Decode16, Concat, ReadMembers;
    MembersRoundTrip(d.members, more);
    Number32(d.id);
    Number32(d.memb.procId);
    Number32(d.memb.time);
    Number16(|d.members|);
    var b := EncodeDmn(d) + more;
    assert b[..4] == Encode32(d.id) && b[4..8] == Encode32(d.memb.procId) && b[8..12] == Encode32(d.memb.time);
    assert b[12..14] == Encode16(|d.members|) && b[14..] == Concat(d.members) + more;
  }

  lemma {:induction false} Number16(x: nat)
    requires x < 0x1_0000
    ensures Decode16(Encode16(x)) == x
  {
  }

  lemma {:induction false} DmnsRoundTrip(ds: seq<Dmn>, more: seq<Byte>)
    requires forall x :: 0 <= x < |ds| ==> DmnOK(ds[x])
    ensures ReadDmns(EncodeDmns(ds) + more, |ds|) == Got(ds, more)
    decreases |ds|
  {
    hide DmnOK, EncodeDmn, ReadDmn;
    if ds == [] {
      assert EncodeDmns(ds) + more == more;
    } else {
      DmnsRoundTrip(ds[1..], more);
      DmnRoundTrip(ds[0], EncodeDmns(ds[1..]) + more);
      assert EncodeDmns(ds) + more == EncodeDmn(ds[0]) + (EncodeDmns(ds[1..]) + more);
      assert [ds[0]] + ds[1..] == ds;
    }
  }

  lemma {:induction false} GrpRoundTrip(g: Grp, more: seq<Byte>)
    requires GrpOK(g)
    ensures ReadGrp(EncodeGrp(g) + more) == Got(g, more) && EncodeGrp(g) != []
  {
    hide Encode32, Decode32, Encode16, Decode16, EncodeDmns, ReadDmns, DmnOK;
    DmnsRoundTrip(g.dmns, more);
    Number32(g.id.memb.procId);
    Number32(g.id.memb.time);
    Number32(g.id.index);
    Number16(if g.changed then 1 else 0);
    Number16(|g.dmns|);
    var b := EncodeGrp(g) + more;
    assert b[..32] == g.name && b[32..36] == Encode32(g.id.memb.procId) && b[36..40] == Encode32(g.id.memb.time);
    assert b[40..44] == Encode32(g.id.index) && b[44..46] == Encode16(if g.changed then 1 else 0);
    assert b[46..48] == Encode16(|g.dmns|) && b[48..] == EncodeDmns(g.dmns) + more;
  }

  lemma {:induction false} GrpsRoundTrip(gs: seq<Grp>)
    requires GrpsOK(gs)
    ensures ReadGrps(EncodeGrps(gs)) == Got(gs, [])
    decreases |gs|
  {
    hide GrpOK, EncodeGrp, ReadGrp;
    if gs != [] {
      GrpsRoundTrip(gs[1..]);
      GrpRoundTrip(gs[0], EncodeGrps(gs[1..]));
      assert [gs[0]] + gs[1..] == gs;
    }
  }

  lemma {:induction false} IdsRoundTrip(ids: seq<int>, more: seq<Byte>)
    requires forall x :: 0 <= x < |ids| ==> Int32(ids[x])
    ensures ReadIds(EncodeIds(ids) + more, |ids|) == Got(ids, more)
    decreases |ids|
  {
    hide Encode32, Decode32;
    if ids == [] {
      assert EncodeIds(ids) + more == more;
    } else {
      IdsRoundTrip(ids[1..], more);
      Number32(ids[0]);
      var b := EncodeIds(ids) + more;
      assert b[..4] == Encode32(ids[0]) && b[4..] == EncodeIds(ids[1..]) + more;
      assert [ids[0]] + ids[1..] == ids;
    }
  }

  // A message is read back as it was written.
  lemma {:induction false} MessageRoundTrip(reg: MembId, first: bool, synced: seq<int>, gs: seq<Grp>)
    requires MembOK(reg) && |synced| < 0x8000_0000 && (forall x :: 0 <= x < |synced| ==> Int32(synced[x])) && GrpsOK(gs)
    ensures ReadMessage(Preamble(reg, first, synced) + EncodeGrps(gs)) == Got(Message(first, if first then synced else [], gs), [])
  {
    hide Encode32, Decode32, EncodeIds, ReadIds, EncodeGrps, ReadGrps;
    GrpsRoundTrip(gs);
    IdsRoundTrip(synced, EncodeGrps(gs));
    Number32(|synced|);
    var b := Preamble(reg, first, synced) + EncodeGrps(gs);
    if first {
      assert b[8] == 1 && b[9..13] == Encode32(|synced|) && b[13..] == EncodeIds(synced) + EncodeGrps(gs);
    } else {
      assert b[8] == 0 && b[9..] == EncodeGrps(gs);
    }
  }
}
