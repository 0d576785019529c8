// The ring records that the FORM1 token collects, as functions: what
// Create_form1 and Fill_form1 write into the token for one daemon.
module Form {
  import opened Types
  import opened RingArith
  import opened Protocol

  const MAX_FORM_REPS := 20
  const FORM_SEQ_GAP := 3333

  // ring_info, with the lists that follow it on the token.
  datatype RingInfo = RingInfo(memb: MembId, aru: int, highest: int, holes: seq<int>, trans: int, commit: seq<int>)

  // The numbers from s to e for which there is no entry.
  function Absent(pk: map<int, Slot>, s: int, e: int): seq<int>
    decreases e - s
  {
    if e < s then [] else (if s in pk then [] else [s]) + Absent(pk, s + 1, e)
  }

  function StillAbsent(pk: map<int, Slot>, holes: seq<int>): seq<int> {
    if holes == [] then []
    else StillAbsent(pk, holes[..|holes| - 1]) + (if holes[|holes| - 1] in pk then [] else [holes[|holes| - 1]])
  }

  // Insert_member.
  function InsertMember(s: seq<int>, m: int): seq<int> {
    if m in s || |s| == MAX_PROCS_RING then s else s + [m]
  }

  function InsertAll(s: seq<int>, ms: seq<int>): seq<int> {
    if ms == [] then s else InsertMember(InsertAll(s, ms[..|ms| - 1]), ms[|ms| - 1])
  }

  function Without(s: seq<int>, m: int): seq<int> {
    if s == [] then []
    else Without(s[..|s| - 1], m) + (if s[|s| - 1] == m then [] else [s[|s| - 1]])
  }

  // The record of a ring none of whose members the token has visited before.
  function NewRecord(d: Dstate, from: int): RingInfo {
    RingInfo(d.memb, d.aru, d.highest, Absent(d.pk, from, d.highest), 1, [d.me] + Without(d.commit.members, d.me))
  }

  function MergedCommit(d: Dstate, r: RingInfo): seq<int>
    requires 0 <= r.trans <= |r.commit|
  {
    var t := InsertMember(InsertAll([], r.commit[..r.trans]), d.me);
    InsertAll(InsertAll(t, r.commit[r.trans..]), d.commit.members)
  }

  // The record of a ring of which the token has visited members.
  function Merged(d: Dstate, r: RingInfo): RingInfo
    requires 0 <= r.trans <= |r.commit|
  {
    RingInfo(d.memb, Max(d.aru, r.aru), Max(d.highest, r.highest),
             StillAbsent(d.pk, r.holes) + Absent(d.pk, r.highest + 1, d.highest),
             r.trans + 1, MergedCommit(d, r))
  }

  // The exit for an incorrect transitional set.
  predicate TransFault(d: Dstate, r: RingInfo)
    requires 0 <= r.trans <= |r.commit|
  {
    |InsertMember(InsertAll([], r.commit[..r.trans]), d.me)| != r.trans + 1
  }

  function OtherRings(memb: MembId, rings: seq<RingInfo>): seq<RingInfo> {
    if rings == [] then []
    else
      var r := rings[|rings| - 1];
      OtherRings(memb, rings[..|rings| - 1]) + (if r.memb == memb then [] else [r])
  }

  datatype MaybeRing = NoRing | SomeRing(r: RingInfo)

  function RecordOf(memb: MembId, rings: seq<RingInfo>): MaybeRing {
    if rings == [] then NoRing
    else if rings[|rings| - 1].memb == memb then SomeRing(rings[|rings| - 1])
    else RecordOf(memb, rings[..|rings| - 1])
  }

  // What a hop does to the records; a daemon whose ring would be one too many
  // leaves them as they are and takes itself off the membership.
  datatype Filling = Filling(rings: seq<RingInfo>, included: bool, fault: bool)

  function FillRings(d: Dstate, rings: seq<RingInfo>): Filling {
    var others := OtherRings(d.memb, rings);
    match RecordOf(d.memb, rings)
    case NoRing =>
      if |others| + 1 > MAX_FORM_REPS then Filling(others, false, false)
      else Filling(others + [NewRecord(d, d.discarded + 1)], true, false)
    case SomeRing(r) =>
      if !(0 <= r.trans <= |r.commit|) || TransFault(d, r) then Filling(rings, true, true)
      else Filling(others + [Merged(d, r)], true, false)
  }

  // The records after the token was created by ds[0] and visited the others.
  function FoldRings(ds: seq<Dstate>): Filling
    requires ds != []
  {
    if |ds| == 1 then Filling([NewRecord(ds[0], ds[0].myAru + 1)], true, false)
    else
      var f := FoldRings(ds[..|ds| - 1]);
      if f.fault then f else FillRings(ds[|ds| - 1], f.rings)
  }
}
