// What the record of an old ring says when the FORM1 token has been round:
// the largest aru, the largest sequence number, exactly the packets that no
// visited member has, and the visited members themselves.
module FormRecords {
  import opened Types
  import opened RingArith
  import opened Protocol
  import opened Form

  // A daemon has number s of its ring: it freed it, or holds it.
  predicate HasNumber(d: Dstate, s: int) {
    s <= d.discarded || s in d.pk
  }

  // A member of an old ring that is not in EVS.
  ghost predicate OldMember(d: Dstate) {
    && 0 <= d.discarded == d.aru && d.discarded <= d.myAru <= d.highest
    && (forall s :: s in d.pk ==> d.discarded < s <= d.highest && !d.pk[s].Hole?)
    && (forall s :: d.discarded < s <= d.myAru ==> s in d.pk)
  }

  ghost predicate CommitsTo(d: Dstate, ids: set<int>) {
    d.me in ids && ToSet(d.commit.members) <= ids && Distinct(d.commit.members)
  }

  // Members of rings as the token meets them, whatever rings they come from.
  // Within a ring they are distinct, and stability holds between them.
  ghost predicate Visitable(ds: seq<Dstate>, ids: set<int>) {
    && |ids| <= MAX_PROCS_RING
    && (forall x :: 0 <= x < |ds| ==> OldMember(ds[x]) && CommitsTo(ds[x], ids))
    && (forall x, y :: 0 <= x < |ds| && 0 <= y < |ds| && ds[x].memb == ds[y].memb ==> ds[x].aru <= ds[y].myAru)
    && (forall x, y :: 0 <= x < y < |ds| && ds[x].memb == ds[y].memb ==> ds[x].me != ds[y].me)
  }

  // ------------------------------------------------------------ lists of numbers

  predicate Increasing(s: seq<int>) {
    forall x, y :: 0 <= x < y < |s| ==> s[x] < s[y]
  }

  lemma {:induction false} AbsentHolds(pk: map<int, Slot>, s: int, e: int)
    ensures Increasing(Absent(pk, s, e))
    ensures forall q :: q in Absent(pk, s, e) <==> s <= q <= e && q !in pk
    decreases e - s
  {
    if s <= e {
      AbsentHolds(pk, s + 1, e);
      var r := Absent(pk, s + 1, e);
      assert forall x :: 0 <= x < |r| ==> r[x] in r;
    }
  }

  lemma {:induction false} StillAbsentHolds(pk: map<int, Slot>, holes: seq<int>)
    requires Increasing(holes)
    ensures Increasing(StillAbsent(pk, holes))
    ensures forall q :: q in StillAbsent(pk, holes) <==> q in holes && q !in pk
  {
    if holes != [] {
      var less := holes[..|holes| - 1];
      StillAbsentHolds(pk, less);
      assert holes == less + [holes[|holes| - 1]];
      var r := StillAbsent(pk, less);
      forall x | 0 <= x < |r| ensures r[x] < holes[|holes| - 1] {
        assert r[x] in less;
      }
    }
  }

  lemma {:induction false} IncreasingConcat(a: seq<int>, b: seq<int>, m: int)
    requires Increasing(a) && Increasing(b)
    requires (forall q :: q in a ==> q <= m) && (forall q :: q in b ==> m < q)
    ensures Increasing(a + b)
  {
    forall x, y | 0 <= x < y < |a + b| ensures (a + b)[x] < (a + b)[y] {
      if x < |a| { assert a[x] in a; }
      if |a| <= y { assert b[y - |a|] in b; }
    }
  }

  // ------------------------------------------------------------- lists of members

  function ToSet(s: seq<int>): set<int> {
    set m | m in s
  }

  predicate Distinct(s: seq<int>) {
    forall x, y :: 0 <= x < y < |s| ==> s[x] != s[y]
  }

  lemma {:induction false} DistinctSize(s: seq<int>)
    requires Distinct(s)
    ensures |ToSet(s)| == |s|
  {
    if s != [] {
      var t := s[..|s| - 1];
      DistinctSize(t);
      assert ToSet(s) == ToSet(t) + {s[|s| - 1]};
    } else {
      assert ToSet(s) == {};
    }
  }

  // Within a universe of 128 ids nobody is turned away.
  lemma {:induction false} InsertHolds(s: seq<int>, m: int, ids: set<int>)
    requires Distinct(s) && ToSet(s) <= ids && m in ids && |ids| <= MAX_PROCS_RING
    ensures var r := InsertMember(s, m); Distinct(r) && ToSet(r) == ToSet(s) + {m} && s <= r && (m !in s ==> r == s + [m])
  {
    if m !in s {
      DistinctSize(s);
      assert ToSet(s) <= ids - {m};
      Smaller(ToSet(s), ids - {m});
    }
  }

  lemma {:induction false} Smaller(a: set<int>, b: set<int>)
    requires a <= b
    ensures |a| <= |b|
  {
    assert b * a == a && (b - a) + (b * a) == b;
  }

  lemma {:induction false} InsertAllHolds(s: seq<int>, ms: seq<int>, ids: set<int>)
    requires Distinct(s) && ToSet(s) <= ids && ToSet(ms) <= ids && |ids| <= MAX_PROCS_RING
    ensures var r := InsertAll(s, ms); Distinct(r) && ToSet(r) == ToSet(s) + ToSet(ms) && s <= r
  {
    if ms != [] {
      var less := ms[..|ms| - 1];
      assert ToSet(ms) == ToSet(less) + {ms[|ms| - 1]};
      InsertAllHolds(s, less, ids);
      InsertHolds(InsertAll(s, less), ms[|ms| - 1], ids);
    }
  }

  lemma {:induction false} InsertDistinct(ms: seq<int>, ids: set<int>)
    requires Distinct(ms) && ToSet(ms) <= ids && |ids| <= MAX_PROCS_RING
    ensures InsertAll([], ms) == ms
  {
    if ms != [] {
      var less := ms[..|ms| - 1];
      assert ToSet(less) <= ToSet(ms);
      InsertDistinct(less, ids);
      InsertHolds(less, ms[|ms| - 1], ids);
    }
  }

  lemma {:induction false} WithoutHolds(s: seq<int>, m: int)
    ensures forall q :: q in Without(s, m) <==> q in s && q != m
    ensures Distinct(s) ==> Distinct(Without(s, m))
  {
    if s != [] {
      var less := s[..|s| - 1];
      WithoutHolds(less, m);
      assert s == less + [s[|s| - 1]];
      if Distinct(s) { assert s[|s| - 1] !in less; }
      var r := Without(less, m);
      assert forall x :: 0 <= x < |r| ==> r[x] in r;
    }
  }

  // ------------------------------------------------------------------ the record

  predicate Ids(ms: seq<Dstate>, s: seq<int>) {
    |s| == |ms| && forall x :: 0 <= x < |ms| ==> s[x] == ms[x].me
  }

  // Nobody among ms has number s.
  predicate Missed(ms: seq<Dstate>, s: int) {
    forall x :: 0 <= x < |ms| ==> !HasNumber(ms[x], s)
  }

  // Record r after visits to the members ms of its ring.
  ghost predicate RecordOK(ms: seq<Dstate>, r: RingInfo, ids: set<int>) {
    && ms != [] && (forall x :: 0 <= x < |ms| ==> ms[x].memb == r.memb)
    && (forall x :: 0 <= x < |ms| ==> ms[x].aru <= r.aru && ms[x].highest <= r.highest)
    && (exists x :: 0 <= x < |ms| && ms[x].aru == r.aru)
    && (exists x :: 0 <= x < |ms| && ms[x].highest == r.highest)
    && Increasing(r.holes)
    && (forall s :: s in r.holes <==> 1 <= s <= r.highest && Missed(ms, s))
    && r.trans == |ms| <= |r.commit| && Ids(ms, r.commit[..r.trans])
    && Distinct(r.commit) && ToSet(r.commit) <= ids
    && (forall x, m :: 0 <= x < |ms| && m in ms[x].commit.members ==> m in r.commit)
  }

  lemma {:induction false} NewRecordOK(d: Dstate, from: int, ids: set<int>)
    requires Visitable([d], ids) && (from == d.discarded + 1 || from == d.myAru + 1)
    ensures RecordOK([d], NewRecord(d, from), ids)
  {
    assert [d][0] == d;
    var r := NewRecord(d, from);
    AbsentHolds(d.pk, from, d.highest);
    WithoutHolds(d.commit.members, d.me);
    assert r.commit[..1] == [d.me];
    var w := Without(d.commit.members, d.me);
    assert forall x :: 0 <= x < |w| ==> w[x] in w;
    forall s ensures s in r.holes <==> 1 <= s <= r.highest && Missed([d], s) {
      assert Missed([d], s) <==> !HasNumber(d, s);
    }
    forall m | m in ToSet(r.commit) ensures m in ids { assert m == d.me || m in ToSet(d.commit.members); }
    forall x, m | 0 <= x < |[d]| && m in [d][x].commit.members ensures m in r.commit { }
  }

  lemma {:induction false} MissedMore(ms: seq<Dstate>, d: Dstate, s: int)
    ensures Missed(ms + [d], s) <==> Missed(ms, s) && !HasNumber(d, s)
  {
    var t := ms + [d];
    assert t[|ms|] == d && forall x :: 0 <= x < |ms| ==> t[x] == ms[x];
  }

  lemma {:induction false} HolesJoin(pk: map<int, Slot>, holes: seq<int>, h: int, e: int)
    requires Increasing(holes) && forall q :: q in holes ==> q <= h
    ensures var r := StillAbsent(pk, holes) + Absent(pk, h + 1, e);
            Increasing(r) && forall q :: q in r <==> q !in pk && (q in holes || h < q <= e)
  {
    StillAbsentHolds(pk, holes);
    AbsentHolds(pk, h + 1, e);
    IncreasingConcat(StillAbsent(pk, holes), Absent(pk, h + 1, e), h);
  }

  lemma {:induction false} MergedHoles(ms: seq<Dstate>, d: Dstate, r: RingInfo, ids: set<int>)
    requires Visitable(ms + [d], ids) && RecordOK(ms, r, ids) && d.memb == r.memb
    ensures var h := Merged(d, r).holes;
            && Increasing(h)
            && forall s :: s in h <==> 1 <= s <= Max(d.highest, r.highest) && Missed(ms + [d], s)
  {
    hide OldMember, Visitable, InsertAll, InsertMember, Missed, StillAbsent, Absent, MergedCommit;
    HolesJoin(d.pk, r.holes, r.highest, d.highest);
    var h := Merged(d, r).holes;
    forall s ensures s in h <==> 1 <= s <= Max(d.highest, r.highest) && Missed(ms + [d], s) {
      MissedMore(ms, d, s);
      MissedAbove(ms, d, r, ids, s);
      if s in d.pk { assert HasNumber(d, s); }
    }
  }

  // What one visited member misses, every member has yet to free; and beyond
  // the record nobody visited has anything.
  lemma {:induction false} MissedAbove(ms: seq<Dstate>, d: Dstate, r: RingInfo, ids: set<int>, s: int)
    requires Visitable(ms + [d], ids) && RecordOK(ms, r, ids) && d.memb == r.memb
    ensures Missed(ms, s) ==> d.discarded < s
    ensures r.highest < s ==> Missed(ms, s)
    ensures 0 <= r.highest
  {
    var t := ms + [d];
    assert t[|ms|] == d && t[0] == ms[0] && forall x :: 0 <= x < |ms| ==> t[x] == ms[x];
    assert OldMember(t[0]) && OldMember(t[|ms|]) && t[|ms|].aru <= t[0].myAru;
    if Missed(ms, s) { assert !HasNumber(ms[0], s); }
    if r.highest < s {
      forall x | 0 <= x < |ms| ensures !HasNumber(ms[x], s) { assert OldMember(t[x]); }
    }
  }

  lemma {:induction false} Joined(trans: seq<int>, rest: seq<int>, me: int, mine: seq<int>, ids: set<int>)
    requires Distinct(trans) && me !in trans && me in ids && |ids| <= MAX_PROCS_RING
    requires ToSet(trans) <= ids && ToSet(rest) <= ids && ToSet(mine) <= ids
    ensures InsertMember(InsertAll([], trans), me) == trans + [me]
    ensures var c := InsertAll(InsertAll(trans + [me], rest), mine);
            && trans + [me] <= c && Distinct(c) && ToSet(c) == ToSet(trans) + {me} + ToSet(rest) + ToSet(mine)
  {
    hide InsertAll, InsertMember;
    InsertDistinct(trans, ids);
    InsertHolds(trans, me, ids);
    var a := trans + [me];
    InsertAllHolds(a, rest, ids);
    InsertAllHolds(InsertAll(a, rest), mine, ids);
  }

  lemma {:induction false} NotYetThere(ms: seq<Dstate>, d: Dstate, trans: seq<int>, ids: set<int>)
    requires Visitable(ms + [d], ids) && Ids(ms, trans) && forall x :: 0 <= x < |ms| ==> ms[x].memb == d.memb
    ensures d.me !in trans && CommitsTo(d, ids)
  {
    hide OldMember, CommitsTo;
    var t := ms + [d];
    assert t[|ms|] == d && forall x :: 0 <= x < |ms| ==> t[x] == ms[x];
    forall x | 0 <= x < |trans| ensures trans[x] != d.me {
      assert trans[x] == t[x].me && t[x].memb == t[|ms|].memb;
    }
  }

  lemma {:induction false} MergedCommitHolds(ms: seq<Dstate>, d: Dstate, r: RingInfo, ids: set<int>)
    requires Visitable(ms + [d], ids) && RecordOK(ms, r, ids) && d.memb == r.memb
    ensures !TransFault(d, r) && CommitsTo(d, ids)
    ensures var c := MergedCommit(d, r);
            && |ms| < |c| && c[..|ms| + 1] == r.commit[..r.trans] + [d.me]
            && Distinct(c) && ToSet(c) == ToSet(r.commit) + {d.me} + ToSet(d.commit.members)
  {
    hide OldMember, InsertAll, InsertMember, Missed;
    var trans, rest := r.commit[..r.trans], r.commit[r.trans..];
    NotYetThere(ms, d, trans, ids);
    hide Visitable;
    assert r.commit == trans + rest;
    assert ToSet(r.commit) == ToSet(trans) + ToSet(rest);
    Joined(trans, rest, d.me, d.commit.members, ids);
  }

  lemma {:induction false} MergedBounds(ms: seq<Dstate>, d: Dstate, r: RingInfo)
    requires (forall x :: 0 <= x < |ms| ==> ms[x].aru <= r.aru && ms[x].highest <= r.highest)
    requires (exists x :: 0 <= x < |ms| && ms[x].aru == r.aru) && (exists x :: 0 <= x < |ms| && ms[x].highest == r.highest)
    ensures var t, a, h := ms + [d], Max(d.aru, r.aru), Max(d.highest, r.highest);
            && (forall x :: 0 <= x < |t| ==> t[x].aru <= a && t[x].highest <= h)
            && (exists x :: 0 <= x < |t| && t[x].aru == a) && (exists x :: 0 <= x < |t| && t[x].highest == h)
  {
    var t := ms + [d];
    var x :| 0 <= x < |ms| && ms[x].aru == r.aru;
    assert t[if d.aru >= r.aru then |ms| else x].aru == Max(d.aru, r.aru);
    var y :| 0 <= y < |ms| && ms[y].highest == r.highest;
    assert t[if d.highest >= r.highest then |ms| else y].highest == Max(d.highest, r.highest);
  }

  lemma {:induction false} MergedOK(ms: seq<Dstate>, d: Dstate, r: RingInfo, ids: set<int>)
    requires Visitable(ms + [d], ids) && RecordOK(ms, r, ids) && d.memb == r.memb
    ensures !TransFault(d, r) && RecordOK(ms + [d], Merged(d, r), ids)
  {
    hide OldMember, Visitable, InsertAll, InsertMember, Missed, MergedCommit, StillAbsent, Absent;
    var t := ms + [d];
    assert t[|ms|] == d && forall x :: 0 <= x < |ms| ==> t[x] == ms[x];
    MergedHoles(ms, d, r, ids);
    MergedCommitHolds(ms, d, r, ids);
    MergedBounds(ms, d, r);
    var e := Merged(d, r);
    assert Ids(t, e.commit[..e.trans]);
    forall x, m | 0 <= x < |t| && m in t[x].commit.members ensures m in e.commit {
      assert m in ToSet(e.commit) by {
        if x < |ms| { assert m in r.commit; }
      }
    }
  }

  // --------------------------------------------------------- the whole journey

  // The daemons of ring `memb` among ds whose data are on the token.
  function Seen(ds: seq<Dstate>, memb: MembId): seq<Dstate> {
    if ds == [] then []
    else
      var d := ds[|ds| - 1];
      var less := Seen(ds[..|ds| - 1], memb);
      if d.memb == memb && (|ds| == 1 || FillRings(d, FoldRings(ds[..|ds| - 1]).rings).included) then less + [d] else less
  }

  lemma {:induction false} RecordAppend(rings: seq<RingInfo>, r: RingInfo, memb: MembId)
    ensures RecordOf(memb, rings + [r]) == if r.memb == memb then SomeRing(r) else RecordOf(memb, rings)
  {
    assert (rings + [r])[..|rings|] == rings;
  }

  lemma {:induction false} OthersKeep(memb: MembId, rings: seq<RingInfo>, other: MembId)
    ensures RecordOf(memb, OtherRings(memb, rings)) == NoRing
    ensures other != memb ==> RecordOf(other, OtherRings(memb, rings)) == RecordOf(other, rings)
  {
    if rings != [] {
      var less, r := rings[..|rings| - 1], rings[|rings| - 1];
      OthersKeep(memb, less, other);
      var o := OtherRings(memb, less);
      if r.memb == memb {
        assert OtherRings(memb, rings) == o + [] == o;
      } else {
        RecordAppend(o, r, memb);
        RecordAppend(o, r, other);
      }
    }
  }

  // What the token says about ring memb.
  ghost predicate Says(rings: seq<RingInfo>, memb: MembId, ms: seq<Dstate>, ids: set<int>) {
    match RecordOf(memb, rings)
    case NoRing => ms == []
    case SomeRing(r) => r.memb == memb && RecordOK(ms, r, ids)
  }

  // Each visited daemon of ring memb stands in ds.
  ghost predicate From(ms: seq<Dstate>, ds: seq<Dstate>, at: seq<int>, memb: MembId) {
    && |at| == |ms| && Increasing(at)
    && forall x :: 0 <= x < |at| ==> 0 <= at[x] < |ds| && ms[x] == ds[at[x]] && ms[x].memb == memb
  }

  lemma {:induction false} SeenFrom(ds: seq<Dstate>, memb: MembId) returns (at: seq<int>)
    ensures From(Seen(ds, memb), ds, at, memb)
  {
    hide FillRings, FoldRings;
    at := [];
    if ds != [] {
      var less := ds[..|ds| - 1];
      at := SeenFrom(less, memb);
      if |Seen(ds, memb)| > |Seen(less, memb)| { at := at + [|ds| - 1]; }
    }
  }

  lemma {:induction false} VisitablePart(ds: seq<Dstate>, ids: set<int>, t: seq<Dstate>, a: seq<int>)
    requires Visitable(ds, ids) && |a| == |t| && Increasing(a)
    requires forall x :: 0 <= x < |t| ==> 0 <= a[x] < |ds| && t[x] == ds[a[x]]
    ensures Visitable(t, ids)
  {
    hide OldMember, CommitsTo;
    forall x, y | 0 <= x < |t| && 0 <= y < |t| && t[x].memb == t[y].memb ensures t[x].aru <= t[y].myAru {
      assert ds[a[x]].aru <= ds[a[y]].myAru;
    }
    forall x, y | 0 <= x < y < |t| && t[x].memb == t[y].memb ensures t[x].me != t[y].me {
      assert ds[a[x]].me != ds[a[y]].me;
    }
  }

  lemma {:induction false} VisitableSeen(ds: seq<Dstate>, ids: set<int>, memb: MembId, d: Dstate)
    requires ds != [] && Visitable(ds, ids) && d == ds[|ds| - 1] && d.memb == memb
    ensures Visitable(Seen(ds[..|ds| - 1], memb) + [d], ids)
  {
    hide Visitable, Seen;
    var less := ds[..|ds| - 1];
    var at := SeenFrom(less, memb);
    var t, a := Seen(less, memb) + [d], at + [|ds| - 1];
    forall x | 0 <= x < |t| ensures 0 <= a[x] < |ds| && t[x] == ds[a[x]] { }
    VisitablePart(ds, ids, t, a);
  }

  lemma {:induction false} VisitablePrefix(ds: seq<Dstate>, ids: set<int>, k: nat)
    requires k <= |ds| && Visitable(ds, ids)
    ensures Visitable(ds[..k], ids)
  {
    hide OldMember, CommitsTo;
  }

  // One hop.
  lemma {:induction false} HopSays(ds: seq<Dstate>, ids: set<int>, memb: MembId)
    requires |ds| > 1 && Visitable(ds, ids)
    requires var f := FoldRings(ds[..|ds| - 1]);
             && !f.fault && Says(f.rings, memb, Seen(ds[..|ds| - 1], memb), ids)
             && Says(f.rings, ds[|ds| - 1].memb, Seen(ds[..|ds| - 1], ds[|ds| - 1].memb), ids)
    ensures var f := FoldRings(ds); !f.fault && Says(f.rings, memb, Seen(ds, memb), ids)
  {
    hide RecordOK, Visitable, Merged, TransFault, NewRecord, RecordOf, OtherRings;
    var less, d := ds[..|ds| - 1], ds[|ds| - 1];
    var rings := FoldRings(less).rings;
    var ms := Seen(less, d.memb);
    VisitableSeen(ds, ids, d.memb, d);
    OthersKeep(d.memb, rings, memb);
    match RecordOf(d.memb, rings)
    case NoRing =>
      assert [] + [d] == [d];
      NewRecordOK(d, d.discarded + 1, ids);
      RecordAppend(OtherRings(d.memb, rings), NewRecord(d, d.discarded + 1), memb);
      NewRecordMemb(d, d.discarded + 1);
    case SomeRing(r) =>
      RecordParts(ms, r, ids);
      MergedOK(ms, d, r, ids);
      RecordAppend(OtherRings(d.memb, rings), Merged(d, r), memb);
      MergedMemb(d, r);
  }

  lemma {:induction false} NewRecordMemb(d: Dstate, from: int)
    ensures NewRecord(d, from).memb == d.memb
  {
  }

  lemma {:induction false} MergedMemb(d: Dstate, r: RingInfo)
    requires 0 <= r.trans <= |r.commit|
    ensures Merged(d, r).memb == d.memb
  {
  }

  lemma {:induction false} RecordParts(ms: seq<Dstate>, r: RingInfo, ids: set<int>)
    requires RecordOK(ms, r, ids)
    ensures 0 <= r.trans <= |r.commit|
  {
  }

  // Whatever daemons of whatever rings the FORM1 token visits in whatever
  // order, what it says about a ring at the end is: the largest aru and the
  // largest sequence number of the visited members; as holes exactly the
  // numbers that none of them has; as transitional members exactly those
  // visited, at the head of a commit list that holds all they committed to.
  lemma {:induction false} HoleAgreement(ds: seq<Dstate>, ids: set<int>, memb: MembId)
    requires ds != [] && Visitable(ds, ids)
    ensures !FoldRings(ds).fault && Says(FoldRings(ds).rings, memb, Seen(ds, memb), ids)
    decreases |ds|
  {
    hide RecordOK, Visitable, NewRecord, FillRings;
    if |ds| == 1 {
      assert ds == [ds[0]];
      VisitableLast(ds, ids);
      NewRecordOK(ds[0], ds[0].myAru + 1, ids);
      NewRecordMemb(ds[0], ds[0].myAru + 1);
      var r := NewRecord(ds[0], ds[0].myAru + 1);
      assert Seen(ds[..0], memb) == [] && [] + [ds[0]] == [ds[0]];
      RecordAppend([], r, memb);
      assert [] + [r] == [r];
    } else {
      VisitablePrefix(ds, ids, |ds| - 1);
      HoleAgreement(ds[..|ds| - 1], ids, memb);
      HoleAgreement(ds[..|ds| - 1], ids, ds[|ds| - 1].memb);
      HopSays(ds, ids, memb);
    }
  }

  lemma {:induction false} VisitableLast(ds: seq<Dstate>, ids: set<int>)
    requires |ds| == 1 && Visitable(ds, ids)
    ensures Visitable([ds[0]], ids)
  {
    assert ds == [ds[0]];
  }
}
