// membership.c as it is written, as far as the records of old rings go: the
// loops that collect holes and members for the FORM1 token, that act on the
// FORM2 token, and that back off from an attempt that failed.
module FormMethods {
  import opened Types
  import opened RingArith
  import opened PacketBuffer
  import opened DaemonClass
  import P = Protocol
  import F = Form
  import E = Evs
  import T = FormToken

  // members_info.
  class Members {
    const members: array<int>
    var numMembers: int

    ghost predicate Valid()
      reads this
    {
      members.Length == MAX_PROCS_RING && 0 <= numMembers <= members.Length
    }

    ghost function Contents(): seq<int>
      requires Valid()
      reads this, members
    {
      members[..numMembers]
    }

    constructor ()
      ensures Valid() && Contents() == [] && fresh(members)
    {
      members := new int[MAX_PROCS_RING];
      numMembers := 0;
    }

    // Insert_member.
    method Insert(id: int) returns (inserted: bool)
      requires Valid()
      modifies this, members
      ensures Valid() && Contents() == F.InsertMember(old(Contents()), id)
      ensures inserted <==> Contents() != old(Contents())
    {
      var i := 0;
      while i < numMembers
        invariant 0 <= i <= numMembers && id !in members[..i]
      {
        if members[i] == id { return false; }
        i := i + 1;
      }
      if numMembers == MAX_PROCS_RING { return false; }
      members[numMembers] := id;
      numMembers := numMembers + 1;
      return true;
    }

    method InsertEach(ids: seq<int>)
      requires Valid()
      modifies this, members
      ensures Valid() && Contents() == F.InsertAll(old(Contents()), ids)
    {
      var i := 0;
      while i < |ids|
        invariant 0 <= i <= |ids| && Valid() && Contents() == F.InsertAll(old(Contents()), ids[..i])
      {
        var inserted := Insert(ids[i]);
        i := i + 1;
        assert ids[..i][..i - 1] == ids[..i - 1];
      }
      assert ids[..i] == ids;
    }
  }

  // One round of Sort_members: the smallest of the first `left` goes, and the
  // last of them takes its place.
  method TakeSmallest(p: T.Places, temp: array<int>, left: int) returns (ok: bool, id: int)
    requires 0 < left <= temp.Length
    modifies temp
    ensures ok <==> T.KnownTo(p, old(temp[..left]))
    ensures ok ==> var s := old(temp[..left]); var i := T.Smallest(p, s, left);
                   id == s[i] && temp[..left - 1] == T.Taken(s, i)
  {
    var index;
    ok, index := SmallestMember(p, temp, left);
    if !ok { return ok, 0; }
    id := temp[index];
    temp[index] := temp[left - 1];
  }

  lemma {:induction false} SortOne(p: T.Places, s: seq<int>)
    requires s != [] && T.KnownTo(p, s)
    ensures var i := T.Smallest(p, s, |s|);
            T.KnownTo(p, T.Taken(s, i)) && T.SortMembers(p, s) == [s[i]] + T.SortMembers(p, T.Taken(s, i))
  {
  }

  // Sort_members.
  method SortMembers(p: T.Places, m: Members) returns (ok: bool)
    requires m.Valid()
    modifies m.members
    ensures ok <==> T.KnownTo(p, old(m.Contents()))
    ensures ok ==> m.Contents() == T.SortMembers(p, old(m.Contents()))
  {
    hide T.SortMembers, T.Taken, T.Smallest;
    ghost var all := m.Contents();
    var temp := new int[MAX_PROCS_RING];
    var i := 0;
    while i < m.numMembers
      invariant 0 <= i <= m.numMembers && temp[..i] == m.members[..i] && m.Contents() == all
    {
      temp[i] := m.members[i];
      i := i + 1;
    }
    ok := true;
    i := 0;
    while i < m.numMembers
      invariant 0 <= i <= m.numMembers
      invariant i == 0 ==> temp[..m.numMembers] == all
      invariant 0 < i ==> T.KnownTo(p, all)
      invariant T.KnownTo(p, all) ==>
                  T.KnownTo(p, temp[..m.numMembers - i])
                  && m.members[..i] + T.SortMembers(p, temp[..m.numMembers - i]) == T.SortMembers(p, all)
    {
      ghost var now, sofar := temp[..m.numMembers - i], m.members[..i];
      var id;
      ok, id := TakeSmallest(p, temp, m.numMembers - i);
      if !ok { return; }
      SortOne(p, now);
      m.members[i] := id;
      i := i + 1;
      assert m.members[..i] == sofar + [id];
      assert sofar + ([id] + T.SortMembers(p, temp[..m.numMembers - i])) == m.members[..i] + T.SortMembers(p, temp[..m.numMembers - i]);
    }
    SortNone(p, temp[..m.numMembers - i]);
  }

  lemma {:induction false} SortNone(p: T.Places, s: seq<int>)
    ensures s == [] ==> T.KnownTo(p, s) && T.SortMembers(p, s) == []
  {
  }

  // Smallest_member.
  method SmallestMember(p: T.Places, a: array<int>, num: int) returns (ok: bool, index: int)
    requires 0 < num <= a.Length
    ensures ok <==> T.KnownTo(p, a[..num])
    ensures ok ==> index == T.Smallest(p, a[..num], num)
  {
    index := 0;
    ok := a[0] in p;
    if !ok { return; }
    var i := 1;
    while i < num
      invariant 1 <= i <= num && T.KnownTo(p, a[..i]) && 0 <= index < i
      invariant index == T.Smallest(p, a[..i], i)
    {
      ok := a[i] in p;
      if !ok {
        assert a[..num][i] == a[i];
        return;
      }
      SmallestPrefix(p, a[..i + 1], i);
      assert a[..i + 1][..i] == a[..i];
      if T.Before(p[a[i]], p[a[index]]) { index := i; }
      i := i + 1;
    }
    ok := true;
  }

  lemma {:induction false} SmallestPrefix(p: T.Places, s: seq<int>, k: nat)
    requires 0 < k <= |s| && T.KnownTo(p, s)
    ensures T.Smallest(p, s, k) == T.Smallest(p, s[..k], k)
  {
    SmallestOf(p, s, s[..k], k);
  }

  lemma {:induction false} SmallestOf(p: T.Places, s: seq<int>, t: seq<int>, k: nat)
    requires 0 < k <= |t| <= |s| && T.KnownTo(p, s) && T.KnownTo(p, t) && t == s[..|t|]
    ensures T.Smallest(p, s, k) == T.Smallest(p, t, k)
  {
    if k > 1 { SmallestOf(p, s, t, k - 1); }
  }

  // The missing numbers from `from` up to `to`.
  method Holes(d: Daemon, from: int, to: int) returns (holes: seq<int>)
    requires d.Sound() && d.discarded < from && to <= d.highest
    ensures holes == F.Absent(d.Live(), from, to)
  {
    hide View;
    holes := [];
    var i := from;
    while i <= to
      invariant from <= i
      invariant holes + F.Absent(d.Live(), i, to) == F.Absent(d.Live(), from, to)
    {
      if d.At(i).Empty? { holes := holes + [i]; }
      i := i + 1;
    }
    assert holes == holes + F.Absent(d.Live(), i, to);
  }

  // Those of the recorded holes that this daemon misses, too.
  method StillMissing(d: Daemon, before: seq<int>) returns (holes: seq<int>)
    requires d.Sound() && forall x :: 0 <= x < |before| ==> d.InWindow(before[x])
    ensures holes == F.StillAbsent(d.Live(), before)
  {
    hide View;
    holes := [];
    var i := 0;
    while i < |before|
      invariant 0 <= i <= |before| && holes == F.StillAbsent(d.Live(), before[..i])
    {
      if d.At(before[i]).Empty? { holes := holes + [before[i]]; }
      i := i + 1;
      assert before[..i][..i - 1] == before[..i - 1];
    }
    assert before[..i] == before;
  }

  // The members of the commit set after this daemon itself.
  method Others(s: seq<int>, me: int) returns (r: seq<int>)
    ensures r == F.Without(s, me)
  {
    r := [];
    var i := 0;
    while i < |s|
      invariant 0 <= i <= |s| && r == F.Without(s[..i], me)
    {
      if s[i] != me { r := r + [s[i]]; }
      i := i + 1;
      assert s[..i][..i - 1] == s[..i - 1];
    }
    assert s[..i] == s;
  }

  // The record of a ring that is new to the token: Create_form1, and Fill_form1
  // where the token does not know the ring.
  method NewRecord(d: Daemon, from: int) returns (r: F.RingInfo)
    requires d.Sound() && d.discarded < from
    ensures r == F.NewRecord(d.State(), from)
  {
    hide View;
    var holes := Holes(d, from, d.highest);
    var others := Others(d.commit.members, d.me);
    r := F.RingInfo(d.memb, d.aru, d.highest, holes, 1, [d.me] + others);
  }

  // Fill_form1 where the token has a record of the ring.
  method MergeRecord(d: Daemon, r: F.RingInfo) returns (m: F.RingInfo, fault: bool)
    requires d.Sound() && 0 <= r.trans <= |r.commit|
    requires (forall x :: 0 <= x < |r.holes| ==> d.InWindow(r.holes[x])) && d.discarded <= r.highest
    ensures fault <==> F.TransFault(d.State(), r)
    ensures !fault ==> m == F.Merged(d.State(), r)
  {
    hide View, F.Absent, F.StillAbsent, F.InsertAll, F.InsertMember;
    var aru, highest := d.aru, d.highest;
    if r.aru > d.aru { aru := r.aru; }
    if r.highest > d.highest { highest := r.highest; }
    var holes := StillMissing(d, r.holes);
    var more := Holes(d, r.highest + 1, d.highest);
    var temp := new Members();
    temp.InsertEach(r.commit[..r.trans]);
    var inserted := temp.Insert(d.me);
    fault := temp.numMembers != r.trans + 1;
    temp.InsertEach(r.commit[r.trans..]);
    temp.InsertEach(d.commit.members);
    m := F.RingInfo(d.memb, aru, highest, holes + more, r.trans + 1, temp.members[..temp.numMembers]);
  }

  // What Fill_form1 asks of a record of its own ring on the token.
  ghost predicate Readable(d: Daemon, r: F.RingInfo)
    reads d
  {
    && 0 <= r.trans <= |r.commit| && d.discarded <= r.highest
    && forall x :: 0 <= x < |r.holes| ==> d.InWindow(r.holes[x])
  }

  // Fill_form1: copy the records of other rings, then add that of the own one.
  method FillRings(d: Daemon, rings: seq<F.RingInfo>) returns (f: F.Filling)
    requires d.Sound() && forall x :: 0 <= x < |rings| && rings[x].memb == d.memb ==> Readable(d, rings[x])
    ensures f == F.FillRings(d.State(), rings)
  {
    hide View, F.Merged, F.TransFault, F.NewRecord;
    var others: seq<F.RingInfo> := [];
    var mine := F.NoRing;
    var i := 0;
    while i < |rings|
      invariant 0 <= i <= |rings|
      invariant others == F.OtherRings(d.memb, rings[..i]) && mine == F.RecordOf(d.memb, rings[..i])
      invariant mine.SomeRing? ==> Readable(d, mine.r)
    {
      if rings[i].memb == d.memb {
        mine := F.SomeRing(rings[i]);
      } else {
        others := others + [rings[i]];
      }
      i := i + 1;
      assert rings[..i][..i - 1] == rings[..i - 1];
    }
    assert rings[..i] == rings;
    if mine.NoRing? {
      if |others| + 1 > F.MAX_FORM_REPS { return F.Filling(others, false, false); }
      var r := NewRecord(d, d.discarded + 1);
      return F.Filling(others + [r], true, false);
    }
    var m, fault := MergeRecord(d, mine.r);
    if fault { return F.Filling(rings, true, true); }
    return F.Filling(others + [m], true, false);
  }

  // ------------------------------------------------------------------- FORM2

  // Read_form2: the holes on record become dummy packets.
  method MarkHoles(d: Daemon, holes: seq<int>, future: set<int>)
    requires d.Sound() && forall x :: 0 <= x < |holes| ==> d.InWindow(holes[x])
    modifies d`fault, d.packets
    ensures var e := E.MarkHoles(old(d.State()), holes, future);
            if e.fault then d.fault else d.Sound() && d.State() == e
  {
    hide View, E.LateIsFine;
    ghost var first := d.State();
    var i := 0;
    while i < |holes|
      invariant 0 <= i <= |holes| && d.Sound()
      invariant d.State() == E.MarkHoles(first, holes[..i], future)
    {
      ghost var e := d.State();
      assert holes[..i + 1][..i] == holes[..i];
      var entry := d.At(holes[i]);
      FineIf(e, holes[i], future);
      if entry.Full? && (entry.slot.Hole? || entry.slot.p.memb != d.memb || entry.slot.p.seqNo != holes[i] || entry.slot.p.sender in future) {
        MarkFaultStays(first, holes, i + 1, |holes|, future);
        assert holes[..|holes|] == holes;
        d.fault := true;
        return;
      }
      d.Store(holes[i], Full(Hole));
      i := i + 1;
    }
    assert holes[..i] == holes;
  }

  lemma {:induction false} FineIf(d: Dstate, h: int, future: set<int>)
    ensures E.LateIsFine(d, h, future) <==>
            !(h in d.pk && (d.pk[h].Hole? || d.pk[h].p.memb != d.memb || d.pk[h].p.seqNo != h || d.pk[h].p.sender in future))
  {
  }

  lemma {:induction false} MarkFaultStays(d: Dstate, holes: seq<int>, x: nat, y: nat, future: set<int>)
    requires x <= y <= |holes| && E.MarkHoles(d, holes[..x], future).fault
    ensures E.MarkHoles(d, holes[..y], future).fault
    decreases y
  {
    if x < y {
      MarkFaultStays(d, holes, x, y - 1, future);
      assert holes[..y][..y - 1] == holes[..y - 1];
    }
  }

  // Read_form2: what the record and the token say.
  method Adopt(d: Daemon, r: F.RingInfo, t: E.Form2)
    requires d.packets.Length == MAX_PACKETS_IN_STRUCT
    modifies d`highest, d`aru, d`lastSeq, d`future, d`numRetrans, d`numSent
    ensures d.State() == old(d.State()).(highest := r.highest, aru := r.aru, lastSeq := t.seqNo, future := t.id,
                                         numRetrans := 0, numSent := 0)
  {
    hide View;
    d.future := t.id;
    d.numRetrans := 0;
    d.numSent := 0;
    d.highest := r.highest;
    d.aru := r.aru;
    d.lastSeq := t.seqNo;
  }

  // Read_form2: the rest, after the holes.
  method Arm(d: Daemon, r: F.RingInfo)
    requires d.packets.Length == MAX_PACKETS_IN_STRUCT
    modifies d`futureCommit, d`last, d`aru, d`evs
    ensures d.State() == old(d.State()).(futureCommit := CommitSet(r.commit, r.trans),
                                         last := old(d.last).(arq := 0, retrans := 0, seqNo := 0, aru := 0),
                                         aru := 0, evs := true)
  {
    hide View;
    d.futureCommit := CommitSet(r.commit, r.trans);
    d.last := d.last.(arq := 0, retrans := 0, seqNo := 0, aru := 0);
    d.aru := 0;
    d.evs := true;
  }

  // Read_form2, once the record of this daemon's ring is found.
  method Enter(d: Daemon, r: F.RingInfo, t: E.Form2)
    requires d.Valid() && CanEnter(d, r, t)
    modifies d, d.packets
    ensures d.Is(E.Enter(old(d.State()), r, t))
  {
    hide View, P.DiscardRegular, E.MarkHoles;
    Adopt(d, r, t);
    DiscardedTo(d.State());
    d.DiscardRegular();
    if d.fault { return; }
    MarkHoles(d, r.holes, t.members);
    if d.fault { return; }
    Arm(d, r);
  }

  // What Read_form2 takes for granted about the record of this daemon's ring.
  ghost predicate CanEnter(d: Daemon, r: F.RingInfo, t: E.Form2)
    reads d
  {
    && !d.evs && d.aru <= r.aru <= d.myAru && d.highest <= r.highest <= d.discarded + MAX_PACKETS_IN_STRUCT
    && r.highest < t.seqNo && forall x :: 0 <= x < |r.holes| ==> r.aru < r.holes[x] <= r.highest
  }

  // Read_form2: check all records and find the one of this daemon's ring.
  method ReadForm2(d: Daemon, t: E.Form2)
    requires d.Valid()
    requires forall x :: 0 <= x < |t.rings| && t.rings[x].memb == d.memb ==> CanEnter(d, t.rings[x], t)
    modifies d, d.packets
    ensures d.Is(E.ReadForm2(old(d.State()), t))
  {
    hide View, E.Enter;
    var mine := F.NoRing;
    var i := 0;
    while i < |t.rings|
      invariant 0 <= i <= |t.rings| && E.WellFormed(t.rings[..i]) && mine == F.RecordOf(d.memb, t.rings[..i])
      invariant mine.SomeRing? ==> CanEnter(d, mine.r, t)
    {
      var r := t.rings[i];
      if r.trans < 1 || r.trans > |r.commit| || |r.commit| > MAX_PROCS_RING || |r.holes| > MAX_SEQ_GAP { return; }
      if r.memb == d.memb { mine := F.SomeRing(r); }
      i := i + 1;
      assert t.rings[..i][..i - 1] == t.rings[..i - 1];
    }
    assert t.rings[..i] == t.rings;
    if mine.SomeRing? { Enter(d, mine.r, t); }
  }

  lemma {:induction false} DiscardedTo(e: Dstate)
    ensures var g := P.DiscardRegular(e);
            && g.highest == e.highest && g.lastSeq == e.lastSeq && g.myAru == e.myAru && g.aru == e.aru
            && (!g.fault ==> g.discarded == Max(e.discarded, e.aru))
  {
    hide P.DiscardLoop;
    LoopKeepsCounters(e, e.discarded + 1);
  }

  lemma {:induction false} LoopKeepsCounters(e: Dstate, i: int)
    ensures var g := P.DiscardLoop(e, i);
            g == e.(pk := g.pk, log := g.log, fault := g.fault)
    decreases e.aru - i
  {
    if i <= e.aru && i in e.pk && !e.pk[i].Hole? { LoopKeepsCounters(P.Release(e, i), i + 1); }
  }

  // ----------------------------------------------------------------- backing off

  lemma {:induction false} UnmarkOne(pk: map<int, Slot>, low: int, i: int)
    requires low < i
    ensures E.Unmarked(pk, low, i)
         == if i in pk && pk[i].Hole? then E.Unmarked(pk, low, i - 1) - {i} else E.Unmarked(pk, low, i - 1)
  {
  }

  // The first loop of Backoff_membership.
  method ClearHoles(d: Daemon)
    requires d.Sound()
    modifies d.packets
    ensures d.Live() == E.Unmarked(old(d.Live()), d.discarded, d.highest)
  {
    hide View, E.Unmarked;
    ghost var pk := d.Live();
    var i := d.discarded + 1;
    NoneUnmarked(pk, d.discarded);
    while i <= d.highest
      invariant d.discarded < i <= d.highest + 1
      invariant d.Live() == E.Unmarked(pk, d.discarded, i - 1)
    {
      UnmarkOne(pk, d.discarded, i);
      UnmarkedAt(pk, d.discarded, i);
      var entry := d.At(i);
      if entry.Full? && entry.slot.Hole? { d.Store(i, Empty); }
      i := i + 1;
    }
  }

  lemma {:induction false} NoneUnmarked(pk: map<int, Slot>, low: int)
    ensures E.Unmarked(pk, low, low) == pk
  {
  }

  lemma {:induction false} UnmarkedAt(pk: map<int, Slot>, low: int, i: int)
    ensures var u := E.Unmarked(pk, low, i - 1); (i in u <==> i in pk) && (i in u ==> u[i] == pk[i])
  {
  }

  // Backoff_membership.
  method Backoff(d: Daemon)
    requires d.Sound() && d.last.seqNo <= d.highest
    modifies d`aru, d`myAru, d`evs, d.packets
    ensures d.Is(E.Backoff(old(d.State())))
  {
    hide View, P.Advance, E.Unmarked;
    ClearHoles(d);
    d.aru := d.discarded;
    d.myAru := d.discarded;
    d.evs := false;
    d.AdvanceMyAru();
  }
}
