// The journey of the FORM1 token: whom it visits, that it comes to an end, and
// the member list it turns into.
module FormToken {
  import opened Types
  import opened RingArith
  import opened Protocol
  import opened Form
  import opened FormRecords

  datatype State = Op | Seg | Represented | Gather | Forming | InEvs

  datatype RepKind = PotentialRep | SegRep | RingRep

  datatype Rep = Rep(proc: int, kind: RepKind, seg: int)

  // members_info, reps_info and the records: the first `num` members were
  // visited, the others are pending.
  datatype Token1 = Token1(seqNo: int, members: seq<int>, num: int, reps: seq<Rep>, repIndex: int, rings: seq<RingInfo>) {
    function Pending(): int {
      |members| - num
    }
  }

  // What a daemon brings along when the token meets it.  On the token daemons go
  // by their ids; the numbers they have within their rings are in `d`.
  datatype Daemon1 = Daemon1(id: int, state: State, alive: bool, leads: bool, fMembers: seq<int>, fReps: seq<int>,
                             membership: seq<int>, d: Dstate)

  datatype Hop = Swallowed | Exits | Stale | Passed(t: Token1, to: int) | Form2Ready(t: Token1)

  function RepIds(reps: seq<Rep>): seq<int> {
    seq(|reps|, x requires 0 <= x < |reps| => reps[x].proc)
  }

  // The members a representative brings that are not there already and do not
  // come as representatives themselves.
  function ValidMembers(me: int, mine: seq<int>, visited: seq<int>, reps: seq<int>, fReps: seq<int>): seq<int> {
    if mine == [] then []
    else
      var m := mine[|mine| - 1];
      ValidMembers(me, mine[..|mine| - 1], visited, reps, fReps)
      + (if m in visited || (m != me && (m in reps || m in fReps)) then [] else [m])
  }

  // Lines 1604-1717: is the token meant for this daemon, and whom does it add?
  function Visit(v: Daemon1, t: Token1): Hop {
    var me := v.id;
    match v.state
    case Op =>
      if v.leads || t.num < 0 || t.Pending() <= 0 || t.members[t.num] != me then Swallowed
      else Passed(t.(num := t.num + 1), me)
    case Represented =>
      if t.num < 0 || t.Pending() <= 0 || t.members[t.num] != me then Swallowed
      else Passed(t.(num := t.num + 1), me)
    case Gather =>
      if !(0 <= t.repIndex < |t.reps|) || t.reps[t.repIndex].proc != me || t.Pending() != 0 then Swallowed
      else
        var kind := t.reps[t.repIndex].kind;
        if (v.alive && kind == SegRep) || (!v.alive && kind == RingRep) then Swallowed
        else if kind == PotentialRep then Exits
        else
          var more := if kind == SegRep then ValidMembers(me, v.fMembers, t.members, RepIds(t.reps), v.fReps) else v.membership;
          Passed(t.(members := t.members + more, num := t.num + 1, repIndex := t.repIndex + 1), me)
    case Seg => Swallowed
    case Forming => Swallowed
    case InEvs => Swallowed
  }

  function RemoveFirst(s: seq<int>, m: int): seq<int> {
    if s == [] then [] else if s[0] == m then s[1..] else [s[0]] + RemoveFirst(s[1..], m)
  }

  // A daemon whose record does not fit takes itself off the list.
  function TakeOff(t: Token1, me: int): Token1
    requires 0 <= t.num <= |t.members|
  {
    var visited, pending := t.members[..t.num], t.members[t.num..];
    if me in visited then t.(members := RemoveFirst(visited, me) + pending, num := t.num - 1)
    else t.(members := t.members[..|t.members| - (if |t.members| > 0 then 1 else 0)], num := t.num - 1)
  }

  // ------------------------------------------------------------- the member list

  datatype Place = Place(seg: int, index: int)

  // Where Conf_proc_by_id finds each daemon.
  type Places = map<int, Place>

  predicate Before(a: Place, b: Place) {
    a.seg < b.seg || (a.seg == b.seg && a.index < b.index)
  }

  predicate KnownTo(p: Places, s: seq<int>) {
    forall x :: 0 <= x < |s| ==> s[x] in p
  }

  // Smallest_member among the first k.
  function Smallest(p: Places, s: seq<int>, k: nat): (i: int)
    requires 0 < k <= |s| && KnownTo(p, s)
    ensures 0 <= i < k
  {
    if k == 1 then 0
    else
      var i := Smallest(p, s, k - 1);
      if Before(p[s[k - 1]], p[s[i]]) then k - 1 else i
  }

  // The last one takes the place of the one taken.
  function Taken(s: seq<int>, i: int): seq<int>
    requires 0 <= i < |s|
  {
    s[i := s[|s| - 1]][..|s| - 1]
  }

  // Sort_members.
  function SortMembers(p: Places, s: seq<int>): seq<int>
    requires KnownTo(p, s)
    decreases |s|
  {
    if s == [] then [] else var i := Smallest(p, s, |s|); [s[i]] + SortMembers(p, Taken(s, i))
  }

  predicate SortedBy(p: Places, s: seq<int>) {
    KnownTo(p, s) && forall x, y :: 0 <= x < y < |s| ==> !Before(p[s[y]], p[s[x]])
  }

  lemma {:induction false} SmallestIs(p: Places, s: seq<int>, k: nat)
    requires 0 < k <= |s| && KnownTo(p, s)
    ensures var i := Smallest(p, s, k); forall x :: 0 <= x < k ==> !Before(p[s[x]], p[s[i]])
  {
    if k > 1 { SmallestIs(p, s, k - 1); }
  }

  lemma {:induction false} TakenRest(s: seq<int>, i: int)
    requires 0 <= i < |s|
    ensures multiset(Taken(s, i)) + multiset{s[i]} == multiset(s)
    ensures forall x :: 0 <= x < |Taken(s, i)| ==> Taken(s, i)[x] in s
  {
    var u := s[i := s[|s| - 1]];
    assert u == Taken(s, i) + [s[|s| - 1]] by { assert u[|s| - 1] == s[|s| - 1]; }
    assert multiset(u) == multiset(s) - multiset{s[i]} + multiset{s[|s| - 1]};
    assert multiset(u) == multiset(Taken(s, i)) + multiset{s[|s| - 1]};
  }

  lemma {:induction false} InPermutation(a: seq<int>, b: seq<int>)
    requires multiset(a) == multiset(b)
    ensures |a| == |b| && forall x :: 0 <= x < |a| ==> a[x] in b
  {
    assert |multiset(a)| == |a| && |multiset(b)| == |b|;
    forall x | 0 <= x < |a| ensures a[x] in b {
      assert a[x] in multiset(a);
      assert a[x] in multiset(b);
    }
  }

  lemma {:induction false} SortedCons(p: Places, m: int, rest: seq<int>)
    requires SortedBy(p, rest) && m in p && forall x :: 0 <= x < |rest| ==> !Before(p[rest[x]], p[m])
    ensures SortedBy(p, [m] + rest)
  {
  }

  // Sort_members leaves the same members in configuration order.
  lemma {:induction false} SortMembersSorts(p: Places, s: seq<int>)
    requires KnownTo(p, s)
    ensures var r := SortMembers(p, s); multiset(r) == multiset(s) && SortedBy(p, r) && |r| == |s|
    decreases |s|
  {
    hide Before, Taken;
    if s != [] {
      var i := Smallest(p, s, |s|);
      SmallestIs(p, s, |s|);
      TakenRest(s, i);
      var t := Taken(s, i);
      TakenShorter(s, i);
      SortMembersSorts(p, t);
      var rest := SortMembers(p, t);
      InPermutation(rest, t);
      assert multiset([s[i]] + rest) == multiset{s[i]} + multiset(rest);
      SortedCons(p, s[i], rest);
    }
  }

  lemma {:induction false} TakenShorter(s: seq<int>, i: int)
    requires 0 <= i < |s|
    ensures |Taken(s, i)| == |s| - 1
  {
  }

  // ---------------------------------------------------------------------- a hop

  // Fill_form1 on a daemon, and where the token goes from there.
  function Route(p: Places, t: Token1): Hop {
    if t.num < 0 || t.Pending() < 0 then Stale
    else if t.Pending() > 0 then Passed(t, t.members[t.num])
    else if 0 <= t.repIndex < |t.reps| then Passed(t, t.reps[t.repIndex].proc)
    else if !KnownTo(p, t.members) then Exits
    else Form2Ready(t.(members := SortMembers(p, t.members), num := 0))
  }

  function FillForm1(p: Places, v: Daemon1, t: Token1): Hop {
    match Visit(v, t)
    case Passed(u, _) =>
      var f := FillRings(v.d, t.rings);
      if f.fault then Exits
      else
        var w := u.(seqNo := Max(t.seqNo, v.d.highest + FORM_SEQ_GAP), rings := f.rings);
        if f.included then Route(p, w)
        else if 0 <= w.num <= |w.members| then Route(p, TakeOff(w, v.id))
        else Stale
    case other => other
  }

  // What the token still has before it: representatives, then pending members.
  function RepsLeft(t: Token1): int {
    |t.reps| - t.repIndex
  }

  predicate OnTheWay(t: Token1) {
    0 <= t.num <= |t.members| && 0 <= t.repIndex <= |t.reps|
  }

  lemma {:induction false} RemoveFirstLength(s: seq<int>, m: int)
    ensures |RemoveFirst(s, m)| == if m in s then |s| - 1 else |s|
  {
    if s != [] && s[0] != m { RemoveFirstLength(s[1..], m); }
  }

  lemma {:induction false} TakeOffPending(t: Token1, me: int)
    requires 0 <= t.num <= |t.members|
    ensures var u := TakeOff(t, me);
            && u == t.(members := u.members, num := t.num - 1)
            && u.Pending() <= t.Pending() + (if t.members == [] then 1 else 0)
  {
    RemoveFirstLength(t.members[..t.num], me);
  }

  // Each accepted hop brings the token nearer to FORM2: fewer representatives
  // are left, or as many and fewer pending members.
  lemma {:induction false} FormProgress(p: Places, v: Daemon1, t: Token1)
    requires FillForm1(p, v, t).Passed? && OnTheWay(t)
    ensures var u := FillForm1(p, v, t).t;
            && u.reps == t.reps && OnTheWay(u) && u.rings == FillRings(v.d, t.rings).rings && !FillRings(v.d, t.rings).fault
            && (RepsLeft(u) < RepsLeft(t) || (RepsLeft(u) == RepsLeft(t) && 0 <= u.Pending() < t.Pending()))
            && t.seqNo <= u.seqNo && v.d.highest + FORM_SEQ_GAP <= u.seqNo
  {
    hide FillRings, ValidMembers, SortMembers, RepIds, TakeOff;
    var u := Visit(v, t).t;
    var f := FillRings(v.d, t.rings);
    var w := u.(seqNo := Max(t.seqNo, v.d.highest + FORM_SEQ_GAP), rings := f.rings);
    if !f.included { TakeOffPending(w, v.id); }
  }

  // The token as an accepted hop leaves it, before it is sent on.
  function Filled1(v: Daemon1, t: Token1): Token1
    requires Visit(v, t).Passed?
  {
    var f := FillRings(v.d, t.rings);
    var w := Visit(v, t).t.(seqNo := Max(t.seqNo, v.d.highest + FORM_SEQ_GAP), rings := f.rings);
    if !f.included && 0 <= w.num <= |w.members| then TakeOff(w, v.id) else w
  }

  // When it is done, the member list is the same in configuration order, whether
  // or not the last daemon took itself off it, and all are pending again.
  lemma {:induction false} FormMembers(p: Places, v: Daemon1, t: Token1)
    requires FillForm1(p, v, t).Form2Ready?
    ensures var u := FillForm1(p, v, t).t;
            && Visit(v, t).Passed? && !FillRings(v.d, t.rings).fault
            && var w := Filled1(v, t);
               multiset(u.members) == multiset(w.members) && SortedBy(p, u.members)
               && u == w.(members := u.members, num := 0) && w.num == |w.members|
  {
    hide FillRings, SortMembers, TakeOff, ValidMembers;
    SortMembersSorts(p, Filled1(v, t).members);
  }

  // A chain of accepted hops.
  ghost predicate Journey(p: Places, vs: seq<Daemon1>, ts: seq<Token1>) {
    && |ts| == |vs| + 1 && OnTheWay(ts[0])
    && forall k :: 0 <= k < |vs| ==> FillForm1(p, vs[k], ts[k]).Passed? && FillForm1(p, vs[k], ts[k]).t == ts[k + 1]
  }

  lemma {:induction false} JourneyPrefix(p: Places, vs: seq<Daemon1>, ts: seq<Token1>)
    requires Journey(p, vs, ts) && vs != []
    ensures Journey(p, vs[..|vs| - 1], ts[..|ts| - 1])
  {
  }

  lemma {:induction false} JourneyStays(p: Places, vs: seq<Daemon1>, ts: seq<Token1>)
    requires Journey(p, vs, ts)
    ensures OnTheWay(ts[|vs|])
  {
    hide FillForm1;
    if vs != [] {
      JourneyPrefix(p, vs, ts);
      JourneyStays(p, vs[..|vs| - 1], ts[..|ts| - 1]);
      FormProgress(p, vs[|vs| - 1], ts[|vs| - 1]);
    }
  }

  // How many hops a token may still make when its list holds at most cap members.
  function HopsLeft(t: Token1, cap: nat): int {
    RepsLeft(t) * (cap + 1) + t.Pending()
  }

  lemma {:induction false} HopsDown(t: Token1, u: Token1, cap: nat)
    requires OnTheWay(t) && OnTheWay(u) && |u.members| <= cap
    requires RepsLeft(u) < RepsLeft(t) || (RepsLeft(u) == RepsLeft(t) && u.Pending() < t.Pending())
    ensures 0 <= HopsLeft(u, cap) < HopsLeft(t, cap)
  {
    SomeHops(u, cap);
    if RepsLeft(u) < RepsLeft(t) { OneLess(RepsLeft(u), RepsLeft(t), cap + 1); }
  }

  lemma {:induction false} OneLess(a: int, b: int, n: nat)
    requires a < b
    ensures a * n + n <= b * n
  {
    MulMono(n, a + 1, b);
    assert (a + 1) * n == a * n + n;
  }

  lemma {:induction false} SomeHops(t: Token1, cap: nat)
    requires OnTheWay(t)
    ensures 0 <= HopsLeft(t, cap)
  {
    MulMono(cap + 1, 0, RepsLeft(t));
  }

  // As long as the member list stays within its capacity, the journey is over
  // after so many hops.
  lemma {:induction false} JourneyEnds(p: Places, vs: seq<Daemon1>, ts: seq<Token1>, cap: nat)
    requires Journey(p, vs, ts) && forall k :: 0 <= k < |ts| ==> |ts[k].members| <= cap
    ensures 0 <= |vs| + HopsLeft(ts[|vs|], cap) <= HopsLeft(ts[0], cap) && |vs| <= HopsLeft(ts[0], cap)
  {
    hide FillForm1, HopsLeft;
    if vs == [] {
      SomeHops(ts[0], cap);
    } else {
      var k := |vs| - 1;
      JourneyPrefix(p, vs, ts);
      JourneyEnds(p, vs[..k], ts[..|vs|], cap);
      JourneyStays(p, vs[..k], ts[..|vs|]);
      FormProgress(p, vs[k], ts[k]);
      HopsDown(ts[k], ts[k + 1], cap);
    }
  }

  function States(vs: seq<Daemon1>): seq<Dstate> {
    seq(|vs|, x requires 0 <= x < |vs| => vs[x].d)
  }

  // The records on the token are those of the daemons it visited, so what
  // HoleAgreement says of them holds for the journey.
  lemma {:induction false} JourneyRecords(p: Places, vs: seq<Daemon1>, ts: seq<Token1>, creator: Dstate)
    requires Journey(p, vs, ts) && ts[0].rings == [NewRecord(creator, creator.myAru + 1)]
    ensures !FoldRings([creator] + States(vs)).fault && ts[|vs|].rings == FoldRings([creator] + States(vs)).rings
  {
    hide FillForm1, FillRings, NewRecord;
    var ds := [creator] + States(vs);
    if vs != [] {
      var k := |vs| - 1;
      JourneyPrefix(p, vs, ts);
      JourneyRecords(p, vs[..k], ts[..|vs|], creator);
      JourneyStays(p, vs[..k], ts[..|vs|]);
      FormProgress(p, vs[k], ts[k]);
      assert ds[..|ds| - 1] == [creator] + States(vs[..k]);
      assert ds[|ds| - 1] == vs[k].d;
    }
  }

  // ----------------------------------------------------- who is on the member list

  // A representative's list starts with itself: that of a ring representative is
  // its ring, which it leads, that of another one the daemons it represents.
  predicate SelfFirst(v: Daemon1) {
    var s := if v.alive then v.membership else v.fMembers;
    v.state == Gather ==> s != [] && s[0] == v.id
  }

  // The ids of the daemons visited whose records are on the token.
  function Listed(ds: seq<Daemon1>): seq<int>
    decreases |ds|
  {
    if ds == [] then []
    else
      var less, v := ds[..|ds| - 1], ds[|ds| - 1];
      if less == [] || FillRings(v.d, FoldRings(States(less)).rings).included then Listed(less) + [v.id] else Listed(less)
  }

  // No daemon accepts the token twice: it forms a membership from then on.
  predicate Once(ds: seq<Daemon1>) {
    forall x, y :: 0 <= x < y < |ds| ==> ds[x].id != ds[y].id
  }

  // The token Create_form1 makes.
  predicate CreatedBy(c: Daemon1, t: Token1) {
    && OnTheWay(t) && t.num == 1 && t.members[0] == c.id
    && t.rings == [NewRecord(c.d, c.d.myAru + 1)] && t.seqNo == c.d.highest + FORM_SEQ_GAP
  }

  lemma {:induction false} ListedIn(ds: seq<Daemon1>, m: int)
    ensures m in Listed(ds) ==> exists x :: 0 <= x < |ds| && ds[x].id == m
    decreases |ds|
  {
    hide FillRings, FoldRings;
    if ds != [] {
      ListedIn(ds[..|ds| - 1], m);
      if m in Listed(ds[..|ds| - 1]) {
        var x :| 0 <= x < |ds[..|ds| - 1]| && ds[..|ds| - 1][x].id == m;
        assert ds[x].id == m;
      }
    }
  }

  lemma {:induction false} ValidFirst(me: int, mine: seq<int>, visited: seq<int>, reps: seq<int>, fReps: seq<int>)
    requires mine != [] && mine[0] == me && me !in visited
    ensures var r := ValidMembers(me, mine, visited, reps, fReps); r != [] && r[0] == me
    decreases |mine|
  {
    if |mine| > 1 {
      ValidFirst(me, mine[..|mine| - 1], visited, reps, fReps);
    } else {
      assert ValidMembers(me, mine[..0], visited, reps, fReps) == [];
    }
  }

  lemma {:induction false} RemoveLast(s: seq<int>, m: int)
    requires m !in s
    ensures RemoveFirst(s + [m], m) == s
    decreases |s|
  {
    if s == [] {
      assert (s + [m])[1..] == [];
    } else {
      RemoveLast(s[1..], m);
      assert (s + [m])[1..] == s[1..] + [m];
    }
  }

  // Where a hop puts the daemon it visits.
  lemma {:induction false} VisitPlaces(v: Daemon1, t: Token1)
    requires Visit(v, t).Passed? && OnTheWay(t) && SelfFirst(v) && (t.Pending() == 0 ==> v.id !in t.members)
    ensures var u := Visit(v, t).t;
            && u.num == t.num + 1 <= |u.members| && u.members[..u.num] == t.members[..t.num] + [v.id]
  {
    hide RepIds;
    var u := Visit(v, t).t;
    if v.state == Gather && t.reps[t.repIndex].kind == SegRep { ValidFirst(v.id, v.fMembers, t.members, RepIds(t.reps), v.fReps); }
    assert u.members[..u.num] == u.members[..t.num] + [u.members[t.num]];
  }

  // A hop adds the daemon to the visited members if its record is on the token.
  lemma {:induction false} HopLists(v: Daemon1, t: Token1)
    requires Visit(v, t).Passed? && OnTheWay(t) && SelfFirst(v) && v.id !in t.members[..t.num]
    ensures var u := Filled1(v, t);
            && 0 <= u.num <= |u.members|
            && u.members[..u.num] == t.members[..t.num] + (if FillRings(v.d, t.rings).included then [v.id] else [])
            && t.seqNo <= u.seqNo && v.d.highest + FORM_SEQ_GAP <= u.seqNo
            && u.rings == FillRings(v.d, t.rings).rings
  {
    hide FillRings, Visit;
    if t.Pending() == 0 { assert t.members[..t.num] == t.members; }
    VisitPlaces(v, t);
    var w := Visit(v, t).t;
    if !FillRings(v.d, t.rings).included {
      RemoveLast(t.members[..t.num], v.id);
      assert v.id in w.members[..w.num];
      assert (t.members[..t.num] + w.members[w.num..])[..t.num] == t.members[..t.num];
    }
  }

  // Accepted hops leave Filled1.
  lemma {:induction false} HopFills(p: Places, v: Daemon1, t: Token1)
    requires FillForm1(p, v, t).Passed?
    ensures Visit(v, t).Passed? && FillForm1(p, v, t).t == Filled1(v, t) && !FillRings(v.d, t.rings).fault
  {
    hide FillRings, Visit, TakeOff;
  }

  ghost predicate FromCreator(p: Places, c: Daemon1, vs: seq<Daemon1>, ts: seq<Token1>) {
    Journey(p, vs, ts) && CreatedBy(c, ts[0]) && Once([c] + vs) && forall k :: 0 <= k < |vs| ==> SelfFirst(vs[k])
  }

  // The number of the token is above what any daemon visited has seen.
  predicate Above(seqNo: int, ds: seq<Daemon1>) {
    forall x :: 0 <= x < |ds| ==> ds[x].d.highest < seqNo
  }

  lemma {:induction false} OnceLess(c: Daemon1, vs: seq<Daemon1>)
    requires Once([c] + vs) && vs != []
    ensures var ds := [c] + vs; var v := vs[|vs| - 1];
            && ds[..|ds| - 1] == [c] + vs[..|vs| - 1] && ds[|ds| - 1] == v
            && Once([c] + vs[..|vs| - 1]) && v.id !in Listed([c] + vs[..|vs| - 1])
  {
    hide FillRings, FoldRings;
    var ds := [c] + vs;
    assert ds[..|ds| - 1] == [c] + vs[..|vs| - 1];
    ListedIn(ds[..|ds| - 1], ds[|ds| - 1].id);
  }

  // One more hop, accepted or the last one.
  lemma {:induction false} JourneyMore(c: Daemon1, vs: seq<Daemon1>, t: Token1)
    requires vs != [] && Once([c] + vs) && SelfFirst(vs[|vs| - 1]) && OnTheWay(t) && Visit(vs[|vs| - 1], t).Passed?
    requires var ds := [c] + vs[..|vs| - 1];
             && t.members[..t.num] == Listed(ds) && Above(t.seqNo, ds)
             && !FoldRings(States(ds)).fault && t.rings == FoldRings(States(ds)).rings
    requires !FillRings(vs[|vs| - 1].d, t.rings).fault
    ensures var u := Filled1(vs[|vs| - 1], t); var ds := [c] + vs;
            && 0 <= u.num <= |u.members| && u.members[..u.num] == Listed(ds) && Above(u.seqNo, ds)
            && !FoldRings(States(ds)).fault && u.rings == FoldRings(States(ds)).rings
  {
    hide FillRings, Visit, Filled1;
    var ds := [c] + vs;
    OnceLess(c, vs);
    HopLists(vs[|vs| - 1], t);
    assert States(ds)[..|ds| - 1] == States(ds[..|ds| - 1]) && States(ds)[|ds| - 1] == vs[|vs| - 1].d;
  }

  // The visited part of the list are the daemons visited whose records are on
  // the token, in the order of the visits.
  lemma {:induction false} JourneyLists(p: Places, c: Daemon1, vs: seq<Daemon1>, ts: seq<Token1>)
    requires FromCreator(p, c, vs, ts)
    ensures var t := ts[|vs|]; var ds := [c] + vs;
            && OnTheWay(t) && t.members[..t.num] == Listed(ds) && Above(t.seqNo, ds)
            && !FoldRings(States(ds)).fault && t.rings == FoldRings(States(ds)).rings
    decreases |vs|
  {
    hide FillForm1, FillRings, Filled1, Visit, NewRecord, SelfFirst;
    JourneyStays(p, vs, ts);
    if vs == [] {
      assert [c] + vs == [c] && [c][..0] == [];
      assert States([c]) == [c.d];
      assert Listed([c]) == Listed([]) + [c.id];
    } else {
      var k := |vs| - 1;
      JourneyPrefix(p, vs, ts);
      OnceLess(c, vs);
      JourneyLists(p, c, vs[..k], ts[..|vs|]);
      HopFills(p, vs[k], ts[k]);
      JourneyMore(c, vs, ts[k]);
    }
  }

  // The FORM1 token has become FORM2 token f: at the last hop, or at once if the
  // creator is alone.
  ghost predicate Completed(p: Places, c: Daemon1, vs: seq<Daemon1>, ts: seq<Token1>, f: Token1) {
    if vs == [] then
      |ts| == 1 && CreatedBy(c, ts[0]) && ts[0].Pending() == 0 && f == ts[0].(num := 0)
    else
      && FromCreator(p, c, vs[..|vs| - 1], ts) && Once([c] + vs) && SelfFirst(vs[|vs| - 1])
      && FillForm1(p, vs[|vs| - 1], ts[|vs| - 1]) == Form2Ready(f)
  }

  // The members of the future membership are exactly the daemons visited whose
  // records are on the token, each once, and its number is above all of theirs.
  lemma {:induction false} FormedOfVisited(p: Places, c: Daemon1, vs: seq<Daemon1>, ts: seq<Token1>, f: Token1)
    requires Completed(p, c, vs, ts, f)
    ensures multiset(f.members) == multiset(Listed([c] + vs)) && Above(f.seqNo, [c] + vs)
    ensures !FoldRings(States([c] + vs)).fault && f.rings == FoldRings(States([c] + vs)).rings
  {
    hide FillForm1, FillRings, Filled1, Visit, NewRecord, SelfFirst;
    if vs == [] {
      assert [c] + vs == [c] && [c][..0] == [];
      assert States([c]) == [c.d];
      assert Listed([c]) == Listed([]) + [c.id];
      assert ts[0].members == [c.id];
    } else {
      var k := |vs| - 1;
      JourneyLists(p, c, vs[..k], ts);
      FormMembers(p, vs[k], ts[k]);
      JourneyMore(c, vs, ts[k]);
      var w := Filled1(vs[k], ts[k]);
      assert w.members[..w.num] == w.members;
    }
  }

  // ------------------------------------------------------------- nobody is forgotten

  // A representative adds those of its list who are not on the token yet, except
  // other representatives, who have a visit of their own.
  lemma {:induction false} AddsItsMembers(me: int, mine: seq<int>, visited: seq<int>, reps: seq<int>, fReps: seq<int>, m: int)
    ensures m in ValidMembers(me, mine, visited, reps, fReps) <==>
              m in mine && m !in visited && (m == me || (m !in reps && m !in fReps))
    decreases |mine|
  {
    if mine != [] {
      var less := mine[..|mine| - 1];
      AddsItsMembers(me, less, visited, reps, fReps, m);
      assert mine == less + [mine[|mine| - 1]];
    }
  }

  lemma {:induction false} AddsOnce(me: int, mine: seq<int>, visited: seq<int>, reps: seq<int>, fReps: seq<int>)
    requires Distinct(mine)
    ensures Distinct(ValidMembers(me, mine, visited, reps, fReps))
    decreases |mine|
  {
    if mine != [] {
      var less, m := mine[..|mine| - 1], mine[|mine| - 1];
      AddsOnce(me, less, visited, reps, fReps);
      AddsItsMembers(me, less, visited, reps, fReps, m);
      assert m !in less;
    }
  }

  // The rings of the daemons visited.
  function RingsOf(ds: seq<Dstate>): set<MembId> {
    set x | 0 <= x < |ds| :: ds[x].memb
  }

  predicate OneRecordEach(rings: seq<RingInfo>) {
    forall x, y :: 0 <= x < y < |rings| ==> rings[x].memb != rings[y].memb
  }

  lemma {:induction false} OthersRings(memb: MembId, rings: seq<RingInfo>)
    requires OneRecordEach(rings)
    ensures var o := OtherRings(memb, rings);
            && OneRecordEach(o) && |o| == |rings| - (if RecordOf(memb, rings).SomeRing? then 1 else 0)
            && (forall x :: 0 <= x < |o| ==> o[x].memb != memb && o[x] in rings)
            && (RecordOf(memb, rings).NoRing? <==> forall x :: 0 <= x < |rings| ==> rings[x].memb != memb)
    decreases |rings|
  {
    if rings != [] {
      var less, r := rings[..|rings| - 1], rings[|rings| - 1];
      OthersRings(memb, less);
      assert rings == less + [r];
    }
  }

  // A daemon is left out only if its ring would be one too many.
  lemma {:induction false} LeftOutOnlyFull(d: Dstate, rings: seq<RingInfo>)
    requires OneRecordEach(rings)
    ensures !FillRings(d, rings).included <==> RecordOf(d.memb, rings).NoRing? && MAX_FORM_REPS <= |rings|
  {
    hide NewRecord, Merged, TransFault;
    OthersRings(d.memb, rings);
  }

  lemma {:induction false} OneMoreRecord(rings: seq<RingInfo>, r: RingInfo)
    requires OneRecordEach(rings) && forall x :: 0 <= x < |rings| ==> rings[x].memb != r.memb
    ensures OneRecordEach(rings + [r])
  {
  }

  // What one more hop does to the number of records.
  lemma {:induction false} HopRings(d: Dstate, rings: seq<RingInfo>)
    requires OneRecordEach(rings) && !FillRings(d, rings).fault
    ensures var f := FillRings(d, rings);
            OneRecordEach(f.rings) && |f.rings| == |rings| + (if f.included && RecordOf(d.memb, rings).NoRing? then 1 else 0)
  {
    hide NewRecord, Merged, TransFault, OneRecordEach;
    OthersRings(d.memb, rings);
    NewRecordMemb(d, d.discarded + 1);
    match RecordOf(d.memb, rings)
    case NoRing => OneMoreRecord(OtherRings(d.memb, rings), NewRecord(d, d.discarded + 1));
    case SomeRing(r) =>
      MergedMemb(d, r);
      OneMoreRecord(OtherRings(d.memb, rings), Merged(d, r));
  }

  lemma {:induction false} HopRecords(d: Dstate, rings: seq<RingInfo>, m: MembId)
    requires !FillRings(d, rings).fault
    ensures var f := FillRings(d, rings);
            RecordOf(m, f.rings).SomeRing? <==> RecordOf(m, rings).SomeRing? || (f.included && m == d.memb)
  {
    hide NewRecord, Merged, TransFault, OtherRings, RecordOf;
    OthersKeep(d.memb, rings, m);
    NewRecordMemb(d, d.discarded + 1);
    RecordAppend(OtherRings(d.memb, rings), NewRecord(d, d.discarded + 1), m);
    match RecordOf(d.memb, rings)
    case NoRing => SameOthers(d.memb, rings);
    case SomeRing(r) =>
      MergedMemb(d, r);
      RecordAppend(OtherRings(d.memb, rings), Merged(d, r), m);
  }

  lemma {:induction false} SameOthers(memb: MembId, rings: seq<RingInfo>)
    requires RecordOf(memb, rings).NoRing?
    ensures OtherRings(memb, rings) == rings
    decreases |rings|
  {
    if rings != [] {
      SameOthers(memb, rings[..|rings| - 1]);
      assert rings == rings[..|rings| - 1] + [rings[|rings| - 1]];
    }
  }

  // Each ring visited has its record, or the token is full; and no other ring has.
  lemma {:induction false} RingCount(ds: seq<Dstate>)
    requires ds != [] && !FoldRings(ds).fault
    ensures var rings := FoldRings(ds).rings;
            && OneRecordEach(rings) && |rings| <= |RingsOf(ds)|
            && (forall m :: RecordOf(m, rings).SomeRing? ==> m in RingsOf(ds))
            && (forall m :: m in RingsOf(ds) && RecordOf(m, rings).NoRing? ==> MAX_FORM_REPS <= |rings| < |RingsOf(ds)|)
    decreases |ds|
  {
    hide FillRings;
    if |ds| == 1 {
      OneRing(ds);
    } else {
      var less, d := ds[..|ds| - 1], ds[|ds| - 1];
      var rings := FoldRings(less).rings;
      RingCount(less);
      LeftOutOnlyFull(d, rings);
      HopRings(d, rings);
      RingsMore(ds);
      forall m ensures RecordOf(m, FoldRings(ds).rings).SomeRing? <==> RecordOf(m, rings).SomeRing? || (FillRings(d, rings).included && m == d.memb) {
        HopRecords(d, rings, m);
      }
      if d.memb in RingsOf(less) { assert RingsOf(ds) == RingsOf(less); } else { assert |RingsOf(ds)| == |RingsOf(less)| + 1; }
    }
  }

  lemma {:induction false} OneRing(ds: seq<Dstate>)
    requires |ds| == 1
    ensures |FoldRings(ds).rings| == |RingsOf(ds)| == 1
    ensures forall m :: m in RingsOf(ds) <==> RecordOf(m, FoldRings(ds).rings).SomeRing?
  {
    NewRecordMemb(ds[0], ds[0].myAru + 1);
    assert RingsOf(ds) == {ds[0].memb};
    var r := NewRecord(ds[0], ds[0].myAru + 1);
    assert [r][..0] == [];
  }

  lemma {:induction false} RingsMore(ds: seq<Dstate>)
    requires ds != []
    ensures RingsOf(ds) == RingsOf(ds[..|ds| - 1]) + {ds[|ds| - 1].memb}
  {
  }

  // If the daemons that the token visits come from at most MAX_FORM_REPS rings,
  // all of them are on the list.
  lemma {:induction false} EveryoneListed(ds: seq<Daemon1>)
    requires ds != [] && |RingsOf(States(ds))| <= MAX_FORM_REPS && !FoldRings(States(ds)).fault
    ensures |Listed(ds)| == |ds| && forall x :: 0 <= x < |ds| ==> Listed(ds)[x] == ds[x].id
    decreases |ds|
  {
    hide FillRings, FoldRings;
    if |ds| > 1 {
      var less, d := ds[..|ds| - 1], ds[|ds| - 1].d;
      var all, some := States(ds), States(less);
      assert all[..|all| - 1] == some && all[|all| - 1] == d;
      NoFaultBefore(all);
      RingCount(some);
      RingsMore(all);
      assert RingsOf(some) <= RingsOf(all);
      FewerRings(RingsOf(some), RingsOf(all));
      EveryoneListed(less);
      LeftOutOnlyFull(d, FoldRings(some).rings);
      if d.memb !in RingsOf(some) { assert |RingsOf(all)| == |RingsOf(some)| + 1; }
    } else {
      assert ds[..0] == [] && Listed([]) == [];
    }
  }

  lemma {:induction false} FewerRings(a: set<MembId>, b: set<MembId>)
    requires a <= b
    ensures |a| <= |b|
  {
    assert b == a + (b - a);
  }

  lemma {:induction false} NoFaultBefore(ds: seq<Dstate>)
    requires |ds| > 1 && !FoldRings(ds).fault
    ensures !FoldRings(ds[..|ds| - 1]).fault
  {
  }

  // ---------------------------------------------------------------- where it goes

  // A hop sends the token to the one daemon that can accept it.
  lemma {:induction false} SentToTheOne(p: Places, v: Daemon1, t: Token1, x: Daemon1)
    requires FillForm1(p, v, t).Passed? && Visit(x, FillForm1(p, v, t).t).Passed?
    ensures x.id == FillForm1(p, v, t).to
  {
    hide FillRings, ValidMembers, SortMembers, RepIds, TakeOff;
    var f := FillForm1(p, v, t);
    RouteSends(p, f.t, v, t);
  }

  lemma {:induction false} RouteSends(p: Places, u: Token1, v: Daemon1, t: Token1)
    requires FillForm1(p, v, t).Passed? && u == FillForm1(p, v, t).t
    ensures Route(p, u) == FillForm1(p, v, t)
  {
    hide FillRings, ValidMembers, SortMembers, RepIds, TakeOff, Visit;
  }

  lemma {:induction false} VisitReps(v: Daemon1, t: Token1)
    requires Visit(v, t).Passed? && !FillRings(v.d, t.rings).fault
    ensures var u := Filled1(v, t);
            && u.reps == t.reps
            && (u.repIndex == t.repIndex
                || (u.repIndex == t.repIndex + 1 && 0 <= t.repIndex < |t.reps| && t.reps[t.repIndex].proc == v.id))
  {
    hide FillRings, ValidMembers, RepIds, RemoveFirst;
  }

  predicate RepMet(vs: seq<Daemon1>, id: int) {
    exists k :: 0 <= k < |vs| && vs[k].id == id
  }

  lemma {:induction false} MetMore(vs: seq<Daemon1>, id: int)
    requires vs != [] && (RepMet(vs[..|vs| - 1], id) || vs[|vs| - 1].id == id)
    ensures RepMet(vs, id)
  {
    if RepMet(vs[..|vs| - 1], id) {
      var k :| 0 <= k < |vs[..|vs| - 1]| && vs[..|vs| - 1][k].id == id;
      assert vs[k].id == id;
    }
  }

  // Representatives a, ..., b - 1 have been met.
  predicate MetUpTo(vs: seq<Daemon1>, reps: seq<Rep>, a: int, b: int) {
    0 <= a <= b <= |reps| && forall x :: a <= x < b ==> RepMet(vs, reps[x].proc)
  }

  lemma {:induction false} MetOneMore(vs: seq<Daemon1>, reps: seq<Rep>, a: int, b: int)
    requires vs != [] && MetUpTo(vs[..|vs| - 1], reps, a, b)
    ensures MetUpTo(vs, reps, a, b)
    ensures b < |reps| && reps[b].proc == vs[|vs| - 1].id ==> MetUpTo(vs, reps, a, b + 1)
  {
    hide RepMet;
    forall x | a <= x < b ensures RepMet(vs, reps[x].proc) { MetMore(vs, reps[x].proc); }
    if b < |reps| && reps[b].proc == vs[|vs| - 1].id { MetMore(vs, reps[b].proc); }
  }

  // Along a journey the representatives are visited one after the other.
  lemma {:induction false} RepsSoFar(p: Places, vs: seq<Daemon1>, ts: seq<Token1>)
    requires Journey(p, vs, ts)
    ensures ts[|vs|].reps == ts[0].reps && MetUpTo(vs, ts[0].reps, ts[0].repIndex, ts[|vs|].repIndex)
    decreases |vs|
  {
    hide FillForm1, FillRings, Filled1, Visit, MetUpTo;
    if vs != [] {
      var k := |vs| - 1;
      JourneyPrefix(p, vs, ts);
      RepsSoFar(p, vs[..k], ts[..|vs|]);
      HopFills(p, vs[k], ts[k]);
      VisitReps(vs[k], ts[k]);
      MetOneMore(vs, ts[0].reps, ts[0].repIndex, ts[k].repIndex);
    } else {
      NoneMet(ts[0].reps, ts[0].repIndex);
    }
  }

  lemma {:induction false} NoneMet(reps: seq<Rep>, a: int)
    requires 0 <= a <= |reps|
    ensures MetUpTo([], reps, a, a)
  {
  }

  // When the token becomes FORM2, every representative that was still to be visited
  // when it was created has been visited.
  lemma {:induction false} EveryRepVisited(p: Places, c: Daemon1, vs: seq<Daemon1>, ts: seq<Token1>, f: Token1, x: int)
    requires Completed(p, c, vs, ts, f) && vs != [] && ts[0].repIndex <= x < |ts[0].reps|
    ensures RepMet(vs, ts[0].reps[x].proc)
  {
    hide FillForm1, FillRings, Filled1, Visit, RepMet;
    var k := |vs| - 1;
    RepsSoFar(p, vs[..k], ts);
    JourneyStays(p, vs[..k], ts);
    LastHop(p, vs[k], ts[k]);
    VisitReps(vs[k], ts[k]);
    MetOneMore(vs, ts[0].reps, ts[0].repIndex, ts[k].repIndex);
  }

  lemma {:induction false} LastHop(p: Places, v: Daemon1, t: Token1)
    requires FillForm1(p, v, t).Form2Ready? && OnTheWay(t)
    ensures Visit(v, t).Passed? && !FillRings(v.d, t.rings).fault && |Filled1(v, t).reps| <= Filled1(v, t).repIndex
  {
    hide FillRings, ValidMembers, SortMembers, RepIds, RemoveFirst;
  }
}
