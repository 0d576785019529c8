// Recovery of one daemon: what Read_form2 and Backoff_membership do to it, and
// what it has delivered of its old ring when it installs the new membership.
module Evs {
  import opened Types
  import opened RingArith
  import opened Protocol
  import opened Delivery
  import opened Form
  import opened FormRecords

  // ------------------------------------------------------------- Read_form2

  // A packet that is on record as a hole but is there nonetheless came late
  // from a daemon that is leaving; anything else ends the process.
  predicate LateIsFine(d: Dstate, h: int, future: set<int>) {
    h in d.pk ==> !d.pk[h].Hole? && d.pk[h].p.memb == d.memb && d.pk[h].p.seqNo == h && d.pk[h].p.sender !in future
  }

  function MarkHoles(d: Dstate, holes: seq<int>, future: set<int>): Dstate {
    if holes == [] then d
    else
      var e := MarkHoles(d, holes[..|holes| - 1], future);
      var h := holes[|holes| - 1];
      e.(pk := e.pk[h := Hole], fault := e.fault || !LateIsFine(e, h, future))
  }

  // The checks on every record of the token.
  predicate WellFormed(rings: seq<RingInfo>) {
    forall x :: 0 <= x < |rings| ==>
      1 <= rings[x].trans <= |rings[x].commit| <= MAX_PROCS_RING && |rings[x].holes| <= MAX_SEQ_GAP
  }

  // What the FORM2 token carries, and the members of the future membership.
  datatype Form2 = Form2(seqNo: int, rings: seq<RingInfo>, id: MembId, members: set<int>)

  function Enter(d: Dstate, r: RingInfo, t: Form2): Dstate {
    var e := DiscardRegular(d.(highest := r.highest, aru := r.aru, lastSeq := t.seqNo, future := t.id,
                               numRetrans := 0, numSent := 0));
    if e.fault then e
    else
      var f := MarkHoles(e, r.holes, t.members);
      if f.fault then f
      else f.(futureCommit := CommitSet(r.commit, r.trans),
              last := f.last.(arq := 0, retrans := 0, seqNo := 0, aru := 0),
              aru := 0, evs := true)
  }

  function ReadForm2(d: Dstate, t: Form2): Dstate {
    if !WellFormed(t.rings) then d
    else
      match RecordOf(d.memb, t.rings)
      case NoRing => d
      case SomeRing(r) => Enter(d, r, t)
  }

  function Unmarked(pk: map<int, Slot>, low: int, high: int): map<int, Slot> {
    map s | s in pk && !(low < s <= high && pk[s].Hole?) :: pk[s]
  }

  // Backoff_membership: holes become missing packets again.
  function Backoff(d: Dstate): Dstate {
    var pk := Unmarked(d.pk, d.discarded, d.highest);
    d.(pk := pk, aru := d.discarded, myAru := Advance(pk, d.discarded, d.highest), evs := false)
  }

  // --------------------------------------------------------- entering recovery

  // A daemon that may act on record r: it has what r says every member has, it
  // has not delivered what r says nobody has, and nothing beyond r reached it.
  ghost predicate ReadyFor(all: seq<Packet>, d: Dstate, r: RingInfo, t: Form2) {
    && Core(all, {}, d) && OldMember(d) && !d.fault && !d.evs
    && d.aru <= r.aru <= d.myAru && d.highest <= r.highest <= |all|
    && (forall s :: 0 <= s < |all| ==> all[s].memb == d.memb)
    && (forall h :: h in r.holes ==> d.delivered < h <= r.highest && r.aru < h && all[h - 1].sender !in t.members)
    && (forall h :: h in r.holes && h in d.pk ==> d.pk[h].Held?)
    && r.highest < t.seqNo
  }

  lemma {:induction false} HolesMarked(d: Dstate, holes: seq<int>, future: set<int>)
    requires Increasing(holes) && !d.fault && forall h :: h in holes ==> LateIsFine(d, h, future)
    ensures var e := MarkHoles(d, holes, future);
            && e == d.(pk := e.pk) && e.pk.Keys == d.pk.Keys + ToSet(holes)
            && forall s :: s in e.pk ==> e.pk[s] == if s in holes then Hole else d.pk[s]
  {
    if holes != [] {
      var less := holes[..|holes| - 1];
      assert holes == less + [holes[|holes| - 1]];
      HolesMarked(d, less, future);
      var e, h := MarkHoles(d, less, future), holes[|holes| - 1];
      assert h !in less && LateIsFine(d, h, future);
      assert LateIsFine(e, h, future);
    }
  }

  lemma {:induction false} MarkedOK(all: seq<Packet>, d: Dstate, holes: seq<int>, e: Dstate)
    requires Core(all, {}, d) && (forall h :: h in holes ==> d.delivered < h <= d.highest && 1 <= h)
    requires (forall h :: h in holes && h in d.pk ==> d.pk[h].Held?)
    requires e == d.(pk := e.pk) && e.pk.Keys == d.pk.Keys + ToSet(holes)
    requires forall s :: s in e.pk ==> e.pk[s] == if s in holes then Hole else d.pk[s]
    ensures Core(all, ToSet(holes), e)
  {
    forall s | s in e.pk ensures d.discarded < s <= d.highest && SlotOK(all, ToSet(holes), s, e.pk[s]) {
      if s !in holes { assert SlotOK(all, {}, s, d.pk[s]); }
    }
    forall s ensures GivenAt(e.pk, s) <==> GivenAt(d.pk, s) { }
    forall s | d.discarded < s <= d.delivered && s in e.pk ensures e.pk[s].Given? { assert s in d.pk; }
    forall s | GivenAt(e.pk, s) && d.delivered < s ensures all[s - 1].Early() { assert GivenAt(d.pk, s); }
  }

  // The state of a daemon in recovery that has entered by record r.
  ghost predicate Recovering(all: seq<Packet>, d: Dstate, r: RingInfo) {
    && Core(all, ToSet(r.holes), d) && d.evs && !d.fault
    && d.discarded == r.aru && d.highest == r.highest < d.lastSeq
    && (forall h :: h in r.holes ==> h in d.pk)
    && d.futureCommit == CommitSet(r.commit, r.trans)
  }

  lemma {:induction false} AtLeast(all: seq<Packet>, d: Dstate, r: RingInfo)
    requires Core(all, {}, d) && OldMember(d) && d.aru <= r.aru <= d.myAru && d.highest <= r.highest <= |all|
    ensures Core(all, {}, d.(highest := r.highest, aru := r.aru)) && r.aru <= Filled(d.(highest := r.highest, aru := r.aru))
    ensures 0 <= r.aru && d.discarded <= d.delivered
  {
  }

  lemma {:induction false} RegularKeeps(d: Dstate, s: int)
    requires !DiscardRegular(d).fault && s in DiscardRegular(d).pk && d.delivered < s
    ensures s in d.pk && DiscardRegular(d).pk[s] == d.pk[s]
  {
    if d.discarded < d.aru {
      LoopOnlyTakes(d, d.discarded + 1, s);
    }
  }

  lemma {:induction false} LoopOnlyTakes(d: Dstate, i: int, s: int)
    requires s in DiscardLoop(d, i).pk
    ensures s in d.pk && DiscardLoop(d, i).pk[s] == d.pk[s]
    decreases d.aru - i
  {
    if i <= d.aru && i in d.pk && !d.pk[i].Hole? { LoopOnlyTakes(Release(d, i), i + 1, s); }
  }

  // Nothing that Read_form2 discards is missing, no late packet is one the
  // process has to end for, and the daemon is set up for recovery.
  lemma {:induction false} EnterKeeps(all: seq<Packet>, d: Dstate, r: RingInfo, t: Form2)
    requires ReadyFor(all, d, r, t) && Increasing(r.holes)
    ensures var e := Enter(d, r, t);
            && Recovering(all, e, r) && e.myAru == d.myAru && e.commit == d.commit && e.lastSeq == t.seqNo
            && e.me == d.me && e.memb == d.memb && e.aru == 0 && e.future == t.id
            && e.last == d.last.(arq := 0, retrans := 0, seqNo := 0, aru := 0)
            && e.numRetrans == e.numSent == 0 && e.queue == d.queue
            && forall h :: h in r.holes ==> e.delivered < h
  {
    hide Core, DiscardRegular;
    AtLeast(all, d, r);
    var d1 := d.(highest := r.highest, aru := r.aru);
    var d2 := d1.(lastSeq := t.seqNo, future := t.id, numRetrans := 0, numSent := 0);
    CoreOfRing(all, {}, d1, d2);
    DiscardRegularKeeps(all, d2);
    var e := DiscardRegular(d2);
    forall h | h in r.holes ensures e.delivered < h <= e.highest && 1 <= h && LateIsFine(e, h, t.members) && (h in e.pk ==> e.pk[h].Held?) {
      if h in e.pk {
        RegularKeeps(d2, h);
        HeldIs(all, d, h);
      }
    }
    HolesMarked(e, r.holes, t.members);
    var f := MarkHoles(e, r.holes, t.members);
    MarkedOK(all, e, r.holes, f);
    CoreOfRing(all, ToSet(r.holes), f, Enter(d, r, t));
    assert forall h :: h in r.holes ==> h in ToSet(r.holes);
  }

  lemma {:induction false} HeldIs(all: seq<Packet>, d: Dstate, h: int)
    requires Core(all, {}, d) && h in d.pk
    ensures !d.pk[h].Hole? && 1 <= h <= |all| && d.pk[h].p == all[h - 1] && all[h - 1].seqNo == h
  {
    assert SlotOK(all, {}, h, d.pk[h]);
  }

  // ---------------------------------------- what is delivered at the end of EVS

  // The first number from s on that is a hole or a safe packet.
  ghost function Cut(all: seq<Packet>, holes: set<int>, s: int, top: int): (r: int)
    ensures s <= r && (s <= top + 1 ==> r <= top + 1)
    ensures forall q :: s <= q < r ==> q !in holes && !SafeAt(all, q)
    ensures r <= top ==> r in holes || SafeAt(all, r)
    decreases top - s
  {
    if top < s || s in holes || SafeAt(all, s) then s else Cut(all, holes, s + 1, top)
  }

  // From s on: no holes, and beyond the first of them only what committed
  // members sent.
  ghost function Rest(all: seq<Packet>, holes: set<int>, commit: seq<int>, s: int, top: int, found: bool): seq<Event>
    requires top <= |all|
    decreases top - s
  {
    if top < s || s < 1 then []
    else if s in holes then Rest(all, holes, commit, s + 1, top, true)
    else
      (if !all[s - 1].Early() && (!found || all[s - 1].sender in commit) then [Msg(all[s - 1])] else [])
      + Rest(all, holes, commit, s + 1, top, found)
  }

  // All that a daemon of the old ring delivers in order by the time it installs
  // membership `id`.  Nothing in it depends on the daemon.
  ghost function EvsLog(all: seq<Packet>, r: RingInfo, id: MembId): seq<Event>
    requires r.highest <= |all|
  {
    var holes := ToSet(r.holes);
    var c := Cut(all, holes, r.aru + 1, r.highest);
    (if c - 1 <= |all| then Ordered(all, c - 1) else [])
    + [TransMemb(TransMembers(CommitSet(r.commit, r.trans)))]
    + Rest(all, holes, r.commit, c, r.highest, false)
    + [RegMemb(id)]
  }

  // A daemon in recovery counts as delivered what it freed.
  function Shadow(d: Dstate): Dstate {
    d.(delivered := Max(d.delivered, d.discarded))
  }

  ghost predicate NothingMissing(d: Dstate) {
    forall s :: d.discarded < s <= d.highest ==> s in d.pk
  }

  // The keys that remain once everything up to s is freed.
  lemma {:induction false} BeforeTransDelivers(all: seq<Packet>, holes: set<int>, d: Dstate)
    requires Core(all, holes, Shadow(d)) && NothingMissing(d) && !d.fault && d.highest <= d.myAru
    requires forall h :: h in holes ==> d.delivered < h
    ensures var e := BeforeTrans(d); var c := Cut(all, holes, d.discarded + 1, d.highest);
            && e == d.(pk := e.pk, log := e.log, discarded := e.discarded)
            && Core(all, holes, Shadow(e)) && NothingMissing(e)
            && e.discarded == c - 1
            && InOrder(e.log) == Ordered(all, Shadow(e).delivered)
    decreases d.highest - d.discarded
  {
    hide Core, Ordered, BeforeTrans, Release;
    BeforeUnfold(d);
    var s := d.discarded + 1;
    CoreLog(all, holes, Shadow(d));
    if s <= d.highest {
      EntryIs(all, holes, Shadow(d), s);
      if !(d.pk[s].Hole? || d.pk[s].p.payload.service == Safe) {
        ReleaseKeeps(all, holes, Shadow(d));
        var e := Release(d, s).(discarded := s);
        ReleaseOnly(d, s);
        assert Shadow(e) == Release(Shadow(d), s).(discarded := s, delivered := Max(Shadow(d).delivered, s));
        BeforeTransDelivers(all, holes, e);
      }
    }
  }

  lemma {:induction false} ReleaseOnly(d: Dstate, s: int)
    requires s in d.pk && !d.pk[s].Hole?
    ensures var e := Release(d, s);
            && e == d.(pk := e.pk, log := e.log) && e.pk.Keys == d.pk.Keys - {s}
            && Release(Shadow(d), s) == Shadow(d).(pk := e.pk, log := e.log)
  {
  }

  lemma {:induction false} CoreLog(all: seq<Packet>, holes: set<int>, d: Dstate)
    requires Core(all, holes, d)
    ensures 0 <= d.delivered <= |all| && InOrder(d.log) == Ordered(all, d.delivered)
    ensures d.highest <= |all| && 0 <= d.discarded <= d.delivered <= Filled(d)
  {
  }

  lemma {:induction false} EntryIs(all: seq<Packet>, holes: set<int>, d: Dstate, s: int)
    requires Core(all, holes, d) && s in d.pk
    ensures d.pk[s].Hole? <==> s in holes
    ensures !d.pk[s].Hole? ==> 1 <= s <= |all| && d.pk[s].p == all[s - 1]
    ensures d.delivered < s && d.pk[s].Given? ==> all[s - 1].Early()
  {
    assert SlotOK(all, holes, s, d.pk[s]);
    if d.delivered < s && d.pk[s].Given? { assert GivenAt(d.pk, s); }
  }

  // The entries from s up to the highest number, as AfterTrans finds them.
  ghost predicate Tail(all: seq<Packet>, holes: set<int>, d: Dstate, s: int) {
    && 1 <= s && d.highest <= |all| && s <= d.highest + 1
    && (forall q :: q in d.pk <==> s <= q <= d.highest)
    && (forall q :: q in d.pk ==> SlotOK(all, holes, q, d.pk[q]) && (d.pk[q].Given? ==> all[q - 1].Early()))
  }

  lemma {:induction false} TailStep(all: seq<Packet>, holes: set<int>, d: Dstate, s: int, log: seq<Event>)
    requires Tail(all, holes, d, s) && s <= d.highest
    ensures Tail(all, holes, d.(pk := d.pk - {s}, log := log), s + 1)
  {
  }

  lemma {:induction false} NoKeys(m: map<int, Slot>)
    requires forall q :: q !in m
    ensures m == map[]
  {
    var none: map<int, Slot> := map[];
    forall q ensures q in m <==> q in none { }
    assert m == none;
  }

  lemma {:induction false} TailEnd(all: seq<Packet>, holes: set<int>, d: Dstate, s: int)
    requires Tail(all, holes, d, s) && d.highest < s
    ensures d.pk == map[]
  {
    NoKeys(d.pk);
  }

  lemma {:induction false} ReleaseLog(d: Dstate, s: int)
    requires s in d.pk && !d.pk[s].Hole?
    ensures Release(d, s) == d.(pk := d.pk - {s}, log := if d.pk[s].Held? then d.log + [Msg(d.pk[s].p)] else d.log)
  {
  }

  lemma {:induction false} TailHead(all: seq<Packet>, holes: set<int>, d: Dstate, s: int)
    requires Tail(all, holes, d, s) && s <= d.highest
    ensures s in d.pk && 1 <= s <= |all|
    ensures d.pk[s].Hole? <==> s in holes
    ensures !d.pk[s].Hole? ==> d.pk[s].p == all[s - 1] && (d.pk[s].Given? ==> all[s - 1].Early())
  {
    assert SlotOK(all, holes, s, d.pk[s]);
  }

  lemma {:induction false} RestUnfold(all: seq<Packet>, holes: set<int>, commit: seq<int>, s: int, top: int, found: bool)
    requires top <= |all|
    ensures top < s ==> Rest(all, holes, commit, s, top, found) == []
    ensures 1 <= s <= top && s in holes ==> Rest(all, holes, commit, s, top, found) == Rest(all, holes, commit, s + 1, top, true)
    ensures 1 <= s <= top && s !in holes ==>
            Rest(all, holes, commit, s, top, found)
            == (if !all[s - 1].Early() && (!found || all[s - 1].sender in commit) then [Msg(all[s - 1])] else []) + Rest(all, holes, commit, s + 1, top, found)
  {
  }

  lemma {:induction false} AfterTransDelivers(all: seq<Packet>, holes: set<int>, d: Dstate, s: int, found: bool)
    requires Tail(all, holes, d, s) && !d.fault && d.highest <= |all|
    ensures var e := AfterTrans(d, s, found);
            && e == d.(pk := map[], log := e.log)
            && InOrder(e.log) == InOrder(d.log) + Rest(all, holes, d.commit.members, s, d.highest, found)
    decreases d.highest - s
  {
    hide Tail, InOrder, AfterTrans, Release, Rest;
    AfterUnfold(d, s, found);
    RestUnfold(all, holes, d.commit.members, s, d.highest, found);
    if s <= d.highest {
      TailHead(all, holes, d, s);
      var given := !d.pk[s].Hole? && (!found || d.pk[s].p.sender in d.commit.members);
      var e := if given then Release(d, s) else Forget(d, s);
      TailStep(all, holes, d, s, e.log);
      if given {
        ReleaseLog(d, s);
        InOrderAppend(d.log, Msg(d.pk[s].p));
      }
      AfterTransDelivers(all, holes, e, s + 1, found || d.pk[s].Hole?);
    } else {
      TailEnd(all, holes, d, s);
    }
  }

  lemma {:induction false} TailHere(all: seq<Packet>, holes: set<int>, d: Dstate, e: Dstate)
    requires Core(all, holes, Shadow(d)) && NothingMissing(d) && Shadow(d).delivered == d.discarded <= d.highest
    requires e == d.(log := e.log)
    ensures Tail(all, holes, e, d.discarded + 1)
  {
    forall q | q in e.pk ensures SlotOK(all, holes, q, e.pk[q]) && (e.pk[q].Given? ==> all[q - 1].Early()) {
      assert SlotOK(all, holes, q, Shadow(d).pk[q]);
      if e.pk[q].Given? { assert GivenAt(Shadow(d).pk, q); }
    }
  }

  lemma {:induction false} DeliveredBeforeCut(all: seq<Packet>, holes: set<int>, d: Dstate)
    requires Core(all, holes, d) && forall h :: h in holes ==> d.delivered < h
    ensures d.delivered < Cut(all, holes, d.discarded + 1, d.highest) <= d.highest + 1
  {
  }

  // A daemon that misses nothing and has committed delivers, for everything of
  // its old ring together, exactly EvsLog, and leaves EVS with a clean slate.
  lemma {:induction false} DiscardEvsDelivers(all: seq<Packet>, d: Dstate, r: RingInfo)
    requires Recovering(all, d, r) && NothingMissing(d) && d.highest <= d.myAru
    requires (forall h :: h in r.holes ==> d.delivered < h) && d.commit == CommitSet(r.commit, r.trans)
    requires d.discarded < d.aru == d.lastSeq
    ensures var e := DiscardEvs(d);
            && r.highest <= |all| && InOrder(e.log) == EvsLog(all, r, d.future)
            && e == Install(d.(pk := map[])).(log := e.log) && !e.fault
  {
    hide Core, BeforeTrans, AfterTrans, Ordered, InOrder, Rest;
    var holes := ToSet(r.holes);
    CoreLog(all, holes, d);
    assert Shadow(d) == d;
    DeliveredBeforeCut(all, holes, d);
    BeforeTransDelivers(all, holes, d);
    var e := BeforeTrans(d);
    CoreLog(all, holes, Shadow(e));
    var f := e.(log := e.log + [TransMemb(TransMembers(e.commit))]);
    TailHere(all, holes, e, f);
    InOrderAppend(e.log, TransMemb(TransMembers(e.commit)));
    AfterTransDelivers(all, holes, f, f.discarded + 1, false);
    var g := AfterTrans(f, f.discarded + 1, false);
    InOrderAppend(g.log, RegMemb(d.future));
  }

  // Two members of one old ring that finish recovery by the same record have
  // delivered the same packets of it in the same order, with the transitional
  // signal and the new membership at the same places, whatever each of them
  // had delivered before.
  lemma {:induction false} EvsAgreement(all: seq<Packet>, d: Dstate, e: Dstate, r: RingInfo)
    requires Finishing(all, d, r) && Finishing(all, e, r) && d.future == e.future
    ensures InOrder(DiscardEvs(d).log) == InOrder(DiscardEvs(e).log)
    ensures !DiscardEvs(d).fault && !DiscardEvs(e).fault
  {
    DiscardEvsDelivers(all, d, r);
    DiscardEvsDelivers(all, e, r);
  }

  // A daemon at the end of recovery.
  ghost predicate Finishing(all: seq<Packet>, d: Dstate, r: RingInfo) {
    && Recovering(all, d, r) && NothingMissing(d) && d.highest <= d.myAru
    && (forall h :: h in r.holes ==> d.delivered < h) && d.commit == CommitSet(r.commit, r.trans)
    && d.discarded < d.aru == d.lastSeq
  }
}
