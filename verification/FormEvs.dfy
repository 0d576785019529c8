// From the record on the FORM token to recovery, and back out of it: why
// Read_form2 meets no missing packet, and what a failed attempt leaves.
module FormEvs {
  import opened Types
  import opened RingArith
  import opened Protocol
  import opened Delivery
  import opened Form
  import opened FormRecords
  import opened Evs

  // A daemon frees its own packets, or holds them.
  ghost predicate KeepsOwn(all: seq<Packet>, d: Dstate) {
    forall s :: 1 <= s <= |all| && all[s - 1].sender == d.me ==> HasNumber(d, s)
  }

  // Daemon d is m after more packets numbered up to top have come in while
  // delivery was blocked.
  ghost predicate Later(m: Dstate, d: Dstate, top: int) {
    && d == m.(pk := d.pk, myAru := d.myAru, highest := d.highest)
    && m.myAru <= d.myAru && m.highest <= d.highest <= top
    && (forall s :: s in m.pk ==> s in d.pk && d.pk[s] == m.pk[s])
    && (forall s :: s in d.pk && s !in m.pk ==> d.pk[s].Held?)
  }

  // What arrives while the membership is being formed.
  lemma {:induction false} LaterReceive(m: Dstate, d: Dstate, top: int, p: Packet)
    requires Later(m, d, top) && p.seqNo <= top && m.threshold == BLOCK_REGULAR_DELIVERY
    ensures Later(m, Receive(d, p), top)
  {
  }

  // The members of ring r.memb that the token visited, and what else holds of
  // them and of the packets of the ring when the token was formed.
  ghost predicate Formed(all: seq<Packet>, ms: seq<Dstate>, r: RingInfo, ids: set<int>, t: Form2) {
    && RecordOK(ms, r, ids) && Visitable(ms, ids)
    && (forall x :: 0 <= x < |ms| ==> Core(all, {}, ms[x]) && KeepsOwn(all, ms[x]) && !ms[x].fault && !ms[x].evs)
    && (forall x :: 0 <= x < |ms| ==> ms[x].highest < t.seqNo)
    && (forall s :: 0 <= s < |all| ==> all[s].memb == r.memb)
    && (forall s :: 0 <= s < |all| && all[s].sender in t.members ==> Visited(ms, all[s].sender))
  }

  predicate Visited(ms: seq<Dstate>, id: int) {
    exists x :: 0 <= x < |ms| && ms[x].me == id
  }

  lemma {:induction false} SenderHas(all: seq<Packet>, ms: seq<Dstate>, s: int)
    requires (forall x :: 0 <= x < |ms| ==> KeepsOwn(all, ms[x])) && 1 <= s <= |all| && Visited(ms, all[s - 1].sender)
    ensures !Missed(ms, s)
  {
    var y :| 0 <= y < |ms| && ms[y].me == all[s - 1].sender;
    assert HasNumber(ms[y], s);
  }

  lemma {:induction false} HoleAbove(all: seq<Packet>, ms: seq<Dstate>, r: RingInfo, ids: set<int>, t: Form2, x: int, h: int)
    requires Formed(all, ms, r, ids, t) && 0 <= x < |ms| && h in r.holes
    ensures !HasNumber(ms[x], h) && ms[x].myAru < h && ms[x].delivered <= ms[x].myAru
    ensures r.aru <= ms[x].myAru && 1 <= h <= r.highest <= |all|
    ensures all[h - 1].sender !in t.members
  {
    hide Visitable, KeepsOwn, Visited;
    assert Missed(ms, h);
    RecordBounds(all, ms, r, ids, t, x);
    if Visited(ms, all[h - 1].sender) { SenderHas(all, ms, h); }
  }

  lemma {:induction false} RecordBounds(all: seq<Packet>, ms: seq<Dstate>, r: RingInfo, ids: set<int>, t: Form2, x: int)
    requires Formed(all, ms, r, ids, t) && 0 <= x < |ms|
    ensures ms[x].aru <= r.aru <= ms[x].myAru && ms[x].highest <= r.highest <= |all| && r.highest < t.seqNo
    ensures OldMember(ms[x]) && Core(all, {}, ms[x]) && ms[x].delivered <= ms[x].myAru && ms[x].memb == r.memb
  {
    hide OldMember, KeepsOwn, CommitsTo, Base, SafeOK;
    var y :| 0 <= y < |ms| && ms[y].aru == r.aru;
    var z :| 0 <= z < |ms| && ms[z].highest == r.highest;
    assert ms[y].memb == ms[x].memb;
    assert Core(all, {}, ms[z]) && Core(all, {}, ms[x]);
    CoreBounds(all, {}, ms[z]);
    CoreBounds(all, {}, ms[x]);
  }

  // Every member that the FORM1 token visited is ready to act on the record of
  // its ring: what it is to free it has, by stability, and what is on record as
  // a hole it has neither delivered nor got from a daemon that stays.
  lemma {:induction false} FormReady(all: seq<Packet>, ms: seq<Dstate>, r: RingInfo, ids: set<int>, t: Form2, x: int, d: Dstate)
    requires Formed(all, ms, r, ids, t) && 0 <= x < |ms| && Later(ms[x], d, r.highest)
    requires Core(all, {}, d) && OldMember(d)
    ensures ReadyFor(all, d, r, t) && Increasing(r.holes)
  {
    hide OldMember, Core, KeepsOwn, Visitable;
    var m := ms[x];
    RecordBounds(all, ms, r, ids, t, x);
    forall h | h in r.holes
      ensures d.delivered < h <= r.highest && r.aru < h && all[h - 1].sender !in t.members && (h in d.pk ==> d.pk[h].Held?)
    {
      HoleAbove(all, ms, r, ids, t, x, h);
    }
  }

  // What a daemon once committed to stays in its commit set when it commits to
  // the record of a later attempt.
  lemma {:induction false} CommitGrows(ms: seq<Dstate>, r: RingInfo, ids: set<int>, x: int, d: Dstate)
    requires RecordOK(ms, r, ids) && 0 <= x < |ms| && d.commit == ms[x].commit
    requires d.futureCommit == CommitSet(r.commit, r.trans)
    ensures ToSet(d.commit.members) <= ToSet(Complete(d).commit.members)
    ensures ms[x].me in r.commit[..r.trans] && r.commit[..r.trans] <= r.commit
  {
    assert r.commit[..r.trans][x] == ms[x].me;
    forall m | m in ToSet(d.commit.members) ensures m in ToSet(Complete(d).commit.members) {
      assert m in ms[x].commit.members;
    }
  }

  // ------------------------------------------------------------------- backing off

  lemma {:induction false} AdvanceTo(pk: map<int, Slot>, a: int, h: int, k: int)
    requires a <= k <= h && forall s :: a < s <= k ==> s in pk
    ensures k <= Advance(pk, a, h)
    decreases h - a
  {
    if a < k { AdvanceTo(pk, a + 1, h, k); }
  }

  predicate BelowHoles(holes: seq<int>, k: int) {
    forall h :: h in holes ==> k < h
  }

  // A failed attempt leaves an ordinary member of the old ring, which has lost
  // nothing that it had.
  lemma {:induction false} BackoffRestores(all: seq<Packet>, d: Dstate, r: RingInfo)
    requires Recovering(all, d, r) && BelowHoles(r.holes, d.delivered)
    ensures var b := Backoff(d);
            && Core(all, {}, b) && OldMember(b)
            && b == d.(pk := b.pk, aru := r.aru, myAru := b.myAru, evs := false)
            && (forall s :: HasNumber(b, s) <==> HasNumber(d, s) && s !in r.holes)
            && (forall k :: BelowHoles(r.holes, k) && d.discarded <= k <= Filled(d) ==> k <= b.myAru)
  {
    var b := Backoff(d);
    var holes := ToSet(r.holes);
    forall s | s in d.pk ensures d.pk[s].Hole? <==> s in r.holes { assert SlotOK(all, holes, s, d.pk[s]); }
    BackoffLog(all, d, b);
    forall k | BelowHoles(r.holes, k) && d.discarded <= k <= Filled(d) ensures k <= b.myAru {
      AdvanceTo(b.pk, d.discarded, d.highest, k);
    }
    assert d.delivered <= b.myAru;
    forall s | s in b.pk ensures SlotOK(all, {}, s, b.pk[s]) { assert SlotOK(all, holes, s, d.pk[s]); }
    forall s | GivenAt(b.pk, s) && b.delivered < s ensures all[s - 1].Early() { assert GivenAt(d.pk, s); }
  }

  lemma {:induction false} BackoffLog(all: seq<Packet>, d: Dstate, b: Dstate)
    requires LogOK(all, d.log, d.delivered, d.pk) && b == Backoff(d)
    ensures LogOK(all, b.log, b.delivered, b.pk)
  {
    forall s ensures GivenAt(b.pk, s) <==> GivenAt(d.pk, s) { }
  }
}
