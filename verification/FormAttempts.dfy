// Attempts to form a membership that fail: a daemon that has acted on the FORM2
// token loses its token before it installs, backs off, and is once more a
// member of its old ring, in as good a state as before.  So it may be visited
// again, for any number of attempts.
module FormAttempts {
  import opened Types
  import opened RingArith
  import opened TokenHistory
  import opened Protocol
  import opened Delivery
  import opened TokenVisit
  import opened Form
  import opened FormRecords
  import opened Evs
  import opened FormEvs
  import opened OpRing
  import opened OpInv
  import opened OpToForm
  import opened EvsVisit
  import opened EvsRing
  import opened EvsInv
  import opened EvsSafety
  import opened FormToEvs
  import F = FormToken

  // Memb_token_loss, for a daemon that is forming a membership or recovering.
  function TokenLost(d: Dstate): Dstate {
    (if d.evs then Backoff(d) else d)
      .(threshold := BLOCK_REGULAR_DELIVERY, justInstalled := false, last := d.last.(seqNo := 0, aru := 0))
  }

  // ------------------------------------------------------ what recovery adds

  // From daemon b that entered by record r to daemon e, still in recovery.
  predicate Tried(b: Dstate, e: Dstate, r: RingInfo) {
    b.pk.Keys <= e.pk.Keys && (e.commit == b.commit || e.commit == CommitSet(r.commit, r.trans))
  }

  lemma {:induction false} AcceptTries(v: Recovery, s: Estate, i: int, t: Token, offer: seq<Payload>)
    requires ETurn(v, s, i, t)
    ensures s.ds[i].me == i
    ensures var e := EAccepted(v, s, i, t, offer);
            |e.ds| == |s.ds| && (forall j :: 0 <= j < |s.ds| && j != i ==> e.ds[j] == s.ds[j])
            && (e.ds[i].evs ==> Tried(s.ds[i], e.ds[i], v.olds[i].r))
  {
    hide Core, Chain, Arq, EHistOK, ENetworkOK, EDaemonsOK, ERequestsOK, EOwnersOK, EFlowOK, Kept, Sent, Settle, Answered, EvsPre, Complete, EvsLog, Installed, Stable;
    EAcceptedIs(v, s, i, t, offer);
    ETurnPre(v, s, i, t);
    var d, o, ring := s.ds[i], v.olds[i], v.w.ring;
    ETurnAru(v, s, i, t);
    KeptPace(ring, o.all, o.r, d, t);
    var e, u := Complete(Kept(ring, d, t)), Sent(ring, d, t);
    if Min(e.last.aru, u.aru) == v.last {
      SettleInstalls(o.all, o.r, e, u);
      InstalledMemb(o.all, o.r, Settle(e, u, 0), e.me, e.future);
    } else {
      SettleInEvs(e, u);
      KeptCommit(ring, d, t);
    }
  }

  lemma {:induction false} KeptCommit(ring: Ring, d: Dstate, t: Token)
    requires 0 <= d.me < |ring.seg|
    ensures var e := Complete(Kept(ring, d, t)); e.commit == d.commit || e.commit == d.futureCommit
  {
    hide AnswerAll;
  }

  lemma {:induction false} StepTries(v: Recovery, s: Estate, step: Estep, s': Estate, j: int)
    requires EInv(v, s) && EStepFrom(v, s, step, s') && 0 <= j < v.w.ring.n
    ensures |s'.ds| == v.w.ring.n
    ensures s'.ds[j].evs ==> s.ds[j].evs && Tried(s.ds[j], s'.ds[j], v.olds[j].r)
  {
    hide EHistOK, ERequestsOK, EOwnersOK, EFlowOK, EDaemonsOK, EAccepted, Receive, Judge, ECopyOK, EDaemonOK, ERecent, Arq;
    var i := step.i;
    var d := s.ds[i];
    EPart(v, s, i);
    MeOf(v, s.hist, s.sent, i, d, s.at[i]);
    match step
    case Take(_, c, offer) =>
      assert ECopyOK(v, s, c);
      if Judge(d, v.w.ring, c.token) == Accept {
        EAcceptedIsNext(v, s, i, c);
        AcceptTries(v, s, i, c.token, offer);
      }
    case Again(_) =>
    case Get(_, p) => ReceiveTouches(d, p);
    case Limit(_, level) =>
  }

  // A daemon that is still in recovery has been so all along.
  lemma {:induction false} RunTried(v: Recovery, ss: seq<Estate>, k: nat, i: int)
    requires ERun(v, ss) && k < |ss| && 0 <= i < |v.olds|
    ensures |ss[0].ds| == |ss[k].ds| == |v.olds| == v.w.ring.n
    ensures ss[k].ds[i].evs ==> Tried(ss[0].ds[i], ss[k].ds[i], v.olds[i].r) && Behind(v, i, ss[k].ds[i]) && ss[k].ds[i].queue == []
  {
    hide EInit, EStepFrom, EInv, Behind;
    ERunInv(v, ss, 0);
    ERunInv(v, ss, k);
    AsMany(v, ss[0]);
    StillBehind(v, ss[k], i);
    StillBehind(v, ss[0], i);
    if k > 0 {
      RunTried(v, ss, k - 1, i);
      ERunInv(v, ss, k - 1);
      assert ECanStep(v, ss[k - 1], ss[k]);
      var step :| EStepFrom(v, ss[k - 1], step, ss[k]);
      StepTries(v, ss[k - 1], step, ss[k], i);
    }
  }

  lemma {:induction false} AsMany(v: Recovery, s: Estate)
    requires EInv(v, s)
    ensures |v.olds| == v.w.ring.n
  {
    hide EHistOK, ERequestsOK, EOwnersOK, EFlowOK, EDaemonsOK, ENetworkOK, Arq;
  }

  lemma {:induction false} StillBehind(v: Recovery, s: Estate, i: int)
    requires EInv(v, s) && 0 <= i < v.w.ring.n
    ensures |s.ds| == |v.olds| == v.w.ring.n
    ensures s.ds[i].evs ==> Behind(v, i, s.ds[i]) && s.ds[i].queue == []
  {
    hide EHistOK, ERequestsOK, EOwnersOK, EFlowOK, EDaemonsOK, ENetworkOK, Behind, Stable, Arq, Installed;
    EPart(v, s, i);
    MeOf(v, s.hist, s.sent, i, s.ds[i], s.at[i]);
  }

  // ------------------------------------------------------ one member, one attempt

  // What becomes of a member after it was visited: packets come, and then it
  // loses its token, or it acts on the FORM2 token and loses its token at some
  // moment k of the run of recovery, as daemon i of the new ring.
  datatype Try =
    | Waited(ps: seq<Packet>)
    | Recovered(ps: seq<Packet>, v: Recovery, i: nat, ss: seq<Estate>, k: nat)

  ghost predicate Happened(all: seq<Packet>, m: Dstate, r: RingInfo, t: Form2, y: Try) {
    && Late(all, m.memb, y.ps, r.highest)
    && (y.Recovered? ==>
          && y.i < |y.v.olds| && y.v.olds[y.i] == Old(all, r) && ERun(y.v, y.ss) && y.k < |y.ss|
          && y.i < |y.ss[0].ds| && y.ss[0].ds[y.i] == Enter(ReceiveAll(m, y.ps), r, t).(me := y.i)
          && y.i < |y.ss[y.k].ds| && y.ss[y.k].ds[y.i].evs)
  }

  ghost function Left(m: Dstate, y: Try): Dstate
    requires y.Recovered? ==> y.k < |y.ss| && y.i < |y.ss[y.k].ds|
  {
    match y
    case Waited(ps) => TokenLost(ReceiveAll(m, ps))
    case Recovered(ps, v, i, ss, k) => TokenLost(ss[k].ds[i]).(me := m.me)
  }

  // As good a member as before: it has all that it had, and its Aru is its own
  // or that of a member that the token visited.
  ghost predicate AsGood(all: seq<Packet>, m: Dstate, r: RingInfo, ids: set<int>, b: Dstate) {
    && Core(all, {}, b) && OldMember(b) && KeepsOwn(all, b) && Still(b, m.memb) && b.me == m.me && CommitsTo(b, ids)
    && m.myAru <= b.myAru && (b.aru == m.aru || b.aru == r.aru)
    && (forall s :: HasNumber(m, s) ==> HasNumber(b, s))
  }

  lemma {:induction false} MarkGrows(d: Dstate, holes: seq<int>, future: set<int>)
    ensures d.pk.Keys <= MarkHoles(d, holes, future).pk.Keys && MarkHoles(d, holes, future).discarded == d.discarded
  {
    if holes != [] { MarkGrows(d, holes[..|holes| - 1], future); }
  }

  lemma {:induction false} EnterHas(all: seq<Packet>, d: Dstate, r: RingInfo, t: Form2, s: int)
    requires ReadyFor(all, d, r, t) && HasNumber(d, s)
    ensures HasNumber(Enter(d, r, t), s)
  {
    hide Core, DiscardRegular, MarkHoles;
    AtLeast(all, d, r);
    var d1 := d.(highest := r.highest, aru := r.aru);
    var d2 := d1.(lastSeq := t.seqNo, future := t.id, numRetrans := 0, numSent := 0);
    CoreOfRing(all, {}, d1, d2);
    DiscardRegularKeeps(all, d2);
    DiscardHas(d2, s);
    MarkGrows(DiscardRegular(d2), r.holes, t.members);
  }

  lemma {:induction false} SameHas(f: Dstate, b: Dstate, s: int)
    requires f.discarded == b.discarded && f.pk.Keys <= b.pk.Keys && HasNumber(f, s)
    ensures HasNumber(b, s)
  {
    if s in f.pk { assert s in f.pk.Keys; }
  }

  // Packets that come in do no harm.
  lemma {:induction false} LaterAsGood(all: seq<Packet>, m: Dstate, r: RingInfo, ids: set<int>, top: int, d: Dstate)
    requires KeepsOwn(all, m) && Still(m, m.memb) && CommitsTo(m, ids)
    requires Later(m, d, top) && Core(all, {}, d) && OldMember(d)
    ensures AsGood(all, m, r, ids, d) && d.aru == m.aru
  {
    hide Core, OldMember, HasNumber;
    forall s | HasNumber(m, s) ensures HasNumber(d, s) { LaterHas(m, d, top, s); }
  }

  lemma {:induction false} LostAsGood(all: seq<Packet>, m: Dstate, r: RingInfo, ids: set<int>, b: Dstate)
    requires AsGood(all, m, r, ids, b)
    ensures AsGood(all, m, r, ids, TokenLost(b))
  {
    hide Core, HasNumber;
    var e := TokenLost(b);
    CoreOfRing(all, {}, b, e);
    forall s | HasNumber(b, s) ensures HasNumber(e, s) { SameHas(b, e, s); }
  }

  lemma {:induction false} WaitedAsGood(all: seq<Packet>, ms: seq<Dstate>, r: RingInfo, ids: set<int>, t: Form2, x: int, y: Try)
    requires Formed(all, ms, r, ids, t) && 0 <= x < |ms| && Still(ms[x], ms[x].memb)
    requires Happened(all, ms[x], r, t, y) && y.Waited?
    ensures AsGood(all, ms[x], r, ids, Left(ms[x], y))
  {
    hide Core, OldMember, KeepsOwn, CommitsTo, RecordOK, ReceiveAll, AsGood, Later, Late;
    var m := ms[x];
    var d := ReceiveAll(m, y.ps);
    RecordBounds(all, ms, r, ids, t, x);
    StaysReady(all, m, y.ps, r.highest);
    LaterAsGood(all, m, r, ids, r.highest, d);
    LaterShape(m, d, r.highest);
    LostAsGood(all, m, r, ids, d);
  }

  // No own packet is on record as a hole, and nothing else that the daemon had.
  lemma {:induction false} HadIsNoHole(all: seq<Packet>, ms: seq<Dstate>, r: RingInfo, ids: set<int>, x: int, s: int)
    requires RecordOK(ms, r, ids) && 0 <= x < |ms| && HasNumber(ms[x], s)
    ensures s !in r.holes
  {
    hide HasNumber;
    assert !Missed(ms, s);
  }

  lemma {:induction false} RecordCommits(ms: seq<Dstate>, r: RingInfo, ids: set<int>)
    requires RecordOK(ms, r, ids)
    ensures Distinct(r.commit) && ToSet(r.commit) <= ids
  {
  }

  // Where the daemon is when it loses its token.
  lemma {:induction false} RecoveredHas(all: seq<Packet>, ms: seq<Dstate>, r: RingInfo, ids: set<int>, t: Form2, x: int, y: Try)
    requires Formed(all, ms, r, ids, t) && 0 <= x < |ms| && Still(ms[x], ms[x].memb)
    requires Happened(all, ms[x], r, t, y) && y.Recovered?
    ensures var e, m := y.ss[y.k].ds[y.i], ms[x];
            && Recovering(all, e, r) && BelowHoles(r.holes, e.delivered) && e.queue == [] && e.memb == m.memb
            && (e.commit == m.commit || e.commit == CommitSet(r.commit, r.trans))
            && (forall s :: HasNumber(m, s) ==> HasNumber(e, s) && s !in r.holes)
  {
    hide Core, OldMember, KeepsOwn, CommitsTo, RecordOK, ReceiveAll, Late, Enter, ERun, Arq, Recovering, Pace, HasNumber, Later;
    var m := ms[x];
    var d := ReceiveAll(m, y.ps);
    RecordBounds(all, ms, r, ids, t, x);
    StaysReady(all, m, y.ps, r.highest);
    LaterShape(m, d, r.highest);
    FormReady(all, ms, r, ids, t, x, d);
    EnterKeeps(all, d, r, t);
    RecoveringFrom(all, Enter(d, r, t), r);
    RunTried(y.v, y.ss, y.k, y.i);
    var b, e := Enter(d, r, t), y.ss[y.k].ds[y.i];
    forall s | HasNumber(m, s) ensures HasNumber(e, s) && s !in r.holes {
      HadIsNoHole(all, ms, r, ids, x, s);
      LaterHas(m, d, r.highest, s);
      EnterHas(all, d, r, t, s);
      SameHas(b, b.(me := y.i), s);
      TriedHas(all, b.(me := y.i), e, r, s);
    }
  }

  lemma {:induction false} LaterHas(m: Dstate, d: Dstate, top: int, s: int)
    requires Later(m, d, top) && HasNumber(m, s)
    ensures HasNumber(d, s)
  {
  }

  lemma {:induction false} TriedHas(all: seq<Packet>, b: Dstate, e: Dstate, r: RingInfo, s: int)
    requires Tried(b, e, r) && b.discarded == r.aru && Recovering(all, e, r) && HasNumber(b, s)
    ensures HasNumber(e, s)
  {
    hide Core;
    if s in b.pk { assert s in b.pk.Keys; }
  }

  lemma {:induction false} RecoveredAsGood(all: seq<Packet>, ms: seq<Dstate>, r: RingInfo, ids: set<int>, t: Form2, x: int, y: Try)
    requires Formed(all, ms, r, ids, t) && 0 <= x < |ms| && Still(ms[x], ms[x].memb)
    requires Happened(all, ms[x], r, t, y) && y.Recovered?
    ensures AsGood(all, ms[x], r, ids, Left(ms[x], y))
  {
    hide Core, RecordOK, Enter, ERun, Arq, Recovering, OldMember, HasNumber, ReceiveAll, Late;
    var m, e, b := ms[x], y.ss[y.k].ds[y.i], Left(ms[x], y);
    RecordBounds(all, ms, r, ids, t, x);
    RecordCommits(ms, r, ids);
    RecoveredHas(all, ms, r, ids, t, x, y);
    RecoveringFrom(all, e, r);
    BackoffRestores(all, e, r);
    var f := Backoff(e);
    forall s | HasNumber(m, s) ensures HasNumber(b, s) {
      assert HasNumber(f, s);
      SameHas(f, b, s);
    }
    forall s | 1 <= s <= |all| && all[s - 1].sender == b.me ensures HasNumber(b, s) { assert HasNumber(m, s); }
    CoreOfRing(all, {}, f, b);
    SameMember(f, b);
    FilledUp(m, b, r);
  }

  lemma {:induction false} RecoveringFrom(all: seq<Packet>, e: Dstate, r: RingInfo)
    requires Recovering(all, e, r)
    ensures e.evs && !e.fault && e.discarded == r.aru && e.highest == r.highest
  {
  }

  lemma {:induction false} SameMember(f: Dstate, b: Dstate)
    requires OldMember(f) && b == f.(threshold := b.threshold, justInstalled := b.justInstalled, last := b.last, me := b.me)
    ensures OldMember(b)
  {
  }

  // It counts up to what it had in sequence.
  lemma {:induction false} FilledUp(m: Dstate, b: Dstate, r: RingInfo)
    requires OldMember(m) && r.aru <= m.myAru && m.highest <= b.highest && b.discarded == r.aru
    requires b.myAru == Advance(b.pk, b.discarded, b.highest)
    requires forall s :: HasNumber(m, s) ==> HasNumber(b, s)
    ensures m.myAru <= b.myAru
  {
    forall s | r.aru < s <= m.myAru ensures s in b.pk { assert HasNumber(m, s); }
    AdvanceTo(b.pk, r.aru, b.highest, m.myAru);
  }

  // ------------------------------------------------------------- many attempts

  // One journey of a FORM1 token, with the names of the ring's daemons, and the
  // id of the membership that it proposes.
  datatype Tour = Tour(w: World, names: seq<int>, p: F.Places, c: F.Daemon1, vs: seq<F.Daemon1>, ts: seq<F.Token1>, f: F.Token1, id: MembId) {
    function Visited(): seq<Dstate> { F.States([c] + vs) }
    function Says(): Form2 { Says2(names, f, id) }
  }

  // The token visits the members `at`, among others.
  ghost predicate Visits(memb: MembId, ids: set<int>, ms: seq<Dstate>, j: Tour, at: seq<int>) {
    && Places(at, |ms|) && j.w.memb == memb
    && F.Completed(j.p, j.c, j.vs, j.ts, j.f) && NamedBy(j.w, j.names, [j.c] + j.vs)
    && Visitable(j.Visited(), ids) && Seen(j.Visited(), memb) == Picked(ms, at) != []
  }

  // Between two moments packets come to member x, or the FORM1 token visits the
  // members `at`, who fail to install.  A daemon that installs, or goes away, is
  // not visited again.
  datatype Episode =
    | Came(x: nat, ps: seq<Packet>)
    | Failed(j: Tour, at: seq<int>, tries: seq<Try>)

  predicate Places(at: seq<int>, n: nat) {
    Increasing(at) && forall x :: 0 <= x < |at| ==> 0 <= at[x] < n
  }

  function Picked(ms: seq<Dstate>, at: seq<int>): seq<Dstate>
    requires Places(at, |ms|)
  {
    seq(|at|, x requires 0 <= x < |at| => ms[at[x]])
  }

  ghost predicate Follows(all: seq<Packet>, memb: MembId, ids: set<int>, ms: seq<Dstate>, e: Episode, ms': seq<Dstate>) {
    match e
    case Came(x, ps) => x < |ms| && Late(all, memb, ps, |all|) && ms' == ms[x := ReceiveAll(ms[x], ps)]
    case Failed(j, at, tries) =>
      && Visits(memb, ids, ms, j, at) && |ms'| == |ms| && |tries| == |at|
      && (forall y :: 0 <= y < |ms| && y !in at ==> ms'[y] == ms[y])
      && (forall x :: 0 <= x < |at| ==> Fails(all, memb, ms[at[x]], j, tries[x], ms'[at[x]]))
  }

  ghost predicate Fails(all: seq<Packet>, memb: MembId, m: Dstate, j: Tour, y: Try, m': Dstate) {
    var r := RecordOf(memb, j.f.rings);
    r.SomeRing? && Happened(all, m, r.r, j.Says(), y) && m' == Left(m, y)
  }

  ghost predicate History(all: seq<Packet>, memb: MembId, ids: set<int>, hs: seq<seq<Dstate>>, es: seq<Episode>) {
    && |hs| == |es| + 1
    && forall k :: 0 <= k < |es| ==> Follows(all, memb, ids, hs[k], es[k], hs[k + 1])
  }

  // What each of them had of its ring it still has.
  ghost predicate NothingLost(ms: seq<Dstate>, ms': seq<Dstate>) {
    |ms'| == |ms| && forall x, s :: 0 <= x < |ms| && HasNumber(ms[x], s) ==> HasNumber(ms'[x], s)
  }

  // Members of which each is as good as before, or better, are members.
  lemma {:induction false} MembersStay(all: seq<Packet>, memb: MembId, ids: set<int>, ms: seq<Dstate>, r: RingInfo, ms': seq<Dstate>)
    requires Members(all, memb, ms, ids) && |ms'| == |ms|
    requires forall x :: 0 <= x < |ms| ==> AsGood(all, ms[x], r, ids, ms'[x])
    requires forall x, y :: 0 <= x < |ms| && 0 <= y < |ms| ==> ms'[x].aru == ms[x].aru || r.aru <= ms[y].myAru
    ensures Members(all, memb, ms', ids) && NothingLost(ms, ms')
  {
    hide Core, OldMember, KeepsOwn, CommitsTo, HasNumber;
    forall x, s | 0 <= x < |ms| && HasNumber(ms[x], s) ensures HasNumber(ms'[x], s) { assert AsGood(all, ms[x], r, ids, ms'[x]); }
    forall x, y | 0 <= x < |ms'| && 0 <= y < |ms'| ensures ms'[x].aru <= ms'[y].myAru {
      assert AsGood(all, ms[x], r, ids, ms'[x]) && AsGood(all, ms[y], r, ids, ms'[y]);
      assert ms[x].memb == ms[y].memb;
      assert ms[x].aru <= ms[y].myAru;
    }
    forall x, y | 0 <= x < y < |ms'| ensures ms'[x].me != ms'[y].me {
      assert AsGood(all, ms[x], r, ids, ms'[x]) && AsGood(all, ms[y], r, ids, ms'[y]);
      assert ms[x].me != ms[y].me;
    }
  }

  lemma {:induction false} SameAsGood(all: seq<Packet>, m: Dstate, r: RingInfo, ids: set<int>)
    requires Core(all, {}, m) && OldMember(m) && KeepsOwn(all, m) && Still(m, m.memb) && CommitsTo(m, ids)
    ensures AsGood(all, m, r, ids, m)
  {
  }

  lemma {:induction false} MemberParts(all: seq<Packet>, memb: MembId, ids: set<int>, ms: seq<Dstate>, x: int)
    requires Members(all, memb, ms, ids) && 0 <= x < |ms|
    ensures Core(all, {}, ms[x]) && OldMember(ms[x]) && KeepsOwn(all, ms[x]) && Still(ms[x], memb) && CommitsTo(ms[x], ids)
    ensures ms[x].highest <= |all|
  {
    hide OldMember, KeepsOwn, CommitsTo;
    CoreBounds(all, {}, ms[x]);
  }

  lemma {:induction false} CameKeeps(all: seq<Packet>, memb: MembId, ids: set<int>, ms: seq<Dstate>, x: nat, ps: seq<Packet>)
    requires Members(all, memb, ms, ids) && x < |ms| && Late(all, memb, ps, |all|)
    ensures var ms' := ms[x := ReceiveAll(ms[x], ps)]; Members(all, memb, ms', ids) && NothingLost(ms, ms')
  {
    hide Core, OldMember, KeepsOwn, CommitsTo, Visitable, ReceiveAll, AsGood, Members, Later, NothingLost;
    var ms', r := ms[x := ReceiveAll(ms[x], ps)], RingInfo(memb, 0, 0, [], 0, []);
    MemberParts(all, memb, ids, ms, x);
    StaysReady(all, ms[x], ps, |all|);
    LaterAsGood(all, ms[x], r, ids, |all|, ms'[x]);
    forall y | 0 <= y < |ms| ensures AsGood(all, ms[y], r, ids, ms'[y]) && ms'[y].aru == ms[y].aru {
      if y != x {
        MemberParts(all, memb, ids, ms, y);
        SameAsGood(all, ms[y], r, ids);
      }
    }
    MembersStay(all, memb, ids, ms, r, ms');
  }

  lemma {:induction false} PickedMembers(all: seq<Packet>, memb: MembId, ids: set<int>, ms: seq<Dstate>, j: Tour, at: seq<int>)
    requires Members(all, memb, ms, ids) && Visits(memb, ids, ms, j, at)
    ensures Gathered(all, memb, Picked(ms, at), ids, j.Visited())
  {
    hide Core, OldMember, KeepsOwn, CommitsTo, Visitable, F.Completed, NamedBy, Seen;
    VisitablePart(ms, ids, Picked(ms, at), at);
    assert [j.c] + j.vs != [];
  }

  // The record of the ring, as the token hands it out.
  lemma {:induction false} PickedFormed(all: seq<Packet>, memb: MembId, ids: set<int>, ms: seq<Dstate>, j: Tour, at: seq<int>)
    requires Members(all, memb, ms, ids) && Visits(memb, ids, ms, j, at)
    ensures var r := RecordOf(memb, j.f.rings);
            r.SomeRing? && Formed(all, Picked(ms, at), r.r, ids, j.Says())
  {
    hide Members, Visitable, FoldRings, RecordOf, F.Completed, NamedBy, Seen, Formed, Gathered, Concludes;
    PickedMembers(all, memb, ids, ms, j, at);
    F.FormedOfVisited(j.p, j.c, j.vs, j.ts, j.f);
    JourneyConcludes(j.w, all, Picked(ms, at), j.names, j.p, j.c, j.vs, j.ts, j.f, j.id);
    RingIsFormed(all, memb, Picked(ms, at), ids, j.Visited(), j.Says());
  }

  // The Aru on record is one of a visited member, so everybody has got as far.
  lemma {:induction false} RecordAru(all: seq<Packet>, memb: MembId, ids: set<int>, ms: seq<Dstate>, at: seq<int>, r: RingInfo, y: int)
    requires Members(all, memb, ms, ids) && Places(at, |ms|) && RecordOK(Picked(ms, at), r, ids) && 0 <= y < |ms|
    ensures r.aru <= ms[y].myAru
  {
    hide Core, OldMember, KeepsOwn, CommitsTo, Ids, Missed;
    var z :| 0 <= z < |at| && ms[at[z]].aru == r.aru;
    assert ms[at[z]].memb == ms[y].memb;
  }

  lemma {:induction false} FailedKeeps(all: seq<Packet>, memb: MembId, ids: set<int>, ms: seq<Dstate>, e: Episode, ms': seq<Dstate>)
    requires Members(all, memb, ms, ids) && Follows(all, memb, ids, ms, e, ms') && e.Failed?
    ensures Members(all, memb, ms', ids) && NothingLost(ms, ms')
  {
    hide Members, F.Completed, NamedBy, AsGood, Formed, RecordOK, Happened, Left, RecordOf, Core, OldMember, KeepsOwn, CommitsTo, Seen, Visitable, NothingLost;
    PickedFormed(all, memb, ids, ms, e.j, e.at);
    var r, vs := RecordOf(memb, e.j.f.rings).r, Picked(ms, e.at);
    FormedRecord(all, vs, r, ids, e.j.Says());
    forall y | 0 <= y < |ms| ensures AsGood(all, ms[y], r, ids, ms'[y]) {
      MemberParts(all, memb, ids, ms, y);
      if y in e.at {
        var x :| 0 <= x < |e.at| && e.at[x] == y;
        assert Fails(all, memb, ms[e.at[x]], e.j, e.tries[x], ms'[e.at[x]]) && vs[x] == ms[y];
        if e.tries[x].Waited? {
          WaitedAsGood(all, vs, r, ids, e.j.Says(), x, e.tries[x]);
        } else {
          RecoveredAsGood(all, vs, r, ids, e.j.Says(), x, e.tries[x]);
        }
      } else {
        SameAsGood(all, ms[y], r, ids);
      }
    }
    forall y | 0 <= y < |ms| ensures r.aru <= ms[y].myAru { RecordAru(all, memb, ids, ms, e.at, r, y); }
    MembersStay(all, memb, ids, ms, r, ms');
  }

  lemma {:induction false} FormedRecord(all: seq<Packet>, ms: seq<Dstate>, r: RingInfo, ids: set<int>, t: Form2)
    requires Formed(all, ms, r, ids, t)
    ensures RecordOK(ms, r, ids)
  {
  }

  lemma {:induction false} LostTrans(hs: seq<seq<Dstate>>, k: nat)
    requires k < |hs| && (k > 0 ==> NothingLost(hs[0], hs[k - 1]) && NothingLost(hs[k - 1], hs[k]))
    ensures NothingLost(hs[0], hs[k])
  {
    hide HasNumber;
    if k > 0 {
      forall x, s | 0 <= x < |hs[0]| && HasNumber(hs[0][x], s) ensures HasNumber(hs[k][x], s) { assert HasNumber(hs[k - 1][x], s); }
    }
  }

  // After any number of attempts that failed, in any way, for any of them, the
  // daemons of the ring are members as they were when it stopped, and have all
  // that they had.
  lemma {:induction false} HistoryKeeps(all: seq<Packet>, memb: MembId, ids: set<int>, hs: seq<seq<Dstate>>, es: seq<Episode>, k: nat)
    requires History(all, memb, ids, hs, es) && k < |hs| && Members(all, memb, hs[0], ids)
    ensures Members(all, memb, hs[k], ids) && NothingLost(hs[0], hs[k])
  {
    hide Members, Late, Visits, Fails, NothingLost, HasNumber;
    if k > 0 {
      HistoryKeeps(all, memb, ids, hs, es, k - 1);
      assert Follows(all, memb, ids, hs[k - 1], es[k - 1], hs[k - 1 + 1]);
      match es[k - 1]
      case Came(x, ps) => CameKeeps(all, memb, ids, hs[k - 1], x, ps);
      case Failed(_, _, _) => FailedKeeps(all, memb, ids, hs[k - 1], es[k - 1], hs[k]);
    }
    LostTrans(hs, k);
  }

  // For every run of an old ring, whose members stopped at any moments, for any
  // failed attempts since, and for every journey of one more FORM1 token: none of
  // the members that it found faults on the FORM2 token that it becomes; each of
  // them is then in the state that recovery starts from, or has dropped a token
  // with too many holes.
  lemma {:induction false} RunsEnterRecovery(w: World, ss: seq<Rstate>, k: nat, order: seq<int>, times: seq<nat>, ids: set<int>,
                                             hs: seq<seq<Dstate>>, es: seq<Episode>, j: Tour, at: seq<int>,
                                             x: int, ps: seq<Packet>, v: Recovery, i: int, pos: int)
    requires Stopped(w, ss, k, order, times) && |ids| <= MAX_PROCS_RING
    requires forall y :: 0 <= y < |order| ==>
               CommitsTo(ss[times[y]].ds[order[y]], ids) && Still(ss[times[y]].ds[order[y]], w.memb)
    requires History(ss[k].all, w.memb, ids, hs, es) && hs[0] == Snapshots(ss, order, times)
    requires j.w == w && Visits(w.memb, ids, hs[|es|], j, at)
    requires RecoveryOK(v) && 0 <= i < |v.olds| && -v.w.ring.n < pos <= 0 && pos % v.w.ring.n == i && v.last == j.f.seqNo
    requires RecordOf(w.memb, j.f.rings) == SomeRing(v.olds[i].r) && v.olds[i].all == ss[k].all && v.w.memb == j.id
    requires 0 <= x < |at| && Late(ss[k].all, w.memb, ps, v.olds[i].r.highest)
    ensures var d := ReceiveAll(hs[|es|][at[x]], ps);
            var e := ReadForm2(d, j.Says());
            if WellFormed(j.f.rings) then !e.fault && Entered(v, i, e.(me := i), pos) else e == d
  {
    hide Run, Visitable, CommitsTo, Seen, Core, KeepsOwn, Enter, Entered, FoldRings, RecordOf, Late, ReceiveAll, RecoveryOK, F.Completed, WellFormed, NamedBy, Follows, OldMember;
    RunsAreVisitable(w, ss, k, order, times, ids);
    HistoryKeeps(ss[k].all, w.memb, ids, hs, es, |es|);
    PickedMembers(ss[k].all, w.memb, ids, hs[|es|], j, at);
    MembersEnterRecovery(w, ss[k].all, Picked(hs[|es|], at), ids, j.names, j.p, j.c, j.vs, j.ts, j.f, x, ps, v, i, pos);
  }
}
