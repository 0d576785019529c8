// Where the members that a FORM1 token visits come from: the states in which
// the daemons of a ring in normal operation stopped handling its token.
module OpToForm {
  import opened Types
  import opened RingArith
  import opened TokenHistory
  import opened Protocol
  import opened Delivery
  import opened TokenVisit
  import opened OpRing
  import opened OpInv
  import opened OpSafety
  import opened OpTheorems
  import opened OpWindows
  import opened Form
  import opened FormRecords
  import opened FormEvs

  // -------------------------------------------------- daemons keep their packets

  ghost predicate AllKeepOwn(s: Rstate) {
    forall i :: 0 <= i < |s.ds| ==> KeepsOwn(s.all, s.ds[i])
  }

  lemma {:induction false} LoopFrees(d: Dstate, i: int, s: int)
    requires s in d.pk
    ensures s in DiscardLoop(d, i).pk || i <= s <= d.aru
    decreases d.aru - i
  {
    if i <= d.aru && i in d.pk && !d.pk[i].Hole? && i != s { LoopFrees(Release(d, i), i + 1, s); }
  }

  lemma {:induction false} SettleHas(all: seq<Packet>, d: Dstate, sent: Token, k: nat, s: int)
    requires Core(all, {}, d) && d.myAru <= d.highest && !d.evs && !d.fault
    requires d.aru == d.discarded <= Min(d.last.aru, sent.aru) <= d.myAru
    requires HasNumber(d, s)
    ensures HasNumber(Settle(d, sent, k), s)
  {
    hide Core, NewAru, DiscardRegular, DeliverAgreed, DeliverReliable;
    NotedKeeps(all, d, sent);
    var f := Noted(d, sent);
    DiscardRegularKeeps(all, f);
    DiscardHas(f, s);
    var g := DiscardRegular(f);
    EventsTouch(g, 0, 0);
    var h := DeliverAgreed(g);
    EventsTouch(h, h.highest - k + 1, k);
  }

  lemma {:induction false} DiscardHas(f: Dstate, s: int)
    requires HasNumber(f, s) && !DiscardRegular(f).fault
    ensures HasNumber(DiscardRegular(f), s)
  {
    hide DiscardLoop;
    if f.discarded < f.aru {
      DiscardLoopOnly(f, f.discarded + 1);
      if s in f.pk { LoopFrees(f, f.discarded + 1, s); }
    }
  }

  lemma {:induction false} DiscardLoopOnly(d: Dstate, i: int)
    ensures DiscardLoop(d, i).aru == d.aru && DiscardLoop(d, i).discarded == d.discarded
    decreases d.aru - i
  {
    if i <= d.aru && i in d.pk && !d.pk[i].Hole? { DiscardLoopOnly(Release(d, i), i + 1); }
  }

  lemma {:induction false} SendNewHas(ring: Ring, d: Dstate, offer: seq<Payload>, k: nat, s: int)
    requires k <= |offer|
    ensures var e := SendNew(ring, d, offer, k).d;
            e.discarded == d.discarded && e.highest == d.highest + k
            && (HasNumber(d, s) || d.highest < s <= d.highest + k ==> HasNumber(e, s))
  {
    hide QueueBcast;
    if k > 0 { SendNewHas(ring, d, offer, k - 1, s); }
  }

  lemma {:induction false} ReadyHas(ring: Ring, d: Dstate, t: Token, offer: seq<Payload>, top: int, s: int)
    requires 0 <= d.me < |ring.personal| == |ring.seg| && Raise(d, t).highest == top
    ensures var k := NumSent(d, ring, t, offer);
            HasNumber(d, s) || top < s <= top + k ==> HasNumber(Ready(ring, d, t, offer).d, s)
  {
    hide AnswerAll, SendNew, Advance, Allowed;
    SendNewHas(ring, Raise(d, t), offer, NumSent(d, ring, t, offer), s);
  }

  lemma {:induction false} AcceptOwn(w: World, s: Rstate, i: int, t: Token, offer: seq<Payload>)
    requires Turn(w, s, i, t) && AllKeepOwn(s)
    ensures s.ds[i].me == i && AllKeepOwn(Accepted(w, s, i, t, offer))
  {
    hide Core, CastOK, NetworkOK, RequestsOK, HistOK, DaemonOK, HandleToken, NumSent, Leaves, Ready, Chain, Stable, Created, VisitPre, KeepsOwn;
    TurnPre(w, s, i, t);
    VisitedOK(w, s, i, t, offer);
    var s' := Accepted(w, s, i, t, offer);
    var d := s.ds[i];
    var more := Fresher(w.ring, s.all, d, t, offer);
    forall j | 0 <= j < |s'.ds| ensures KeepsOwn(s'.all, s'.ds[j]) {
      assert KeepsOwn(s.all, s.ds[j]) && DaemonOK(w, s.all, s.hist, s.sent, j, s.ds[j], s.at[j]);
      SendersOf(w, s, i, t, offer);
      if j == i {
        VisitorKeeps(w, s, i, t, offer);
      } else {
        MeIs(w, s, j);
        OthersOwn(s.all, more, s.ds[j], i);
      }
    }
  }

  lemma {:induction false} MeIs(w: World, s: Rstate, j: int)
    requires Inv(w, s) && 0 <= j < w.ring.n
    ensures s.ds[j].me == j
  {
    assert DaemonOK(w, s.all, s.hist, s.sent, j, s.ds[j], s.at[j]);
  }

  lemma {:induction false} SendersOf(w: World, s: Rstate, i: int, t: Token, offer: seq<Payload>)
    requires Turn(w, s, i, t) && s.ds[i].me == i
    ensures var more := Fresher(w.ring, s.all, s.ds[i], t, offer);
            |more| == Min(|offer|, NumSent(s.ds[i], w.ring, t, offer))
            && forall x :: 0 <= x < |more| ==> more[x].sender == i
  {
    hide NumSent, Core, HistOK, NetworkOK, DaemonsOK, RequestsOK, CastOK;
    CreatedAt(i, s.ds[i].memb, |s.all|, offer, Min(|offer|, NumSent(s.ds[i], w.ring, t, offer)));
  }

  lemma {:induction false} OthersOwn(all: seq<Packet>, more: seq<Packet>, d: Dstate, i: int)
    requires KeepsOwn(all, d) && d.me != i && forall x :: 0 <= x < |more| ==> more[x].sender == i
    ensures KeepsOwn(all + more, d)
  {
  }

  lemma {:induction false} VisitorHas(ring: Ring, all: seq<Packet>, d: Dstate, t: Token, offer: seq<Payload>, q: int)
    requires VisitPre(ring, all, d, t) && d.aru == d.discarded && Raise(d, t).highest == |all|
    requires d.aru <= Min(LastAru(d), Leaves(ring, d, t, offer).aru) <= Ready(ring, d, t, offer).d.myAru
    requires HasNumber(d, q) || |all| < q <= |all| + NumSent(d, ring, t, offer)
    ensures HasNumber(HandleToken(ring, d, t, offer).d, q)
  {
    hide Core, Settle, Prepared, TokenOut, OwnRequests, AnswerAll, NumSent, Created, HandleToken, HasNumber;
    PreparedKeeps(ring, all, d, t, offer);
    VisitUnfolds(ring, d, t, offer);
    ReadyHas(ring, d, t, offer, |all|, q);
    var b := Ready(ring, d, t, offer).d;
    SettleHas(all + Fresher(ring, all, d, t, offer), b, Leaves(ring, d, t, offer), b.numSent, q);
  }

  lemma {:induction false} VisitorKeeps(w: World, s: Rstate, i: int, t: Token, offer: seq<Payload>)
    requires Turn(w, s, i, t) && s.ds[i].me == i && KeepsOwn(s.all, s.ds[i])
    ensures var s' := Accepted(w, s, i, t, offer); KeepsOwn(s'.all, s'.ds[i])
  {
    hide Core, CastOK, NetworkOK, RequestsOK, HistOK, DaemonsOK, HandleToken, NumSent, Chain, Stable, Created, VisitPre, Leaves, Ready, HasNumber;
    TurnPre(w, s, i, t);
    VisitedOK(w, s, i, t, offer);
    TurnExtends(w, s, i, t, offer);
    TurnAru(w, s, i, t, offer);
    var d := s.ds[i];
    SendersOf(w, s, i, t, offer);
    var s' := Accepted(w, s, i, t, offer);
    assert s'.ds[i] == HandleToken(w.ring, d, t, offer).d;
    MeIsAfter(w, s', i);
    forall q | 1 <= q <= |s'.all| && s'.all[q - 1].sender == i ensures HasNumber(s'.ds[i], q) {
      if q <= |s.all| { assert s.all[q - 1] == s'.all[q - 1] && HasNumber(d, q); }
      VisitorHas(w.ring, s.all, d, t, offer, q);
    }
  }

  lemma {:induction false} MeIsAfter(w: World, s: Rstate, j: int)
    requires 0 <= j < |s.ds| == |s.at| && DaemonOK(w, s.all, s.hist, s.sent, j, s.ds[j], s.at[j])
    ensures s.ds[j].me == j
  {
  }

  lemma {:induction false} SameOwn(all: seq<Packet>, d: Dstate, e: Dstate)
    requires KeepsOwn(all, d) && e.me == d.me && e.discarded == d.discarded && d.pk.Keys <= e.pk.Keys
    ensures KeepsOwn(all, e)
  {
    forall s | 1 <= s <= |all| && all[s - 1].sender == e.me ensures HasNumber(e, s) {
      assert HasNumber(d, s);
      if s in d.pk { assert s in d.pk.Keys; }
    }
  }

  lemma {:induction false} StepOwn(w: World, s: Rstate, step: Step, s': Rstate)
    requires Inv(w, s) && AllKeepOwn(s) && StepFrom(w, s, step, s')
    ensures AllKeepOwn(s')
  {
    hide HistOK, RequestsOK, CastOK, Accepted, Receive, DeliverAgreed, DeliverReliable, Judge, CopyOK, DaemonOK, Recent, KeepsOwn;
    var i := step.i;
    var d := s.ds[i];
    assert KeepsOwn(s.all, d);
    if step.Arrive? && Judge(d, w.ring, step.c.token) == Accept {
      assert CopyOK(w, s, step.c) && DaemonOK(w, s.all, s.hist, s.sent, i, d, s.at[i]);
      AcceptedIsNext(w, s, i, step.c);
      AcceptOwn(w, s, i, step.c.token, step.offer);
    } else {
      EventsTouch(d, 1, d.highest);
      if step.Receipt? { ReceiveTouches(d, step.p); }
      assert s'.all == s.all && |s'.ds| == |s.ds|;
      SameOwn(s.all, d, s'.ds[i]);
      forall j | 0 <= j < |s'.ds| ensures KeepsOwn(s'.all, s'.ds[j]) {
        assert KeepsOwn(s.all, s.ds[j]);
      }
    }
  }

  // In every run each daemon frees its own packets only when they are stable.
  lemma {:induction false} RunOwn(w: World, ss: seq<Rstate>, k: nat)
    requires Run(w, ss) && k < |ss|
    ensures AllKeepOwn(ss[k]) && Inv(w, ss[k])
  {
    hide Init, StepFrom, Inv, AllKeepOwn;
    RunInvAt(w, ss, k);
    if k == 0 {
      InitOwn(w, ss[0]);
    } else {
      RunOwn(w, ss, k - 1);
      assert CanStep(w, ss[k - 1], ss[k]);
      var step :| StepFrom(w, ss[k - 1], step, ss[k]);
      StepOwn(w, ss[k - 1], step, ss[k]);
    }
  }

  lemma {:induction false} InitOwn(w: World, s: Rstate)
    requires Init(w, s)
    ensures AllKeepOwn(s)
  {
  }

  // ------------------------------------------------- states of different moments

  // From one moment of a run to a later one: the history and the packets only
  // grow, and a daemon that has handled no token in between has sent nothing.
  ghost predicate Grown(s: Rstate, s': Rstate, j: int) {
    && |s.ds| == |s'.ds| == |s.at| == |s'.at| && 0 <= j < |s.at|
    && s.hist <= s'.hist && s.all <= s'.all && s.at[j] <= s'.at[j]
    && (s.at[j] == s'.at[j] ==> forall q :: |s.all| <= q < |s'.all| ==> s'.all[q].sender != j)
  }

  lemma {:induction false} GrownTrans(s: Rstate, t: Rstate, u: Rstate, j: int)
    requires Grown(s, t, j) && Grown(t, u, j)
    ensures Grown(s, u, j)
  {
    if s.at[j] == u.at[j] {
      forall q | |s.all| <= q < |u.all| ensures u.all[q].sender != j {
        if q < |t.all| { assert u.all[q] == t.all[q]; }
      }
    }
  }

  lemma {:induction false} StepGrows(w: World, s: Rstate, step: Step, s': Rstate, j: int)
    requires Inv(w, s) && StepFrom(w, s, step, s') && 0 <= j < w.ring.n
    ensures Grown(s, s', j)
  {
    hide HistOK, RequestsOK, CastOK, Receive, DeliverAgreed, DeliverReliable, Judge, CopyOK, DaemonOK, Recent, HandleToken, Core, Created, NumSent, Stable, NetworkOK, Leaves, Ready;
    var i := step.i;
    if step.Arrive? && Judge(s.ds[i], w.ring, step.c.token) == Accept {
      assert CopyOK(w, s, step.c) && DaemonOK(w, s.all, s.hist, s.sent, i, s.ds[i], s.at[i]) by { InvParts(w, s); }
      AcceptedIsNext(w, s, i, step.c);
      MeIs(w, s, i);
      VisitedOK(w, s, i, step.c.token, step.offer);
      SendersOf(w, s, i, step.c.token, step.offer);
      AtBelow(w, s, i);
    }
  }

  lemma {:induction false} AtBelow(w: World, s: Rstate, i: int)
    requires Inv(w, s) && 0 <= i < w.ring.n
    ensures s.at[i] < |s.sent|
  {
    assert DaemonOK(w, s.all, s.hist, s.sent, i, s.ds[i], s.at[i]);
  }

  lemma {:induction false} RunGrows(w: World, ss: seq<Rstate>, k: nat, l: nat, j: int)
    requires Run(w, ss) && k <= l < |ss| && 0 <= j < w.ring.n
    ensures Grown(ss[k], ss[l], j) && Inv(w, ss[k]) && Inv(w, ss[l])
    decreases l
  {
    hide StepFrom, Init, Inv, Grown;
    RunInvAt(w, ss, k);
    RunInvAt(w, ss, l);
    if k < l {
      RunGrows(w, ss, k, l - 1, j);
      assert CanStep(w, ss[l - 1], ss[l]);
      var step :| StepFrom(w, ss[l - 1], step, ss[l]);
      StepGrows(w, ss[l - 1], step, ss[l], j);
      GrownTrans(ss[k], ss[l - 1], ss[l], j);
    } else {
      GrownRefl(w, ss[k], j);
    }
  }

  lemma {:induction false} GrownRefl(w: World, s: Rstate, j: int)
    requires Inv(w, s) && 0 <= j < w.ring.n
    ensures Grown(s, s, j)
  {
  }

  // Aru at one moment against My_aru at another, provided the second daemon
  // handled no token since.
  lemma {:induction false} SnapshotStability(w: World, ss: seq<Rstate>, x: nat, y: nat, i: int, j: int)
    requires Run(w, ss) && x < |ss| && y < |ss| && 0 <= i < w.ring.n && 0 <= j < w.ring.n
    requires |ss[x].at| == |ss[y].at| == w.ring.n && (y <= x ==> ss[x].at[j] == ss[y].at[j])
    ensures |ss[x].ds| == |ss[y].ds| == w.ring.n
    ensures ss[x].ds[i].aru <= ss[y].ds[j].myAru
  {
    hide Init, StepFrom, Inv, Run;
    if x <= y {
      AruNeverFalls(w, ss, x, y, i);
      Stability(w, ss, y, i, j);
    } else {
      RunGrows(w, ss, y, x, j);
      LastVisit(w, ss[x], i, j);
      AtMyAru(w, ss[y], j);
    }
  }

  lemma {:induction false} AtMyAru(w: World, s: Rstate, j: int)
    requires Inv(w, s) && 0 <= j < w.ring.n
    ensures s.at[j] < |s.hist| && MyAt(s.hist, s.at[j]) <= s.ds[j].myAru
  {
    assert DaemonOK(w, s.all, s.hist, s.sent, j, s.ds[j], s.at[j]);
  }

  // What one daemon holds for stable, another one had at its latest visit.
  lemma {:induction false} LastVisit(w: World, s: Rstate, i: int, j: int)
    requires Inv(w, s) && 0 <= i < w.ring.n && 0 <= j < w.ring.n
    ensures s.at[j] < |s.hist| && s.ds[i].aru <= MyAt(s.hist, s.at[j])
  {
    hide Core, LastOK, QueueOK, Stable, Arq, NetworkOK, RequestsOK, CastOK;
    assert DaemonOK(w, s.all, s.hist, s.sent, i, s.ds[i], s.at[i]);
    assert DaemonOK(w, s.all, s.hist, s.sent, j, s.ds[j], s.at[j]);
    var n, k, b := w.ring.n, |s.hist| - 1, s.at[j];
    StableMonotone(false, n, s.hist, s.at[i], k);
    if 1 <= b { StableBelowMy(false, n, s.hist, k, b); } else { StableEarly(n, s.hist, k); }
  }

  lemma {:induction false} CoreExtends(all: seq<Packet>, all': seq<Packet>, d: Dstate)
    requires Core(all, {}, d) && all <= all' && Numbered(all')
    ensures Core(all', {}, d)
    decreases |all'|
  {
    hide Core;
    if all != all' {
      var less, p := all'[..|all'| - 1], all'[|all'| - 1];
      assert all' == less + [p] && all <= less;
      CoreExtends(all, less, d);
      ExtendKeeps(less, {}, d, p);
    }
  }

  // Daemon order[x] of the ring, as it was at moment times[x].
  function Snapshots(ss: seq<Rstate>, order: seq<int>, times: seq<nat>): seq<Dstate>
    requires |order| == |times|
    requires forall x :: 0 <= x < |order| ==> times[x] < |ss| && 0 <= order[x] < |ss[times[x]].ds|
  {
    seq(|order|, x requires 0 <= x < |order| => ss[times[x]].ds[order[x]])
  }

  // The daemons stopped handling the token before they were visited, and none
  // is visited twice.
  ghost predicate Stopped(w: World, ss: seq<Rstate>, k: nat, order: seq<int>, times: seq<nat>) {
    && Run(w, ss) && k < |ss| && |order| == |times| && |ss[k].at| == w.ring.n
    && (forall x :: 0 <= x < |order| ==>
          times[x] <= k && 0 <= order[x] < w.ring.n == |ss[times[x]].ds| == |ss[times[x]].at|
          && ss[times[x]].at[order[x]] == ss[k].at[order[x]])
    && (forall x, y :: 0 <= x < y < |order| ==> order[x] != order[y])
  }

  lemma {:induction false} SnapshotOK(w: World, ss: seq<Rstate>, k: nat, t: nat, i: int)
    requires Run(w, ss) && t <= k < |ss| && 0 <= i < w.ring.n && |ss[t].at| == |ss[k].at| == w.ring.n
    requires ss[t].at[i] == ss[k].at[i]
    ensures |ss[t].ds| == w.ring.n
    ensures var m := ss[t].ds[i];
            && OldMember(m) && Core(ss[k].all, {}, m) && KeepsOwn(ss[k].all, m)
            && !m.fault && !m.evs && m.me == i && m.memb == w.memb
  {
    hide Init, StepFrom, Run, NetworkOK, RequestsOK, CastOK, HistOK, LastOK, QueueOK, Stable;
    RunOwn(w, ss, t);
    RunInvAt(w, ss, k);
    RunGrows(w, ss, t, k, i);
    var m := ss[t].ds[i];
    assert DaemonOK(w, ss[t].all, ss[t].hist, ss[t].sent, i, m, ss[t].at[i]);
    assert DaemonOK(w, ss[k].all, ss[k].hist, ss[k].sent, i, ss[k].ds[i], ss[k].at[i]);
    CoreExtends(ss[t].all, ss[k].all, m);
    forall q | 1 <= q <= |ss[k].all| && ss[k].all[q - 1].sender == i ensures HasNumber(m, q) {
      if q <= |ss[t].all| { assert ss[t].all[q - 1] == ss[k].all[q - 1] && KeepsOwn(ss[t].all, m); }
    }
    forall s | s in m.pk ensures !m.pk[s].Hole? && m.discarded < s <= m.highest { assert SlotOK(ss[t].all, {}, s, m.pk[s]); }
  }

  // Daemons of a ring whose token stopped, visited at any moments in any order,
  // are as HoleAgreement and FormReady ask: the premises of recovery are what
  // every run of the ring provides.
  lemma {:induction false} RunsAreVisitable(w: World, ss: seq<Rstate>, k: nat, order: seq<int>, times: seq<nat>, ids: set<int>)
    requires Stopped(w, ss, k, order, times) && |ids| <= MAX_PROCS_RING
    requires forall x :: 0 <= x < |order| ==> CommitsTo(ss[times[x]].ds[order[x]], ids)
    ensures var ms := Snapshots(ss, order, times);
            && Visitable(ms, ids)
            && (forall x :: 0 <= x < |ms| ==>
                  Core(ss[k].all, {}, ms[x]) && KeepsOwn(ss[k].all, ms[x]) && !ms[x].fault && !ms[x].evs && ms[x].memb == w.memb)
            && (forall s :: 0 <= s < |ss[k].all| ==> ss[k].all[s].memb == w.memb)
  {
    hide Run, OldMember, Core, KeepsOwn, CommitsTo;
    var ms := Snapshots(ss, order, times);
    forall x | 0 <= x < |ms|
      ensures OldMember(ms[x]) && Core(ss[k].all, {}, ms[x]) && KeepsOwn(ss[k].all, ms[x])
      ensures !ms[x].fault && !ms[x].evs && ms[x].memb == w.memb && ms[x].me == order[x]
    {
      SnapshotOK(w, ss, k, times[x], order[x]);
    }
    forall x, y | 0 <= x < |ms| && 0 <= y < |ms| ensures ms[x].aru <= ms[y].myAru {
      if times[y] <= times[x] { RunGrows(w, ss, times[y], times[x], order[y]); RunGrows(w, ss, times[x], k, order[y]); }
      SnapshotStability(w, ss, times[x], times[y], order[x], order[y]);
    }
    RunCast(w, ss, k);
  }

  lemma {:induction false} RunCast(w: World, ss: seq<Rstate>, k: nat)
    requires Run(w, ss) && k < |ss|
    ensures forall s :: 0 <= s < |ss[k].all| ==> ss[k].all[s].memb == w.memb
  {
    RunInvAt(w, ss, k);
  }
}
