// The state exchange of one regular membership as a transition system.  All
// daemons deliver its messages in one total order; while the exchange lasts the
// delivery threshold keeps reliable messages in that order, too.  A daemon sends
// ordinary messages only once its own exchange is over.
module GroupExchange {
  // A GROUPS message of a synced set, the last one or not; or any join, leave,
  // kill or data message.
  datatype Item = GroupsMessage(from: int, last: bool) | Ordinary(sender: int)

  // For each synced set its size and the number of messages its leader sends; and
  // the number of daemons.
  datatype Exchange = Exchange(sizes: seq<int>, counts: seq<int>, daemons: int)

  // The total order so far, what each leader has sent, and how far each daemon
  // has delivered.
  datatype Xstate = Xstate(log: seq<Item>, sent: seq<int>, pos: seq<int>)

  datatype Xstep = SendGroups(i: int) | SendOrdinary(d: int) | Deliver(d: int)

  function Sum(s: seq<int>): int {
    if s == [] then 0 else Sum(s[..|s| - 1]) + s[|s| - 1]
  }

  predicate ExchangeOK(x: Exchange) {
    && |x.sizes| == |x.counts| && 0 <= x.daemons == Sum(x.sizes) && 0 < |x.sizes|
    && forall i :: 0 <= i < |x.sizes| ==> 1 <= x.sizes[i] && 1 <= x.counts[i]
  }

  // Num_daemons_gathered after the messages of `log`.
  function NumGathered(x: Exchange, log: seq<Item>): int {
    if log == [] then 0
    else
      var e := log[|log| - 1];
      NumGathered(x, log[..|log| - 1])
      + (if e.GroupsMessage? && e.last && 0 <= e.from < |x.sizes| then x.sizes[e.from] else 0)
  }

  // A daemon that has delivered `log` has shifted to GOP.
  predicate Over(x: Exchange, log: seq<Item>) {
    NumGathered(x, log) == x.daemons
  }

  predicate XshapeOK(x: Exchange, s: Xstate) {
    && ExchangeOK(x) && |s.sent| == |x.sizes| && |s.pos| == x.daemons
    && forall d :: 0 <= d < |s.pos| ==> 0 <= s.pos[d] <= |s.log|
  }

  predicate Xinit(x: Exchange, s: Xstate) {
    && XshapeOK(x, s) && s.log == []
    && forall i :: 0 <= i < |s.sent| ==> s.sent[i] == 0
  }

  predicate Xenabled(x: Exchange, s: Xstate, step: Xstep)
    requires XshapeOK(x, s)
  {
    match step
    case SendGroups(i) => 0 <= i < |x.sizes| && s.sent[i] < x.counts[i]
    case SendOrdinary(d) => 0 <= d < x.daemons && Over(x, s.log[..s.pos[d]])
    case Deliver(d) => 0 <= d < x.daemons && s.pos[d] < |s.log|
  }

  function Xnext(x: Exchange, s: Xstate, step: Xstep): Xstate
    requires XshapeOK(x, s) && Xenabled(x, s, step)
  {
    match step
    case SendGroups(i) =>
      s.(log := s.log + [GroupsMessage(i, s.sent[i] + 1 == x.counts[i])], sent := s.sent[i := s.sent[i] + 1])
    case SendOrdinary(d) => s.(log := s.log + [Ordinary(d)])
    case Deliver(d) => s.(pos := s.pos[d := s.pos[d] + 1])
  }

  ghost predicate Xcan(x: Exchange, s: Xstate, s': Xstate) {
    XshapeOK(x, s) && exists step :: Xenabled(x, s, step) && s' == Xnext(x, s, step)
  }

  ghost predicate Xrun(x: Exchange, ss: seq<Xstate>) {
    0 < |ss| && Xinit(x, ss[0]) && forall k :: 0 < k < |ss| ==> Xcan(x, ss[k - 1], ss[k])
  }

  // ------------------------------------------------------------ counting to n

  predicate HasLast(log: seq<Item>, i: int) {
    exists k :: 0 <= k < |log| && log[k] == GroupsMessage(i, true)
  }

  // The sizes of the sets among the first m whose last message is not in log.
  function Outstanding(x: Exchange, log: seq<Item>, m: nat): int
    requires m <= |x.sizes|
  {
    if m == 0 then 0 else Outstanding(x, log, m - 1) + (if HasLast(log, m - 1) then 0 else x.sizes[m - 1])
  }

  lemma {:induction false} HasLastMore(log: seq<Item>, e: Item, i: int)
    ensures HasLast(log + [e], i) <==> HasLast(log, i) || e == GroupsMessage(i, true)
  {
    var l := log + [e];
    assert l[|log|] == e;
    if HasLast(log, i) {
      var k :| 0 <= k < |log| && log[k] == GroupsMessage(i, true);
      assert l[k] == log[k];
    }
  }

  lemma {:induction false} OutstandingMore(x: Exchange, log: seq<Item>, e: Item, m: nat)
    requires m <= |x.sizes| && (e.GroupsMessage? && e.last ==> !HasLast(log, e.from))
    ensures Outstanding(x, log + [e], m)
         == Outstanding(x, log, m) - (if e.GroupsMessage? && e.last && 0 <= e.from < m then x.sizes[e.from] else 0)
  {
    if m > 0 {
      OutstandingMore(x, log, e, m - 1);
      HasLastMore(log, e, m - 1);
    }
  }

  lemma {:induction false} OutstandingNone(x: Exchange, m: nat)
    requires m <= |x.sizes|
    ensures Outstanding(x, [], m) == Sum(x.sizes[..m])
  {
    if m > 0 {
      OutstandingNone(x, m - 1);
      assert x.sizes[..m][..m - 1] == x.sizes[..m - 1];
    } else {
      assert x.sizes[..0] == [];
    }
  }

  lemma {:induction false} OutstandingZero(x: Exchange, log: seq<Item>, m: nat)
    requires ExchangeOK(x) && m <= |x.sizes|
    ensures 0 <= Outstanding(x, log, m)
    ensures Outstanding(x, log, m) == 0 <==> forall i :: 0 <= i < m ==> HasLast(log, i)
  {
    if m > 0 { OutstandingZero(x, log, m - 1); }
  }

  // ------------------------------------------------------------- the invariant

  predicate OneLastEach(log: seq<Item>) {
    forall k, l :: 0 <= k < l < |log| && log[k].GroupsMessage? && log[l].GroupsMessage? && log[k].from == log[l].from ==> !log[k].last
  }

  lemma {:induction false} NoSecondLast(log: seq<Item>, e: Item)
    requires OneLastEach(log + [e]) && e.GroupsMessage?
    ensures !HasLast(log, e.from)
  {
    forall k | 0 <= k < |log| ensures log[k] != GroupsMessage(e.from, true) {
      assert (log + [e])[k] == log[k] && (log + [e])[|log|] == e;
    }
  }

  lemma {:induction false} GatheredPlusOutstanding(x: Exchange, log: seq<Item>)
    requires ExchangeOK(x) && OneLastEach(log)
    ensures NumGathered(x, log) + Outstanding(x, log, |x.sizes|) == x.daemons
    decreases |log|
  {
    if log == [] {
      OutstandingNone(x, |x.sizes|);
      assert x.sizes[..|x.sizes|] == x.sizes;
    } else {
      var less, e := log[..|log| - 1], log[|log| - 1];
      GatheredPlusOutstanding(x, less);
      assert log == less + [e];
      if e.GroupsMessage? { NoSecondLast(less, e); }
      OutstandingMore(x, less, e, |x.sizes|);
    }
  }

  // The exchange is over exactly when the last message of every set has come.
  lemma {:induction false} OverIff(x: Exchange, log: seq<Item>)
    requires ExchangeOK(x) && OneLastEach(log)
    ensures Over(x, log) <==> forall i :: 0 <= i < |x.sizes| ==> HasLast(log, i)
  {
    GatheredPlusOutstanding(x, log);
    OutstandingZero(x, log, |x.sizes|);
  }

  // Each item finds every daemon in the right phase, and what the leaders have
  // yet to send is consistent with the log.
  ghost predicate Xinv(x: Exchange, s: Xstate) {
    && XshapeOK(x, s) && OneLastEach(s.log)
    && (forall k :: 0 <= k < |s.log| && s.log[k].GroupsMessage? ==> 0 <= s.log[k].from < |x.sizes|)
    && (forall i :: 0 <= i < |x.sizes| ==> 0 <= s.sent[i] <= x.counts[i] && (s.sent[i] < x.counts[i] ==> !HasLast(s.log, i)))
    && (forall k :: 0 <= k < |s.log| ==> RightPhase(x, s.log, k))
  }

  // GROUPS messages come while the exchange lasts, all others when it is over.
  predicate RightPhase(x: Exchange, log: seq<Item>, k: int)
    requires 0 <= k < |log|
  {
    log[k].Ordinary? <==> Over(x, log[..k])
  }

  lemma {:induction false} Longer(x: Exchange, log: seq<Item>, e: Item)
    requires forall k :: 0 <= k < |log| ==> RightPhase(x, log, k)
    requires e.Ordinary? <==> Over(x, log)
    ensures forall k :: 0 <= k < |log + [e]| ==> RightPhase(x, log + [e], k)
  {
    var l := log + [e];
    forall k | 0 <= k < |l| ensures RightPhase(x, l, k) {
      assert l[..k] == log[..k];
      if k < |log| { assert RightPhase(x, log, k); } else { assert log[..k] == log; }
    }
  }

  lemma {:induction false} PrefixOver(x: Exchange, log: seq<Item>, k: int)
    requires ExchangeOK(x) && OneLastEach(log) && 0 <= k <= |log| && Over(x, log[..k])
    ensures Over(x, log)
  {
    OverIff(x, log[..k]);
    OverIff(x, log);
    forall i | 0 <= i < |x.sizes| ensures HasLast(log, i) {
      assert HasLast(log[..k], i);
      var y :| 0 <= y < |log[..k]| && log[..k][y] == GroupsMessage(i, true);
      assert log[y] == log[..k][y];
    }
  }

  lemma {:induction false} XstepKeeps(x: Exchange, s: Xstate, step: Xstep)
    requires Xinv(x, s) && Xenabled(x, s, step)
    ensures Xinv(x, Xnext(x, s, step))
  {
    var s' := Xnext(x, s, step);
    match step
    case SendGroups(i) =>
      var e := GroupsMessage(i, s.sent[i] + 1 == x.counts[i]);
      OverIff(x, s.log);
      assert !HasLast(s.log, i);
      Longer(x, s.log, e);
      forall j | 0 <= j < |x.sizes| ensures HasLast(s'.log, j) <==> HasLast(s.log, j) || e == GroupsMessage(j, true) {
        HasLastMore(s.log, e, j);
      }
      forall k, l | 0 <= k < l < |s'.log| && s'.log[k].GroupsMessage? && s'.log[l].GroupsMessage? && s'.log[k].from == s'.log[l].from
        ensures !s'.log[k].last
      {
        if l == |s.log| { assert s.log[k] == s'.log[k]; }
      }
    case SendOrdinary(d) =>
      PrefixOver(x, s.log, s.pos[d]);
      Longer(x, s.log, Ordinary(d));
      forall j | 0 <= j < |x.sizes| ensures HasLast(s'.log, j) <==> HasLast(s.log, j) {
        HasLastMore(s.log, Ordinary(d), j);
      }
    case Deliver(d) =>
  }

  lemma {:induction false} XrunInv(x: Exchange, ss: seq<Xstate>, k: nat)
    requires Xrun(x, ss) && k < |ss|
    ensures Xinv(x, ss[k])
  {
    hide Xnext, Xenabled, Xinit;
    if k == 0 {
      XinitInv(x, ss[0]);
    } else {
      XrunInv(x, ss, k - 1);
      assert Xcan(x, ss[k - 1], ss[k]);
      var step :| Xenabled(x, ss[k - 1], step) && ss[k] == Xnext(x, ss[k - 1], step);
      XstepKeeps(x, ss[k - 1], step);
    }
  }

  lemma {:induction false} XinitInv(x: Exchange, s: Xstate)
    requires Xinit(x, s)
    ensures Xinv(x, s)
  {
  }

  // Whatever a daemon is about to deliver, it is a GROUPS message exactly if the
  // daemon is still in GGATHER or GGT: the fatal cases of the handlers of join,
  // leave, kill and data messages are never reached, nor are those of the handler
  // of GROUPS messages.
  lemma {:induction false} ExchangeOrder(x: Exchange, ss: seq<Xstate>, k: nat, d: int)
    requires Xrun(x, ss) && k < |ss| && 0 <= d < x.daemons
    ensures XshapeOK(x, ss[k])
    ensures var s := ss[k];
            s.pos[d] < |s.log| ==> (s.log[s.pos[d]].GroupsMessage? <==> !Over(x, s.log[..s.pos[d]]))
  {
    XrunInv(x, ss, k);
    if ss[k].pos[d] < |ss[k].log| { assert RightPhase(x, ss[k].log, ss[k].pos[d]); }
  }

  // And when a daemon has gone through the exchange it has had all the messages
  // of all sets.
  lemma {:induction false} ExchangeComplete(x: Exchange, ss: seq<Xstate>, k: nat, d: int, l: nat)
    requires Xrun(x, ss) && k <= l < |ss| && 0 <= d < x.daemons
    ensures XshapeOK(x, ss[k]) && XshapeOK(x, ss[l]) && ss[k].log <= ss[l].log
    ensures Over(x, ss[k].log[..ss[k].pos[d]]) ==>
              forall q :: ss[k].pos[d] <= q < |ss[l].log| ==> ss[l].log[q].Ordinary?
    decreases l
  {
    XrunInv(x, ss, k);
    XrunInv(x, ss, l);
    LogGrows(x, ss, k, l);
    var p := ss[k].pos[d];
    if Over(x, ss[k].log[..p]) {
      forall q | p <= q < |ss[l].log| ensures ss[l].log[q].Ordinary? {
        var log := ss[l].log;
        assert log[..p] == ss[k].log[..p] && log[..q][..p] == log[..p];
        OneLastPrefix(log, q);
        PrefixOver(x, log[..q], p);
        assert RightPhase(x, log, q);
      }
    }
  }

  lemma {:induction false} OneLastPrefix(log: seq<Item>, k: int)
    requires OneLastEach(log) && 0 <= k <= |log|
    ensures OneLastEach(log[..k])
  {
  }

  lemma {:induction false} LogGrows(x: Exchange, ss: seq<Xstate>, k: nat, l: nat)
    requires Xrun(x, ss) && k <= l < |ss|
    ensures ss[k].log <= ss[l].log
    decreases l
  {
    if k < l {
      LogGrows(x, ss, k, l - 1);
      assert Xcan(x, ss[l - 1], ss[l]);
    }
  }
}
