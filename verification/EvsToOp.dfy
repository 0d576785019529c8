// How recovery ends: the moment a daemon that has installed the membership
// accepts the token is the start of normal operation.
module EvsToOp {
  import opened Types
  import opened RingArith
  import opened TokenHistory
  import opened Protocol
  import opened TokenVisit
  import opened Form
  import opened FormRecords
  import opened Evs
  import opened EvsVisit
  import opened OpRing
  import opened OpInv
  import opened EvsRing
  import opened EvsInv
  import opened EvsSafety
  import opened EvsTheorems

  // ---------------------------------------------------------- counting anew

  // Normal operation numbers the daemons from the one that sent the token, m.
  function Anew(n: int, m: int, j: int): int {
    if m <= j then j - m else j - m + n
  }

  function Before(n: int, m: int, x: int): int {
    if x + m < n then x + m else x + m - n
  }

  lemma {:induction false} AnewMod(n: int, k: int, t: int)
    requires 0 < n
    ensures Anew(n, k % n, t % n) == (t - k) % n
  {
    var a, b := t % n, k % n;
    if b <= a {
      assert t - k == n * (t / n - k / n) + (a - b);
      Unique(n, t - k, t / n - k / n, a - b);
    } else {
      assert t - k == n * (t / n - k / n - 1) + (a - b + n);
      Unique(n, t - k, t / n - k / n - 1, a - b + n);
    }
  }

  lemma {:induction false} AnewLead(n: int, k: int, lead: int, t: int)
    requires 0 <= lead < n
    ensures (t - k) % n == Anew(n, k % n, lead) <==> t % n == lead
  {
    AnewMod(n, k, t);
    AnewOnce(n, k % n, t % n, lead);
  }

  // Turns of the leader, counted from visit k on, differ by a constant.
  lemma {:induction false} TurnsAnew(n: int, k: int, lead: int, t: int, c: int)
    requires 0 <= lead < n && 0 <= c < n && t <= k && c == Anew(n, k % n, lead)
    ensures Turns(n, c, t - k) - Turns(n, lead, t) == Turns(n, c, 0) - Turns(n, lead, k)
    decreases k - t
  {
    hide Turns, Anew;
    if t < k {
      TurnsAnew(n, k, lead, t + 1, c);
      TurnsStep(n, c, t - k);
      TurnsStep(n, lead, t);
      assert t - k + 1 == t + 1 - k;
      AnewLead(n, k, lead, t + 1);
    }
  }

  lemma {:induction false} AnewOnce(n: int, m: int, x: int, y: int)
    requires 0 <= m < n && 0 <= x < n && 0 <= y < n
    ensures Anew(n, m, x) == Anew(n, m, y) <==> x == y
    ensures 0 <= Anew(n, m, x) < n && Before(n, m, Anew(n, m, x)) == x
    ensures 0 <= Before(n, m, x) < n && Anew(n, m, Before(n, m, x)) == x
  {
  }

  function RenamedToken(n: int, m: int, t: Token): Token {
    t.(from := Anew(n, m, t.from), aruLast := Anew(n, m, t.aruLast))
  }

  function RenamedCommit(n: int, m: int, c: CommitSet): CommitSet {
    c.(members := seq(|c.members|, x requires 0 <= x < |c.members| => Anew(n, m, c.members[x])))
  }

  // A daemon under its new number; what it has delivered of the old ring is past.
  function RenamedDaemon(n: int, m: int, x: int, d: Dstate): Dstate {
    d.(me := x, last := RenamedToken(n, m, d.last), commit := RenamedCommit(n, m, d.commit), log := [])
  }

  function StartRing(ring: Ring, m: int): Ring
    requires 0 <= m < ring.n == |ring.personal| == |ring.seg|
  {
    ring.(lead := Anew(ring.n, m, ring.lead),
          seg := ring.seg[m..] + ring.seg[..m], personal := ring.personal[m..] + ring.personal[..m])
  }

  function StartWorld(w: World, k: nat): World
    requires WorldOK(w)
  {
    var n, m := w.ring.n, k % w.ring.n;
    var r := StartRing(w.ring, m);
    AnewOnce(n, m, w.ring.lead, 0);
    World(r, w.memb, w.base + Max(0, Turns(n, w.ring.lead, k) - Turns(n, r.lead, 0)))
  }

  function StartState(v: Recovery, s: Estate): Rstate
    requires RecoveryOK(v) && |s.ds| == |s.at| == v.w.ring.n && 1 <= |s.sent|
  {
    var n, k := v.w.ring.n, |s.sent| - 1;
    var m := k % n;
    var t := RenamedToken(n, m, s.sent[k]);
    Rstate(
      seq(n, x requires 0 <= x < n => (AnewOnce(n, m, x, 0); RenamedDaemon(n, m, x, s.ds[Before(n, m, x)]))),
      seq(n, x requires 0 <= x < n => (AnewOnce(n, m, x, 0); s.at[Before(n, m, x)] - k)),
      [t],
      [Visit(0, t.aru, t.aruLast, 0)],
      [],
      set c | c in s.tokens :: Copy(c.visit - k, RenamedToken(n, m, c.token)),
      s.packets)
  }

  // ---------------------------------------------------------------- the moment

  // A daemon that has installed the membership would accept copy c.
  ghost predicate Opens(v: Recovery, s: Estate, i: int, c: Copy) {
    && EInv(v, s) && 0 <= i < v.w.ring.n && c in s.tokens && ERecent(v, s, i, c)
    && !s.ds[i].evs && Judge(s.ds[i], v.w.ring, c.token) == Accept
  }

  // Then every daemon has installed it, and the newest token, which is the one
  // that arrives, was last raised by the daemon it arrives at.
  lemma {:induction false} OpeningMoment(v: Recovery, s: Estate, i: int, c: Copy)
    requires Opens(v, s, i, c)
    ensures var k := |s.sent| - 1;
            && i == (k + 1) % v.w.ring.n && c.visit == k && v.w.ring.n < k
            && |s.hist| == k + 1 && s.sent[k].aruLast == i && 0 <= s.sent[k].aru && s.sent[k].seqNo == 0
            && forall j :: 0 <= j < v.w.ring.n ==> !s.ds[j].evs
  {
    hide ENetworkOK, ERequestsOK, EOwnersOK, EFlowOK, Stable, Arq, Chain, Installed, Judge;
    EPart(v, s, i);
    assert ECopyOK(v, s, c) by { ECopies(v, s, c); }
    EAcceptedIsNext(v, s, i, c);
    InstalledAt(v, s, i);
    var n, b := v.w.ring.n, s.at[i];
    OneRound(n, b);
    assert Returning(n, s.hist, v.last, b);
    Raiser(n, s.hist, v.last, b);
    RaiserStays(n, s.hist, v.last, b, |s.hist| - 1);
    AruIsLast(n, s.hist, v.last, b, |s.hist| - 1);
    assert ETokenOK(v, s, |s.sent| - 1);
    forall j | 0 <= j < n ensures !s.ds[j].evs {
      EPart(v, s, j);
      MeOf(v, s.hist, s.sent, j, s.ds[j], s.at[j]);
      StableMonotone(true, n, s.hist, b, s.at[j]);
      AruIsLast(n, s.hist, v.last, b, s.at[j]);
      StableBelowAru(n, s.hist, s.at[j]);
    }
  }

  lemma {:induction false} ECopies(v: Recovery, s: Estate, c: Copy)
    requires EInv(v, s) && c in s.tokens
    ensures ECopyOK(v, s, c)
  {
  }

  // ------------------------------------------------------- the start of operation

  lemma {:induction false} DivBounds(n: int, a: int)
    requires 0 < n
    ensures (n <= a ==> 1 <= a / n) && (a <= n ==> a / n <= 1)
  {
    var q := a / n;
    if n <= a && q <= 0 { MulMono(n, q, 0); }
    if a <= n && 2 <= q { MulMono(n, 2, q); }
  }

  lemma {:induction false} ArqAnew(w: World, k: nat, t: int)
    requires WorldOK(w) && t <= k && w.ring.n < k
    ensures WorldOK(StartWorld(w, k)) && Arq(StartWorld(w, k), t - k) == Arq(w, t)
  {
    var n, m, lead := w.ring.n, k % w.ring.n, w.ring.lead;
    AnewOnce(n, m, lead, 0);
    var c := Anew(n, m, lead);
    TurnsAnew(n, k, lead, t, c);
    DivBounds(n, k + n - lead);
    DivBounds(n, n - c);
  }

  lemma {:induction false} FlowSame(a: seq<Dstate>, b: seq<Dstate>)
    requires |a| == |b| && forall x :: 0 <= x < |a| ==> a[x].numRetrans == b[x].numRetrans && a[x].numSent == b[x].numSent
    ensures SumFlow(a) == SumFlow(b)
  {
    if a != [] { FlowSame(a[..|a| - 1], b[..|b| - 1]); }
  }

  lemma {:induction false} FlowConcat(a: seq<Dstate>, b: seq<Dstate>)
    ensures SumFlow(a + b) == SumFlow(a) + SumFlow(b)
  {
    if b == [] {
      assert a + b == a;
    } else {
      FlowConcat(a, b[..|b| - 1]);
      assert (a + b)[..|a + b| - 1] == a + b[..|b| - 1];
    }
  }

  lemma {:induction false} FlowTurned(ds: seq<Dstate>, m: nat, es: seq<Dstate>)
    requires m <= |ds| == |es|
    requires forall x :: 0 <= x < |ds| ==> es[x].numRetrans == (ds[m..] + ds[..m])[x].numRetrans && es[x].numSent == (ds[m..] + ds[..m])[x].numSent
    ensures SumFlow(es) == SumFlow(ds)
  {
    var a, b := ds[..m], ds[m..];
    FlowConcat(a, b);
    FlowConcat(b, a);
    assert a + b == ds;
    FlowSame(es, b + a);
  }

  lemma {:induction false} FlowAnew(v: Recovery, s: Estate)
    requires RecoveryOK(v) && |s.ds| == |s.at| == v.w.ring.n && 1 <= |s.sent|
    ensures SumFlow(StartState(v, s).ds) == SumFlow(s.ds)
  {
    hide SumFlow;
    var n, m := v.w.ring.n, (|s.sent| - 1) % v.w.ring.n;
    var es, t := StartState(v, s).ds, s.ds[m..] + s.ds[..m];
    forall x | 0 <= x < n ensures es[x].numRetrans == t[x].numRetrans && es[x].numSent == t[x].numSent {
      AnewOnce(n, m, x, 0);
      assert t[x] == s.ds[Before(n, m, x)];
    }
    FlowTurned(s.ds, m, es);
  }

  // Copies of tokens and the last token of each daemon, renamed.
  lemma {:induction false} RenamedCopy(v: Recovery, s: Estate, c: Copy)
    requires EInv(v, s) && c in s.tokens && v.w.ring.n < |s.sent| - 1
    ensures var n, k := v.w.ring.n, |s.sent| - 1;
            Opening(StartWorld(v.w, k), StartState(v, s), Copy(c.visit - k, RenamedToken(n, k % n, c.token)))
  {
    hide EHistOK, ENetworkOK, EDaemonsOK, ERequestsOK, EOwnersOK, EFlowOK, Arq, StartWorld;
    ECopies(v, s, c);
    var n, k := v.w.ring.n, |s.sent| - 1;
    ArqAnew(v.w, k, c.visit);
    AnewMod(n, k, c.visit);
    StartKeeps(v.w, k);
  }

  lemma {:induction false} StartKeeps(w: World, k: nat)
    requires WorldOK(w)
    ensures WorldOK(StartWorld(w, k)) && StartWorld(w, k).ring.n == w.ring.n && StartWorld(w, k).memb == w.memb
  {
    AnewOnce(w.ring.n, k % w.ring.n, w.ring.lead, 0);
  }

  lemma {:induction false} RenamedFresh(v: Recovery, s: Estate, i: int, c: Copy, x: int)
    requires Opens(v, s, i, c) && 0 <= x < v.w.ring.n
    ensures var w', s' := StartWorld(v.w, |s.sent| - 1), StartState(v, s);
            Fresh(w', x, s'.ds[x], s'.at[x], s'.sent[0]) && s'.ds[x].commit == CommitSet([x], 1)
  {
    hide EHistOK, ENetworkOK, EDaemonsOK, ERequestsOK, EOwnersOK, EFlowOK, Arq, StartWorld, Stable, Judge;
    OpeningMoment(v, s, i, c);
    var n, k := v.w.ring.n, |s.sent| - 1;
    var j := Before(n, k % n, x);
    AnewOnce(n, k % n, x, 0);
    EPart(v, s, j);
    InstalledAt(v, s, j);
    EIdle(v, s, j);
    ArqAnew(v.w, k, s.at[j]);
    AnewMod(n, k, s.at[j]);
    StartKeeps(v.w, k);
    LastFrom(v, s, j);
  }

  lemma {:induction false} LastFrom(v: Recovery, s: Estate, j: int)
    requires EInv(v, s) && 0 <= j < v.w.ring.n && 1 <= s.at[j]
    ensures s.at[j] < |s.sent| && s.ds[j].last.from == j && SameToken(s.ds[j].last, s.sent[s.at[j]])
  {
    hide ENetworkOK, ERequestsOK, EOwnersOK, EFlowOK, Stable, Installed, Behind, Arq, Chain;
    EPart(v, s, j);
    assert ETokenOK(v, s, s.at[j]);
  }

  // When recovery ends, normal operation begins: with the daemons numbered anew
  // from the sender of the last token, the state is an initial one of OpRing,
  // whose theorems hold from here on, and every daemon is committed to itself.
  lemma {:induction false} NormalOperationStarts(v: Recovery, s: Estate, i: int, c: Copy)
    requires Opens(v, s, i, c)
    ensures Init(StartWorld(v.w, |s.sent| - 1), StartState(v, s))
    ensures forall x :: 0 <= x < v.w.ring.n ==> StartState(v, s).ds[x].commit == CommitSet([x], 1)
  {
    hide EHistOK, EDaemonsOK, ERequestsOK, Arq, StartWorld, Fresh, Opening, Judge, Known;
    OpeningMoment(v, s, i, c);
    var n, k := v.w.ring.n, |s.sent| - 1;
    var w', s' := StartWorld(v.w, k), StartState(v, s);
    StartKeeps(v.w, k);
    ArqAnew(v.w, k, k);
    AnewMod(n, k, k);
    AnewMod(n, k, k + 1);
    assert ETokenOK(v, s, k) by { ETokens(v, s, k); }
    FlowAnew(v, s);
    forall x | 0 <= x < n ensures Fresh(w', x, s'.ds[x], s'.at[x], s'.sent[0]) && s'.ds[x].commit == CommitSet([x], 1) {
      RenamedFresh(v, s, i, c, x);
    }
    forall d | d in s'.tokens ensures Opening(w', s', d) {
      var e :| e in s.tokens && d == Copy(e.visit - k, RenamedToken(n, k % n, e.token));
      RenamedCopy(v, s, e);
    }
    forall p | p in s'.packets ensures p.memb != w'.memb { assert PacketOK(v, p); }
  }

  lemma {:induction false} ETokens(v: Recovery, s: Estate, t: int)
    requires EInv(v, s) && 0 <= t < |s.sent|
    ensures |s.hist| == |s.sent| && ETokenOK(v, s, t)
  {
  }
}
