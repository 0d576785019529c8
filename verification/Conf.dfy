// Membership lookup and the order of the ring: configuration.c and the
// computation of the token's next hop in network.c.
module Conf {

  const MAX_SEGMENTS := 20

  // The ids of each segment.
  type Config = seq<seq<int>>

  // All ids in configuration order, which is the order of the token ring.
  function Flat(c: Config): seq<int> {
    if c == [] then [] else Flat(c[..|c| - 1]) + c[|c| - 1]
  }

  predicate NoRepeats(s: seq<int>) {
    forall x, y :: 0 <= x < y < |s| ==> s[x] != s[y]
  }

  // Where segment i starts in that order.
  function Offset(c: Config, i: int): nat
    requires 0 <= i <= |c|
  {
    |Flat(c[..i])|
  }

  lemma {:induction false} FlatStep(c: Config, i: int)
    requires 0 <= i < |c|
    ensures Flat(c[..i + 1]) == Flat(c[..i]) + c[i]
    ensures Offset(c, i + 1) == Offset(c, i) + |c[i]|
  {
    assert c[..i + 1][..i] == c[..i];
  }

  lemma {:induction false} FlatPrefix(c: Config, i: int, k: int)
    requires 0 <= i <= k <= |c|
    ensures Flat(c[..i]) <= Flat(c[..k]) && Offset(c, i) <= Offset(c, k)
    decreases k
  {
    if i < k {
      FlatPrefix(c, i, k - 1);
      FlatStep(c, k - 1);
    }
  }

  lemma {:induction false} FlatAt(c: Config, i: int, j: int)
    requires 0 <= i < |c| && 0 <= j < |c[i]|
    ensures Offset(c, i) + j < Offset(c, i + 1) <= |Flat(c)|
    ensures Flat(c)[Offset(c, i) + j] == c[i][j]
  {
    FlatStep(c, i);
    FlatPrefix(c, i + 1, |c|);
    assert c[..|c|] == c;
    assert Flat(c[..i + 1])[Offset(c, i) + j] == c[i][j];
  }

  // Nothing between two offsets that are the same.
  lemma {:induction false} FlatAll(c: Config)
    ensures c[..|c|] == c && Flat(c[..|c|]) == Flat(c) && Offset(c, |c|) == |Flat(c)| && Offset(c, 0) == 0
  {
    assert c[..|c|] == c;
  }

  lemma {:induction false} FlatIn(c: Config, id: int)
    ensures id in Flat(c) <==> exists i :: 0 <= i < |c| && id in c[i]
    decreases |c|
  {
    if c != [] {
      var k := |c| - 1;
      FlatIn(c[..k], id);
      if i :| 0 <= i < |c| && id in c[i] {
        if i < k { assert c[..k][i] == c[i]; }
      }
    }
  }

  // ------------------------------------------------------------------- lookup

  // Conf_id_in_seg.
  method IdInSeg(seg: seq<int>, id: int) returns (j: int)
    ensures j == -1 ==> id !in seg
    ensures j != -1 ==> 0 <= j < |seg| && seg[j] == id && id !in seg[..j]
  {
    j := 0;
    while j < |seg|
      invariant 0 <= j <= |seg| && id !in seg[..j]
    {
      if seg[j] == id { return; }
      j := j + 1;
    }
    j := -1;
  }

  // Conf_id_in_conf.
  method IdInConf(c: Config, id: int) returns (i: int)
    ensures i == -1 <==> id !in Flat(c)
    ensures i != -1 ==> 0 <= i < |c| && id in c[i] && id !in Flat(c[..i])
  {
    i := 0;
    while i < |c|
      invariant 0 <= i <= |c| && id !in Flat(c[..i])
    {
      FlatStep(c, i);
      var j := IdInSeg(c[i], id);
      if j >= 0 {
        FlatIn(c, id);
        return;
      }
      i := i + 1;
    }
    FlatAll(c);
    i := -1;
  }

  // Conf_leader.
  method Leader(c: Config) returns (id: int)
    requires Flat(c) != []
    ensures id == Flat(c)[0]
  {
    var i := 0;
    FlatAll(c);
    while i < |c|
      invariant 0 <= i <= |c| && Offset(c, i) == 0
    {
      if |c[i]| > 0 {
        FlatAt(c, i, 0);
        return c[i][0];
      }
      FlatStep(c, i);
      i := i + 1;
    }
    assert false;
  }

  // Conf_last.
  method Last(c: Config) returns (id: int)
    requires Flat(c) != []
    ensures id == Flat(c)[|Flat(c)| - 1]
  {
    var i := |c| - 1;
    FlatAll(c);
    while i >= 0
      invariant -1 <= i < |c| && Offset(c, i + 1) == |Flat(c)|
    {
      FlatStep(c, i);
      if |c[i]| > 0 {
        FlatAt(c, i, |c[i]| - 1);
        return c[i][|c[i]| - 1];
      }
      i := i - 1;
    }
    assert false;
  }

  // Conf_append_id_to_seg: false if the configuration does not know the id.
  method AppendIdToSeg(known: Config, seg: seq<int>, id: int) returns (ok: bool, more: seq<int>)
    ensures ok <==> id in Flat(known)
    ensures more == if ok then seg + [id] else seg
  {
    var i := IdInConf(known, id);
    if i != -1 { return true, seg + [id]; }
    return false, seg;
  }

  // --------------------------------------------------------- the token's next hop

  function Before(n: int, p: int): int
    requires 0 <= p < n
  {
    if p == 0 then n - 1 else p - 1
  }

  function After(n: int, p: int): int
    requires 0 <= p < n
  {
    if p == n - 1 then 0 else p + 1
  }

  // Member me stands in segment s at index j.
  predicate StandsAt(c: Config, me: int, s: int, j: int) {
    0 <= s < |c| && 0 <= j < |c[s]| && c[s][j] == me && NoRepeats(Flat(c))
  }

  lemma {:induction false} OnePlace(c: Config, me: int, s: int, j: int, k: int)
    requires StandsAt(c, me, s, j) && 0 <= k < |c[s]| && c[s][k] == me
    ensures k == j
  {
    FlatAt(c, s, j);
    FlatAt(c, s, k);
  }

  // Conf_previous, for member me in segment s.
  method Previous(c: Config, me: int, s: int, ghost j: int) returns (id: int)
    requires StandsAt(c, me, s, j)
    ensures var f := Flat(c); var p := Offset(c, s) + j;
            p < |f| && f[p] == me && id == f[Before(|f|, p)]
  {
    FlatAt(c, s, j);
    var index := IdInSeg(c[s], me);
    OnePlace(c, me, s, j, index);
    if index > 0 {
      FlatAt(c, s, index - 1);
      return c[s][index - 1];
    }
    var i := s - 1;
    while i >= 0
      invariant -1 <= i < s && Offset(c, i + 1) == Offset(c, s)
    {
      FlatStep(c, i);
      if |c[i]| > 0 {
        FlatAt(c, i, |c[i]| - 1);
        return c[i][|c[i]| - 1];
      }
      i := i - 1;
    }
    FlatAll(c);
    i := |c| - 1;
    while i >= s
      invariant s - 1 <= i < |c| && Offset(c, i + 1) == |Flat(c)|
    {
      FlatStep(c, i);
      if |c[i]| > 0 {
        FlatAt(c, i, |c[i]| - 1);
        return c[i][|c[i]| - 1];
      }
      i := i - 1;
    }
    assert false;
  }

  // The first members of the nonempty segments before segment i other than s.
  function Others(c: Config, s: int, i: int): seq<int>
    requires 0 <= i <= |c|
  {
    if i == 0 then []
    else Others(c, s, i - 1) + (if i - 1 != s && |c[i - 1]| > 0 then [c[i - 1][0]] else [])
  }

  lemma {:induction false} OthersBefore(c: Config, s: int, i: int)
    requires 0 <= i <= s < |c|
    ensures var o := Others(c, s, i);
            && |o| <= i && (|o| == 0 <==> Offset(c, i) == 0)
            && (0 < |o| ==> o[0] == Flat(c[..i])[0])
    decreases i
  {
    if i > 0 {
      OthersBefore(c, s, i - 1);
      FlatStep(c, i - 1);
    }
  }

  lemma {:induction false} OthersAfter(c: Config, s: int, i: int)
    requires 0 <= s < i <= |c|
    ensures var o, b := Others(c, s, i), Others(c, s, s);
            && b <= o && |o| < i
            && (|o| == |b| <==> Offset(c, i) == Offset(c, s + 1))
            && (|b| < |o| ==> Offset(c, s + 1) < Offset(c, i) && o[|b|] == Flat(c[..i])[Offset(c, s + 1)])
    decreases i
  {
    OthersBefore(c, s, s);
    if s + 1 < i {
      OthersAfter(c, s, i - 1);
      FlatStep(c, i - 1);
      FlatPrefix(c, s + 1, i - 1);
    }
  }

  // The statics of network.c that a membership determines.
  class Net {
    const sendAddress: array<int>
    var numSendNeeded: nat
    var segmentLeader: bool
    var tokenAddress: int

    constructor ()
      ensures sendAddress.Length == MAX_SEGMENTS && fresh(sendAddress)
    {
      sendAddress := new int[MAX_SEGMENTS];
      numSendNeeded := 0;
      segmentLeader := false;
      tokenAddress := 0;
    }

    // One address in each other segment; and how many of them come before s.
    method FillAddresses(c: Config, s: int) returns (next: int)
      requires 0 <= s < |c| <= MAX_SEGMENTS == sendAddress.Length
      modifies `numSendNeeded, sendAddress
      ensures numSendNeeded <= MAX_SEGMENTS && sendAddress[..numSendNeeded] == Others(c, s, |c|)
      ensures next == |Others(c, s, s)|
    {
      numSendNeeded := 0;
      next := -1;
      var i := 0;
      while i < |c|
        invariant 0 <= i <= |c| && numSendNeeded <= i
        invariant sendAddress[..numSendNeeded] == Others(c, s, i)
        invariant s < i ==> next == |Others(c, s, s)|
      {
        if i == s {
          next := numSendNeeded;
        } else if |c[i]| > 0 {
          sendAddress[numSendNeeded] := c[i][0];
          numSendNeeded := numSendNeeded + 1;
        }
        i := i + 1;
      }
    }

    // Net_set_membership: where this member sends the token.
    method SetMembership(c: Config, me: int, s: int, ghost j: int)
      requires StandsAt(c, me, s, j) && |c| <= MAX_SEGMENTS == sendAddress.Length
      modifies this, sendAddress
      ensures var f := Flat(c); var p := Offset(c, s) + j;
              p < |f| && f[p] == me && tokenAddress == f[After(|f|, p)]
      ensures segmentLeader <==> j == 0
      ensures numSendNeeded <= MAX_SEGMENTS && sendAddress[..numSendNeeded] == Others(c, s, |c|)
    {
      FlatAt(c, s, j);
      FlatAll(c);
      FlatPrefix(c, s, |c|);
      FlatStep(c, s);
      OthersBefore(c, s, s);
      OthersAfter(c, s, |c|);
      var index := IdInSeg(c[s], me);
      OnePlace(c, me, s, j, index);
      segmentLeader := index == 0;
      var next := FillAddresses(c, s);
      ghost var o := Others(c, s, |c|);
      if index < |c[s]| - 1 {
        FlatAt(c, s, index + 1);
        tokenAddress := c[s][index + 1];
      } else if numSendNeeded == 0 {
        FlatAt(c, s, 0);
        tokenAddress := c[s][0];
      } else if numSendNeeded == next {
        assert sendAddress[..numSendNeeded][0] == o[0];
        tokenAddress := sendAddress[0];
      } else {
        assert sendAddress[..numSendNeeded][next] == o[next];
        tokenAddress := sendAddress[next];
      }
    }
  }

  // ------------------------------------------------------------ the ring it makes

  // Where the k-th hop from position p leads.
  function Hop(n: int, p: int, k: nat): int
    requires 0 <= p < n
    ensures 0 <= Hop(n, p, k) < n
  {
    if k == 0 then p else After(n, Hop(n, p, k - 1))
  }

  lemma {:induction false} HopAt(n: int, p: int, k: nat)
    requires 0 <= p < n && k <= n
    ensures Hop(n, p, k) == if p + k < n then p + k else p + k - n
  {
    if k > 0 { HopAt(n, p, k - 1); }
  }

  predicate Reaches(n: int, p: int, q: int)
    requires 0 <= p < n
  {
    exists k :: 0 <= k < n && Hop(n, p, k) == q
  }

  // Successor and predecessor undo each other; following successors from any
  // member visits every member once before it returns there, and from
  // Conf_leader it gets to Conf_last.
  lemma {:induction false} RingSuccession(c: Config, p: int)
    requires NoRepeats(Flat(c)) && 0 <= p < |Flat(c)|
    ensures var n := |Flat(c)|;
            && Before(n, After(n, p)) == p == After(n, Before(n, p))
            && Hop(n, p, n) == p
            && (forall x, y :: 0 <= x < y < n ==> Flat(c)[Hop(n, p, x)] != Flat(c)[Hop(n, p, y)])
            && (forall q :: 0 <= q < n ==> Reaches(n, p, q))
            && Hop(n, 0, n - 1) == n - 1
  {
    hide Hop;
    var n := |Flat(c)|;
    HopAt(n, p, n);
    HopAt(n, 0, n - 1);
    forall x, y | 0 <= x < y < n ensures Flat(c)[Hop(n, p, x)] != Flat(c)[Hop(n, p, y)] {
      HopAt(n, p, x);
      HopAt(n, p, y);
    }
    forall q | 0 <= q < n ensures Reaches(n, p, q) {
      var k := if p <= q then q - p else q + n - p;
      HopAt(n, p, k);
    }
  }
}
