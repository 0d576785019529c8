// The all-received-up-to value that the ring token carries, looked at over the
// whole history of token visits.  Each daemon only compares the values on the
// last two tokens it sent itself; the lemmas below say what that comparison
// means for every other daemon of the ring.
module TokenHistory {
  import opened RingArith

  // What visit t left on the token (seq, aru, aru_last_id) and the My_aru the
  // visiting daemon had when it sent the token on.
  datatype Visit = Visit(seqNo: int, aru: int, last: int, my: int)

  // The three reasons for which a daemon overwrites the aru of the token.
  predicate Overwrites(evs: bool, prev: Visit, who: int, my: int) {
    prev.aru > my || prev.last == who || (prev.aru == prev.seqNo && !evs)
  }

  ghost predicate Link(evs: bool, n: int, h: seq<Visit>, t: int)
    requires 0 < n && 1 <= t < |h|
  {
    && 0 <= h[t - 1].seqNo <= h[t].seqNo
    && 0 <= h[t].my
    && (evs || h[t].my <= h[t].seqNo)
    && h[t].aru == (if Overwrites(evs, h[t - 1], t % n, h[t].my) then h[t].my else h[t - 1].aru)
    && h[t].last == (if Overwrites(evs, h[t - 1], t % n, h[t].my) then t % n else h[t - 1].last)
    && (t > n ==> h[t - n].my <= h[t].my)
  }

  // A history starts with the token that the first visit receives.  In normal
  // operation that token was last raised by the daemon which handles it first.
  ghost predicate Chain(evs: bool, n: int, h: seq<Visit>) {
    && 0 < n
    && 1 <= |h|
    && 0 <= h[0].aru && 0 <= h[0].seqNo
    && (evs || h[0].last == 1 % n)
    && forall t :: 1 <= t < |h| ==> Link(evs, n, h, t)
  }

  // The value Aru that the daemon of visit t computes: the smaller of the arus
  // on the last two tokens it sent, the first of them counting as 0.
  function Stable(n: int, h: seq<Visit>, t: int): int
    requires 0 < n && t < |h|
  {
    if t <= n then 0 else Min(h[t - n].aru, h[t].aru)
  }

  lemma SeqMonotone(evs: bool, n: int, h: seq<Visit>, x: int, y: int)
    requires Chain(evs, n, h) && 0 <= x <= y < |h|
    ensures h[x].seqNo <= h[y].seqNo
    decreases y - x
  {
    if x < y {
      assert Link(evs, n, h, y);
      SeqMonotone(evs, n, h, x, y - 1);
    }
  }

  lemma AruBelowMy(evs: bool, n: int, h: seq<Visit>, t: int)
    requires Chain(evs, n, h) && 1 <= t < |h|
    ensures 0 <= h[t].aru <= h[t].my
    decreases t
  {
    assert Link(evs, n, h, t);
    if t > 1 { AruBelowMy(evs, n, h, t - 1); }
  }

  lemma AruBelowSeq(n: int, h: seq<Visit>, t: int)
    requires Chain(false, n, h) && 1 <= t < |h|
    ensures h[t].aru <= h[t].seqNo
    decreases t
  {
    assert Link(false, n, h, t);
    if t > 1 { AruBelowSeq(n, h, t - 1); }
  }

  // If the daemon about to be visited is the one that last overwrote the aru,
  // nobody has overwritten it since that daemon's previous visit.
  lemma Untouched(evs: bool, n: int, h: seq<Visit>, r: int, x: int)
    requires Chain(evs, n, h) && 1 <= r < |h| && 0 <= x < r && r - n <= x
    requires h[r - 1].last == r % n
    ensures h[x].aru == h[r - 1].aru && h[x].last == h[r - 1].last
    decreases r - x
  {
    if x < r - 1 {
      Untouched(evs, n, h, r, x + 1);
      assert Link(evs, n, h, x + 1);
      if (x + 1) % n == r % n {
        SameDaemon(n, x + 1, r);
      }
    }
  }

  // Between two tokens sent by one daemon, no token carried an aru below the
  // smaller of the two.
  lemma WindowTo(evs: bool, n: int, h: seq<Visit>, s: int, t: int, m: int)
    requires Chain(evs, n, h) && 1 <= s <= t <= m < |h| && m <= s + n
    ensures Min(h[s].aru, h[m].aru) <= h[t].aru
    decreases m
  {
    if t < m {
      WindowTo(evs, n, h, s, t, m - 1);
      assert Link(evs, n, h, m);
      if h[m].aru > h[m - 1].aru {
        if h[m - 1].last == m % n {
          Untouched(evs, n, h, m, t);
          Untouched(evs, n, h, m, s);
        } else {
          SeqMonotone(evs, n, h, s, m - 1);
          AruBelowSeq(n, h, s);
        }
      }
    }
  }

  lemma Window(evs: bool, n: int, h: seq<Visit>, k: int, t: int)
    requires Chain(evs, n, h) && n < k < |h| && k - n <= t <= k
    ensures Stable(n, h, k) <= h[t].aru
  {
    WindowTo(evs, n, h, k - n, t, k);
  }

  // The value a daemon computes is at most the My_aru of every daemon of the
  // ring, at the latest visit of each.
  lemma StableBelowMy(evs: bool, n: int, h: seq<Visit>, k: int, t: int)
    requires Chain(evs, n, h) && 0 <= k < |h| && k - n < t <= k && 1 <= t
    ensures 0 <= Stable(n, h, k) <= h[t].my
  {
    AruBelowMy(evs, n, h, t);
    if k > n {
      Window(evs, n, h, k, t);
      AruBelowMy(evs, n, h, k);
      AruBelowMy(evs, n, h, k - n);
    }
  }

  // It never goes down from one visit to the next, hence not at any daemon.
  lemma StableStep(evs: bool, n: int, h: seq<Visit>, k: int)
    requires Chain(evs, n, h) && 0 <= k && k + 1 < |h|
    ensures Stable(n, h, k) <= Stable(n, h, k + 1)
  {
    AruBelowMy(evs, n, h, k + 1);
    assert Link(evs, n, h, k + 1);
    if k >= n {
      var j := k + 1 - n;
      AruBelowMy(evs, n, h, j);
      if k > n {
        Window(evs, n, h, k, j);
        assert h[j].my <= h[k + 1].my;
      }
    }
  }

  lemma StableMonotone(evs: bool, n: int, h: seq<Visit>, x: int, y: int)
    requires Chain(evs, n, h) && x <= y < |h|
    ensures 0 <= Stable(n, h, x) <= Stable(n, h, y)
    decreases y - x
  {
    if 0 <= x < y {
      StableMonotone(evs, n, h, x, y - 1);
      StableStep(evs, n, h, y - 1);
    } else if 0 <= y && x < 0 {
      StableMonotone(evs, n, h, 0, y);
    } else if n < x == y {
      AruBelowMy(evs, n, h, x);
      AruBelowMy(evs, n, h, x - n);
    }
  }

  // ----------------------------------------------------------- it gets there

  lemma {:induction false} OwnerKnown(evs: bool, n: int, h: seq<Visit>, t: int)
    requires Chain(evs, n, h) && 1 <= t < |h| && (0 <= h[0].last < n || h[0].aru > h[1].my)
    ensures 0 <= h[t].last < n
    decreases t
  {
    assert Link(evs, n, h, t);
    if t > 1 { OwnerKnown(evs, n, h, t - 1); }
  }

  // Once the aru has reached x it stays there while everybody has got to x.
  lemma {:induction false} AruStays(evs: bool, n: int, h: seq<Visit>, a: int, t: int, x: int)
    requires Chain(evs, n, h) && 1 <= a <= t < |h| && x <= h[a].aru
    requires forall u :: a <= u <= t ==> x <= h[u].my
    ensures x <= h[t].aru
    decreases t
  {
    if a < t {
      AruStays(evs, n, h, a, t - 1, x);
      assert Link(evs, n, h, t);
    }
  }

  // If nobody overwrites it, it is its owner's turn within a round.
  lemma {:induction false} AruRises(evs: bool, n: int, h: seq<Visit>, a: int, t: int, x: int)
    requires Chain(evs, n, h) && 1 <= a <= t < |h| && 0 <= h[a].last < n
    requires forall u :: a <= u <= t ==> x <= h[u].my
    ensures x <= h[t].aru || (h[t].last == h[a].last && forall u :: a < u <= t ==> u % n != h[a].last)
    decreases t
  {
    if a < t {
      AruRises(evs, n, h, a, t - 1, x);
      assert Link(evs, n, h, t);
    }
  }

  lemma {:induction false} EachTurn(n: int, a: int, j: int) returns (t: int)
    requires 0 <= j < n
    ensures a < t <= a + n && t % n == j
  {
    var r := a % n;
    t := if r < j then a + (j - r) else a + (j - r) + n;
    assert a == n * (a / n) + r;
    if r < j {
      Unique(n, t, a / n, j);
    } else {
      assert t == n * (a / n + 1) + j;
      Unique(n, t, a / n + 1, j);
    }
  }

  // From any visit on, if everybody has got to x, then so has the value that each
  // daemon computes, two rounds later.
  lemma {:induction false} StableReaches(evs: bool, n: int, h: seq<Visit>, a: int, k: int, x: int)
    requires Chain(evs, n, h) && 1 <= a && a + 2 * n <= k < |h| && (0 <= h[0].last < n || h[0].aru > h[1].my)
    requires forall t :: a <= t <= k ==> x <= h[t].my
    ensures x <= Stable(n, h, k)
  {
    OwnerKnown(evs, n, h, a);
    AruRises(evs, n, h, a, a + n, x);
    var t := EachTurn(n, a, h[a].last);
    assert x <= h[a + n].aru;
    AruStays(evs, n, h, a + n, k - n, x);
    AruStays(evs, n, h, a + n, k, x);
  }

  // ------------------------------------------------------- one more visit

  // A visit that follows the rules extends the history.
  lemma {:induction false} Extend(evs: bool, n: int, h: seq<Visit>, v: Visit)
    requires Chain(evs, n, h)
    requires h[|h| - 1].seqNo <= v.seqNo && 0 <= v.my && (evs || v.my <= v.seqNo)
    requires var o := Overwrites(evs, h[|h| - 1], |h| % n, v.my);
             && v.aru == (if o then v.my else h[|h| - 1].aru)
             && v.last == (if o then |h| % n else h[|h| - 1].last)
    requires |h| > n ==> h[|h| - n].my <= v.my
    ensures Chain(evs, n, h + [v])
  {
    var g := h + [v];
    assert 0 <= h[|h| - 1].seqNo by {
      if |h| > 1 { assert Link(evs, n, h, |h| - 1); }
    }
    forall t | 1 <= t < |g| ensures Link(evs, n, g, t) {
      if t < |h| { assert Link(evs, n, h, t); }
    }
  }

  lemma {:induction false} StableKept(n: int, h: seq<Visit>, v: Visit, t: int)
    requires 0 < n && t < |h|
    ensures Stable(n, h + [v], t) == Stable(n, h, t)
  {
  }
}
