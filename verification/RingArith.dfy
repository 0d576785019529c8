// Arithmetic of a ring of n daemons whose visits are numbered one after the
// other: visit t is made by daemon t % n.  Non-linear facts are proved here
// once and used everywhere else only through these lemmas.
module RingArith {

  function Min(a: int, b: int): int {
    if a <= b then a else b
  }

  function Max(a: int, b: int): int {
    if a >= b then a else b
  }

  lemma Unique(n: int, a: int, x: int, y: int)
    requires 0 < n && a == n * x + y && 0 <= y < n
    ensures a / n == x && a % n == y
  {
    var q := a / n;
    assert n * (q - x) == y - a % n;
    if q < x {
      assert n * (q - x) <= n * (-1) by { MulMono(n, q - x, -1); }
    } else if q > x {
      assert n * (q - x) >= n * 1 by { MulMono(n, 1, q - x); }
    }
  }

  lemma MulMono(n: int, a: int, b: int)
    requires 0 <= n && a <= b
    ensures n * a <= n * b
  {
  }

  // One round later the same daemon is visited, and the quotient is one higher.
  lemma OneRound(n: int, t: int)
    requires 0 < n
    ensures (t + n) % n == t % n
    ensures (t + n) / n == t / n + 1
    ensures (t - n) % n == t % n
    ensures (t - n) / n == t / n - 1
  {
    assert t == n * (t / n) + t % n;
    assert t + n == n * (t / n + 1) + t % n;
    Unique(n, t + n, t / n + 1, t % n);
    assert t - n == n * (t / n - 1) + t % n;
    Unique(n, t - n, t / n - 1, t % n);
  }

  // Within less than one round no daemon is visited twice.
  lemma SameDaemon(n: int, x: int, y: int)
    requires 0 < n && x % n == y % n && -n < x - y < n
    ensures x == y
  {
    assert x - y == n * (x / n - y / n);
    if x / n > y / n {
      MulMono(n, 1, x / n - y / n);
    } else if x / n < y / n {
      MulMono(n, x / n - y / n, -1);
    }
  }

  // The next visit is made by the next daemon on the ring.
  lemma NextDaemon(n: int, t: int)
    requires 0 < n
    ensures (t + 1) % n == if t % n == n - 1 then 0 else t % n + 1
  {
    var q, r := t / n, t % n;
    assert t == n * q + r;
    if r == n - 1 {
      assert t + 1 == n * (q + 1) + 0;
      Unique(n, t + 1, q + 1, 0);
    } else {
      assert t + 1 == n * q + (r + 1);
      Unique(n, t + 1, q, r + 1);
    }
  }

  // Two visits of one daemon that are q rounds apart.
  lemma RoundsApart(n: int, x: int, y: int) returns (q: int)
    requires 0 < n && x % n == y % n
    ensures x == y + n * q
    ensures x >= y ==> q >= 0
    ensures q == x / n - y / n
  {
    q := x / n - y / n;
    assert x - y == n * q;
    if x >= y && q < 0 {
      MulMono(n, q, -1);
    }
  }

  lemma AddRounds(n: int, a: int, q: int)
    requires 0 < n
    ensures (a + n * q) / n == a / n + q
    ensures (a + n * q) % n == a % n
  {
    assert a + n * q == n * (a / n + q) + a % n;
    Unique(n, a + n * q, a / n + q, a % n);
  }

  lemma SuccDiv(n: int, w: int)
    requires 0 < n
    ensures (w + 1) / n == w / n + (if (w + 1) % n == 0 then 1 else 0)
  {
    var q, r := w / n, w % n;
    assert w == n * q + r;
    if r == n - 1 {
      assert w + 1 == n * (q + 1) + 0;
      Unique(n, w + 1, q + 1, 0);
    } else {
      assert w + 1 == n * q + (r + 1);
      Unique(n, w + 1, q, r + 1);
    }
  }

  lemma ShiftMod(n: int, x: int, k: int)
    requires 0 <= k < n
    ensures x % n == k <==> (x - k) % n == 0
    ensures (x + n - k) % n == (x - k) % n
  {
    OneRound(n, x - k);
    var q, m := x / n, (x - k) / n;
    assert x == n * q + x % n && x - k == n * m + (x - k) % n;
    if x % n == k { Unique(n, x - k, q, 0); }
    if (x - k) % n == 0 { Unique(n, x, m, k); }
  }

  // How often daemon k has been visited among the visits up to t, give or take
  // a constant.
  function Turns(n: int, k: int, t: int): int
    requires 0 <= k < n
  {
    (t + n - k) / n
  }

  lemma TurnsStep(n: int, k: int, t: int)
    requires 0 <= k < n
    ensures Turns(n, k, t + 1) == Turns(n, k, t) + (if (t + 1) % n == k then 1 else 0)
  {
    SuccDiv(n, t + n - k);
    ShiftMod(n, t + 1, k);
  }

  lemma TurnsRounds(n: int, k: int, x: int, y: int) returns (q: int)
    requires 0 <= k < n && x % n == y % n
    ensures x == y + n * q && Turns(n, k, x) == Turns(n, k, y) + q
    ensures x >= y ==> q >= 0
    ensures x - y < 16 * n ==> q < 16
  {
    q := RoundsApart(n, x, y);
    AddRounds(n, y + n - k, q);
    if x - y < 16 * n && q >= 16 {
      MulMono(n, 16, q);
    }
  }

  // From a daemon's visit to just before its next one, every other daemon has
  // exactly one turn.
  lemma TurnsAround(n: int, k: int, t: int)
    requires 0 <= k < n
    ensures Turns(n, k, t + n - 1) == Turns(n, k, t) + (if t % n == k then 0 else 1)
  {
    TurnsStep(n, k, t + n - 1);
    OneRound(n, t);
    OneRound(n, t + n - k);
  }
}
