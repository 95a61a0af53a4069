/** How evenly `Next` spreads calls over an unchanged list of `n` workers, with the
    wrap-around of the unsigned 64-bit counter. */
module RoundRobin {
  import opened Basics
  import opened Uint64

  /** The index picked by the call number `j` after the counter had the value `c`. */
  function Pick(c: nat, j: nat, n: nat): nat
    requires n > 0
  {
    ((c + j) % WORD) % n
  }

  /** How many of the next `k` calls pick the worker at index `w`. */
  function Picks(c: nat, k: nat, n: nat, w: nat): nat
    requires n > 0
  {
    if k == 0 then 0 else Picks(c, k - 1, n, w) + One(Pick(c, k, n) == w)
  }

  /** Any two workers' pick counts over the next `k` calls differ by at most `d`. */
  ghost predicate Even(c: nat, k: nat, n: nat, d: nat)
    requires n > 0
  {
    forall u: nat, w: nat | u < n && w < n :: Picks(c, k, n, u) <= Picks(c, k, n, w) + d
  }

  /** How many numbers in `[a, a + k)` have the residue `w`. */
  function Hits(a: nat, k: nat, n: nat, w: nat): nat
    requires n > 0
  {
    if k == 0 then 0 else Hits(a, k - 1, n, w) + One((a + k - 1) % n == w)
  }

  function Rounds(k: nat, n: nat): nat
    requires n > 0
  {
    if k < n then 0 else 1 + Rounds(k - n, n)
  }

  lemma Gap(n: nat, p: nat, q: nat)
    requires p < q
    ensures n * q >= n * p + n
  {
    assert n * q == n * p + n * (q - p);
    assert n * (q - p) == n + n * (q - p - 1);
  }

  lemma ModUnique(x: nat, n: nat, q: nat, r: nat)
    requires r < n && x == n * q + r
    ensures x % n == r
  {
    var p, m := x / n, x % n;
    assert x == n * p + m;
    if p < q {
      Gap(n, p, q);
    } else if q < p {
      Gap(n, q, p);
    }
  }

  lemma ModPeriod(a: nat, n: nat)
    requires n > 0
    ensures (a + n) % n == a % n
  {
    assert a + n == n * (a / n + 1) + a % n;
    ModUnique(a + n, n, a / n + 1, a % n);
  }

  /** The call number `i + 1` after the counter had the value `c` is the first call
      after it had the value that `i` increments leave. */
  lemma ConsecutiveCalls(c: nat, i: nat, n: nat)
    requires n > 0
    ensures Pick((c + i) % WORD, 1, n) == Pick(c, i + 1, n)
  {
    var q, r := (c + i) / WORD, (c + i) % WORD;
    assert c + i == WORD * q + r;
    if r + 1 < WORD {
      ModUnique(c + i + 1, WORD, q, r + 1);
    } else {
      ModUnique(c + i + 1, WORD, q + 1, 0);
    }
  }

  lemma {:induction false} HitsSplit(a: nat, j: nat, k: nat, n: nat, w: nat)
    requires n > 0
    ensures Hits(a, j + k, n, w) == Hits(a, j, n, w) + Hits(a + j, k, n, w)
  {
    if k > 0 {
      HitsSplit(a, j, k - 1, n, w);
    }
  }

  lemma {:induction false} HitsShift(a: nat, k: nat, n: nat, w: nat)
    requires n > 0
    ensures Hits(a + n, k, n, w) == Hits(a, k, n, w)
  {
    if k > 0 {
      HitsShift(a, k - 1, n, w);
      ModPeriod(a + k - 1, n);
    }
  }

  lemma {:induction false} HitsFromZero(k: nat, n: nat, w: nat)
    requires w < n && k <= n
    ensures Hits(0, k, n, w) == One(w < k)
  {
    if k > 0 {
      HitsFromZero(k - 1, n, w);
      ModUnique(k - 1, n, 0, k - 1);
    }
  }

  /** A full window hits every residue once. */
  lemma {:induction false} HitsFull(a: nat, n: nat, w: nat)
    requires w < n
    ensures Hits(a, n, n, w) == 1
  {
    if a == 0 {
      HitsFromZero(n, n, w);
    } else {
      HitsFull(a - 1, n, w);
      HitsSplit(a - 1, 1, n, n, w);
      HitsSplit(a - 1, n, 1, n, w);
      HitsShift(a - 1, 1, n, w);
    }
  }

  lemma {:induction false} HitsBalanced(a: nat, k: nat, n: nat, w: nat)
    requires w < n
    ensures Rounds(k, n) <= Hits(a, k, n, w) <= Rounds(k, n) + 1
    decreases k
  {
    HitsFull(a, n, w);
    if k < n {
      HitsSplit(a, k, n - k, n, w);
    } else {
      HitsSplit(a, n, k - n, n, w);
      HitsBalanced(a + n, k - n, n, w);
    }
  }

  lemma PickUnwrapped(c: nat, j: nat, n: nat)
    requires n > 0 && c + j < WORD
    ensures Pick(c, j, n) == (c + j) % n
  {
    assert (c + j) % WORD == c + j;
  }

  lemma {:induction false} NoWrap(c: nat, k: nat, n: nat, w: nat)
    requires n > 0 && c + k < WORD
    ensures Picks(c, k, n, w) == Hits(c + 1, k, n, w)
  {
    if k > 0 {
      NoWrap(c, k - 1, n, w);
      PickUnwrapped(c, k, n);
    }
  }

  lemma {:induction false} OneWrap(c: nat, k: nat, n: nat, w: nat)
    requires n > 0 && c < WORD <= c + k < 2 * WORD
    ensures Picks(c, k, n, w) == Hits(c + 1, WORD - 1 - c, n, w) + Hits(0, c + k + 1 - WORD, n, w)
  {
    assert (c + k) % WORD == c + k - WORD;
    if c + k == WORD {
      NoWrap(c, k - 1, n, w);
    } else {
      OneWrap(c, k - 1, n, w);
    }
  }

  /** Without a wrap of the counter the pick counts differ by at most one. */
  lemma {:induction false} EvenWithoutWrap(c: nat, k: nat, n: nat)
    requires n > 0 && c + k < WORD
    ensures Even(c, k, n, 1)
  {
    forall w: nat | w < n ensures Rounds(k, n) <= Picks(c, k, n, w) <= Rounds(k, n) + 1 {
      NoWrap(c, k, n, w);
      HitsBalanced(c + 1, k, n, w);
    }
  }

  /** Across one wrap they differ by at most two. */
  lemma {:induction false} EvenAcrossOneWrap(c: nat, k: nat, n: nat)
    requires n > 0 && c < WORD && c + k < 2 * WORD
    ensures Even(c, k, n, 2)
  {
    if c + k < WORD {
      EvenWithoutWrap(c, k, n);
    } else {
      var j, l := WORD - 1 - c, c + k + 1 - WORD;
      forall w: nat | w < n
        ensures Rounds(j, n) + Rounds(l, n) <= Picks(c, k, n, w) <= Rounds(j, n) + Rounds(l, n) + 2
      {
        OneWrap(c, k, n, w);
        HitsBalanced(c + 1, j, n, w);
        HitsBalanced(0, l, n, w);
      }
    }
  }

  lemma ModOfMod(x: nat, n: nat)
    requires n > 0 && WORD % n == 0
    ensures (x % WORD) % n == x % n
  {
    var m, q := WORD / n, x / WORD;
    var y := x % WORD;
    assert WORD == n * m && x == WORD * q + y;
    assert WORD * q == n * (m * q);
    assert y == n * (y / n) + y % n;
    assert x == n * (m * q + y / n) + y % n;
    ModUnique(x, n, m * q + y / n, y % n);
  }

  lemma {:induction false} WrapInvisible(c: nat, k: nat, n: nat, w: nat)
    requires n > 0 && WORD % n == 0
    ensures Picks(c, k, n, w) == Hits(c + 1, k, n, w)
  {
    if k > 0 {
      WrapInvisible(c, k - 1, n, w);
      ModOfMod(c + k, n);
    }
  }

  lemma {:induction false} HitsFromMultiple(q: nat, k: nat, n: nat, w: nat)
    requires n > 0
    ensures Hits(n * q, k, n, w) == Hits(0, k, n, w)
  {
    if q > 0 {
      HitsFromMultiple(q - 1, k, n, w);
      assert n * q == n * (q - 1) + n;
      HitsShift(n * (q - 1), k, n, w);
    }
  }

  lemma PicksAtWrap(n: nat, q: nat, r: nat, w: nat)
    requires WORD == n * q + r && 0 < r < n && r < WORD && w < n
    ensures Picks(WORD - r - 1, 2 * r, n, w) == 2 * One(w < r)
  {
    OneWrap(WORD - r - 1, 2 * r, n, w);
    HitsFromMultiple(q, r, n, w);
    HitsFromZero(r, n, w);
  }

  /** With `r` calls before the wrap and `r` after it, for the remainder `r`, the first
      worker is picked twice and the last one never. */
  lemma {:induction false} UnevenWindow(n: nat)
    requires 0 < n <= WORD && WORD % n != 0
    ensures var r := WORD % n;
            r < WORD && Picks(WORD - r - 1, 2 * r, n, 0) == 2 && Picks(WORD - r - 1, 2 * r, n, n - 1) == 0
  {
    var q, r := WORD / n, WORD % n;
    assert WORD == n * q + r;
    PicksAtWrap(n, q, r, 0);
    PicksAtWrap(n, q, r, n - 1);
  }

  /** The bound of one holds across every wrap exactly when the number of workers
      divides 2^64. */
  lemma EvenAlwaysIffDivides(n: nat)
    requires 0 < n <= WORD
    ensures (forall c: nat, k: nat | c < WORD :: Even(c, k, n, 1)) <==> WORD % n == 0
  {
    if WORD % n == 0 {
      forall c: nat, k: nat | c < WORD ensures Even(c, k, n, 1) {
        forall w: nat | w < n ensures Rounds(k, n) <= Picks(c, k, n, w) <= Rounds(k, n) + 1 {
          WrapInvisible(c, k, n, w);
          HitsBalanced(c + 1, k, n, w);
        }
      }
    } else {
      UnevenWindow(n);
      var r := WORD % n;
      assert !Even(WORD - r - 1, 2 * r, n, 1);
    }
  }
}
