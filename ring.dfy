/**
 * Positions on a ring of n playlist entries: the wrap-around arithmetic behind
 * "next" and "previous", and its agreement with Euclidean remainders.
 */
module Ring {
  import opened Controller

  /** Adding to a remainder is adding to the number, modulo n. */
  lemma ModAdd(a: int, b: int, n: int)
    requires n > 0
    ensures (a % n + b) % n == (a + b) % n
  {
    var q, r := a / n, a % n;
    var q2, r2 := (r + b) / n, (r + b) % n;
    assert a == q * n + r;
    assert r + b == q2 * n + r2;
    assert a + b == (q + q2) * n + r2;
    DivModUnique(a + b, n, q + q2, r2);
  }

  lemma MulAtLeast(d: int, n: int)
    requires d >= 1 && n > 0
    ensures d * n >= n
  {}

  /** Euclidean division has one quotient and one remainder. */
  lemma DivModUnique(x: int, n: int, q: int, r: int)
    requires n > 0 && 0 <= r < n && x == q * n + r
    ensures x % n == r && x / n == q
  {
    var q', r' := x / n, x % n;
    assert x == q' * n + r';
    assert (q - q') * n == r' - r;
    if q > q' {
      MulAtLeast(q - q', n);
    } else if q < q' {
      MulAtLeast(q' - q, n);
    }
  }

  /** One step forward on a ring of n positions. */
  lemma SuccMod(k: nat, n: nat)
    requires k < n
    ensures (k + 1) % n == if k < n - 1 then k + 1 else 0
  {
    if k < n - 1 { DivModUnique(k + 1, n, 0, k + 1); } else { DivModUnique(k + 1, n, 1, 0); }
  }

  /** One step back on a ring of n positions. */
  lemma PredMod(k: nat, n: nat)
    requires k < n
    ensures (k + n - 1) % n == if k > 0 then k - 1 else n - 1
  {
    if k > 0 { DivModUnique(k + n - 1, n, 1, k - 1); } else { DivModUnique(k + n - 1, n, 0, n - 1); }
  }

  lemma FollowingIsMod(k: nat, n: nat)
    requires k < n
    ensures Following(k, n) == (k + 1) % n
  {
    if k + 1 < n { DivModUnique(k + 1, n, 0, k + 1); } else { DivModUnique(k + 1, n, 1, 0); }
  }

  lemma PrecedingIsMod(k: nat, n: nat)
    requires k < n
    ensures Preceding(k, n) == (k - 1) % n
  {
    if k > 0 { DivModUnique(k - 1, n, 0, k - 1); } else { DivModUnique(k - 1, n, -1, n - 1); }
  }

  /** The position j steps after k. */
  function Ahead(k: nat, j: nat, n: nat): (r: nat)
    requires k < n
    ensures r < n
    decreases j
  {
    if j == 0 then k else Ahead(Following(k, n), j - 1, n)
  }

  /** The position j steps before k. */
  function Behind(k: nat, j: nat, n: nat): (r: nat)
    requires k < n
    ensures r < n
    decreases j
  {
    if j == 0 then k else Behind(Preceding(k, n), j - 1, n)
  }

  lemma {:induction false} AheadIsMod(k: nat, j: nat, n: nat)
    requires k < n
    ensures Ahead(k, j, n) == (k + j) % n
    decreases j
  {
    if j == 0 {
      DivModUnique(k, n, 0, k);
    } else {
      AheadIsMod(Following(k, n), j - 1, n);
      FollowingIsMod(k, n);
      ModAdd(k + 1, j - 1, n);
    }
  }

  lemma {:induction false} BehindIsMod(k: nat, j: nat, n: nat)
    requires k < n
    ensures Behind(k, j, n) == (k - j) % n
    decreases j
  {
    if j == 0 {
      DivModUnique(k, n, 0, k);
    } else {
      BehindIsMod(Preceding(k, n), j - 1, n);
      PrecedingIsMod(k, n);
      ModAdd(k - 1, -(j - 1), n);
    }
  }

  /** n steps around a ring of n positions, either way, come back to the start. */
  lemma FullTurn(k: nat, n: nat)
    requires k < n
    ensures Ahead(k, n, n) == k && Behind(k, n, n) == k
  {
    AheadIsMod(k, n, n);
    BehindIsMod(k, n, n);
    DivModUnique(k + n, n, 1, k);
    DivModUnique(k - n, n, -1, k);
  }
}
