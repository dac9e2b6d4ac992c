/** Small facts about division and residues for symbolic divisors. */
module Cyclic {
  lemma MulAtLeast(x: int, d: int)
    requires x >= 1 && d >= 0
    ensures x * d >= d
  {
  }

  lemma Distribute(a: int, b: int, d: int)
    ensures (a - b) * d == a * d - b * d
  {
  }

  /** Quotient and remainder are unique. */
  lemma Unique(q: int, r: int, q': int, r': int, d: int)
    requires 0 <= r < d && 0 <= r' < d && q * d + r == q' * d + r'
    ensures q == q' && r == r'
  {
    Distribute(q, q', d);
    Distribute(q', q, d);
    if q > q' {
      MulAtLeast(q - q', d);
    } else if q' > q {
      MulAtLeast(q' - q, d);
    }
  }

  lemma Fundamental(n: int, d: int)
    requires d > 0
    ensures n == (n / d) * d + n % d && 0 <= n % d < d
  {
  }

  lemma Quotient(n: int, d: int, q: int, r: int)
    requires 0 <= r < d && n == q * d + r
    ensures n / d == q && n % d == r
  {
    Fundamental(n, d);
    Unique(n / d, n % d, q, r, d);
  }

  /** Counting up by one, in quotient and remainder. */
  lemma Step(k: nat, d: nat)
    requires d > 0
    ensures k % d + 1 < d ==> (k + 1) / d == k / d && (k + 1) % d == k % d + 1
    ensures k % d + 1 >= d ==> (k + 1) / d == k / d + 1 && (k + 1) % d == 0
  {
    var q, r := k / d, k % d;
    Fundamental(k, d);
    if r + 1 < d {
      Quotient(k + 1, d, q, r + 1);
    } else {
      Distribute(q, -1, d);
      Quotient(k + 1, d, q + 1, 0);
    }
  }

  /** The shift that takes a residue to a target. */
  lemma Shift(base: nat, target: nat, n: nat) returns (j: nat)
    requires target < n
    ensures j < n && (base + j) % n == target
  {
    var q, r := base / n, base % n;
    Fundamental(base, n);
    if target >= r {
      j := target - r;
      Quotient(base + j, n, q, target);
    } else {
      j := target + n - r;
      Distribute(q, -1, n);
      Quotient(base + j, n, q + 1, target);
    }
  }

  lemma ShiftsDiffer(base: nat, i: nat, j: nat, n: nat)
    requires i < n && j < n && (base + i) % n == (base + j) % n
    ensures i == j
  {
    Fundamental(base + i, n);
    Fundamental(base + j, n);
    var a, b := (base + i) / n, (base + j) / n;
    Distribute(a, b, n);
    Distribute(b, a, n);
    if a > b {
      MulAtLeast(a - b, n);
    } else if b > a {
      MulAtLeast(b - a, n);
    }
  }
}
