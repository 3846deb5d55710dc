/** Division with remainder, and powers, as far as the number formats need them. */
module Arith {
  lemma {:induction false} MulGap(len: nat, a: nat, b: nat)
    requires a < b
    ensures len * b >= len * a + len
    decreases b
  {
    assert len * b == len * (b - 1) + len;
    if a + 1 < b {
      MulGap(len, a, b - 1);
    }
  }

  lemma DivModUnique(k: nat, len: nat, q: nat, r: nat)
    requires len > 0 && k == len * q + r && r < len
    ensures k % len == r && k / len == q
  {
    var q1 := k / len;
    assert k == len * q1 + k % len;
    if q1 > q {
      MulGap(len, q, q1);
      assert false;
    } else if q1 < q {
      MulGap(len, q1, q);
      assert false;
    }
  }

  function Pow(b: nat, d: nat): nat {
    if d == 0 then 1 else b * Pow(b, d - 1)
  }

  lemma {:induction false} PowPositive(b: nat, d: nat)
    requires b > 0
    ensures Pow(b, d) > 0
  {
    if d > 0 {
      PowPositive(b, d - 1);
    }
  }

  lemma {:induction false} PowSum(b: nat, d: nat, e: nat)
    ensures Pow(b, d) * Pow(b, e) == Pow(b, d + e)
  {
    if d > 0 {
      PowSum(b, d - 1, e);
      MulAssoc(b, Pow(b, d - 1), Pow(b, e));
    }
  }

  lemma MulAssoc(a: int, b: int, c: int)
    ensures (a * b) * c == a * (b * c)
  {
  }

  // The top digit of a number and what is below it.
  lemma SplitTop(v: nat, b: nat, p: nat)
    requires b > 0 && p > 0
    ensures b * p > 0
    ensures v % (b * p) == (v / p % b) * p + v % p
    ensures (v / p % b) * p + v % p < b * p
  {
    var q := v / p;
    var hi, top, low := q / b, q % b, v % p;
    assert v == p * q + low && q == b * hi + top;
    calc {
      p * q;
      p * (b * hi + top);
      p * (b * hi) + p * top;
      { MulAssoc(p, b, hi); }
      (b * p) * hi + top * p;
    }
    MulGap(p, top, b);
    assert b * p > 0 by { MulGap(p, 0, b); }
    DivModUnique(v, b * p, hi, top * p + low);
  }
}
