/** Numbers in commands and responses, and the buffer responses go through. */
module ServerText {
  import opened Basics
  import opened Arith

  const WORD: nat := 0x1_0000_0000

  // ---------------------------------------------------------------- digits

  function DigitChar(n: nat): char
    requires n < 16
  {
    if n < 10 then n as char + '0' else (n - 10) as char + 'A'
  }

  // Lower-case letters are no digits.
  function DigitValue(b: nat, c: char): Option<nat> {
    if '0' <= c <= '9' then Some(c as nat - '0' as nat)
    else if b == 16 && 'A' <= c <= 'F' then Some(c as nat - 'A' as nat + 10)
    else None
  }

  predicate Base(b: nat) {
    b == 10 || b == 16
  }

  lemma DigitRoundTrip(b: nat, n: nat)
    requires Base(b) && n < b
    ensures DigitValue(b, DigitChar(n)) == Some(n)
  {
  }

  lemma DigitOnlyOneWay(b: nat, c: char)
    requires Base(b) && DigitValue(b, c).Some?
    ensures DigitValue(b, c).value < b && DigitChar(DigitValue(b, c).value) == c
  {
  }

  // ---------------------------------------------------------------- numbers

  // Digit d - 1 of v, counted from the lowest.
  function Top(b: nat, d: nat, v: nat): (n: nat)
    requires Base(b) && d > 0
    ensures n < b
  {
    PowPositive(b, d - 1);
    v / Pow(b, d - 1) % b
  }

  // The d lowest digits of v, highest first.
  function Number(b: nat, d: nat, v: nat): (s: string)
    requires Base(b)
    ensures |s| == d
  {
    if d == 0 then "" else [DigitChar(Top(b, d, v))] + Number(b, d - 1, v)
  }

  // The number they stand for.
  function Low(b: nat, d: nat, v: nat): (r: nat)
    requires Base(b)
    ensures r < Pow(b, d)
  {
    PowPositive(b, d);
    v % Pow(b, d)
  }

  datatype Fetched = NoNumber | Fetched(value: nat, rest: string)

  // Reads d digits in machine words, on top of what was read before.
  function Fetch(b: nat, s: string, d: nat, acc: nat): Fetched
    decreases |s|
  {
    if d == 0 then Fetched(acc, s)
    else if s == "" || DigitValue(b, s[0]).None? then NoNumber
    else Fetch(b, s[1..], d - 1, (acc * b + DigitValue(b, s[0]).value) % WORD)
  }

  lemma LowSplits(b: nat, d: nat, v: nat)
    requires Base(b) && d > 0
    ensures Low(b, d, v) == Top(b, d, v) * Pow(b, d - 1) + Low(b, d - 1, v)
  {
    PowPositive(b, d - 1);
    SplitTop(v, b, Pow(b, d - 1));
  }

  lemma Shifted(acc: nat, b: nat, p: nat, top: nat, low: nat)
    ensures acc * (b * p) + (top * p + low) == (acc * b + top) * p + low
  {
    MulAssoc(acc, b, p);
  }

  lemma Smaller(x: nat, p: nat, low: nat)
    requires p > 0
    ensures x <= x * p + low
  {
    if p > 1 { MulGap(x, 1, p); }
  }

  // What the accumulator makes of one more digit.
  lemma Accumulate(b: nat, d: nat, v: nat, acc: nat)
    requires Base(b) && d > 0
    ensures var acc1 := acc * b + Top(b, d, v);
      && acc * Pow(b, d) + Low(b, d, v) == acc1 * Pow(b, d - 1) + Low(b, d - 1, v)
      && acc1 <= acc * Pow(b, d) + Low(b, d, v)
  {
    var p, top, low := Pow(b, d - 1), Top(b, d, v), Low(b, d - 1, v);
    PowPositive(b, d - 1);
    LowSplits(b, d, v);
    Shifted(acc, b, p, top, low);
    Smaller(acc * b + top, p, low);
  }

  lemma FetchDigit(b: nat, n: nat, s: string, d: nat, acc: nat)
    requires Base(b) && n < b && d > 0 && acc * b + n < WORD
    ensures Fetch(b, [DigitChar(n)] + s, d, acc) == Fetch(b, s, d - 1, acc * b + n)
  {
    DigitRoundTrip(b, n);
    assert ([DigitChar(n)] + s)[1..] == s;
  }

  // Digits printed are read back as the number they are the end of.
  lemma {:induction false} FetchNumber(b: nat, d: nat, v: nat, acc: nat, rest: string)
    requires Base(b) && acc * Pow(b, d) + Low(b, d, v) < WORD
    ensures Fetch(b, Number(b, d, v) + rest, d, acc) == Fetched(acc * Pow(b, d) + Low(b, d, v), rest)
    decreases d
  {
    if d == 0 {
      assert "" + rest == rest;
    } else {
      var top := Top(b, d, v);
      Accumulate(b, d, v, acc);
      FetchDigit(b, top, Number(b, d - 1, v) + rest, d, acc);
      FetchNumber(b, d - 1, v, acc * b + top, rest);
      NumberFirst(b, d, v, rest);
    }
  }

  lemma NumberFirst(b: nat, d: nat, v: nat, rest: string)
    requires Base(b) && d > 0
    ensures Number(b, d, v) + rest == [DigitChar(Top(b, d, v))] + (Number(b, d - 1, v) + rest)
  {
  }

  // What is printed with d digits is read back as the number modulo b to the d.
  lemma PrintedIsRead(b: nat, d: nat, v: nat, rest: string)
    requires Base(b) && v < WORD
    ensures Pow(b, d) > 0 && Fetch(b, Number(b, d, v) + rest, d, 0) == Fetched(v % Pow(b, d), rest)
  {
    PowPositive(b, d);
    ModAtMost(v, Pow(b, d));
    FetchNumber(b, d, v, 0, rest);
  }

  lemma ModAtMost(v: nat, p: nat)
    requires p > 0
    ensures v % p <= v
  {
    assert v == p * (v / p) + v % p;
  }

  // ---------------------------------------------------------------- only such digits

  lemma Room(acc: nat, b: nat, n: nat, p: nat)
    requires n < b && p > 0
    ensures (acc * b + n + 1) * p <= (acc + 1) * (b * p)
    ensures acc * (b * p) <= (acc * b + n) * p
    ensures acc * b + n + 1 <= (acc * b + n + 1) * p
  {
    MulAssoc(acc, b, p);
    MulGap(p, n, b);
    assert (acc * b + n + 1) * p == acc * b * p + (n * p + p);
    assert (acc + 1) * (b * p) == acc * (b * p) + b * p;
    assert (acc * b + n) * p == acc * b * p + n * p;
    Smaller(acc * b + n + 1, p, 0);
  }

  // A number with d digits has no part above them.
  lemma {:induction false} NumberOf(b: nat, d: nat, n: nat, low: nat)
    requires Base(b) && d > 0 && n < b && low < Pow(b, d - 1)
    ensures Number(b, d, n * Pow(b, d - 1) + low) == [DigitChar(n)] + Number(b, d - 1, low)
  {
    var p := Pow(b, d - 1);
    DivModUnique(n * p + low, p, n, low);
    DivModUnique(n, b, 0, n);
    SameLowDigits(b, d - 1, n, low);
  }

  // Digits depend on nothing above them.
  lemma {:induction false} SameLowDigits(b: nat, d: nat, m: nat, low: nat)
    requires Base(b)
    ensures Number(b, d, m * Pow(b, d) + low) == Number(b, d, low)
    decreases d
  {
    if d > 0 {
      var p := Pow(b, d - 1);
      PowPositive(b, d - 1);
      SameDigit(m, b, p, low);
      MulAssoc(m, b, p);
      SameLowDigits(b, d - 1, m * b, low);
    }
  }

  lemma SameDigit(m: nat, b: nat, p: nat, low: nat)
    requires b > 0 && p > 0
    ensures (m * (b * p) + low) / p % b == low / p % b
  {
    var q := low / p;
    SameQuotient(m, b, p, low);
    SameRemainder(m, b, q);
  }

  lemma SameQuotient(m: nat, b: nat, p: nat, low: nat)
    requires p > 0
    ensures (m * (b * p) + low) / p == m * b + low / p
  {
    MulAssoc(m, b, p);
    assert low == p * (low / p) + low % p;
    Distribute(p, m * b, low / p);
    DivModUnique(m * (b * p) + low, p, m * b + low / p, low % p);
  }

  lemma Distribute(a: nat, b: nat, c: nat)
    ensures a * (b + c) == b * a + a * c
  {
  }

  lemma SameRemainder(m: nat, b: nat, q: nat)
    requires b > 0
    ensures (m * b + q) % b == q % b
  {
    assert q == b * (q / b) + q % b;
    Distribute(b, m, q / b);
    DivModUnique(m * b + q, b, m + q / b, q % b);
  }

  lemma FetchFirst(b: nat, s: string, d: nat, acc: nat) returns (n: nat)
    requires Base(b) && d > 0 && Fetch(b, s, d, acc).Fetched?
    ensures s != "" && n < b && s[0] == DigitChar(n)
    ensures acc * b + n < WORD ==> Fetch(b, s, d, acc) == Fetch(b, s[1..], d - 1, acc * b + n)
  {
    DigitOnlyOneWay(b, s[0]);
    n := DigitValue(b, s[0]).value;
  }

  // Only the digits of a number are read as that number, as long as it fits a word.
  lemma {:induction false} FetchedIsNumber(b: nat, s: string, d: nat, acc: nat)
    requires Base(b) && Fetch(b, s, d, acc).Fetched? && (acc + 1) * Pow(b, d) <= WORD
    ensures var f := Fetch(b, s, d, acc);
      && acc * Pow(b, d) <= f.value < (acc + 1) * Pow(b, d)
      && s == Number(b, d, f.value - acc * Pow(b, d)) + f.rest
    decreases d
  {
    if d == 0 {
      assert s == "" + s;
    } else {
      var f := Fetch(b, s, d, acc);
      PowPositive(b, d - 1);
      var n := FetchFirst(b, s, d, acc);
      Room(acc, b, n, Pow(b, d - 1));
      FetchedIsNumber(b, s[1..], d - 1, acc * b + n);
      FetchedJoin(b, s, d, acc, n, f);
    }
  }

  lemma FetchedJoin(b: nat, s: string, d: nat, acc: nat, n: nat, f: Fetched)
    requires Base(b) && d > 0 && s != "" && f.Fetched? && n < b && s[0] == DigitChar(n)
    requires (acc * b + n) * Pow(b, d - 1) <= f.value < (acc * b + n + 1) * Pow(b, d - 1)
    requires s[1..] == Number(b, d - 1, f.value - (acc * b + n) * Pow(b, d - 1)) + f.rest
    ensures acc * Pow(b, d) <= f.value && s == Number(b, d, f.value - acc * Pow(b, d)) + f.rest
  {
    var p := Pow(b, d - 1);
    PowPositive(b, d - 1);
    var low := f.value - (acc * b + n) * p;
    assert (acc * b + n + 1) * p == (acc * b + n) * p + p;
    Shifted(acc, b, p, n, low);
    NumberOf(b, d, n, low);
    assert s == [s[0]] + s[1..];
  }
}
