/** Small vocabulary shared by every part of the model. */
module Basics {
  type byte = b: int | 0 <= b < 256

  datatype Option<+T> = None | Some(value: T)

  function Min(a: int, b: int): (m: int)
    ensures m <= a && m <= b && (m == a || m == b)
  {
    if a < b then a else b
  }

  // s without the element at index i.
  function Without<T>(s: seq<T>, i: nat): (r: seq<T>)
    requires i < |s|
    ensures |r| == |s| - 1
    ensures forall k :: 0 <= k < |r| ==> r[k] == s[if k < i then k else k + 1]
  {
    seq(|s| - 1, k requires 0 <= k < |s| - 1 => s[if k < i then k else k + 1])
  }

  lemma WithoutMultiset<T>(s: seq<T>, i: nat)
    requires i < |s|
    ensures multiset(s) == multiset(Without(s, i)) + multiset{s[i]}
  {
    assert Without(s, i) == s[..i] + s[i + 1..];
    assert s == s[..i] + [s[i]] + s[i + 1..];
  }

  lemma Associative<T>(a: seq<T>, b: seq<T>, c: seq<T>)
    ensures (a + b) + c == a + (b + c)
  {
  }

  // Bytes that are not the user's.
  function Filler(n: int): (r: seq<byte>)
    ensures |r| == if n < 0 then 0 else n
  {
    seq(if n < 0 then 0 else n, _ => 0xFF)
  }

  // The first n bytes of s, or all there are.
  function Front(s: seq<byte>, n: nat): seq<byte> {
    s[..Min(n, |s|)]
  }

  // more is what was there before, and 0xFF.
  predicate OnlyFiller(before: seq<byte>, more: seq<byte>) {
    before <= more && forall k :: |before| <= k < |more| ==> more[k] == 0xFF
  }

  lemma FillerGrows(front: seq<byte>, n: int, m: int)
    requires 0 <= n <= m
    ensures OnlyFiller(front + Filler(n), front + Filler(m))
  {
    assert Filler(m) == Filler(n) + Filler(m - n);
    Associative(front, Filler(n), Filler(m - n));
  }
}
