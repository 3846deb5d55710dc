/**
 Transfers in a list, chunks of them in a queue. The device answers in order and names
 no transfer; Aligned is what makes every answer land in the right place all the same.
 */
module Fifo {
  import opened Basics

  // A transfer of sc units, fi of them sent; `tag` is what the device echoes.
  datatype Track = Track(job: nat, tag: nat, sc: nat, fi: nat)

  // A command of `size` units on its way; `last` if it completes its transfer.
  datatype Chunk = Chunk(job: nat, tag: nat, last: bool, size: nat)

  // Chunk p is the one sent of x from position `at` on.
  predicate Fits(x: Track, at: nat, p: Chunk) {
    && p.job == x.job && p.tag == x.tag && 1 <= p.size
    && at + p.size <= x.fi && (p.last <==> at + p.size == x.sc)
  }

  predicate AllFresh(sch: seq<Track>) {
    forall i :: 0 <= i < |sch| ==> sch[i].fi == 0
  }

  // The chunks of q are, in order, those of the transfers of sch, without a gap; answers
  // have come up to position `at` of the first transfer.
  predicate Aligned(sch: seq<Track>, at: nat, q: seq<Chunk>)
    decreases |sch|, |q|
  {
    if sch == [] then q == []
    else if at == sch[0].sc then sch[0].fi == sch[0].sc && Aligned(sch[1..], 0, q)
    else if q == [] then at == sch[0].fi && AllFresh(sch[1..])
    else Fits(sch[0], at, q[0]) && Aligned(sch, at + q[0].size, q[1..])
  }

  predicate Sizes(sch: seq<Track>) {
    forall i :: 0 <= i < |sch| ==> sch[i].sc > 0 && sch[i].fi <= sch[i].sc
  }

  lemma SizesTail(sch: seq<Track>)
    requires Sizes(sch) && sch != []
    ensures Sizes(sch[1..])
  {
  }

  lemma {:induction false} FreshAligned(sch: seq<Track>)
    requires AllFresh(sch) && Sizes(sch)
    ensures Aligned(sch, 0, [])
  {
    if sch != [] {
      forall i | 0 <= i < |sch[1..]| ensures sch[1..][i].fi == 0 { assert sch[i + 1].fi == 0; }
    }
  }

  // A transfer scheduled behind the others.
  lemma {:induction false} AlignedSnoc(sch: seq<Track>, at: nat, q: seq<Chunk>, x: Track)
    requires Aligned(sch, at, q) && Sizes(sch) && x.fi == 0 && x.sc > 0 && (sch == [] ==> at == 0)
    ensures Aligned(sch + [x], at, q)
    decreases |sch|, |q|
  {
    if sch == [] {
      assert sch + [x] == [x] && [x][1..] == [];
    } else {
      assert (sch + [x])[1..] == sch[1..] + [x] && (sch + [x])[0] == sch[0];
      if at == sch[0].sc {
        AlignedSnoc(sch[1..], 0, q, x);
      } else if q == [] {
        forall i | 0 <= i < |sch[1..] + [x]| ensures (sch[1..] + [x])[i].fi == 0 {
          if i < |sch| - 1 { assert sch[1..][i].fi == 0; }
        }
      } else {
        AlignedSnoc(sch, at + q[0].size, q[1..], x);
      }
    }
  }

  // An untouched transfer taken out of the list.
  lemma {:induction false} AlignedWithout(sch: seq<Track>, at: nat, q: seq<Chunk>, k: nat)
    requires Aligned(sch, at, q) && Sizes(sch) && k < |sch| && sch[k].fi == 0 && (at > 0 ==> k > 0)
    ensures Aligned(Without(sch, k), if k == 0 then 0 else at, q)
    decreases |sch|, |q|
  {
    var rest := Without(sch, k);
    if k == 0 {
      assert rest == sch[1..];
      if q == [] {
        SizesTail(sch);
        FreshAligned(sch[1..]);
      } else {
        assert false;
      }
    } else {
      assert rest[0] == sch[0] && rest[1..] == Without(sch[1..], k - 1);
      if at == sch[0].sc {
        AlignedWithout(sch[1..], 0, q, k - 1);
      } else if q == [] {
        forall i | 0 <= i < |rest[1..]| ensures rest[1..][i].fi == 0 {
          assert sch[1..][if i < k - 1 then i else i + 1].fi == 0;
        }
      } else {
        AlignedWithout(sch, at + q[0].size, q[1..], k);
      }
    }
  }

  // A chunk more of the transfer at cur, the first that is not sent completely.
  lemma {:induction false} AlignedSend(sch: seq<Track>, at: nat, q: seq<Chunk>, cur: nat, x1: Track, p: Chunk)
    requires Aligned(sch, at, q) && Sizes(sch) && cur < |sch|
    requires forall i :: 0 <= i < cur ==> sch[i].fi == sch[i].sc
    requires sch[cur].fi < sch[cur].sc && x1 == sch[cur].(fi := sch[cur].fi + p.size)
    requires x1.fi <= x1.sc && Fits(x1, sch[cur].fi, p)
    ensures Aligned(sch[cur := x1], at, q + [p])
    decreases |sch|, |q|
  {
    var sch1 := sch[cur := x1];
    if at == sch[0].sc {
      assert cur > 0 && sch1[1..] == sch[1..][cur - 1 := x1];
      AlignedSend(sch[1..], 0, q, cur - 1, x1, p);
    } else if q == [] {
      assert cur == 0 && q + [p] == [p] && [p][1..] == [] && sch1[1..] == sch[1..];
      SizesTail(sch);
      FreshAligned(sch[1..]);
    } else {
      assert (q + [p])[1..] == q[1..] + [p];
      AlignedSend(sch, at + q[0].size, q[1..], cur, x1, p);
    }
  }

  // When the head's answers are all there, the rest of the list starts from scratch.
  lemma AlignedTail(sch: seq<Track>, at: nat, q: seq<Chunk>)
    requires Aligned(sch, at, q) && Sizes(sch) && sch != [] && at == sch[0].fi
    ensures Aligned(Without(sch, 0), 0, q)
  {
    assert Without(sch, 0) == sch[1..];
    SizesTail(sch);
    if at != sch[0].sc {
      if q == [] {
        FreshAligned(sch[1..]);
      } else {
        assert false;
      }
    }
  }

  lemma AtMostSent(sch: seq<Track>, at: nat, q: seq<Chunk>)
    requires Aligned(sch, at, q) && sch != []
    ensures at <= sch[0].fi
  {
  }

  // The oldest chunk is the head's next one.
  lemma OldestIsHeads(sch: seq<Track>, at: nat, q: seq<Chunk>)
    requires Aligned(sch, at, q) && q != [] && (sch != [] ==> at != sch[0].sc)
    ensures sch != [] && Fits(sch[0], at, q[0]) && Aligned(sch, at + q[0].size, q[1..])
  {
  }

  // ---------------------------------------------------------------- what is still to come

  // Units the pump has yet to send.
  function Unsent(sch: seq<Track>): nat {
    if sch == [] then 0
    else (if sch[0].fi < sch[0].sc then sch[0].sc - sch[0].fi else 0) + Unsent(sch[1..])
  }

  lemma {:induction false} UnsentReplace(sch: seq<Track>, i: nat, x: Track)
    requires i < |sch| && x.sc == sch[i].sc && sch[i].fi <= x.fi <= x.sc
    ensures Unsent(sch[i := x]) + (x.fi - sch[i].fi) == Unsent(sch)
  {
    if i == 0 {
      assert sch[0 := x][1..] == sch[1..];
    } else {
      assert sch[i := x][1..] == sch[1..][i - 1 := x];
      UnsentReplace(sch[1..], i - 1, x);
    }
  }

  lemma HeadLeaves(sch: seq<Track>, x: Track)
    requires sch != []
    ensures Unsent(Without(sch[0 := x], 0)) <= Unsent(sch)
    ensures Unsent(Without(sch, 0)) <= Unsent(sch)
  {
    assert Without(sch[0 := x], 0) == sch[1..] == Without(sch, 0);
  }

  // Wire events the chunks on their way stand for: one for each unit, and `each` besides.
  function Dues(q: seq<Chunk>, each: nat): nat {
    if q == [] then 0 else q[0].size + each + Dues(q[1..], each)
  }

  lemma {:induction false} DuesAppend(q: seq<Chunk>, each: nat, p: Chunk)
    ensures Dues(q + [p], each) == Dues(q, each) + p.size + each
  {
    if q == [] {
      assert q + [p] == [p] && [p][1..] == [];
    } else {
      assert (q + [p])[1..] == q[1..] + [p];
      DuesAppend(q[1..], each, p);
    }
  }
}
