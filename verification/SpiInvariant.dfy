/**
 What every event keeps: the order of the queue ties each packet to its transfer and
 its place in the transfer, though nothing on the wire names a transfer.
 */
module SpiInvariant {
  import opened Basics
  import opened SpiHost
  import opened SpiWorld
  import opened Fifo

  predicate Fresh(x: Xfr) {
    !x.active && !x.skipped && !x.detached && x.fi == 0 && x.si == 0
  }

  predicate XferOK(x: Xfr) {
    && x.si < x.sc && x.si <= x.fi <= x.sc && x.ss < 4
    && x.sc == |x.orig| == |x.buf|
    && (x.active <==> x.fi > 0)
    && (x.skipped ==> x.xfrd <= x.si < x.fi)
    && (x.detached ==> x.active && x.cut <= x.fi)
  }

  // Every transfer is in order, the pump's transfer splits the list into what is sent
  // completely and what is untouched, and only the head has answers yet.
  ghost predicate HostOK(h: Host) {
    && h.cur <= |h.sch|
    && (forall i :: 0 <= i < |h.sch| ==> XferOK(h.sch[i]) && h.sch[i].job < h.nextJob)
    && (forall i :: 0 <= i < |h.sch| ==> (i < h.cur <==> h.sch[i].fi == h.sch[i].sc))
    && (forall i :: 0 <= i < |h.sch| && i > h.cur ==> Fresh(h.sch[i]))
    && (forall i :: 0 < i < |h.sch| ==> h.sch[i].si == 0 && !h.sch[i].skipped)
    && (forall i, j :: 0 <= i < j < |h.sch| ==> h.sch[i].job < h.sch[j].job)
  }

  function TrackOf(x: Xfr): Track {
    Track(x.job, x.ss, x.sc, x.fi)
  }

  function ChunkOf(p: Packet): Chunk {
    Chunk(p.job, p.ss, p.last, |p.data|)
  }

  function Tracks(sch: seq<Xfr>): (r: seq<Track>)
    ensures |r| == |sch| && forall i :: 0 <= i < |sch| ==> r[i] == TrackOf(sch[i])
  {
    seq(|sch|, i requires 0 <= i < |sch| => TrackOf(sch[i]))
  }

  function Chunks(q: seq<Packet>): (r: seq<Chunk>)
    ensures |r| == |q| && forall i :: 0 <= i < |q| ==> r[i] == ChunkOf(q[i])
  {
    seq(|q|, i requires 0 <= i < |q| => ChunkOf(q[i]))
  }

  lemma TracksUpdate(sch: seq<Xfr>, i: nat, x: Xfr)
    requires i < |sch|
    ensures Tracks(sch[i := x]) == Tracks(sch)[i := TrackOf(x)]
    ensures TrackOf(x) == TrackOf(sch[i]) ==> Tracks(sch[i := x]) == Tracks(sch)
  {
  }

  lemma TracksWithout(sch: seq<Xfr>, i: nat)
    requires i < |sch|
    ensures Tracks(Without(sch, i)) == Without(Tracks(sch), i)
  {
  }

  lemma TracksSnoc(sch: seq<Xfr>, x: Xfr)
    ensures Tracks(sch + [x]) == Tracks(sch) + [TrackOf(x)]
  {
  }

  lemma ChunksSplit(q: seq<Packet>, p: Packet)
    ensures Chunks(q + [p]) == Chunks(q) + [ChunkOf(p)]
    ensures q != [] ==> Chunks(q[1..]) == Chunks(q)[1..] && Chunks(q)[0] == ChunkOf(q[0])
  {
  }

  // Where the answers have got to, counting the one being received as a whole.
  function At(h: Host): nat {
    if h.sch == [] then 0 else h.sch[0].si + h.left
  }

  predicate ReceivingOK(w: World) {
    w.h.left > 0 ==>
      && w.h.sch != [] && !w.h.sch[0].skipped && w.rxJob == w.h.sch[0].job
      && (w.h.last <==> At(w.h) == w.h.sch[0].sc)
  }

  predicate GoneOK(w: World) {
    && (w.h.sch != [] ==> (w.h.sch[0].skipped <==> w.gone == Some(w.h.sch[0].job)))
    && (forall i :: 0 < i < |w.h.sch| ==> w.gone != Some(w.h.sch[i].job))
    && (w.gone.Some? ==> w.gone.value < w.h.nextJob)
  }

  ghost predicate LinkOK(w: World) {
    && Aligned(Tracks(w.h.sch), At(w.h), Chunks(w.q))
    && ReceivingOK(w) && GoneOK(w)
    && w.h.free + Load(w.q) == w.h.len
  }

  ghost predicate Inv(w: World) {
    HostOK(w.h) && (w.up ==> LinkOK(w))
  }

  lemma InvEnables(w: World)
    requires Inv(w)
    ensures w.up ==> Pumpable(w.h)
    ensures w.up && w.h.left > 0 ==> StoreInside(w.h)
  {
  }

  lemma HasSizes(h: Host)
    requires HostOK(h)
    ensures Sizes(Tracks(h.sch))
  {
    forall i | 0 <= i < |h.sch| ensures h.sch[i].sc > 0 && h.sch[i].fi <= h.sch[i].sc { assert XferOK(h.sch[i]); }
  }

  // The oldest packet is the head's next one.
  predicate HeadsPacket(x: Xfr, p: Packet) {
    && p.job == x.job && p.ss == x.ss && 1 <= |p.data| && x.si + |p.data| <= x.fi
    && (p.last <==> x.si + |p.data| == x.sc)
  }

  lemma OldestIsHeadsPacket(w: World)
    requires Inv(w) && AnswerPossible(w)
    ensures w.h.sch != [] && HeadsPacket(w.h.sch[0], w.q[0])
    ensures Aligned(Tracks(w.h.sch), w.h.sch[0].si + |w.q[0].data|, Chunks(w.q[1..]))
    ensures Load(w.q) == 2 + |w.q[0].data| + Load(w.q[1..])
  {
    if w.h.sch != [] {
      assert XferOK(w.h.sch[0]);
    }
    ChunksSplit(w.q, w.q[0]);
    OldestIsHeads(Tracks(w.h.sch), At(w.h), Chunks(w.q));
  }
}
