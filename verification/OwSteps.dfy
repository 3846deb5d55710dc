/** The 1-Wire invariant, and that every event keeps it. */
module OwSteps {
  import opened Basics
  import opened OwHost
  import opened OwWorld
  import opened Fifo

  predicate Fresh(x: Xfr) {
    !x.active && !x.skipped && !x.detached && x.fi == 0 && x.si == 0 && x.done == 0 && x.packets == 0
  }

  // All that was sent and answered is whole bytes, except at the very end.
  predicate XferOK(x: Xfr) {
    && x.done < x.sc && x.done <= x.fi <= x.sc && x.si <= x.sc && (x.active <==> x.fi > 0)
    && ArgsFit(x.kind, x.args)
    && (x.detached ==> x.active && x.cut <= x.fi && (x.cut % 8 == 0 || x.cut == x.sc))
    && (if x.kind == Touch
        then
          && |x.orig| == BytesFor(x.sc) == |x.buf|
          && x.done % 8 == 0 && (x.fi % 8 == 0 || x.fi == x.sc)
          && (x.skipped ==> x.si == x.xfrd < x.done < x.fi && x.xfrd % 8 == 0)
        else x.sc == 1 && !x.skipped && x.packets == 0)
  }

  ghost predicate HostOK(h: Host) {
    && h.cur <= |h.sch|
    && (forall i :: 0 <= i < |h.sch| ==> XferOK(h.sch[i]) && h.sch[i].job < h.nextJob)
    && (forall i :: 0 <= i < |h.sch| ==> (i < h.cur <==> h.sch[i].fi == h.sch[i].sc))
    && (forall i :: 0 <= i < |h.sch| && i > h.cur ==> Fresh(h.sch[i]))
    && (forall i :: 0 < i < |h.sch| ==> h.sch[i].si == 0 && h.sch[i].done == 0 && !h.sch[i].skipped)
    && (forall i, j :: 0 <= i < j < |h.sch| ==> h.sch[i].job < h.sch[j].job)
  }

  // ---------------------------------------------------------------- list and queue

  function Tag(kind: Kind, spu: bool): nat {
    match kind
    case Reset => 0
    case Enum => 1
    case Probe => 2
    case Touch => if spu then 4 else 3
  }

  function TrackOf(x: Xfr): Track {
    Track(x.job, Tag(x.kind, x.spu), x.sc, x.fi)
  }

  function ChunkOf(p: Packet): Chunk {
    Chunk(p.job, Tag(p.kind, p.spu), p.last, p.bits)
  }

  function Tracks(sch: seq<Xfr>): (r: seq<Track>)
    ensures |r| == |sch| && forall i :: 0 <= i < |sch| ==> r[i] == TrackOf(sch[i])
  {
    seq(|sch|, i requires 0 <= i < |sch| => TrackOf(sch[i]))
  }

  function Chunks(q: seq<Packet>): (r: seq<Chunk>)
    ensures |r| == |q| && forall i :: 0 <= i < |q| ==> r[i] == ChunkOf(q[i])
  {
    seq(|q|, i requires 0 <= i < |q| => ChunkOf(q[i]))
  }

  lemma TracksUpdate(sch: seq<Xfr>, i: nat, x: Xfr)
    requires i < |sch|
    ensures Tracks(sch[i := x]) == Tracks(sch)[i := TrackOf(x)]
    ensures TrackOf(x) == TrackOf(sch[i]) ==> Tracks(sch[i := x]) == Tracks(sch)
  {
  }

  lemma TracksWithout(sch: seq<Xfr>, i: nat)
    requires i < |sch|
    ensures Tracks(Without(sch, i)) == Without(Tracks(sch), i)
  {
  }

  lemma TracksSnoc(sch: seq<Xfr>, x: Xfr)
    ensures Tracks(sch + [x]) == Tracks(sch) + [TrackOf(x)]
  {
  }

  lemma ChunksSplit(q: seq<Packet>, p: Packet)
    ensures Chunks(q + [p]) == Chunks(q) + [ChunkOf(p)]
    ensures q != [] ==> Chunks(q[1..]) == Chunks(q)[1..] && Chunks(q)[0] == ChunkOf(q[0])
  {
  }

  // Touch packets are whole bytes, except a last one.
  predicate PacketOK(p: Packet) {
    && p.bits >= 1
    && (if p.kind == Touch then |p.data| == BytesFor(p.bits) && (p.bits % 8 == 0 || p.last) else p.bits == 1)
  }

  ghost predicate PacketsOK(q: seq<Packet>) {
    forall k :: 0 <= k < |q| ==> PacketOK(q[k])
  }

  function InHand(b: Busy): nat {
    match b
    case Idle => 0
    case Bytes(_, bits) => bits
    case Rom(_) => 1
  }

  // Where the answers have got to, counting the one being received as a whole.
  function At(h: Host): nat {
    if h.sch == [] then 0 else h.sch[0].done + InHand(h.busy)
  }

  // Between answers everything answered was stored; during one, its bytes up to now.
  predicate StoreOK(x: Xfr, b: Busy) {
    x.kind == Touch && !x.skipped ==>
      x.si == x.done + (if b.Bytes? && BytesFor(b.bits) >= b.left then 8 * (BytesFor(b.bits) - b.left) else 0)
  }

  predicate ReceivingOK(w: World) {
    && (w.h.busy != Idle ==> w.h.sch != [] && !w.h.sch[0].skipped && w.rxJob == w.h.sch[0].job)
    && (w.h.busy.Rom? ==> w.h.sch[0].kind == Enum)
    && (w.h.busy.Bytes? ==>
          && w.h.sch[0].kind == Touch && 1 <= w.h.busy.left <= BytesFor(w.h.busy.bits)
          && (w.h.busy.bits % 8 == 0 || At(w.h) == w.h.sch[0].sc))
    && (w.h.sch != [] ==> StoreOK(w.h.sch[0], w.h.busy))
  }

  predicate GoneOK(w: World) {
    && (w.h.sch != [] ==> (w.h.sch[0].skipped <==> w.gone == Some(w.h.sch[0].job)))
    && (forall i :: 0 < i < |w.h.sch| ==> w.gone != Some(w.h.sch[i].job))
    && (w.gone.Some? ==> w.gone.value < w.h.nextJob)
  }

  function Receiving(h: Host, i: nat): nat {
    if i == 0 && h.busy.Bytes? then 1 else 0
  }

  // Each touch transfer knows how many of its packets are on their way.
  ghost predicate CountsOK(w: World) {
    forall i :: 0 <= i < |w.h.sch| && w.h.sch[i].kind == Touch ==>
      w.h.sch[i].packets == CountOf(w.q, w.h.sch[i].job) + Receiving(w.h, i)
  }

  ghost predicate LinkOK(w: World) {
    && Aligned(Tracks(w.h.sch), At(w.h), Chunks(w.q)) && PacketsOK(w.q)
    && ReceivingOK(w) && GoneOK(w) && CountsOK(w)
    && w.h.free + Load(w.q) == w.h.len
  }

  ghost predicate Inv(w: World) {
    HostOK(w.h) && (w.up ==> LinkOK(w))
  }

  lemma InvEnables(w: World)
    requires Inv(w)
    ensures w.up ==> Pumpable(w.h)
    ensures w.up && w.h.busy.Bytes? ==> StoreInside(w.h)
  {
    if w.h.cur < |w.h.sch| {
      assert XferOK(w.h.sch[w.h.cur]);
    }
    if w.up && w.h.busy.Bytes? {
      assert XferOK(w.h.sch[0]);
      AtMostSent(Tracks(w.h.sch), At(w.h), Chunks(w.q));
      StoreFits(w.h.sch[0], w.h.busy);
    }
  }

  // The next byte of an answer belongs inside the buffer, and inside what was sent.
  lemma StoreFits(x: Xfr, b: Busy)
    requires XferOK(x) && x.kind == Touch && b.Bytes? && !x.skipped && StoreOK(x, b)
    requires 1 <= b.left <= BytesFor(b.bits) && x.done + b.bits <= x.fi
    ensures x.si < x.done + b.bits && x.si % 8 == 0 && x.si / 8 < BytesFor(x.sc)
    ensures b.left == 1 <==> x.si + 8 >= x.done + b.bits
  {
  }

  lemma HasSizes(h: Host)
    requires HostOK(h)
    ensures Sizes(Tracks(h.sch))
  {
    forall i | 0 <= i < |h.sch| ensures h.sch[i].sc > 0 && h.sch[i].fi <= h.sch[i].sc { assert XferOK(h.sch[i]); }
  }

  // ---------------------------------------------------------------- user calls

  lemma JobsDiffer(h: Host, i: nat, j: nat)
    requires HostOK(h) && i < |h.sch| && j < |h.sch| && i != j
    ensures h.sch[i].job != h.sch[j].job
  {
    if i < j {
      assert h.sch[i].job < h.sch[j].job;
    } else {
      assert h.sch[j].job < h.sch[i].job;
    }
  }

  lemma ScheduleKeepsHost(h: Host, x: Xfr, h1: Host)
    requires HostOK(h) && Fresh(x) && XferOK(x) && x.job == h.nextJob
    requires h1 == h.(sch := h.sch + [x], nextJob := h.nextJob + 1)
    ensures HostOK(h1)
  {
    forall i | 0 <= i < |h1.sch| ensures XferOK(h1.sch[i]) && h1.sch[i].job < h1.nextJob {
      if i < |h.sch| { assert XferOK(h.sch[i]); }
    }
    forall i | 0 <= i < |h1.sch| ensures i < h1.cur <==> h1.sch[i].fi == h1.sch[i].sc {
      if i < |h.sch| { assert h1.sch[i] == h.sch[i]; }
    }
    forall i, j | 0 <= i < j < |h1.sch| ensures h1.sch[i].job < h1.sch[j].job {
      assert h1.sch[i] == h.sch[i];
    }
  }

  // No packet on its way belongs to a transfer that has sent nothing.
  lemma {:induction false} NoneUnderWay(sch: seq<Track>, at: nat, q: seq<Chunk>, qs: seq<Packet>, job: nat)
    requires Aligned(sch, at, q) && q == Chunks(qs)
    requires forall i :: 0 <= i < |sch| && sch[i].fi > 0 ==> sch[i].job != job
    ensures CountOf(qs, job) == 0
    decreases |sch|, |q|
  {
    if sch != [] && at == sch[0].sc {
      forall i | 0 <= i < |sch[1..]| && sch[1..][i].fi > 0 ensures sch[1..][i].job != job { assert sch[i + 1].fi > 0; }
      NoneUnderWay(sch[1..], 0, q, qs, job);
    } else if qs != [] {
      ChunksSplit(qs, qs[0]);
      NoneUnderWay(sch, at + q[0].size, q[1..], qs[1..], job);
    }
  }

  lemma NewXferOK(h: Host, r: Request) returns (x: Xfr)
    requires MaySchedule(h, r)
    ensures Fresh(x) && XferOK(x) && x.sc > 0 && x.job == h.nextJob
    ensures Schedule(h, r) == h.(sch := h.sch + [x], nextJob := h.nextJob + 1)
  {
    x := NewXfr(h, r);
  }

  lemma ScheduleKeeps(w: World, r: Request)
    requires Inv(w)
    ensures Inv(w.(h := Schedule(w.h, r)))
  {
    if MaySchedule(w.h, r) {
      var x := NewXferOK(w.h, r);
      ScheduleBy(w, x);
    }
  }

  lemma ScheduleBy(w: World, x: Xfr)
    requires Inv(w) && Fresh(x) && XferOK(x) && x.sc > 0 && x.job == w.h.nextJob
    ensures Inv(w.(h := w.h.(sch := w.h.sch + [x], nextJob := w.h.nextJob + 1)))
  {
    ScheduleKeepsHost(w.h, x, w.h.(sch := w.h.sch + [x], nextJob := w.h.nextJob + 1));
    if w.up {
      HasSizes(w.h);
      TracksSnoc(w.h.sch, x);
      AlignedSnoc(Tracks(w.h.sch), At(w.h), Chunks(w.q), TrackOf(x));
      NoneUnderWay(Tracks(w.h.sch), At(w.h), Chunks(w.q), w.q, x.job);
      ScheduleKeepsLink(w, x);
    }
  }

  lemma ScheduleKeepsLink(w: World, x: Xfr)
    requires HostOK(w.h) && LinkOK(w) && Fresh(x) && x.job == w.h.nextJob && CountOf(w.q, x.job) == 0
    requires Aligned(Tracks(w.h.sch + [x]), At(w.h), Chunks(w.q))
    ensures LinkOK(w.(h := w.h.(sch := w.h.sch + [x], nextJob := w.h.nextJob + 1)))
  {
    var w1 := w.(h := w.h.(sch := w.h.sch + [x], nextJob := w.h.nextJob + 1));
    assert At(w1.h) == At(w.h);
    forall i | 0 <= i < |w1.h.sch| && w1.h.sch[i].kind == Touch
      ensures w1.h.sch[i].packets == CountOf(w1.q, w1.h.sch[i].job) + Receiving(w1.h, i)
    {
      if i < |w.h.sch| { assert w1.h.sch[i] == w.h.sch[i]; }
    }
  }

  function Old(i: nat, k: nat): nat {
    if i < k then i else i + 1
  }

  lemma CompleteKeepsOrder(h: Host, k: nat, status: Status)
    requires HostOK(h) && k < |h.sch|
    ensures var sch1 := Complete(h, k, status).sch;
      && (forall i, j :: 0 <= i < j < |sch1| ==> sch1[i].job < sch1[j].job)
      && (forall i :: 0 < i < |sch1| ==> sch1[i].si == 0 && sch1[i].done == 0 && !sch1[i].skipped)
  {
    var sch1 := Complete(h, k, status).sch;
    forall i, j | 0 <= i < j < |sch1| ensures sch1[i].job < sch1[j].job {
      assert sch1[i] == h.sch[Old(i, k)] && sch1[j] == h.sch[Old(j, k)];
    }
    forall i | 0 < i < |sch1| ensures sch1[i].si == 0 && sch1[i].done == 0 && !sch1[i].skipped {
      assert sch1[i] == h.sch[Old(i, k)];
    }
  }

  lemma CompleteKeepsHost(h: Host, k: nat, status: Status)
    requires HostOK(h) && k < |h.sch| && (k == 0 || h.sch[k].fi == 0)
    ensures HostOK(Complete(h, k, status))
  {
    var h1 := Complete(h, k, status);
    assert k > 0 ==> XferOK(h.sch[k]) && h.cur <= k;
    forall i | 0 <= i < |h1.sch|
      ensures XferOK(h1.sch[i]) && h1.sch[i].job < h1.nextJob
      ensures i < h1.cur <==> h1.sch[i].fi == h1.sch[i].sc
      ensures i > h1.cur ==> Fresh(h1.sch[i])
    {
      assert h1.sch[i] == h.sch[Old(i, k)];
    }
    CompleteKeepsOrder(h, k, status);
  }

  // What the head was at the end goes into the log and nowhere else.
  lemma HeadForgotten(h: Host, x1: Xfr, status: Status)
    requires h.sch != []
    ensures Complete(h.(sch := h.sch[0 := x1]), 0, status) ==
      Complete(h, 0, status).(log := h.log + [Done(x1, status)])
  {
    assert Without(h.sch[0 := x1], 0) == Without(h.sch, 0);
  }

  // Behind the head nothing was skipped and the packets are counted.
  ghost predicate Behind(w: World) {
    && (forall i :: 0 < i < |w.h.sch| ==> w.gone != Some(w.h.sch[i].job))
    && (w.gone.Some? ==> w.gone.value < w.h.nextJob)
    && (forall i :: 0 < i < |w.h.sch| && w.h.sch[i].kind == Touch ==>
          w.h.sch[i].packets == CountOf(w.q, w.h.sch[i].job))
  }

  // Without its head, when that is complete, the list starts with nothing received.
  lemma HeadGone(w: World, x1: Xfr, status: Status)
    requires HostOK(w.h) && w.h.sch != [] && w.h.busy == Idle && Behind(w) && PacketsOK(w.q)
    requires Aligned(Tracks(w.h.sch), w.h.sch[0].fi, Chunks(w.q)) && w.h.free + Load(w.q) == w.h.len
    ensures var w1 := w.(h := Complete(w.h.(sch := w.h.sch[0 := x1]), 0, status));
      HostOK(w1.h) && LinkOK(w1)
  {
    CompleteKeepsHost(w.h, 0, status);
    RestAligned(w.h, w.q);
    HeadForgotten(w.h, x1, status);
    RestLinked(w, Complete(w.h, 0, status));
    ForgottenOK(Complete(w.h, 0, status), w.h.log + [Done(x1, status)]);
  }

  lemma ForgottenOK(h: Host, log: seq<Done>)
    requires HostOK(h)
    ensures HostOK(h.(log := log))
  {
  }

  lemma RestAligned(h: Host, q: seq<Packet>)
    requires HostOK(h) && h.sch != [] && Aligned(Tracks(h.sch), h.sch[0].fi, Chunks(q))
    ensures Aligned(Tracks(Without(h.sch, 0)), 0, Chunks(q))
  {
    HasSizes(h);
    AlignedTail(Tracks(h.sch), h.sch[0].fi, Chunks(q));
    TracksWithout(h.sch, 0);
  }

  lemma RestLinked(w: World, h1: Host)
    requires HostOK(w.h) && w.h.sch != [] && Behind(w) && PacketsOK(w.q) && h1.busy == Idle
    requires h1.sch == Without(w.h.sch, 0) && h1.nextJob == w.h.nextJob
    requires Aligned(Tracks(h1.sch), 0, Chunks(w.q)) && h1.free + Load(w.q) == h1.len
    ensures forall log :: LinkOK(w.(h := h1.(log := log)))
  {
    forall i | 0 <= i < |h1.sch|
      ensures w.gone != Some(h1.sch[i].job)
      ensures h1.sch[i].si == 0 && h1.sch[i].done == 0 && !h1.sch[i].skipped
      ensures h1.sch[i].kind == Touch ==> h1.sch[i].packets == CountOf(w.q, h1.sch[i].job)
    {
      assert h1.sch[i] == w.h.sch[i + 1];
    }
  }

  lemma CancelKeeps(w: World, job: nat)
    requires Inv(w)
    ensures Inv(w.(h := Cancel(w.h, job)))
  {
    var k := IndexOf(w.h.sch, job);
    if k < |w.h.sch| && !w.h.sch[k].active {
      assert XferOK(w.h.sch[k]);
      CompleteKeepsHost(w.h, k, Cancelled);
      if w.up {
        CancelKeepsLink(w, k);
      }
    }
  }

  lemma NothingReceived(w: World, k: nat)
    requires HostOK(w.h) && LinkOK(w) && k < |w.h.sch| && w.h.sch[k].fi == 0
    ensures k == 0 ==> At(w.h) == 0 && w.h.busy == Idle
  {
    if k == 0 {
      assert XferOK(w.h.sch[0]);
      AtMostSent(Tracks(w.h.sch), At(w.h), Chunks(w.q));
    }
  }

  lemma CancelKeepsLink(w: World, k: nat)
    requires HostOK(w.h) && LinkOK(w) && k < |w.h.sch| && w.h.sch[k].fi == 0
    ensures LinkOK(w.(h := Complete(w.h, k, Cancelled)))
  {
    var w1 := w.(h := Complete(w.h, k, Cancelled));
    NothingReceived(w, k);
    HasSizes(w.h);
    TracksWithout(w.h.sch, k);
    AlignedWithout(Tracks(w.h.sch), At(w.h), Chunks(w.q), k);
    assert At(w1.h) == if k == 0 then 0 else At(w.h);
    forall i | 0 <= i < |w1.h.sch|
      ensures w1.h.sch[i] == w.h.sch[Old(i, k)]
      ensures i > 0 ==> w.gone != Some(w1.h.sch[i].job)
      ensures w1.h.sch[i].kind == Touch ==>
        w1.h.sch[i].packets == CountOf(w1.q, w1.h.sch[i].job) + Receiving(w1.h, i)
    {
      assert w1.h.sch[i] == w.h.sch[Old(i, k)];
    }
  }

  lemma NoLongerListed(h: Host, i: nat, k: nat)
    requires HostOK(h) && i < |h.sch| && k < |h.sch| - 1
    ensures Without(h.sch, i)[k].job != h.sch[i].job
  {
    JobsDiffer(h, i, Old(k, i));
  }

  lemma {:induction false} Present(sch: seq<Xfr>, job: nat, k: nat)
    requires k < |sch| && sch[k].job == job
    ensures IndexOf(sch, job) < |sch|
  {
    if sch[0].job != job {
      Present(sch[1..], job, k - 1);
    }
  }

  lemma FirstOfJob(h: Host, job: nat, k: nat)
    requires HostOK(h) && k < |h.sch| && h.sch[k].job == job
    ensures IndexOf(h.sch, job) == k
  {
    var i := IndexOf(h.sch, job);
    Present(h.sch, job, k);
    if i != k {
      JobsDiffer(h, i, k);
      assert false;
    }
  }

  // What survives a cancellation under its name has been sent at least in part.
  lemma StillActive(h: Host, job: nat, k: nat)
    requires HostOK(h) && k < |Cancel(h, job).sch| && Cancel(h, job).sch[k].job == job
    ensures Cancel(h, job).sch[k].active
  {
    var i := IndexOf(h.sch, job);
    if i < |h.sch| && !h.sch[i].active {
      NoLongerListed(h, i, k);
      assert false;
    } else if !h.sch[k].active {
      FirstOfJob(h, job, k);
    }
  }

  lemma DestroyKeeps(w: World, job: nat)
    requires Inv(w)
    ensures Inv(w.(h := Destroy(w.h, job)))
  {
    CancelKeeps(w, job);
    var h1 := Cancel(w.h, job);
    var k := IndexOf(h1.sch, job);
    if k < |h1.sch| {
      StillActive(w.h, job, k);
      DetachKeeps(w.(h := h1), k);
    }
  }

  lemma ReplaceKeepsHost(h: Host, k: nat, x1: Xfr)
    requires HostOK(h) && k < |h.sch| && XferOK(x1) && h.sch[k].active && x1.active
    requires x1.fi == h.sch[k].fi && x1.sc == h.sch[k].sc && x1.job == h.sch[k].job
    requires k > 0 ==> x1.si == 0 && x1.done == 0 && !x1.skipped
    ensures HostOK(h.(sch := h.sch[k := x1]))
  {
    var h1 := h.(sch := h.sch[k := x1]);
    forall i | 0 <= i < |h1.sch| ensures XferOK(h1.sch[i]) && h1.sch[i].job < h1.nextJob {
      assert XferOK(h.sch[i]);
    }
    forall i | 0 <= i < |h1.sch| && i > h1.cur ensures Fresh(h1.sch[i]) {
      assert Fresh(h.sch[i]);
    }
  }

  lemma DetachKeeps(w: World, k: nat)
    requires Inv(w) && k < |w.h.sch| && w.h.sch[k].active
    ensures Inv(w.(h := w.h.(sch := w.h.sch[k := Detach(w.h.sch[k])])))
  {
    var x1 := Detach(w.h.sch[k]);
    assert XferOK(w.h.sch[k]) && XferOK(x1);
    ReplaceKeepsHost(w.h, k, x1);
    if w.up {
      TracksUpdate(w.h.sch, k, x1);
      DetachKeepsLink(w, k, x1);
    }
  }

  lemma DetachKeepsLink(w: World, k: nat, x1: Xfr)
    requires LinkOK(w) && k < |w.h.sch|
    requires x1 == w.h.sch[k].(detached := x1.detached, buf := x1.buf, cut := x1.cut)
    requires Tracks(w.h.sch[k := x1]) == Tracks(w.h.sch)
    ensures LinkOK(w.(h := w.h.(sch := w.h.sch[k := x1])))
  {
    var h1 := w.h.(sch := w.h.sch[k := x1]);
    forall i | 0 <= i < |h1.sch| && h1.sch[i].kind == Touch
      ensures h1.sch[i].packets == CountOf(w.q, h1.sch[i].job) + Receiving(h1, i)
    {
      assert w.h.sch[i].kind == Touch && w.h.sch[i].job == h1.sch[i].job;
    }
  }

  // ---------------------------------------------------------------- the pump

  lemma TransmitKeepsHost(h: Host, x1: Xfr, h1: Host)
    requires HostOK(h) && h.cur < |h.sch| && XferOK(x1) && x1.active
    requires x1 == h.sch[h.cur].(active := true, fi := x1.fi, packets := x1.packets)
    requires h1.sch == h.sch[h.cur := x1] && h1.cur == (if x1.fi == x1.sc then h.cur + 1 else h.cur)
    requires h1.nextJob == h.nextJob
    ensures HostOK(h1)
  {
    forall i | 0 <= i < |h1.sch|
      ensures XferOK(h1.sch[i]) && h1.sch[i].job < h1.nextJob
      ensures i < h1.cur <==> h1.sch[i].fi == h1.sch[i].sc
      ensures i > h1.cur ==> Fresh(h1.sch[i])
    {
      assert XferOK(h.sch[i]);
    }
  }

  // What the next packet is to its transfer.
  lemma NextFits(h: Host, x: Xfr)
    requires XferOK(x) && x.fi < x.sc && h.free >= Room(x.kind)
    ensures var (p, x1) := NextPacket(h, x);
      && XferOK(x1) && PacketOK(p) && p.job == x.job && p.kind == x.kind
      && ChunkOf(p).tag == TrackOf(x).tag && x1.fi == x.fi + p.bits && (p.last <==> x1.fi == x.sc)
      && x1.packets == x.packets + (if x.kind == Touch then 1 else 0)
  {
  }

  lemma TransmitForm(h: Host)
    requires Pumpable(h) && TxOne(h).Emit?
    ensures h.cur < |h.sch| && h.free >= Room(h.sch[h.cur].kind)
    ensures var (p, x1) := NextPacket(h, h.sch[h.cur]);
      TxOne(h) == Emit(h.(free := h.free - Cost(p), sch := h.sch[h.cur := x1],
                          cur := if x1.fi == x1.sc then h.cur + 1 else h.cur), p)
  {
  }

  lemma TransmitAligned(w: World, p: Packet, x1: Xfr)
    requires HostOK(w.h) && w.h.cur < |w.h.sch| && Aligned(Tracks(w.h.sch), At(w.h), Chunks(w.q))
    requires var x := w.h.sch[w.h.cur];
      && x.fi < x.sc && p.bits >= 1 && p.job == x.job && ChunkOf(p).tag == TrackOf(x).tag
      && TrackOf(x1) == TrackOf(x).(fi := x.fi + p.bits) && x1.fi <= x.sc && (p.last <==> x1.fi == x.sc)
    ensures Aligned(Tracks(w.h.sch[w.h.cur := x1]), At(w.h), Chunks(w.q + [p]))
  {
    var h := w.h;
    HasSizes(h);
    TracksUpdate(h.sch, h.cur, x1);
    ChunksSplit(w.q, p);
    AlignedSend(Tracks(h.sch), At(h), Chunks(w.q), h.cur, TrackOf(x1), ChunkOf(p));
  }

  lemma TransmitShape(w: World) returns (p: Packet, x1: Xfr)
    requires HostOK(w.h) && Pumpable(w.h) && TxOne(w.h).Emit?
    ensures w.h.cur < |w.h.sch| && XferOK(x1) && PacketOK(p) && Cost(p) <= w.h.free
    ensures var x := w.h.sch[w.h.cur];
      && x.fi < x.sc && p.job == x.job && p.kind == x.kind && ChunkOf(p).tag == TrackOf(x).tag
      && x1 == x.(active := true, fi := x.fi + p.bits, packets := x.packets + (if x.kind == Touch then 1 else 0))
      && (p.last <==> x1.fi == x.sc)
    ensures OnTransmit(w) ==
      w.(h := w.h.(free := w.h.free - Cost(p), sch := w.h.sch[w.h.cur := x1],
                   cur := if x1.fi == x1.sc then w.h.cur + 1 else w.h.cur),
         q := w.q + [p], trace := w.trace + [p])
  {
    TransmitForm(w.h);
    CurrentFits(w.h);
    p, x1 := NextPacket(w.h, w.h.sch[w.h.cur]).0, NextPacket(w.h, w.h.sch[w.h.cur]).1;
  }

  lemma TransmitKeeps(w: World)
    requires Inv(w) && w.up
    ensures Pumpable(w.h) && Inv(OnTransmit(w))
  {
    InvEnables(w);
    if TxOne(w.h).Emit? {
      var p, x1 := TransmitShape(w);
      TransmitBy(w, p, x1);
    }
  }

  lemma CurrentFits(h: Host)
    requires HostOK(h) && h.cur < |h.sch| && h.free >= Room(h.sch[h.cur].kind)
    ensures var x := h.sch[h.cur];
      && x.fi < x.sc && (x.kind == Touch && !x.detached ==> |x.buf| == BytesFor(x.sc))
      && var (p, x1) := NextPacket(h, x);
      && XferOK(x1) && PacketOK(p) && p.job == x.job && p.kind == x.kind
      && ChunkOf(p).tag == TrackOf(x).tag && x1.fi == x.fi + p.bits && (p.last <==> x1.fi == x.sc)
      && x1.packets == x.packets + (if x.kind == Touch then 1 else 0)
  {
    assert XferOK(h.sch[h.cur]);
    NextFits(h, h.sch[h.cur]);
  }

  lemma TransmitBy(w: World, p: Packet, x1: Xfr)
    requires HostOK(w.h) && LinkOK(w) && w.h.cur < |w.h.sch| && PacketOK(p) && Cost(p) <= w.h.free && XferOK(x1)
    requires var x := w.h.sch[w.h.cur];
      && x.fi < x.sc && p.job == x.job && p.kind == x.kind && ChunkOf(p).tag == TrackOf(x).tag
      && x1 == x.(active := true, fi := x.fi + p.bits, packets := x.packets + (if x.kind == Touch then 1 else 0))
      && (p.last <==> x1.fi == x.sc)
    ensures var h1 := w.h.(free := w.h.free - Cost(p), sch := w.h.sch[w.h.cur := x1],
                           cur := if x1.fi == x1.sc then w.h.cur + 1 else w.h.cur);
      HostOK(h1) && LinkOK(w.(h := h1, q := w.q + [p], trace := w.trace + [p]))
  {
    var h1 := w.h.(free := w.h.free - Cost(p), sch := w.h.sch[w.h.cur := x1],
                   cur := if x1.fi == x1.sc then w.h.cur + 1 else w.h.cur);
    TransmitKeepsHost(w.h, x1, h1);
    TransmitAligned(w, p, x1);
    LoadAppend(w.q, p);
    TransmitKeepsLink(w, p, x1, h1);
  }

  lemma TransmitKeepsLink(w: World, p: Packet, x1: Xfr, h1: Host)
    requires HostOK(w.h) && LinkOK(w) && w.h.cur < |w.h.sch| && PacketOK(p)
    requires var x := w.h.sch[w.h.cur];
      && p.job == x.job && p.kind == x.kind
      && x1 == x.(active := true, fi := x1.fi, packets := x.packets + (if x.kind == Touch then 1 else 0))
    requires h1 == w.h.(free := h1.free, sch := w.h.sch[w.h.cur := x1], cur := h1.cur)
    requires Aligned(Tracks(h1.sch), At(w.h), Chunks(w.q + [p])) && h1.free + Load(w.q + [p]) == h1.len
    ensures LinkOK(w.(h := h1, q := w.q + [p], trace := w.trace + [p]))
  {
    var w1 := w.(h := h1, q := w.q + [p], trace := w.trace + [p]);
    CountsGrow(w, p, x1, h1);
    forall i | 0 <= i < |h1.sch| ensures h1.sch[i].job == w.h.sch[i].job {}
    assert At(h1) == At(w.h);
    assert ReceivingOK(w1);
  }

  lemma CountsGrow(w: World, p: Packet, x1: Xfr, h1: Host)
    requires HostOK(w.h) && CountsOK(w) && w.h.cur < |w.h.sch| && p.job == w.h.sch[w.h.cur].job == x1.job
    requires x1.kind == w.h.sch[w.h.cur].kind && h1.busy == w.h.busy && h1.sch == w.h.sch[w.h.cur := x1]
    requires x1.packets == w.h.sch[w.h.cur].packets + (if x1.kind == Touch then 1 else 0)
    ensures CountsOK(w.(h := h1, q := w.q + [p], trace := w.trace + [p]))
  {
    forall i | 0 <= i < |h1.sch| && h1.sch[i].kind == Touch
      ensures h1.sch[i].packets == CountOf(w.q + [p], h1.sch[i].job) + Receiving(h1, i)
    {
      CountAppend(w.q, p, h1.sch[i].job);
      if i != w.h.cur { JobsDiffer(w.h, i, w.h.cur); }
    }
  }

  // ---------------------------------------------------------------- answers

  // The oldest command is the head's next one.
  predicate HeadsPacket(x: Xfr, p: Packet) {
    && p.job == x.job && p.kind == x.kind && (x.kind == Touch ==> p.spu == x.spu)
    && 1 <= p.bits && x.done + p.bits <= x.fi && (p.last <==> x.done + p.bits == x.sc)
  }

  lemma TagsAgree(k1: Kind, s1: bool, k2: Kind, s2: bool)
    requires Tag(k1, s1) == Tag(k2, s2)
    ensures k1 == k2 && (k1 == Touch ==> s1 == s2)
  {
  }

  lemma OldestIsHeadsPacket(w: World)
    requires Inv(w) && AnswerPossible(w)
    ensures w.h.sch != [] && HeadsPacket(w.h.sch[0], w.q[0]) && PacketOK(w.q[0]) && PacketsOK(w.q[1..])
    ensures Aligned(Tracks(w.h.sch), w.h.sch[0].done + w.q[0].bits, Chunks(w.q[1..]))
    ensures Load(w.q) == Cost(w.q[0]) + Load(w.q[1..])
  {
    if w.h.sch != [] {
      assert XferOK(w.h.sch[0]);
    }
    ChunksSplit(w.q, w.q[0]);
    OldestIsHeads(Tracks(w.h.sch), At(w.h), Chunks(w.q));
    TagsAgree(w.q[0].kind, w.q[0].spu, w.h.sch[0].kind, w.h.sch[0].spu);
  }

  // The queue without its first command, for the transfers behind the head.
  lemma BehindAfter(w: World, gone: Option<nat>)
    requires HostOK(w.h) && LinkOK(w) && w.h.sch != [] && w.q != [] && w.q[0].job == w.h.sch[0].job
    requires gone == w.gone || gone == Some(w.h.sch[0].job)
    ensures Behind(w.(q := w.q[1..], gone := gone))
    ensures w.h.busy == Idle && w.h.sch[0].kind == Touch ==>
      w.h.sch[0].packets - 1 == CountOf(w.q[1..], w.h.sch[0].job)
  {
    forall i | 0 < i < |w.h.sch|
      ensures gone != Some(w.h.sch[i].job)
      ensures w.h.sch[i].kind == Touch ==> w.h.sch[i].packets == CountOf(w.q[1..], w.h.sch[i].job)
    {
      JobsDiffer(w.h, 0, i);
    }
  }

  lemma SingleForm(w: World, skipped: bool, found: bool)
    requires w.q != [] && w.q[0].kind != Touch && w.h.sch != [] && w.h.sch[0].kind == w.q[0].kind
    ensures var p := w.q[0];
      var w1 := w.(q := w.q[1..], rxJob := p.job, h := w.h.(free := w.h.free + Cost(p)));
      OnAnswerSingle(w, skipped, found) ==
        if p.kind == Enum && found then w1.(h := w1.h.(busy := Rom(skipped)))
        else w1.(h := Complete(w1.h, 0, StatusOf(skipped)))
  {
  }

  // A single command is all there is to its transfer.
  lemma SingleKeeps(w: World, skipped: bool, found: bool)
    requires Inv(w) && AnswerPossible(w) && w.q[0].kind != Touch
    ensures OnAnswerSingle(w, skipped, found).up && Inv(OnAnswerSingle(w, skipped, found))
  {
    OldestIsHeadsPacket(w);
    BehindAfter(w, w.gone);
    SingleForm(w, skipped, found);
    SingleBy(w, w.(q := w.q[1..], rxJob := w.q[0].job, h := w.h.(free := w.h.free + Cost(w.q[0]))), skipped);
  }

  lemma SingleBy(w: World, w1: World, skipped: bool)
    requires HostOK(w.h) && LinkOK(w) && AnswerPossible(w) && w.q[0].kind != Touch
    requires w1 == w.(q := w.q[1..], rxJob := w.q[0].job, h := w.h.(free := w.h.free + Cost(w.q[0])))
    requires w.h.sch != [] && HeadsPacket(w.h.sch[0], w.q[0]) && PacketsOK(w.q[1..]) && Behind(w1)
    requires Aligned(Tracks(w.h.sch), w.h.sch[0].done + w.q[0].bits, Chunks(w.q[1..]))
    requires Load(w.q) == Cost(w.q[0]) + Load(w.q[1..])
    ensures w.q[0].kind == Enum ==>
      var w2 := w1.(h := w1.h.(busy := Rom(skipped))); HostOK(w2.h) && LinkOK(w2)
    ensures var w2 := w1.(h := Complete(w1.h, 0, StatusOf(skipped))); HostOK(w2.h) && LinkOK(w2)
  {
    assert XferOK(w.h.sch[0]);
    if w.q[0].kind == Enum {
      RomKeepsLink(w, w1, skipped);
    }
    CreditKeepsHost(w.h, w.h.free + Cost(w.q[0]));
    SingleDone(w1, w.h.sch[0], StatusOf(skipped));
  }

  lemma CreditKeepsHost(h: Host, free: nat)
    requires HostOK(h)
    ensures HostOK(h.(free := free))
  {
  }

  lemma SingleDone(w: World, x: Xfr, status: Status)
    requires HostOK(w.h) && w.h.sch != [] && x == w.h.sch[0] && w.h.busy == Idle && Behind(w) && PacketsOK(w.q)
    requires Aligned(Tracks(w.h.sch), x.fi, Chunks(w.q)) && w.h.free + Load(w.q) == w.h.len
    ensures var w1 := w.(h := Complete(w.h, 0, status));
      HostOK(w1.h) && LinkOK(w1)
  {
    HeadGone(w, x, status);
    assert w.h.sch[0 := x] == w.h.sch;
  }

  lemma RomKeepsLink(w: World, w1: World, s: bool)
    requires HostOK(w.h) && LinkOK(w) && AnswerPossible(w) && w.h.sch != [] && HeadsPacket(w.h.sch[0], w.q[0])
    requires w.q[0].kind == Enum && XferOK(w.h.sch[0]) && PacketsOK(w.q[1..])
    requires w1 == w.(q := w.q[1..], rxJob := w.q[0].job, h := w.h.(free := w.h.free + Cost(w.q[0])))
    requires Aligned(Tracks(w.h.sch), w.h.sch[0].done + w.q[0].bits, Chunks(w.q[1..]))
    requires Load(w.q) == Cost(w.q[0]) + Load(w.q[1..]) && Behind(w1)
    ensures var w2 := w1.(h := w1.h.(busy := Rom(s))); HostOK(w2.h) && LinkOK(w2)
  {
    var w2 := w1.(h := w1.h.(busy := Rom(s)));
    assert HostOK(w2.h);
  }

  lemma RomArrivesKeeps(w: World)
    requires Inv(w) && w.up && w.h.busy.Rom?
    ensures RxRom(w.h).Some? && Inv(w.(h := RxRom(w.h).value))
  {
    var x := w.h.sch[0];
    assert XferOK(x);
    AtMostSent(Tracks(w.h.sch), At(w.h), Chunks(w.q));
    var w1 := w.(h := w.h.(busy := Idle));
    assert HostOK(w1.h);
    assert Behind(w1);
    SingleDone(w1, x, StatusOf(w.h.busy.skippedRom));
  }

  // No packet of the head is on its way exactly if all it sent was answered.
  lemma {:induction false} CountZero(sch: seq<Track>, at: nat, q: seq<Chunk>, qs: seq<Packet>)
    requires Aligned(sch, at, q) && q == Chunks(qs) && sch != []
    requires forall i :: 0 < i < |sch| ==> sch[i].job != sch[0].job
    ensures CountOf(qs, sch[0].job) == 0 <==> at == sch[0].fi
    decreases |q|
  {
    if at == sch[0].sc {
      forall i | 0 <= i < |sch[1..]| ensures sch[1..][i].job != sch[0].job { assert sch[i + 1].job != sch[0].job; }
      NoneUnderWay(sch[1..], 0, q, qs, sch[0].job);
    } else if qs != [] {
      ChunksSplit(qs, qs[0]);
    }
  }

  lemma HeadsCount(w: World, at: nat)
    requires HostOK(w.h) && w.h.sch != [] && Aligned(Tracks(w.h.sch), at, Chunks(w.q))
    ensures CountOf(w.q, w.h.sch[0].job) == 0 <==> at == w.h.sch[0].fi
  {
    var sch := Tracks(w.h.sch);
    forall i | 0 < i < |sch| ensures sch[i].job != sch[0].job { JobsDiffer(w.h, 0, i); }
    CountZero(sch, at, Chunks(w.q), w.q);
  }

  lemma TouchCredit(w: World)
    requires Inv(w) && TouchPossible(w)
    ensures w.h.sch != []
    ensures RxTouch(w.h, w.q[0].spu, w.q[0].bits) == Some(w.h.(free := w.h.free + Cost(w.q[0])))
  {
    OldestIsHeadsPacket(w);
  }

  lemma SkippedForm(w: World)
    requires w.q != [] && w.q[0].bits > 0
    requires RxTouch(w.h, w.q[0].spu, w.q[0].bits) == Some(w.h.(free := w.h.free + Cost(w.q[0])))
    ensures var p := w.q[0];
      var w0 := w.(q := w.q[1..], gone := Some(p.job), h := w.h.(free := w.h.free + Cost(p)));
      OnAnswerSkipped(w) == Settle(w0, RxTouchSkip(w0.h, p.bits))
  {
  }

  lemma SkippedKeeps(w: World)
    requires Inv(w) && TouchPossible(w)
    ensures OnAnswerSkipped(w).up && Inv(OnAnswerSkipped(w))
  {
    OldestIsHeadsPacket(w);
    TouchCredit(w);
    SkippedForm(w);
    var p := w.q[0];
    BehindAfter(w, Some(p.job));
    SkippedStep(w, w.(q := w.q[1..], gone := Some(p.job), h := w.h.(free := w.h.free + Cost(p))));
  }

  lemma SkippedStep(w: World, w0: World)
    requires HostOK(w.h) && LinkOK(w) && TouchPossible(w) && w.h.sch != [] && HeadsPacket(w.h.sch[0], w.q[0])
    requires w0 == w.(q := w.q[1..], gone := Some(w.q[0].job), h := w.h.(free := w.h.free + Cost(w.q[0])))
    requires PacketOK(w.q[0]) && PacketsOK(w0.q) && w.h.sch[0].packets - 1 == CountOf(w0.q, w.h.sch[0].job)
    requires Behind(w.(q := w0.q, gone := w0.gone)) && Load(w.q) == Cost(w.q[0]) + Load(w0.q)
    requires Aligned(Tracks(w.h.sch), w.h.sch[0].done + w.q[0].bits, Chunks(w0.q))
    ensures RxTouchSkip(w0.h, w.q[0].bits).Some? && Inv(w0.(h := RxTouchSkip(w0.h, w.q[0].bits).value))
  {
    AlignmentOf(w.h.sch[0], w.q[0]);
    CreditKeepsHost(w.h, w0.h.free);
    SkippedBy(w0, w.q[0].bits);
  }

  lemma AlignmentOf(x: Xfr, p: Packet)
    requires HeadsPacket(x, p) && PacketOK(p)
    ensures p.kind == Touch ==> p.bits % 8 == 0 || x.done + p.bits == x.sc
  {
  }

  lemma SkippedBy(w: World, bits: nat)
    requires HostOK(w.h) && w.up && w.h.sch != [] && w.h.busy == Idle && w.gone == Some(w.h.sch[0].job)
    requires Behind(w) && PacketsOK(w.q) && w.h.sch[0].kind == Touch && bits > 0
    requires Aligned(Tracks(w.h.sch), w.h.sch[0].done + bits, Chunks(w.q)) && w.h.free + Load(w.q) == w.h.len
    requires w.h.sch[0].done + bits <= w.h.sch[0].fi && (bits % 8 == 0 || w.h.sch[0].done + bits == w.h.sch[0].sc)
    requires w.h.sch[0].packets - 1 == CountOf(w.q, w.h.sch[0].job)
    requires StoreOK(w.h.sch[0], Idle)
    ensures RxTouchSkip(w.h, bits).Some? && Inv(w.(h := RxTouchSkip(w.h, bits).value))
  {
    var x := w.h.sch[0];
    var x1 := Missed(x, bits);
    assert XferOK(x);
    HeadsCount(w, x.done + bits);
    if x1.packets == 0 {
      HeadGone(w, x1, Skipped);
    } else {
      MissedOK(x, bits);
      TracksUpdate(w.h.sch, 0, x1);
      ReplaceKeepsHost(w.h, 0, x1);
      ReplaceHeadLinks(w, x1);
    }
  }

  lemma StillWhole(a: nat, b: nat)
    requires a % 8 == 0 && b % 8 == 0
    ensures (a + b) % 8 == 0
  {
  }

  lemma MissedOK(x: Xfr, bits: nat)
    requires XferOK(x) && x.kind == Touch && x.done + bits < x.fi && bits % 8 == 0 && bits > 0 && StoreOK(x, Idle)
    ensures XferOK(Missed(x, bits))
  {
    StillWhole(x.done, bits);
    var x1 := Missed(x, bits);
    assert x1.si == x1.xfrd && x1.xfrd % 8 == 0;
  }

  // The head replaced by one that sent the same.
  lemma ReplaceHeadLinks(w: World, x1: Xfr)
    requires HostOK(w.h) && w.h.sch != [] && Behind(w) && PacketsOK(w.q)
    requires TrackOf(x1) == TrackOf(w.h.sch[0]) && x1.kind == w.h.sch[0].kind == Touch
    requires w.h.busy == Idle && StoreOK(x1, Idle) && (x1.skipped <==> w.gone == Some(x1.job))
    requires x1.packets == CountOf(w.q, x1.job)
    requires Aligned(Tracks(w.h.sch), x1.done, Chunks(w.q)) && w.h.free + Load(w.q) == w.h.len
    ensures LinkOK(w.(h := w.h.(sch := w.h.sch[0 := x1])))
  {
    TracksUpdate(w.h.sch, 0, x1);
    var h1 := w.h.(sch := w.h.sch[0 := x1]);
    forall i | 0 <= i < |h1.sch| && h1.sch[i].kind == Touch
      ensures h1.sch[i].packets == CountOf(w.q, h1.sch[i].job) + Receiving(h1, i)
    {
      if i > 0 { assert h1.sch[i] == w.h.sch[i]; }
    }
  }

  lemma FullForm(w: World)
    requires w.q != [] && w.q[0].bits > 0
    requires RxTouch(w.h, w.q[0].spu, w.q[0].bits) == Some(w.h.(free := w.h.free + Cost(w.q[0])))
    ensures var p := w.q[0];
      OnAnswerFull(w) == w.(q := w.q[1..], rxJob := p.job,
                            h := w.h.(free := w.h.free + Cost(p), busy := Bytes(BytesFor(p.bits), p.bits)))
  {
  }

  lemma FullKeeps(w: World)
    requires Inv(w) && TouchPossible(w) && w.gone != Some(w.q[0].job)
    ensures OnAnswerFull(w).up && Inv(OnAnswerFull(w))
  {
    OldestIsHeadsPacket(w);
    TouchCredit(w);
    FullForm(w);
    BehindAfter(w, w.gone);
    AlignmentOf(w.h.sch[0], w.q[0]);
    FullLinks(w, w.q[0], OnAnswerFull(w).h);
  }

  lemma FullLinks(w: World, p: Packet, h1: Host)
    requires HostOK(w.h) && LinkOK(w) && w.h.busy == Idle && w.q != [] && p == w.q[0] && w.gone != Some(p.job)
    requires w.h.sch != [] && HeadsPacket(w.h.sch[0], p) && p.kind == Touch && PacketsOK(w.q[1..])
    requires p.bits % 8 == 0 || w.h.sch[0].done + p.bits == w.h.sch[0].sc
    requires Behind(w.(q := w.q[1..])) && w.h.sch[0].packets - 1 == CountOf(w.q[1..], w.h.sch[0].job)
    requires Aligned(Tracks(w.h.sch), w.h.sch[0].done + p.bits, Chunks(w.q[1..]))
    requires Load(w.q) == Cost(p) + Load(w.q[1..])
    requires h1 == w.h.(free := w.h.free + Cost(p), busy := Bytes(BytesFor(p.bits), p.bits))
    ensures HostOK(h1) && LinkOK(w.(q := w.q[1..], rxJob := p.job, h := h1))
  {
    var w1 := w.(q := w.q[1..], rxJob := p.job, h := h1);
    forall i | 0 <= i < |h1.sch| && h1.sch[i].kind == Touch
      ensures h1.sch[i].packets == CountOf(w1.q, h1.sch[i].job) + Receiving(h1, i)
    {
    }
  }

  lemma ByteForm(h: Host, b: byte, x1: Xfr)
    requires StoreInside(h) && h.sch != [] && x1 == Stored(h.sch[0], b)
    ensures h.busy.left > 1 ==>
      RxByte(h, b) == Some(h.(sch := h.sch[0 := x1], busy := h.busy.(left := h.busy.left - 1)))
    ensures h.busy.left == 1 ==>
      var x2 := Ended(x1, h.busy.bits);
      var h1 := h.(busy := Idle);
      RxByte(h, b) ==
        Some(if x2.si == x2.sc then Complete(h1.(sch := h.sch[0 := x2.(xfrd := x2.si)]), 0, Success)
             else h1.(sch := h.sch[0 := x2]))
  {
  }

  // What the invariant says about an answer being received.
  lemma InHandOK(w: World)
    requires Inv(w) && w.up && w.h.busy.Bytes?
    ensures w.h.sch != [] && XferOK(w.h.sch[0]) && StoreInside(w.h)
    ensures var x, busy := w.h.sch[0], w.h.busy;
      && x.kind == Touch && !x.skipped && StoreOK(x, busy) && x.active
      && 1 <= busy.left <= BytesFor(busy.bits) && x.done + busy.bits <= x.fi
      && (busy.bits % 8 == 0 || x.done + busy.bits == x.sc)
  {
    InvEnables(w);
    AtMostSent(Tracks(w.h.sch), At(w.h), Chunks(w.q));
    assert XferOK(w.h.sch[0]);
  }

  lemma DeliverSettles(w: World, b: byte)
    requires StoreInside(w.h) && RxByte(w.h, b).Some? && w.up
    requires HostOK(RxByte(w.h, b).value) && LinkOK(w.(h := RxByte(w.h, b).value))
    ensures OnDeliver(w, b).up && Inv(OnDeliver(w, b))
  {
    var w1 := w.(h := RxByte(w.h, b).value);
    assert OnDeliver(w, b) == w1.(delivered := OnDeliver(w, b).delivered);
  }

  lemma DeliverKeeps(w: World, b: byte)
    requires Inv(w) && w.up && w.h.busy.Bytes?
    ensures StoreInside(w.h) && OnDeliver(w, b).up && Inv(OnDeliver(w, b))
  {
    InHandOK(w);
    var x, busy := w.h.sch[0], w.h.busy;
    StoredOK(x, b, busy);
    DeliverBy(w, b, Stored(x, b));
    DeliverSettles(w, b);
  }

  lemma DeliverBy(w: World, b: byte, x1: Xfr)
    requires Inv(w) && w.up && w.h.busy.Bytes? && StoreInside(w.h) && w.h.sch != [] && w.h.sch[0].active
    requires x1 == Stored(w.h.sch[0], b) && XferOK(x1)
    requires w.h.busy.left > 1 ==> StoreOK(x1, w.h.busy.(left := w.h.busy.left - 1))
    requires w.h.busy.left == 1 ==> x1.si == x1.done + w.h.busy.bits
    ensures RxByte(w.h, b).Some?
    ensures HostOK(RxByte(w.h, b).value) && LinkOK(w.(h := RxByte(w.h, b).value))
  {
    ByteForm(w.h, b, x1);
    if w.h.busy.left > 1 {
      MoreKeeps(w, x1);
    } else {
      EndOfPacket(w, b, x1);
    }
  }

  lemma MoreKeeps(w: World, x1: Xfr)
    requires HostOK(w.h) && LinkOK(w) && w.h.busy.Bytes? && w.h.busy.left > 1 && w.h.sch[0].active
    requires x1 == w.h.sch[0].(buf := x1.buf, si := x1.si) && XferOK(x1)
    requires StoreOK(x1, w.h.busy.(left := w.h.busy.left - 1))
    ensures var h1 := w.h.(sch := w.h.sch[0 := x1], busy := w.h.busy.(left := w.h.busy.left - 1));
      HostOK(h1) && LinkOK(w.(h := h1))
  {
    ReplaceKeepsHost(w.h, 0, x1);
    DeliverLinks(w, x1);
    BusyKeepsHost(w.h.(sch := w.h.sch[0 := x1]), w.h.busy.(left := w.h.busy.left - 1));
  }

  lemma BusyKeepsHost(h: Host, busy: Busy)
    requires HostOK(h)
    ensures HostOK(h.(busy := busy))
  {
  }

  lemma StoredOK(x: Xfr, b: byte, busy: Busy)
    requires XferOK(x) && x.kind == Touch && !x.skipped && busy.Bytes? && StoreOK(x, busy)
    requires 1 <= busy.left <= BytesFor(busy.bits) && x.done + busy.bits <= x.fi
    ensures x.si / 8 < BytesFor(x.sc) && x.si <= x.sc
    ensures XferOK(Stored(x, b))
    ensures busy.left > 1 ==> StoreOK(Stored(x, b), busy.(left := busy.left - 1))
    ensures busy.left == 1 && (busy.bits % 8 == 0 || x.done + busy.bits == x.sc) ==>
      Stored(x, b).si == x.done + busy.bits
  {
    StoreFits(x, busy);
  }

  lemma DeliverLinks(w: World, x1: Xfr)
    requires HostOK(w.h) && LinkOK(w) && w.h.busy.Bytes? && w.h.busy.left > 1
    requires x1 == w.h.sch[0].(buf := x1.buf, si := x1.si)
    requires StoreOK(x1, w.h.busy.(left := w.h.busy.left - 1))
    ensures LinkOK(w.(h := w.h.(sch := w.h.sch[0 := x1], busy := w.h.busy.(left := w.h.busy.left - 1))))
  {
    TracksUpdate(w.h.sch, 0, x1);
    var h1 := w.h.(sch := w.h.sch[0 := x1], busy := w.h.busy.(left := w.h.busy.left - 1));
    forall i | 0 <= i < |h1.sch| && h1.sch[i].kind == Touch
      ensures h1.sch[i].packets == CountOf(w.q, h1.sch[i].job) + Receiving(h1, i)
    {
      assert w.h.sch[i].kind == Touch && w.h.sch[i].job == h1.sch[i].job;
    }
  }

  // The last byte of an answer: all of the packet was stored.
  lemma EndOfPacket(w: World, b: byte, x1: Xfr)
    requires Inv(w) && w.up && w.h.busy.Bytes? && w.h.busy.left == 1 && StoreInside(w.h)
    requires x1 == Stored(w.h.sch[0], b) && XferOK(x1) && x1.si == x1.done + w.h.busy.bits
    ensures RxByte(w.h, b).Some?
    ensures HostOK(RxByte(w.h, b).value) && LinkOK(w.(h := RxByte(w.h, b).value))
  {
    InHandOK(w);
    var bits := w.h.busy.bits;
    ByteForm(w.h, b, x1);
    var x2 := Ended(x1, bits);
    var w0 := w.(h := w.h.(busy := Idle));
    BusyKeepsHost(w.h, Idle);
    HandedIn(w, w0);
    if x2.si == x2.sc {
      HeadGone(w0, x2.(xfrd := x2.si), Success);
    } else {
      EndedOK(x1, bits);
      ReplaceKeepsHost(w0.h, 0, x2);
      ReplaceHeadLinks(w0, x2);
    }
  }

  lemma EndedOK(x1: Xfr, bits: nat)
    requires XferOK(x1) && x1.kind == Touch && !x1.skipped && x1.si == x1.done + bits && x1.si != x1.sc
    requires x1.done + bits <= x1.fi && bits % 8 == 0
    ensures XferOK(Ended(x1, bits)) && StoreOK(Ended(x1, bits), Idle)
  {
  }

  lemma HandedIn(w: World, w0: World)
    requires HostOK(w.h) && LinkOK(w) && w.h.busy.Bytes? && w0 == w.(h := w.h.(busy := Idle))
    ensures Behind(w0) && w.h.sch[0].packets - 1 == CountOf(w.q, w.h.sch[0].job)
    ensures Aligned(Tracks(w0.h.sch), w.h.sch[0].done + w.h.busy.bits, Chunks(w0.q))
  {
  }

  lemma UserKeepsInv(w: World, ev: Event)
    requires Inv(w) && (ev.UserSchedule? || ev.UserCancel? || ev.UserDestroy?)
    requires (w.up ==> Pumpable(w.h)) && (w.up && w.h.busy.Bytes? ==> StoreInside(w.h))
    ensures Inv(Step(w, ev)) && Step(w, ev).up == w.up
  {
    match ev
    case UserSchedule(r) => ScheduleKeeps(w, r);
    case UserCancel(job) => CancelKeeps(w, job);
    case UserDestroy(job) => DestroyKeeps(w, job);
  }

  lemma AnswerKeepsInv(w: World, ev: Event)
    requires Inv(w) && w.up
    requires ev.AnswerSingle? || ev.AnswerSkipped? || ev.AnswerFull? || ev.Deliver? || ev.RomArrives?
    requires Pumpable(w.h) && (w.h.busy.Bytes? ==> StoreInside(w.h))
    ensures Inv(Step(w, ev)) && Step(w, ev).up
  {
    match ev
    case AnswerSingle(s, f) => if AnswerPossible(w) && w.q[0].kind != Touch { SingleKeeps(w, s, f); }
    case RomArrives => if w.h.busy.Rom? { RomArrivesKeeps(w); }
    case AnswerSkipped => if TouchPossible(w) { SkippedKeeps(w); }
    case AnswerFull => if TouchPossible(w) && w.gone != Some(w.q[0].job) { FullKeeps(w); }
    case Deliver(b) => if w.h.busy.Bytes? { DeliverKeeps(w, b); }
  }

  lemma InfoKeepsInv(w: World, len: nat, probes: bool)
    requires Inv(w) && w.up && w.h.len == 0
    ensures Inv(w.(h := w.h.(len := len, free := len, probes := probes)))
  {
    var h1 := w.h.(len := len, free := len, probes := probes);
    assert HostOK(h1);
    assert Load(w.q) == 0;
  }

  lemma StepKeepsInv(w: World, ev: Event)
    requires Inv(w)
    ensures w.up ==> Pumpable(w.h)
    ensures w.up && w.h.busy.Bytes? ==> StoreInside(w.h)
    ensures Inv(Step(w, ev))
    ensures w.up && !ev.LinkLost? ==> Step(w, ev).up
  {
    InvEnables(w);
    if ev.UserSchedule? || ev.UserCancel? || ev.UserDestroy? {
      UserKeepsInv(w, ev);
    } else if ev.LinkLost? || !w.up {
    } else if ev.Transmit? {
      TransmitKeeps(w);
    } else if ev.InfoBlock? {
      if w.h.len == 0 { InfoKeepsInv(w, ev.len, ev.probes); }
    } else {
      AnswerKeepsInv(w, ev);
    }
  }
}
