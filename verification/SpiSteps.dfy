/** Every event keeps the SPI invariant. */
module SpiSteps {
  import opened Basics
  import opened SpiHost
  import opened SpiWorld
  import opened SpiInvariant
  import opened Fifo

  // ---------------------------------------------------------------- user calls

  lemma ScheduleKeeps(w: World, buf: seq<byte>, ss: nat)
    requires Inv(w)
    ensures Inv(w.(h := Schedule(w.h, buf, ss)))
  {
    if ss <= 3 && |buf| > 0 {
      var x := NewXfr(w.h, buf, ss);
      var h1 := Schedule(w.h, buf, ss);
      ScheduleKeepsHost(w.h, x, h1);
      if w.up {
        HasSizes(w.h);
        TracksSnoc(w.h.sch, x);
        AlignedSnoc(Tracks(w.h.sch), At(w.h), Chunks(w.q), TrackOf(x));
        assert At(h1) == At(w.h);
      }
    }
  }

  lemma ScheduleKeepsHost(h: Host, x: Xfr, h1: Host)
    requires HostOK(h) && Fresh(x) && XferOK(x) && x.job == h.nextJob
    requires h1 == h.(sch := h.sch + [x], nextJob := h.nextJob + 1)
    ensures HostOK(h1)
  {
    forall i | 0 <= i < |h1.sch| ensures XferOK(h1.sch[i]) && h1.sch[i].job < h1.nextJob {
      if i < |h.sch| { assert XferOK(h.sch[i]); }
    }
    forall i | 0 <= i < |h1.sch| ensures i < h1.cur <==> h1.sch[i].fi == h1.sch[i].sc {
      if i < |h.sch| { assert h1.sch[i] == h.sch[i]; }
    }
    forall i, j | 0 <= i < j < |h1.sch| ensures h1.sch[i].job < h1.sch[j].job {
      assert h1.sch[i] == h.sch[i];
    }
  }

  // Where the elements of a list with one taken out were before.
  function Old(i: nat, k: nat): nat {
    if i < k then i else i + 1
  }

  // Taking out an untouched transfer, or the head.
  lemma CompleteKeepsHost(h: Host, k: nat, status: Status)
    requires HostOK(h) && k < |h.sch| && (k == 0 || h.sch[k].fi == 0)
    ensures HostOK(Complete(h, k, status))
  {
    var h1 := Complete(h, k, status);
    assert k > 0 ==> XferOK(h.sch[k]) && h.cur <= k;
    forall i | 0 <= i < |h1.sch|
      ensures XferOK(h1.sch[i]) && h1.sch[i].job < h1.nextJob
      ensures i < h1.cur <==> h1.sch[i].fi == h1.sch[i].sc
      ensures i > h1.cur ==> Fresh(h1.sch[i])
    {
      assert h1.sch[i] == h.sch[Old(i, k)];
    }
    forall i | 0 < i < |h1.sch| ensures h1.sch[i].si == 0 && !h1.sch[i].skipped {
      assert h1.sch[i] == h.sch[Old(i, k)];
    }
    forall i, j | 0 <= i < j < |h1.sch| ensures h1.sch[i].job < h1.sch[j].job {
      assert h1.sch[i] == h.sch[Old(i, k)] && h1.sch[j] == h.sch[Old(j, k)];
    }
  }

  // No transfer behind the head is the one a packet was skipped of.
  predicate GoneAhead(h: Host, gone: Option<nat>) {
    && (forall i :: 0 < i < |h.sch| ==> gone != Some(h.sch[i].job))
    && (gone.Some? ==> gone.value < h.nextJob)
  }

  // Without its head, when that is complete, the list starts with nothing received.
  lemma HeadGone(w: World, x1: Xfr, status: Status)
    requires HostOK(w.h) && w.h.sch != [] && w.h.left == 0 && GoneAhead(w.h, w.gone)
    requires Aligned(Tracks(w.h.sch), w.h.sch[0].fi, Chunks(w.q)) && w.h.free + Load(w.q) == w.h.len
    ensures var w1 := w.(h := Complete(w.h.(sch := w.h.sch[0 := x1]), 0, status));
      HostOK(w1.h) && LinkOK(w1)
  {
    CompleteKeepsHost(w.h, 0, status);
    HasSizes(w.h);
    AlignedTail(Tracks(w.h.sch), w.h.sch[0].fi, Chunks(w.q));
    TracksWithout(w.h.sch, 0);
    HeadForgotten(w.h, x1, status);
    RestLinked(w, Complete(w.h, 0, status));
  }

  lemma RestLinked(w: World, h1: Host)
    requires HostOK(w.h) && w.h.sch != [] && GoneAhead(w.h, w.gone) && h1.left == 0
    requires h1.sch == Without(w.h.sch, 0) && h1.nextJob == w.h.nextJob
    requires Aligned(Tracks(h1.sch), 0, Chunks(w.q)) && h1.free + Load(w.q) == h1.len
    ensures forall log :: LinkOK(w.(h := h1.(log := log)))
  {
    forall i | 0 <= i < |h1.sch|
      ensures w.gone != Some(h1.sch[i].job) && h1.sch[i].si == 0 && !h1.sch[i].skipped
    {
      assert h1.sch[i] == w.h.sch[i + 1];
    }
  }

  // What the head was at the end goes into the log and nowhere else.
  lemma HeadForgotten(h: Host, x1: Xfr, status: Status)
    requires h.sch != []
    ensures Complete(h.(sch := h.sch[0 := x1]), 0, status) ==
      Complete(h, 0, status).(log := h.log + [Done(x1, status)])
  {
    assert Without(h.sch[0 := x1], 0) == Without(h.sch, 0);
  }

  lemma CancelKeeps(w: World, job: nat)
    requires Inv(w)
    ensures Inv(w.(h := Cancel(w.h, job)))
  {
    var k := IndexOf(w.h.sch, job);
    if k < |w.h.sch| && !w.h.sch[k].active {
      assert XferOK(w.h.sch[k]);
      CompleteKeepsHost(w.h, k, Cancelled);
      if w.up {
        CancelKeepsLink(w, k);
      }
    }
  }

  lemma CancelKeepsLink(w: World, k: nat)
    requires HostOK(w.h) && LinkOK(w) && k < |w.h.sch| && w.h.sch[k].fi == 0
    ensures LinkOK(w.(h := Complete(w.h, k, Cancelled)))
  {
    var h1 := Complete(w.h, k, Cancelled);
    NothingReceived(w, k);
    HasSizes(w.h);
    TracksWithout(w.h.sch, k);
    AlignedWithout(Tracks(w.h.sch), At(w.h), Chunks(w.q), k);
    assert At(h1) == if k == 0 then 0 else At(w.h);
    forall i | 0 < i < |h1.sch| ensures w.gone != Some(h1.sch[i].job) {
      assert h1.sch[i] == w.h.sch[Old(i, k)];
    }
    if h1.sch != [] {
      assert h1.sch[0] == w.h.sch[Old(0, k)];
    }
  }

  // Nothing is being received for an untouched head.
  lemma NothingReceived(w: World, k: nat)
    requires HostOK(w.h) && LinkOK(w) && k < |w.h.sch| && w.h.sch[k].fi == 0
    ensures k == 0 ==> At(w.h) == 0
  {
    if k == 0 {
      assert XferOK(w.h.sch[0]);
      AtMostSent(Tracks(w.h.sch), At(w.h), Chunks(w.q));
    }
  }

  lemma DestroyKeeps(w: World, job: nat)
    requires Inv(w)
    ensures Inv(w.(h := Destroy(w.h, job)))
  {
    CancelKeeps(w, job);
    var h1 := Cancel(w.h, job);
    var k := IndexOf(h1.sch, job);
    if k < |h1.sch| {
      StillActive(w.h, job, k);
      DetachKeeps(w.(h := h1), k);
    }
  }

  lemma JobsDiffer(h: Host, i: nat, j: nat)
    requires HostOK(h) && i < |h.sch| && j < |h.sch| && i != j
    ensures h.sch[i].job != h.sch[j].job
  {
    if i < j {
      assert h.sch[i].job < h.sch[j].job;
    } else {
      assert h.sch[j].job < h.sch[i].job;
    }
  }

  lemma NoLongerListed(h: Host, i: nat, k: nat)
    requires HostOK(h) && i < |h.sch| && k < |h.sch| - 1
    ensures Without(h.sch, i)[k].job != h.sch[i].job
  {
    JobsDiffer(h, i, Old(k, i));
  }

  // What survives a cancellation under its name has been sent at least in part.
  lemma StillActive(h: Host, job: nat, k: nat)
    requires HostOK(h) && k < |Cancel(h, job).sch| && Cancel(h, job).sch[k].job == job
    ensures Cancel(h, job).sch[k].active
  {
    var i := IndexOf(h.sch, job);
    if i < |h.sch| && !h.sch[i].active {
      NoLongerListed(h, i, k);
      assert false;
    } else if !h.sch[k].active {
      FirstOfJob(h, job, k);
    }
  }

  lemma FirstOfJob(h: Host, job: nat, k: nat)
    requires HostOK(h) && k < |h.sch| && h.sch[k].job == job
    ensures IndexOf(h.sch, job) == k
  {
    var i := IndexOf(h.sch, job);
    Present(h.sch, job, k);
    if i != k {
      JobsDiffer(h, i, k);
      assert false;
    }
  }

  lemma {:induction false} Present(sch: seq<Xfr>, job: nat, k: nat)
    requires k < |sch| && sch[k].job == job
    ensures IndexOf(sch, job) < |sch|
  {
    if sch[0].job != job {
      Present(sch[1..], job, k - 1);
    }
  }

  lemma DetachKeeps(w: World, k: nat)
    requires Inv(w) && k < |w.h.sch| && w.h.sch[k].active
    ensures Inv(w.(h := w.h.(sch := w.h.sch[k := Detach(w.h.sch[k])])))
  {
    var x1 := Detach(w.h.sch[k]);
    assert XferOK(w.h.sch[k]) && XferOK(x1);
    ReplaceKeepsHost(w.h, k, x1);
    if w.up {
      TracksUpdate(w.h.sch, k, x1);
    }
  }

  lemma ReplaceKeepsHost(h: Host, k: nat, x1: Xfr)
    requires HostOK(h) && k < |h.sch| && XferOK(x1) && h.sch[k].active && x1.active
    requires x1.fi == h.sch[k].fi && x1.sc == h.sch[k].sc && x1.job == h.sch[k].job
    requires k > 0 ==> x1.si == 0 && !x1.skipped
    ensures HostOK(h.(sch := h.sch[k := x1]))
  {
    var h1 := h.(sch := h.sch[k := x1]);
    forall i | 0 <= i < |h1.sch| ensures XferOK(h1.sch[i]) && h1.sch[i].job < h1.nextJob {
      assert XferOK(h.sch[i]);
    }
    forall i | 0 <= i < |h1.sch| && i > h1.cur ensures Fresh(h1.sch[i]) {
      assert Fresh(h.sch[i]);
    }
  }

  // ---------------------------------------------------------------- the pump

  lemma TransmitForm(h: Host)
    requires Pumpable(h) && TxOne(h).Emit?
    ensures h.cur < |h.sch| && h.free >= 3
    ensures var x := h.sch[h.cur]; var n := PacketSize(h, x); var x1 := x.(active := true, fi := x.fi + n);
      TxOne(h) == Emit(h.(free := h.free - (2 + n), sch := h.sch[h.cur := x1],
                          cur := if x1.fi == x1.sc then h.cur + 1 else h.cur),
                       Packet(x.job, x.ss, x1.fi == x1.sc, DataBytes(x, n)))
  {
  }

  lemma TransmitAligned(w: World, p: Packet, x1: Xfr)
    requires HostOK(w.h) && w.h.cur < |w.h.sch| && Aligned(Tracks(w.h.sch), At(w.h), Chunks(w.q))
    requires var x := w.h.sch[w.h.cur];
      && x.fi < x.sc && |p.data| >= 1 && p.job == x.job && p.ss == x.ss
      && TrackOf(x1) == TrackOf(x).(fi := x.fi + |p.data|) && x1.fi <= x.sc && (p.last <==> x1.fi == x.sc)
    ensures Aligned(Tracks(w.h.sch[w.h.cur := x1]), At(w.h), Chunks(w.q + [p]))
  {
    var h := w.h;
    HasSizes(h);
    TracksUpdate(h.sch, h.cur, x1);
    ChunksSplit(w.q, p);
    AlignedSend(Tracks(h.sch), At(h), Chunks(w.q), h.cur, TrackOf(x1), ChunkOf(p));
  }

  lemma TransmitKeeps(w: World)
    requires Inv(w) && w.up
    ensures Pumpable(w.h) && Inv(OnTransmit(w))
  {
    InvEnables(w);
    if TxOne(w.h).Emit? {
      TransmitForm(w.h);
      assert XferOK(w.h.sch[w.h.cur]);
      TransmitBy(w, TxOne(w.h).h.sch[w.h.cur], TxOne(w.h).p, TxOne(w.h).h);
    }
  }

  lemma TransmitBy(w: World, x1: Xfr, p: Packet, h1: Host)
    requires HostOK(w.h) && LinkOK(w) && w.h.cur < |w.h.sch| && w.h.free >= 2 + |p.data| && XferOK(w.h.sch[w.h.cur])
    requires var x := w.h.sch[w.h.cur];
      && |p.data| >= 1 && x.fi + |p.data| <= x.sc && p.job == x.job && p.ss == x.ss
      && x1 == x.(active := true, fi := x.fi + |p.data|) && (p.last <==> x1.fi == x1.sc)
    requires h1 == w.h.(free := w.h.free - (2 + |p.data|), sch := w.h.sch[w.h.cur := x1],
                        cur := if x1.fi == x1.sc then w.h.cur + 1 else w.h.cur)
    ensures HostOK(h1) && LinkOK(w.(h := h1, q := w.q + [p], trace := w.trace + [p]))
  {
    TransmitKeepsHost(w.h, x1, h1);
    TransmitAligned(w, p, x1);
    LoadAppend(w.q, p);
    TransmitLinks(w, x1, p, h1);
  }

  lemma TransmitLinks(w: World, x1: Xfr, p: Packet, h1: Host)
    requires LinkOK(w) && w.h.cur < |w.h.sch| && h1.free + Load(w.q + [p]) == h1.len
    requires x1 == w.h.sch[w.h.cur].(active := true, fi := x1.fi)
    requires h1 == w.h.(free := h1.free, sch := w.h.sch[w.h.cur := x1], cur := h1.cur)
    requires Aligned(Tracks(h1.sch), At(w.h), Chunks(w.q + [p]))
    ensures LinkOK(w.(h := h1, q := w.q + [p], trace := w.trace + [p]))
  {
    forall i | 0 <= i < |h1.sch| ensures h1.sch[i].job == w.h.sch[i].job {}
  }

  lemma TransmitKeepsHost(h: Host, x1: Xfr, h1: Host)
    requires HostOK(h) && h.cur < |h.sch| && XferOK(x1) && x1.active
    requires x1 == h.sch[h.cur].(active := true, fi := x1.fi)
    requires h1.sch == h.sch[h.cur := x1] && h1.cur == (if x1.fi == x1.sc then h.cur + 1 else h.cur)
    requires h1.nextJob == h.nextJob
    ensures HostOK(h1)
  {
    forall i | 0 <= i < |h1.sch|
      ensures XferOK(h1.sch[i]) && h1.sch[i].job < h1.nextJob
      ensures i < h1.cur <==> h1.sch[i].fi == h1.sch[i].sc
      ensures i > h1.cur ==> Fresh(h1.sch[i])
    {
      assert XferOK(h.sch[i]);
    }
  }

  // ---------------------------------------------------------------- answers

  lemma CreditComesBack(w: World)
    requires Inv(w) && AnswerPossible(w)
    ensures w.h.sch != [] && Credit(w.h, w.q[0].ss, |w.q[0].data|) == Some(w.h.(free := w.h.free + |w.q[0].data| + 2))
  {
    OldestIsHeadsPacket(w);
  }

  function Missed(x: Xfr, cnt: nat): Xfr {
    x.(skipped := true, xfrd := if x.skipped then x.xfrd else x.si, si := x.si + cnt)
  }

  lemma CreditKeepsHost(h: Host, free: nat)
    requires HostOK(h)
    ensures HostOK(h.(free := free))
  {
  }

  lemma SkippedKeeps(w: World)
    requires Inv(w) && AnswerPossible(w)
    ensures OnAnswerSkipped(w).up && Inv(OnAnswerSkipped(w))
  {
    var cnt := |w.q[0].data|;
    var w0 := w.(q := w.q[1..], gone := Some(w.q[0].job), h := w.h.(free := w.h.free + cnt + 2));
    SkippedFrom(w, cnt, w0);
    CreditComesBack(w);
    SkippedShape(w, w0);
  }

  lemma SkippedShape(w: World, w0: World)
    requires w.up && w.q != [] && Credit(w.h, w.q[0].ss, |w.q[0].data|) == Some(w0.h)
    requires w0 == w.(q := w.q[1..], gone := Some(w.q[0].job), h := w0.h) && RxSkip(w0.h, |w.q[0].data|).Some?
    ensures OnAnswerSkipped(w).up && OnAnswerSkipped(w) == w0.(h := RxSkip(w0.h, |w.q[0].data|).value)
  {
  }

  // With the credit back and the packet off the queue.
  lemma SkippedFrom(w: World, cnt: nat, w0: World)
    requires Inv(w) && AnswerPossible(w) && cnt == |w.q[0].data|
    requires w0 == w.(q := w.q[1..], gone := Some(w.q[0].job), h := w.h.(free := w.h.free + cnt + 2))
    ensures RxSkip(w0.h, cnt).Some? && Inv(w0.(h := RxSkip(w0.h, cnt).value))
  {
    OldestIsHeadsPacket(w);
    CreditKeepsHost(w.h, w0.h.free);
    SkippedBy(w0, cnt);
  }

  lemma SkippedForm(h: Host, cnt: nat)
    requires h.sch != [] && h.sch[0].si + cnt <= h.sch[0].fi
    ensures var h1 := h.(sch := h.sch[0 := Missed(h.sch[0], cnt)]);
      RxSkip(h, cnt) == Some(if h.sch[0].si + cnt == h.sch[0].fi then Complete(h1, 0, Skipped) else h1)
  {
  }

  lemma SkippedBy(w: World, cnt: nat)
    requires HostOK(w.h) && w.up && w.h.sch != [] && w.h.left == 0 && w.gone == Some(w.h.sch[0].job)
    requires Aligned(Tracks(w.h.sch), w.h.sch[0].si + cnt, Chunks(w.q)) && w.h.free + Load(w.q) == w.h.len
    requires w.h.sch[0].si + cnt <= w.h.sch[0].fi && cnt > 0
    ensures RxSkip(w.h, cnt).Some? && Inv(w.(h := RxSkip(w.h, cnt).value))
  {
    var x := w.h.sch[0];
    SkippedForm(w.h, cnt);
    forall i | 0 < i < |w.h.sch| ensures w.gone != Some(w.h.sch[i].job) {
      JobsDiffer(w.h, 0, i);
    }
    if x.si + cnt == x.fi {
      HeadGone(w, Missed(x, cnt), Skipped);
    } else {
      assert XferOK(x) && XferOK(Missed(x, cnt));
      TracksUpdate(w.h.sch, 0, Missed(x, cnt));
      ReplaceKeepsHost(w.h, 0, Missed(x, cnt));
    }
  }

  lemma FullKeeps(w: World)
    requires Inv(w) && AnswerPossible(w) && w.gone != Some(w.q[0].job)
    ensures OnAnswerFull(w).up && Inv(OnAnswerFull(w))
  {
    OldestIsHeadsPacket(w);
    CreditComesBack(w);
  }

  lemma ByteForm(h: Host, b: byte, x1: Xfr)
    requires StoreInside(h) && h.sch != [] && !h.sch[0].skipped && x1 == Stored(h.sch[0], b)
    ensures RxByte(h, b) ==
      if h.left == 1 && h.last then
        Some(Complete(h.(left := 0, sch := h.sch[0 := x1.(xfrd := x1.si)]), 0, Success))
      else if x1.si == x1.sc then None
      else Some(h.(left := h.left - 1, sch := h.sch[0 := x1]))
  {
  }

  // What the invariant says about an answer being received.
  lemma InHandOK(w: World)
    requires Inv(w) && w.up && w.h.left > 0
    ensures w.h.sch != [] && XferOK(w.h.sch[0]) && StoreInside(w.h) && !w.h.sch[0].skipped && w.h.sch[0].active
    ensures w.h.sch[0].si + w.h.left <= w.h.sch[0].fi && (w.h.last <==> w.h.sch[0].si + w.h.left == w.h.sch[0].sc)
  {
    InvEnables(w);
    AtMostSent(Tracks(w.h.sch), At(w.h), Chunks(w.q));
    assert XferOK(w.h.sch[0]);
  }

  lemma DeliverKeeps(w: World, b: byte)
    requires Inv(w) && w.up && w.h.left > 0
    ensures StoreInside(w.h) && OnDeliver(w, b).up && Inv(OnDeliver(w, b))
  {
    InHandOK(w);
    DeliverBy(w, b, Stored(w.h.sch[0], b));
    var w1 := w.(h := RxByte(w.h, b).value);
    assert OnDeliver(w, b) == w1.(delivered := OnDeliver(w, b).delivered);
  }

  lemma DeliverBy(w: World, b: byte, x1: Xfr)
    requires HostOK(w.h) && LinkOK(w) && w.up && StoreInside(w.h) && w.h.sch != [] && XferOK(w.h.sch[0])
    requires !w.h.sch[0].skipped && w.h.sch[0].active && w.h.sch[0].si + w.h.left <= w.h.sch[0].fi
    requires w.h.last <==> w.h.sch[0].si + w.h.left == w.h.sch[0].sc
    requires x1 == Stored(w.h.sch[0], b)
    ensures RxByte(w.h, b).Some?
    ensures HostOK(RxByte(w.h, b).value) && LinkOK(w.(h := RxByte(w.h, b).value))
  {
    ByteForm(w.h, b, x1);
    if w.h.left == 1 && w.h.last {
      HandedIn(w.h);
      HeadGone(w.(h := w.h.(left := 0)), x1.(xfrd := x1.si), Success);
    } else {
      assert XferOK(x1);
      TracksUpdate(w.h.sch, 0, x1);
      ReplaceKeepsHost(w.h, 0, x1);
    }
  }

  lemma HandedIn(h: Host)
    requires HostOK(h)
    ensures HostOK(h.(left := 0))
  {
  }

  lemma {:induction false} DownKeeps(h: Host)
    requires HostOK(h)
    ensures HostOK(CompleteAll(h)) && CompleteAll(h).sch == []
    decreases |h.sch|
  {
    if |h.sch| > 0 {
      CompleteKeepsHost(h, 0, Cancelled);
      DownKeeps(Complete(h, 0, Cancelled));
    }
  }

  lemma StepKeepsInv(w: World, ev: Event)
    requires Inv(w)
    ensures w.up ==> Pumpable(w.h)
    ensures w.up && w.h.left > 0 ==> StoreInside(w.h)
    ensures Inv(Step(w, ev))
    ensures w.up && !ev.LinkLost? ==> Step(w, ev).up
  {
    InvEnables(w);
    match ev
    case UserSchedule(buf, ss) => ScheduleKeeps(w, buf, ss);
    case UserCancel(job) => CancelKeeps(w, job);
    case UserDestroy(job) => DestroyKeeps(w, job);
    case InfoBlock(len) =>
    case Transmit => if w.up { TransmitKeeps(w); }
    case AnswerSkipped => if AnswerPossible(w) { SkippedKeeps(w); }
    case AnswerFull => if AnswerPossible(w) && w.gone != Some(w.q[0].job) { FullKeeps(w); }
    case Deliver(b) => if w.up && w.h.left > 0 { DeliverKeeps(w, b); }
    case LinkLost => if w.up { DownKeeps(w.h); }
  }
}
