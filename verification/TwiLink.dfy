/** The wire events of the TWI world, emission, answer and delivery, keep the invariant. */
module TwiLink {
  import opened TwiHost
  import opened TwiWorld
  import opened TwiInvariant
  import opened TwiSteps

  // ---------------------------------------------------------------- emission

  // The transfer at cur after an emission, and the host around it.
  lemma EmittedShape(h: Host, x1: Xfr, cur1: nat)
    requires JobsOK(h) && SplitOK(h) && XfersOK(h) && h.cur < |h.sch|
    requires XferOK(x1) && x1.job == h.sch[h.cur].job && x1.active
    requires cur1 == if Emitted(x1) then h.cur + 1 else h.cur
    ensures var h1 := h.(sch := h.sch[h.cur := x1], cur := cur1);
      JobsOK(h1) && SplitOK(h1) && XfersOK(h1)
  {
    var h1 := h.(sch := h.sch[h.cur := x1], cur := cur1);
    forall k | 0 <= k < |h1.sch|
      ensures XferOK(h1.sch[k])
      ensures k == h1.cur ==> !Emitted(h1.sch[k])
      ensures k > h1.cur ==> !h1.sch[k].active
    {
      assert k != h.cur ==> h1.sch[k] == h.sch[k];
    }
  }

  lemma EmittedPool(h: Host, h1: Host)
    requires PoolOK(h) && h.cur < |h.sch| && |h1.sch| == |h.sch|
    requires h1.cache == h.cache && h1.assign == h.assign && SamePlaces(h, h1)
    requires forall k :: 0 <= k < |h.sch| ==> h1.sch[k].handle == h.sch[k].handle
    ensures PoolOK(h1)
  {
    assert Handles(h1.sch) == Handles(h.sch);
    SamePool(h, h1);
  }

  // What the pump does to the host, in the terms of EmittedShape.
  lemma TransmitSend(h: Host)
    requires XfersOK(h) && Pumpable(h) && TxOne(h).Emit? && !h.txStop
    ensures h.cur < |h.sch| == |TxOne(h).h.sch|
    ensures var h1, x := TxOne(h).h, h.sch[h.cur]; var x1 := h1.sch[h.cur];
      && h1 == h.(sch := h.sch[h.cur := x1], cur := h1.cur, free := h1.free, txStop := h1.txStop)
      && h1.cur == (if Emitted(x1) then h.cur + 1 else h.cur)
      && XferOK(x1) && x1.job == x.job && x1.handle == x.handle && x1.active
  {
    assert XferOK(h.sch[h.cur]);
  }

  lemma TransmitKeepsHost(h: Host)
    requires HostOK(h) && Pumpable(h) && TxOne(h).Emit?
    ensures HostOK(TxOne(h).h)
  {
    var h1 := TxOne(h).h;
    if h.txStop {
      SameLists(h, h1);
    } else {
      TransmitSend(h);
      EmittedShape(h, h1.sch[h.cur], h1.cur);
      EmittedPool(h, h1);
    }
  }

  // Every job in the queue is at or before the pump's transfer.
  lemma QueuedJobsReached(h: Host, q: seq<Entry>)
    requires JobsOK(h) && SplitOK(h) && QueueOK(h.sch, q) && PendsOK(h.sch, q) && h.cur < |h.sch|
    ensures forall k :: 0 <= k < |q| && q[k].Of? ==> q[k].job <= h.sch[h.cur].job
  {
    forall k | 0 <= k < |q| && q[k].Of?
      ensures q[k].job <= h.sch[h.cur].job
    {
      assert Owned(h.sch, q[k]);
      var m :| 0 <= m < |h.sch| && h.sch[m].job == q[k].job;
      PendPresent(q, k);
      assert PendOK(h.sch[m], Pend(q, h.sch[m].job));
      assert h.sch[m].active;
    }
  }

  lemma AppendKeepsOwners(sch: seq<Xfr>, q: seq<Entry>, e: Entry)
    requires QueueOK(sch, q) && Owned(sch, e)
    requires e.Of? ==> forall k :: 0 <= k < |q| && q[k].Of? ==> q[k].job <= e.job
    ensures QueueOK(sch, q + [e])
  {
    var q1 := q + [e];
    forall k | 0 <= k < |q1|
      ensures Owned(sch, q1[k])
    {
      assert q1[k] == if k < |q| then q[k] else e;
    }
  }

  // Only the emitting transfer's pending commands grow.
  lemma AppendKeepsPends(h: Host, q: seq<Entry>, x1: Xfr, e: Entry)
    requires JobsOK(h) && PendsOK(h.sch, q) && h.cur < |h.sch|
    requires e.Of? && e.job == h.sch[h.cur].job == x1.job
    requires PendOK(x1, Pend(q, x1.job) + [e.cmd])
    ensures PendsOK(h.sch[h.cur := x1], q + [e])
  {
    var s1 := h.sch[h.cur := x1];
    forall k | 0 <= k < |s1|
      ensures PendOK(s1[k], Pend(q + [e], s1[k].job))
    {
      PendAppend(q, e, s1[k].job);
      if k != h.cur {
        assert PendOK(h.sch[k], Pend(q, h.sch[k].job));
      }
    }
  }

  lemma StartPends(x: Xfr, x1: Xfr, p: seq<Cmd>)
    requires XferOK(x) && !x.active && PendOK(x, p)
    requires x1 == x.(active := true, txPhase := if Probe(x) then Addressing else Data)
    ensures PendOK(x1, p + [Start(AddressByte(x))])
  {
    assert p + [Start(AddressByte(x))] == [Start(AddressByte(x))];
    assert [Start(AddressByte(x))][1..] == [];
    assert DataOK(x1, []);
  }

  lemma DataOKAppend(x: Xfr, x1: Xfr, ds: seq<Cmd>, c: Cmd)
    requires DataOK(x, ds) && DataCmd(c, x.dir)
    requires x1.dir == x.dir && x1.rsp == x.rsp && x1.cmd == x.cmd + Size(c)
    ensures DataOK(x1, ds + [c])
  {
    BytesAppend(ds, c);
  }

  lemma DataPends(x: Xfr, x1: Xfr, p: seq<Cmd>, c: Cmd)
    requires XferOK(x) && x.active && PendOK(x, p) && DataCmd(c, x.dir)
    requires x1 == x.(cmd := x.cmd + Size(c))
    ensures PendOK(x1, p + [c])
  {
    if x.rxPhase == Addressing {
      assert (p + [c])[1..] == p[1..] + [c];
      DataOKAppend(x, x1, p[1..], c);
    } else {
      DataOKAppend(x, x1, p, c);
    }
  }

  // What an emission other than STOP does to the host.
  ghost predicate Advance(h: Host, h1: Host, e: Entry) {
    && h.cur < |h.sch| && |h1.sch| == |h.sch|
    && (var x, x1 := h.sch[h.cur], h1.sch[h.cur];
        && h1.sch == h.sch[h.cur := x1]
        && e.Of? && e.job == x.job
        && x1.active && !x.short
        && if !x.active then
             && x1 == x.(active := true, txPhase := if Probe(x) then Addressing else Data)
             && e.cmd == Start(AddressByte(x))
           else
             && x1 == x.(cmd := x.cmd + Size(e.cmd))
             && DataCmd(e.cmd, x.dir))
    && h1.cur == (if Emitted(h1.sch[h.cur]) then h.cur + 1 else h.cur)
    && h1.rxLeft == h.rxLeft && h1.early == h.early
  }

  lemma TransmitAdvances(h: Host)
    requires SplitOK(h) && XfersOK(h) && Pumpable(h) && TxOne(h).Emit? && !h.txStop
    ensures Advance(h, TxOne(h).h, TxOne(h).e)
  {
    var x := h.sch[h.cur];
    assert XferOK(x);
    if x.txPhase == Addressing {
      StartAdvances(h, x);
    } else {
      DataAdvances(h, x);
    }
  }

  lemma StartAdvances(h: Host, x: Xfr)
    requires h.cur < |h.sch| && h.free >= 2 && x == h.sch[h.cur] && XferOK(x)
    requires x.txPhase == Addressing && !x.short && !Emitted(x)
    ensures Advance(h, EmitStart(h, x).h, EmitStart(h, x).e)
  {
  }

  lemma DataAdvances(h: Host, x: Xfr)
    requires h.cur < |h.sch| && h.free >= 4 && x == h.sch[h.cur]
    requires x.active && !x.short && x.cmd < x.sc && (!x.detached ==> |x.buf| == x.sc)
    ensures Advance(h, EmitData(h, x).h, EmitData(h, x).e)
  {
    var n := PacketSize(h, x);
    var h1, e := EmitData(h, x).h, EmitData(h, x).e;
    assert h1.sch[h.cur] == x.(cmd := x.cmd + n) && h1.sch == h.sch[h.cur := h1.sch[h.cur]];
    assert Size(e.cmd) == n;
  }

  lemma TransmitPends(h: Host, q: seq<Entry>, h1: Host, e: Entry)
    requires JobsOK(h) && XfersOK(h) && Advance(h, h1, e) && PendsOK(h.sch, q)
    ensures PendsOK(h1.sch, q + [e])
  {
    var x := h.sch[h.cur];
    var x1 := h1.sch[h.cur];
    assert XferOK(x);
    assert PendOK(x, Pend(q, x.job));
    if x.active {
      DataPends(x, x1, Pend(q, x.job), e.cmd);
    } else {
      StartPends(x, x1, Pend(q, x.job));
    }
    AppendKeepsPends(h, q, x1, e);
  }

  lemma StopKeepsPends(sch: seq<Xfr>, q: seq<Entry>)
    requires PendsOK(sch, q)
    ensures PendsOK(sch, q + [Stop])
  {
    forall k | 0 <= k < |sch|
      ensures PendOK(sch[k], Pend(q + [Stop], sch[k].job))
    {
      PendAppend(q, Stop, sch[k].job);
    }
  }

  lemma AppendKeepsBusy(h: Host, q: seq<Entry>, h1: Host, e: Entry)
    requires SplitOK(h) && BusyOK(h, q) && WaitOK(h, q) && Advance(h, h1, e)
    ensures BusyOK(h1, q + [e]) && WaitOK(h1, q + [e])
  {
    forall k | 0 <= k < |h1.sch|
      ensures 0 < k < h1.cur ==> Pend(q + [e], h1.sch[k].job) != []
      ensures k == 0 && h.rxLeft == 0 ==> Pend(q + [e], h1.sch[0].job) != [] || h1.cur == 0
      ensures k == 0 && h.rxLeft == 0 && Pend(q + [e], h1.sch[0].job) == [] ==> !h1.sch[0].short || Stuck(h1.sch[0])
    {
      PendAppend(q, e, h1.sch[k].job);
      assert k != h.cur ==> h1.sch[k] == h.sch[k];
      assert h1.sch[k].job == h.sch[k].job;
    }
  }

  lemma StopKeepsBusy(h: Host, q: seq<Entry>)
    requires BusyOK(h, q) && WaitOK(h, q)
    ensures BusyOK(h, q + [Stop]) && WaitOK(h, q + [Stop])
  {
    forall k | 0 <= k < |h.sch|
      ensures Pend(q + [Stop], h.sch[k].job) == Pend(q, h.sch[k].job)
    {
      PendAppend(q, Stop, h.sch[k].job);
    }
  }

  lemma TransmitKeepsCredit(w: World, h1: Host, e: Entry)
    requires CreditOK(w.h, w.q) && Pumpable(w.h) && TxOne(w.h) == Emit(h1, e)
    ensures CreditOK(h1, w.q + [e])
  {
    LoadAppend(w.q, e);
  }

  lemma TransmitKeepsHead(h: Host, h1: Host, e: Entry, dead: bool, rxJob: nat)
    requires XfersOK(h) && HeadOnlyOK(h.sch) && HeadOK(h, dead, rxJob) && Advance(h, h1, e)
    ensures HeadOnlyOK(h1.sch) && HeadOK(h1, dead, rxJob)
  {
    forall k | 0 < k < |h1.sch|
      ensures Unanswered(h1.sch[k])
    {
      assert Unanswered(h.sch[k]);
      assert k != h.cur ==> h1.sch[k] == h.sch[k];
    }
  }

  lemma TransmitKeepsOwners(h: Host, q: seq<Entry>, h1: Host, e: Entry)
    requires JobsOK(h) && SplitOK(h) && QueueOK(h.sch, q) && PendsOK(h.sch, q) && Advance(h, h1, e)
    ensures QueueOK(h1.sch, q + [e])
  {
    QueuedJobsReached(h, q);
    var x1 := h1.sch[h.cur];
    ReplaceKeepsOwners(h.sch, q, h.cur, x1);
    assert Owned(h1.sch, e);
    AppendKeepsOwners(h1.sch, q, e);
  }

  lemma StopKeepsLink(w: World, h1: Host, e: Entry)
    requires LinkOK(w) && Pumpable(w.h) && TxOne(w.h) == Emit(h1, e) && w.h.txStop
    requires CreditOK(h1, w.q + [e])
    ensures LinkOK(w.(h := h1, q := w.q + [e], trace := w.trace + [e]))
  {
    AppendKeepsOwners(w.h.sch, w.q, e);
    StopKeepsPends(w.h.sch, w.q);
    StopKeepsBusy(w.h, w.q);
    assert HeadOK(h1, w.dead, w.rxJob);
  }

  lemma SendKeepsLink(w: World, h1: Host, e: Entry)
    requires JobsOK(w.h) && SplitOK(w.h) && XfersOK(w.h) && LinkOK(w) && Advance(w.h, h1, e)
    requires CreditOK(h1, w.q + [e])
    ensures LinkOK(w.(h := h1, q := w.q + [e], trace := w.trace + [e]))
  {
    TransmitKeepsOwners(w.h, w.q, h1, e);
    TransmitPends(w.h, w.q, h1, e);
    AppendKeepsBusy(w.h, w.q, h1, e);
    TransmitKeepsHead(w.h, h1, e, w.dead, w.rxJob);
  }

  lemma TransmitKeepsInv(w: World)
    requires Inv(w) && w.up && Pumpable(w.h)
    ensures Inv(OnTransmit(w))
  {
    match TxOne(w.h)
    case Quiet =>
    case Emit(h1, e) =>
      TransmitKeepsHost(w.h);
      TransmitKeepsCredit(w, h1, e);
      if w.h.txStop {
        StopKeepsLink(w, h1, e);
      } else {
        TransmitAdvances(w.h);
        SendKeepsLink(w, h1, e);
      }
  }
}
