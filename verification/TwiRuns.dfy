/** Whole runs of host and conforming device: what holds after any sequence of events. */
module TwiRuns {
  import opened Basics
  import opened TwiHost
  import opened TwiWorld
  import opened TwiInvariant
  import opened TwiSteps
  import opened TwiAnswer
  import opened TwiEvents
  import opened TwiTrace
  import opened TwiChronicle

  ghost predicate Good(w: World) {
    Inv(w) && Chronicle(w)
  }

  lemma StepKeepsGood(w: World, ev: Event)
    requires Good(w)
    ensures w.up ==> Pumpable(w.h)
    ensures DeliverPossible(w) ==> StoreInside(w.h)
    ensures Good(Step(w, ev))
  {
    StepKeepsInv(w, ev);
    StepKeepsChronicle(w, ev);
  }

  lemma EmptyInv(w: World)
    requires w == START
    ensures Inv(w)
  {
  }

  lemma EmptyChronicle(w: World)
    requires w == START
    ensures Chronicle(w)
  {
  }

  lemma StartIsGood()
    ensures Good(START)
  {
    var w :| w == START;
    EmptyInv(w);
    EmptyChronicle(w);
  }

  // The world after a sequence of events, in order.
  ghost function Run(w: World, evs: seq<Event>): World
    requires Good(w)
    decreases |evs|
  {
    if evs == [] then w
    else
      StepKeepsGood(w, evs[0]);
      Run(Step(w, evs[0]), evs[1..])
  }

  lemma {:induction false} RunKeepsGood(w: World, evs: seq<Event>)
    requires Good(w)
    ensures Good(Run(w, evs))
    decreases |evs|
  {
    if evs != [] {
      StepKeepsGood(w, evs[0]);
      RunKeepsGood(Step(w, evs[0]), evs[1..]);
    }
  }

  ghost predicate RunsTo(w0: World, w: World)
    requires Good(w0)
  {
    exists evs :: Run(w0, evs) == w
  }

  lemma RunsToGood(w0: World, w: World)
    requires Good(w0) && RunsTo(w0, w)
    ensures Good(w)
  {
    var evs :| Run(w0, evs) == w;
    RunKeepsGood(w0, evs);
  }

  // The states some run from the start leads to.
  ghost predicate Reachable(w: World) {
    StartIsGood();
    RunsTo(START, w)
  }

  lemma ReachableGood(w: World)
    requires Reachable(w)
    ensures Good(w)
  {
    StartIsGood();
    RunsToGood(START, w);
  }

  lemma RunFirst(w: World, evs: seq<Event>)
    requires Good(w) && evs != []
    ensures w.up ==> Pumpable(w.h)
    ensures DeliverPossible(w) ==> StoreInside(w.h)
    ensures Good(Step(w, evs[0])) && Run(w, evs) == Run(Step(w, evs[0]), evs[1..])
  {
    StepKeepsGood(w, evs[0]);
  }

  lemma {:induction false} RunTwice(w: World, a: seq<Event>, b: seq<Event>)
    requires Good(w)
    ensures Good(Run(w, a)) && Run(Run(w, a), b) == Run(w, a + b)
    decreases |a|
  {
    if a == [] {
      assert a + b == b;
    } else {
      assert (a + b)[0] == a[0] && (a + b)[1..] == a[1..] + b;
      RunFirst(w, a);
      RunFirst(w, a + b);
      RunTwice(Step(w, a[0]), a[1..], b);
    }
  }

  lemma RunsOn(w0: World, w: World, evs: seq<Event>)
    requires Good(w0) && RunsTo(w0, w) && Good(w)
    ensures RunsTo(w0, Run(w, evs))
  {
    var before :| Run(w0, before) == w;
    RunTwice(w0, before, evs);
  }

  // A run leads from a reachable state to a reachable state.
  lemma ReachableOn(w: World, evs: seq<Event>)
    requires Reachable(w)
    ensures Good(w) && Reachable(Run(w, evs))
  {
    ReachableGood(w);
    StartIsGood();
    RunsOn(START, w, evs);
  }

  // ---------------------------------------------------------------- attribution and credit

  // The head of the scheduled list owns the oldest unanswered command and the payload
  // being received.
  lemma ResponsesFindTheirTransfer(w: World)
    requires Reachable(w) && w.up
    ensures w.h.rxLeft == 0 && w.q != [] && w.q[0].Of? ==> |w.h.sch| > 0 && w.q[0].job == w.h.sch[0].job
    ensures w.h.rxLeft > 0 ==> |w.h.sch| > 0 && w.rxJob == w.h.sch[0].job
  {
    ReachableGood(w);
    if w.h.rxLeft == 0 && w.q != [] && w.q[0].Of? {
      OldestIsHeads(w, 0);
    }
  }

  // A transfer that is no longer listed has no command left unanswered.
  lemma UnlistedIsAnswered(w: World, job: nat)
    requires Reachable(w) && w.up
    requires forall i :: 0 <= i < |w.h.sch| ==> w.h.sch[i].job != job
    ensures Pend(w.q, job) == []
  {
    ReachableGood(w);
    if Pend(w.q, job) != [] {
      var k := PendWitness(w.q, job);
      ListedOwner(w, k);
      assert false;
    }
  }

  lemma ListedOwner(w: World, k: nat)
    requires LinkOK(w) && k < |w.q| && w.q[k].Of?
    ensures exists i :: 0 <= i < |w.h.sch| && w.h.sch[i].job == w.q[k].job
  {
    assert Owned(w.h.sch, w.q[k]);
  }

  // Free space plus the space of unanswered commands is the device's buffer; the oldest
  // command counts as answered as soon as the count of its answer has arrived.
  lemma CreditIsConserved(w: World)
    requires Reachable(w) && w.up
    ensures w.h.free + Load(w.q) == w.h.len + w.h.early
    ensures w.h.early > 0 ==> w.q != [] && w.h.early == Cost(w.q[0])
    ensures w.h.free <= w.h.len
  {
    ReachableGood(w);
  }

  // The pump's transfer splits the list, and the counters are in order.
  lemma ListIsSplit(w: World, i: nat)
    requires Reachable(w) && i < |w.h.sch|
    ensures var h := w.h; var x := h.sch[i];
      && x.xfrd <= x.rsp <= x.cmd <= x.sc
      && (i < h.cur ==> Emitted(x))
      && (i > h.cur ==> Fresh(x))
      && (i == h.cur ==> !Emitted(x))
  {
    ReachableGood(w);
    assert XferOK(w.h.sch[i]);
  }

  // Every transfer object is in exactly one of the three lists, once; its location names
  // that list; and each counter is the length of its list.
  lemma PoolIsPartitioned(w: World, handle: nat)
    requires Reachable(w)
    ensures handle < w.h.nextHandle ==>
      multiset(w.h.cache)[handle] + multiset(w.h.assign)[handle] + multiset(Handles(w.h.sch))[handle] == 1
    ensures handle in w.h.loc <==> handle < w.h.nextHandle
    ensures At(w.h, handle, Cached) <==> handle in w.h.cache
    ensures At(w.h, handle, Assigned) <==> handle in w.h.assign
    ensures At(w.h, handle, Scheduled) <==> handle in Handles(w.h.sch)
    ensures w.h.cachedCnt == |w.h.cache| && w.h.assignedCnt == |w.h.assign| && w.h.schCnt == |w.h.sch|
  {
    ReachableGood(w);
    LocationTells(w.h, handle);
    if handle < w.h.nextHandle {
      ExactlyOneList(w.h, handle);
    }
  }

  function CancelledAll(sch: seq<Xfr>): (r: seq<Done>)
    ensures |r| == |sch|
  {
    if sch == [] then [] else [Done(sch[0], Cancelled)] + CancelledAll(sch[1..])
  }

  // One step of draining the list.
  lemma WithoutFirst<T>(s: seq<T>)
    requires |s| > 0
    ensures Without(s, 0) == s[1..]
  {
  }

  lemma DrainOne(h: Host)
    requires |h.sch| > 0
    ensures var h0 := Complete(h, 0, Cancelled);
      && h0.sch == h.sch[1..] && h0.cur == (if h.cur > 0 then h.cur - 1 else 0)
      && h0.log == h.log + [Done(h.sch[0], Cancelled)] && Holdings(h0) == Holdings(h)
  {
    CompleteKeepsHoldings(h, 0, Cancelled);
    WithoutFirst(h.sch);
  }

  // Losing the link empties the list, cancels every transfer once, in order, and
  // loses no transfer object.
  lemma {:induction false} DetachDrains(h: Host)
    ensures var h1 := CompleteAll(h);
      && h1.sch == []
      && (h.cur <= |h.sch| ==> h1.cur == 0)
      && h1.log == h.log + CancelledAll(h.sch)
      && Holdings(h1) == Holdings(h)
    decreases |h.sch|
  {
    if |h.sch| == 0 {
      assert h.log + [] == h.log;
    } else {
      DrainOne(h);
      var h0 := Complete(h, 0, Cancelled);
      DetachDrains(h0);
      Associative(h.log, [Done(h.sch[0], Cancelled)], CancelledAll(h.sch[1..]));
    }
  }

  // ---------------------------------------------------------------- no false detach

  predicate SevenBit(sch: seq<Xfr>) {
    forall i :: 0 <= i < |sch| ==> sch[i].ad < 128
  }

  // A user request names a seven-bit address, and the serial link holds.
  predicate Orderly(ev: Event) {
    !ev.LinkLost? && (ev.UserSchedule? ==> ev.r.ad < 128)
  }

  lemma CompleteKeepsSevenBit(h: Host, i: nat, status: Status)
    requires i < |h.sch| && SevenBit(h.sch)
    ensures SevenBit(Complete(h, i, status).sch)
  {
  }

  lemma CheckKeepsSevenBit(h: Host, x1: Xfr)
    requires |h.sch| > 0 && SevenBit(h.sch) && x1.ad == h.sch[0].ad
    ensures SevenBit(h.sch[0 := x1])
    ensures SevenBit(CheckHead(h.(sch := h.sch[0 := x1])).sch)
    ensures SevenBit(CompleteHead(h.(sch := h.sch[0 := x1])).sch)
  {
    var h1 := h.(sch := h.sch[0 := x1]);
    assert SevenBit(h1.sch);
    CompleteKeepsSevenBit(h1, 0, FinalStatus(h1, x1));
  }

  lemma StartForm(h: Host, r: Rsp)
    requires r.RspStart? && OnResponse(h, r).Some?
    ensures |h.sch| > 0
    ensures var h1 := h.(free := h.free + 2); var x1 := Addressed(h.sch[0], r);
      || OnResponse(h, r).value == CompleteHead(h1.(sch := h.sch[0 := x1]))
      || OnResponse(h, r).value == h1.(sch := h.sch[0 := x1.(rxPhase := Data)])
  {
    StartAsRx(h, r);
    StartFormOf(h.(free := h.free + 2), r);
  }

  lemma StartAsRx(h: Host, r: Rsp)
    requires r.RspStart?
    ensures OnResponse(h, r) == RxStart(h.(free := h.free + 2), r.skipped, r.nack, r.ad, r.dir)
  {
  }

  lemma StartFormOf(h: Host, r: Rsp)
    requires r.RspStart? && RxStart(h, r.skipped, r.nack, r.ad, r.dir).Some?
    ensures |h.sch| > 0
    ensures var o := RxStart(h, r.skipped, r.nack, r.ad, r.dir); var x1 := Addressed(h.sch[0], r);
      || o.value == CompleteHead(h.(sch := h.sch[0 := x1]))
      || o.value == h.(sch := h.sch[0 := x1.(rxPhase := Data)])
  {
  }

  lemma StartKeepsSevenBit(h: Host, r: Rsp)
    requires SevenBit(h.sch) && r.RspStart? && OnResponse(h, r).Some?
    ensures SevenBit(OnResponse(h, r).value.sch)
  {
    StartForm(h, r);
    var h1 := h.(free := h.free + 2);
    CheckKeepsSevenBit(h1, Addressed(h.sch[0], r));
    CheckKeepsSevenBit(h1, Addressed(h.sch[0], r).(rxPhase := Data));
  }

  lemma DataForm(h: Host, r: Rsp) returns (h1: Host)
    requires (r.RspTx? || r.RspRx?) && OnResponse(h, r).Some?
    ensures |h.sch| > 0 && h1.sch == h.sch && h1.log == h.log && h1.nextJob == h.nextJob
    ensures h1.early == 0 && h1.rxLeft == (if r.RspRx? then r.rcvd else h.rxLeft)
    ensures var h2 := h1.(sch := h.sch[0 := Counted(h.sch[0], r)]);
      OnResponse(h, r).value == h2 || OnResponse(h, r).value == CheckHead(h2)
  {
    var h0 := (if h.early > 0 then h else OnCount(h, r.cnt).value).(early := 0);
    h1 := h0.(rxLeft := if r.RspRx? then r.rcvd else h.rxLeft);
    if r.RspTx? {
      TxForm(h0, r);
    } else {
      RxForm(h0, r);
    }
  }

  lemma TxForm(h: Host, r: Rsp)
    requires r.RspTx? && RxMasterTx(h, r.short, r.nack, r.cnt, r.sent).Some?
    ensures |h.sch| > 0
    ensures RxMasterTx(h, r.short, r.nack, r.cnt, r.sent).value ==
      CheckHead(h.(sch := h.sch[0 := Counted(h.sch[0], r)]))
  {
  }

  lemma RxForm(h: Host, r: Rsp)
    requires r.RspRx? && RxMasterRx(h, r.short, r.nack, r.cnt, r.rcvd).Some?
    ensures |h.sch| > 0
    ensures var h1 := h.(rxLeft := r.rcvd, sch := h.sch[0 := Counted(h.sch[0], r)]);
      RxMasterRx(h, r.short, r.nack, r.cnt, r.rcvd).value == if r.rcvd == 0 then CheckHead(h1) else h1
  {
  }

  lemma DataKeepsSevenBit(h: Host, r: Rsp)
    requires SevenBit(h.sch) && (r.RspTx? || r.RspRx?) && OnResponse(h, r).Some?
    ensures SevenBit(OnResponse(h, r).value.sch)
  {
    var h1 := DataForm(h, r);
    CheckKeepsSevenBit(h1, Counted(h.sch[0], r));
  }

  lemma CancelKeepsSevenBit(h: Host, handle: nat)
    requires SevenBit(h.sch)
    ensures SevenBit(Cancel(h, handle).sch)
  {
    var i := IndexOf(Handles(h.sch), handle);
    if At(h, handle, Scheduled) && i < |h.sch| && !h.sch[i].active {
      CompleteKeepsSevenBit(h, i, Cancelled);
    }
  }

  lemma MarkKeepsSevenBit(h: Host, handle: nat)
    requires SevenBit(h.sch)
    ensures SevenBit(MarkDetached(h, handle).sch)
  {
  }

  lemma UserKeepsSevenBit(h: Host, handle: nat)
    requires SevenBit(h.sch)
    ensures SevenBit(Cancel(h, handle).sch) && SevenBit(Destroy(h, handle).sch)
  {
    CancelKeepsSevenBit(h, handle);
    MarkKeepsSevenBit(Cancel(h, handle), handle);
  }

  lemma TransmitKeepsSevenBit(h: Host)
    requires SevenBit(h.sch) && Pumpable(h) && TxOne(h).Emit?
    ensures SevenBit(TxOne(h).h.sch)
  {
  }

  lemma ByteIs(h: Host, b: byte)
    requires StoreInside(h) && RxByte(h, b).Some?
    ensures |h.sch| > 0
    ensures var h1 := h.(rxLeft := h.rxLeft - 1, sch := h.sch[0 := Stored(h.sch[0], b)]);
      RxByte(h, b).value == h1 || RxByte(h, b).value == CheckHead(h1)
  {
  }

  lemma ByteKeepsSevenBit(h: Host, b: byte)
    requires SevenBit(h.sch) && StoreInside(h) && RxByte(h, b).Some?
    ensures SevenBit(RxByte(h, b).value.sch)
  {
    ByteIs(h, b);
    CheckKeepsSevenBit(h.(rxLeft := h.rxLeft - 1), Stored(h.sch[0], b));
  }

  lemma AnswerKeepsUp(w: World, r: Rsp)
    requires Inv(w) && SevenBit(w.h.sch) && AnswerPossible(w, r)
    ensures OnAnswer(w, r).up && SevenBit(OnAnswer(w, r).h.sch)
  {
    AnswerKeepsInv(w, r);
    if r.RspStart? {
      StartKeepsSevenBit(w.h, r);
    } else if !r.RspStop? {
      DataKeepsSevenBit(w.h, r);
    }
  }

  lemma WireKeepsUp(w: World, ev: Event)
    requires Inv(w) && w.up && SevenBit(w.h.sch) && (ev.Transmit? || ev.Count? || ev.Answer? || ev.Deliver?)
    requires Pumpable(w.h) && (DeliverPossible(w) ==> StoreInside(w.h))
    ensures Step(w, ev).up && SevenBit(Step(w, ev).h.sch)
  {
    match ev
    case Transmit => if TxOne(w.h).Emit? { TransmitKeepsSevenBit(w.h); }
    case Count => if CountPossible(w) { CountKeepsInv(w); }
    case Answer(r) => if AnswerPossible(w, r) { AnswerKeepsUp(w, r); }
    case Deliver(b) =>
      if DeliverPossible(w) {
        DeliverKeepsInv(w, b);
        ByteKeepsSevenBit(w.h, b);
      }
  }

  lemma UserKeepsUp(w: World, ev: Event)
    requires w.up && SevenBit(w.h.sch) && Orderly(ev) && (ev.UserSchedule? || ev.UserCancel? || ev.UserDestroy?)
    requires Pumpable(w.h) && (DeliverPossible(w) ==> StoreInside(w.h))
    ensures Step(w, ev).up && SevenBit(Step(w, ev).h.sch)
  {
    if ev.UserSchedule? {
      assert SevenBit(Schedule(w.h, ev.handle, ev.r).sch);
    } else {
      UserKeepsSevenBit(w.h, ev.handle);
    }
  }

  lemma StepKeepsUp(w: World, ev: Event)
    requires Inv(w) && w.up && SevenBit(w.h.sch) && Orderly(ev)
    ensures w.up ==> Pumpable(w.h)
    ensures DeliverPossible(w) ==> StoreInside(w.h)
    ensures Step(w, ev).up && SevenBit(Step(w, ev).h.sch)
  {
    InvEnables(w);
    if ev.Transmit? || ev.Count? || ev.Answer? || ev.Deliver? {
      WireKeepsUp(w, ev);
    } else if ev.UserSchedule? || ev.UserCancel? || ev.UserDestroy? {
      UserKeepsUp(w, ev);
    }
  }

  // With seven-bit addresses the host never gives up on a conforming device.
  lemma {:induction false} NoFalseDetach(w: World, evs: seq<Event>)
    requires Good(w) && w.up && SevenBit(w.h.sch)
    requires forall k :: 0 <= k < |evs| ==> Orderly(evs[k])
    ensures Run(w, evs).up
    decreases |evs|
  {
    if evs != [] {
      StepKeepsUp(w, evs[0]);
      StepKeepsGood(w, evs[0]);
      NoFalseDetach(Step(w, evs[0]), evs[1..]);
    }
  }

  // Scheduling does not check the address, and the START byte carries seven bits of it:
  // from any idle state, a probe of address 200 is echoed as 72 by a conforming device,
  // and the host takes that for a fault.
  lemma EightBitAddressDetaches(w: World, handle: nat)
    requires Inv(w) && w.up && w.q == [] && w.h.sch == [] && w.h.cur == 0
    requires !w.h.txStop && w.h.rxLeft == 0 && w.h.early == 0 && w.h.free >= 2 && At(w.h, handle, Assigned)
    ensures var w1 := w.(h := Schedule(w.h, handle, Request([], 200, Write, true)));
      Pumpable(w1.h) &&
      var w2 := OnTransmit(w1);
      && w2.up && AnswerPossible(w2, RspStart(false, false, 72, Write))
      && !OnAnswer(w2, RspStart(false, false, 72, Write)).up
  {
    var r := Request([], 200, Write, true);
    var x := NewXfr(w.h, handle, r);
    var w1 := w.(h := Schedule(w.h, handle, r));
    assert w1.h.sch == [x];
    assert TxOne(w1.h) == EmitStart(w1.h, x);
    assert OnTransmit(w1).q == [Of(x.job, Start(144), Final(StopDue(w1.h, x)))];
  }

  // ---------------------------------------------------------------- the stuck START

  ghost predicate HeadStuck(w: World, job: nat) {
    |w.h.sch| > 0 && w.h.sch[0].job == job && Stuck(w.h.sch[0]) && w.h.cur == 0 && w.h.rxLeft == 0
  }

  // Skipping the START of a transfer that has data but none emitted yet leaves it stuck.
  lemma SkippedStartSticks(w: World, r: Rsp)
    requires Inv(w) && AnswerPossible(w, r) && w.q[0].Of? && w.q[0].cmd.Start?
    requires |w.h.sch| > 0 && w.h.sch[0].ad < 128 && !Probe(w.h.sch[0])
    ensures HeadStuck(OnAnswer(w, r), w.h.sch[0].job) <==> r.skipped && w.h.sch[0].cmd == 0
  {
    HeadsCommand(w);
    StartResponse(w.h, r, w.q[0]);
  }

  lemma StuckHasNoData(w: World, job: nat)
    requires Inv(w) && w.up && HeadStuck(w, job) && w.q != []
    ensures w.q[0].Stop?
  {
    if w.q[0].Of? {
      HeadsCommand(w);
      assert false;
    }
  }

  lemma StuckStaysPut(h: Host, handle: nat)
    requires HostOK(h) && |h.sch| > 0 && Stuck(h.sch[0]) && h.cur == 0
    ensures var h1 := Cancel(h, handle);
      |h1.sch| > 0 && h1.sch[0] == h.sch[0] && h1.cur == 0 && h1.rxLeft == h.rxLeft
  {
    assert XferOK(h.sch[0]);
  }

  // Marking a transfer as destroyed leaves its counters alone.
  lemma DetachKeepsStuck(h: Host, k: nat)
    requires |h.sch| > 0 && Stuck(h.sch[0]) && k < |h.sch|
    ensures var sch1 := h.sch[k := Detach(h.sch[k])];
      Stuck(sch1[0]) && sch1[0].job == h.sch[0].job
  {
  }

  lemma StuckStaysPutDestroyed(h: Host, handle: nat)
    requires HostOK(h) && |h.sch| > 0 && Stuck(h.sch[0]) && h.cur == 0
    ensures var h1 := Destroy(h, handle);
      |h1.sch| > 0 && Stuck(h1.sch[0]) && h1.sch[0].job == h.sch[0].job && h1.cur == 0 && h1.rxLeft == h.rxLeft
  {
    StuckStaysPut(h, handle);
    var h1 := Cancel(h, handle);
    var k := IndexOf(Handles(h1.sch), handle);
    if !At(h1, handle, Assigned) && k < |h1.sch| {
      DetachKeepsStuck(h1, k);
    }
  }

  lemma StepKeepsStuck(w: World, ev: Event, job: nat)
    requires Inv(w) && w.up && HeadStuck(w, job) && !ev.LinkLost?
    ensures w.up ==> Pumpable(w.h)
    ensures DeliverPossible(w) ==> StoreInside(w.h)
    ensures Step(w, ev).up && HeadStuck(Step(w, ev), job)
  {
    InvEnables(w);
    match ev
    case UserCancel(handle) => StuckStaysPut(w.h, handle);
    case UserDestroy(handle) => StuckStaysPutDestroyed(w.h, handle);
    case Answer(r) => if AnswerPossible(w, r) { StuckHasNoData(w, job); }
    case UserSchedule(handle, r) => assert Schedule(w.h, handle, r).sch[0] == w.h.sch[0];
    case _ =>
  }

  // Nothing the user, the host or the device does gets it out again, short of losing the link.
  lemma {:induction false} StuckForever(w: World, evs: seq<Event>, job: nat)
    requires Good(w) && w.up && HeadStuck(w, job)
    requires forall k :: 0 <= k < |evs| ==> !evs[k].LinkLost?
    ensures HeadStuck(Run(w, evs), job)
    decreases |evs|
  {
    if evs != [] {
      StepKeepsStuck(w, evs[0], job);
      StepKeepsGood(w, evs[0]);
      StuckForever(Step(w, evs[0]), evs[1..], job);
    }
  }

  // ---------------------------------------------------------------- the command stream

  // A STOP only ever follows the last command of a transfer, whole and just emitted.
  lemma StopsAreEarned(w: World, k: nat)
    requires Reachable(w) && k < |w.trace| && w.trace[k].Stop?
    ensures k > 0 && w.trace[k - 1].Of? && w.trace[k - 1].progress == Final(true)
    ensures forall i :: 0 <= i < |w.h.sch| && w.h.sch[i].job == w.trace[k - 1].job ==> Emitted(w.h.sch[i])
    ensures forall i :: 0 <= i < |w.h.log| && w.h.log[i].x.job == w.trace[k - 1].job ==> Emitted(w.h.log[i].x)
  {
    ReachableGood(w);
    assert FollowOK(w.trace[k - 1], w.trace[k]);
  }

  // A STOP that is due comes before anything else, in particular before the next START.
  lemma DueStopsComeFirst(w: World, k: nat)
    requires Reachable(w) && k < |w.trace| && w.trace[k].Of? && w.trace[k].progress == Final(true)
    ensures if k + 1 < |w.trace| then w.trace[k + 1].Stop? else w.h.txStop
  {
    ReachableGood(w);
    if k + 1 < |w.trace| {
      assert FollowOK(w.trace[k], w.trace[k + 1]);
    }
  }

  // A data packet directly follows an earlier command of the same transfer.
  lemma PacketsAreContiguous(w: World, k: nat)
    requires Reachable(w) && k < |w.trace| && w.trace[k].Of? && !w.trace[k].cmd.Start?
    ensures k > 0 && w.trace[k - 1].Of? && w.trace[k - 1].job == w.trace[k].job && w.trace[k - 1].progress == More
  {
    ReachableGood(w);
    assert k > 0 ==> FollowOK(w.trace[k - 1], w.trace[k]);
  }

  // When the pump ends a transfer, a STOP is due exactly if TWI is enabled and the
  // transfer forces it or no other transfer is scheduled behind it.
  lemma StopRule(w: World)
    requires Reachable(w) && w.up
    ensures Pumpable(w.h)
    ensures TxOne(w.h).Emit? && TxOne(w.h).e.Of? ==>
      var x := w.h.sch[w.h.cur]; var e := TxOne(w.h).e;
      && (e.progress.Final? <==> Emitted(TxOne(w.h).h.sch[w.h.cur]))
      && (e.progress == Final(true) <==>
            e.progress.Final? && w.h.enabled && (x.forceStop || w.h.cur + 1 == |w.h.sch|))
  {
    ReachableGood(w);
    InvEnables(w);
    if TxOne(w.h).Emit? && TxOne(w.h).e.Of? {
      TransmitSpeaks(w.h);
    }
  }

  // ---------------------------------------------------------------- what the user gets back

  // A write handed back by its responses: one START, then packets of 1..32 bytes whose
  // payloads join up to the bytes the user handed over when scheduling it, all of them
  // unless an answer came up short. If the user destroyed the transfer, the bytes sent
  // before that are the user's and all later ones are 0xFF.
  lemma CompletedWrite(w: World, k: nat)
    requires Reachable(w) && k < |w.h.log| && w.h.log[k].status != Cancelled && w.h.log[k].x.dir == Write
    ensures var x := w.h.log[k].x; var cs := Pend(w.trace, x.job);
      && |cs| > 0 && cs[0] == Start(AddressByte(x))
      && (forall i :: 0 < i < |cs| ==> cs[i].Tx? && 1 <= |cs[i].data| <= 32)
      && |x.orig| == x.sc >= x.cmd
      && (!x.short ==> x.cmd == x.sc == x.xfrd)
      && (x.short && x.sc > 0 ==> x.xfrd < x.sc)
      && (!x.detached ==> Payload(cs[1..]) == x.orig[..x.cmd])
      && (x.detached ==> x.cut <= x.cmd && Payload(cs[1..]) == x.orig[..x.cut] + Filler(x.cmd - x.cut))
  {
    ReachableGood(w);
    var d := w.h.log[k];
    assert Told(d.x, w.trace, w.delivered) && Outcome(d);
    var cs := Pend(w.trace, d.x.job);
    assert forall i :: 0 < i < |cs| ==> cs[i] == cs[1..][i - 1];
  }

  // A read handed back by its responses: one START, then read packets, `last` on exactly
  // the one that completes the request, and the buffer is the bytes the device delivered,
  // in order, followed by what the user had there before; all bytes are there if no
  // answer came up short. A destroyed read left the buffer as it was at that moment.
  lemma CompletedRead(w: World, k: nat)
    requires Reachable(w) && k < |w.h.log| && w.h.log[k].status != Cancelled && w.h.log[k].x.dir == Read
    ensures var x := w.h.log[k].x; var cs := Pend(w.trace, x.job); var got := Got(w.delivered, x.job);
      && |cs| > 0 && cs[0] == Start(AddressByte(x))
      && (forall i :: 0 < i < |cs| ==> cs[i].Rx? && 1 <= cs[i].n <= 32)
      && (forall i :: 0 < i < |cs| ==> (cs[i].last <==> i == |cs| - 1 && x.cmd == x.sc))
      && |got| == x.xfrd <= |x.orig| == x.sc
      && (!x.short ==> x.cmd == x.sc == x.xfrd)
      && (x.short ==> x.xfrd < x.sc)
      && (!x.detached ==> x.buf == got + x.orig[x.xfrd..])
      && (x.detached ==> x.cut <= x.xfrd && x.buf == got[..x.cut] + x.orig[x.cut..])
  {
    ReachableGood(w);
    var d := w.h.log[k];
    assert Told(d.x, w.trace, w.delivered) && Outcome(d);
    var cs := Pend(w.trace, d.x.job);
    assert forall i :: 0 < i < |cs| ==> cs[i] == cs[1..][i - 1];
  }

  // Every scheduling is listed or was handed back, exactly one of the two, exactly once.
  lemma EachJobOnce(w: World, job: nat)
    requires Reachable(w) && job < w.h.nextJob
    ensures multiset(Jobs(w.h.sch))[job] + multiset(LogJobs(w.h.log))[job] == 1
  {
    ReachableGood(w);
    assert JobBag(w.h)[job] == 1;
  }
}
