/**
 Progress: the pump, the answers and the payload bytes can only go on for so long,
 and when none of them can go on, every scheduled transfer has been handed back,
 or the head is a skipped START that is stuck.
 */
module TwiProgress {
  import opened Basics
  import opened TwiHost
  import opened TwiWorld
  import opened TwiInvariant
  import opened TwiLink
  import opened TwiAnswer
  import opened TwiEvents
  import opened TwiRuns

  // Work the pump still has with x: its START, and six units for each data byte.
  function Weight(x: Xfr): nat {
    (if x.active then 0 else 10) + 6 * (if x.cmd < x.sc then x.sc - x.cmd else 0)
  }

  function Weights(sch: seq<Xfr>): nat {
    if sch == [] then 0 else Weight(sch[0]) + Weights(sch[1..])
  }

  // Wire events an unanswered command still stands for: its answer, in one or two parts,
  // and its payload.
  function Due(e: Entry): nat {
    if e.Stop? || e.cmd.Start? then 1 else if e.cmd.Rx? then 2 + e.cmd.n else 2
  }

  function Dues(q: seq<Entry>): nat {
    if q == [] then 0 else Due(q[0]) + Dues(q[1..])
  }

  function Measure(w: World): nat {
    Weights(w.h.sch) + Dues(w.q) + (if w.h.txStop then 2 else 0) + w.h.rxLeft +
    (if w.h.early > 0 then 0 else 1)
  }

  // An event of the pump or the device that changes something now.
  ghost predicate Effective(w: World, ev: Event)
    requires w.up ==> Pumpable(w.h)
  {
    w.up && match ev
            case Transmit => TxOne(w.h).Emit?
            case Count => CountPossible(w)
            case Answer(r) => AnswerPossible(w, r)
            case Deliver(_) => DeliverPossible(w)
            case _ => false
  }

  // ---------------------------------------------------------------- sums

  lemma {:induction false} WeightsReplace(sch: seq<Xfr>, i: nat, x: Xfr)
    requires i < |sch|
    ensures Weights(sch[i := x]) + Weight(sch[i]) == Weights(sch) + Weight(x)
  {
    if i > 0 {
      assert sch[i := x][1..] == sch[1..][i - 1 := x];
      WeightsReplace(sch[1..], i - 1, x);
    } else {
      assert sch[0 := x][1..] == sch[1..];
    }
  }

  lemma {:induction false} DuesAppend(q: seq<Entry>, e: Entry)
    ensures Dues(q + [e]) == Dues(q) + Due(e)
  {
    if q == [] {
      assert q + [e] == [e] && [e][1..] == [];
    } else {
      assert (q + [e])[1..] == q[1..] + [e];
      DuesAppend(q[1..], e);
    }
  }

  lemma HeadLeaves(sch: seq<Xfr>)
    requires sch != []
    ensures Weights(Without(sch, 0)) <= Weights(sch)
  {
    assert Without(sch, 0) == sch[1..];
  }

  // ---------------------------------------------------------------- every event uses something up

  lemma TransmitDecreases(h: Host)
    requires HostOK(h) && Pumpable(h) && TxOne(h).Emit?
    ensures var h1, e := TxOne(h).h, TxOne(h).e;
      Weights(h1.sch) + Due(e) + (if h1.txStop then 2 else 0) < Weights(h.sch) + (if h.txStop then 2 else 0)
    ensures TxOne(h).h.rxLeft == h.rxLeft && TxOne(h).h.early == h.early
  {
    if !h.txStop {
      TransmitLightens(h);
      WeightsReplace(h.sch, h.cur, TxOne(h).h.sch[h.cur]);
    }
  }

  lemma TransmitLightens(h: Host)
    requires HostOK(h) && Pumpable(h) && TxOne(h).Emit? && !h.txStop
    ensures h.cur < |h.sch| == |TxOne(h).h.sch|
    ensures var h1, e := TxOne(h).h, TxOne(h).e;
      && h1.sch == h.sch[h.cur := h1.sch[h.cur]]
      && Weight(h1.sch[h.cur]) + Due(e) + (if h1.txStop then 2 else 0) < Weight(h.sch[h.cur])
  {
    TransmitAdvances(h);
    assert XferOK(h.sch[h.cur]);
  }

  lemma CheckHeadLight(h: Host)
    requires |h.sch| > 0
    ensures Weights(CheckHead(h).sch) <= Weights(h.sch)
    ensures Weights(CompleteHead(h).sch) <= Weights(h.sch)
    ensures CheckHead(h).rxLeft == h.rxLeft == CompleteHead(h).rxLeft
    ensures CheckHead(h).txStop == h.txStop == CompleteHead(h).txStop
    ensures CheckHead(h).early == h.early == CompleteHead(h).early
  {
    HeadLeaves(h.sch);
  }

  lemma StartDecreases(w: World, r: Rsp)
    requires Inv(w) && AnswerPossible(w, r) && w.q[0].Of? && w.q[0].cmd.Start? && OnResponse(w.h, r).Some?
    ensures var h1 := OnResponse(w.h, r).value;
      Weights(h1.sch) <= Weights(w.h.sch) && h1.txStop == w.h.txStop && h1.rxLeft == 0
  {
    HeadsCommand(w);
    StartResponse(w.h, r, w.q[0]);
    var x1 := Addressed(w.h.sch[0], r);
    if Probe(w.h.sch[0]) {
      WeightsReplace(w.h.sch, 0, x1);
      CheckHeadLight(Credited(w.h, w.q[0], x1, 0));
    } else {
      WeightsReplace(w.h.sch, 0, x1.(rxPhase := Data));
    }
  }

  lemma DataDecreases(w: World, r: Rsp)
    requires Inv(w) && AnswerPossible(w, r) && w.q[0].Of? && !w.q[0].cmd.Start?
    ensures OnResponse(w.h, r).Some?
    ensures var h1 := OnResponse(w.h, r).value;
      Weights(h1.sch) <= Weights(w.h.sch) && h1.txStop == w.h.txStop && h1.rxLeft == PayloadOf(r)
  {
    HeadsCommand(w);
    HeadAfterData(w, r);
    DataResponse(w.h, r, w.q[0]);
    var x1 := Counted(w.h.sch[0], r);
    WeightsReplace(w.h.sch, 0, x1);
    CheckHeadLight(Credited(w.h, w.q[0], x1, PayloadOf(r)));
  }

  lemma AnswerDecreases(w: World, r: Rsp)
    requires Inv(w) && AnswerPossible(w, r) && OnResponse(w.h, r).Some?
    ensures Measure(OnAnswer(w, r)) < Measure(w)
  {
    if w.q[0].Of? {
      if w.q[0].cmd.Start? {
        StartDecreases(w, r);
      } else {
        DataDecreases(w, r);
      }
    }
  }

  lemma DeliverDecreases(w: World, b: byte)
    requires Inv(w) && DeliverPossible(w) && StoreInside(w.h) && RxByte(w.h, b).Some?
    ensures Measure(OnDeliver(w, b)) < Measure(w)
  {
    ByteIsLight(w.h, b);
  }

  lemma ByteForm(h: Host, b: byte) returns (h1: Host)
    requires StoreInside(h) && RxByte(h, b).Some?
    ensures |h.sch| > 0 && h1 == h.(sch := h.sch[0 := Stored(h.sch[0], b)], rxLeft := h.rxLeft - 1)
    ensures RxByte(h, b).value == h1 || RxByte(h, b).value == CheckHead(h1)
  {
    h1 := h.(sch := h.sch[0 := Stored(h.sch[0], b)], rxLeft := h.rxLeft - 1);
  }

  lemma ByteIsLight(h: Host, b: byte)
    requires StoreInside(h) && RxByte(h, b).Some?
    ensures var h1 := RxByte(h, b).value;
      Weights(h1.sch) <= Weights(h.sch) && h1.txStop == h.txStop && h1.rxLeft == h.rxLeft - 1 && h1.early == h.early
  {
    var h1 := ByteForm(h, b);
    WeightsReplace(h.sch, 0, Stored(h.sch[0], b));
    CheckHeadLight(h1);
  }

  lemma EffectiveDecreases(w: World, ev: Event)
    requires Inv(w) && SevenBit(w.h.sch)
    ensures w.up ==> Pumpable(w.h)
    ensures DeliverPossible(w) ==> StoreInside(w.h)
    ensures Effective(w, ev) ==> Step(w, ev).up && Measure(Step(w, ev)) < Measure(w)
  {
    InvEnables(w);
    if Effective(w, ev) {
      match ev
      case Transmit =>
        TransmitDecreases(w.h);
        DuesAppend(w.q, TxOne(w.h).e);
      case Count =>
        CountKeepsInv(w);
      case Answer(r) =>
        AnswerKeepsUp(w, r);
        AnswerDecreases(w, r);
      case Deliver(b) =>
        DeliverKeepsInv(w, b);
        DeliverDecreases(w, b);
    }
  }

  // Every event of the sequence has an effect when its turn comes.
  ghost predicate AllEffective(w: World, evs: seq<Event>)
    requires Good(w)
    decreases |evs|
  {
    evs != [] ==>
      (StepKeepsGood(w, evs[0]);
       Effective(w, evs[0]) && AllEffective(Step(w, evs[0]), evs[1..]))
  }

  // However emissions, answers and payload bytes interleave, there are at most
  // Measure(w) of them before the user does something again.
  lemma {:induction false} ProgressIsBounded(w: World, evs: seq<Event>)
    requires Good(w) && w.up && SevenBit(w.h.sch) && AllEffective(w, evs)
    ensures |evs| <= Measure(w)
    decreases |evs|
  {
    if evs != [] {
      StepKeepsGood(w, evs[0]);
      EffectiveDecreases(w, evs[0]);
      StepKeepsUp(w, evs[0]);
      ProgressIsBounded(Step(w, evs[0]), evs[1..]);
    }
  }

  // ---------------------------------------------------------------- nothing left to do

  // The device can always answer.
  lemma AnswerExists(w: World) returns (r: Rsp)
    requires Inv(w) && w.up && w.h.rxLeft == 0 && w.q != []
    ensures AnswerPossible(w, r)
  {
    if w.h.early > 0 {
      HeadsCommand(w);
      r := if w.q[0].cmd.Tx? then RspTx(false, false, |w.q[0].cmd.data|, |w.q[0].cmd.data|)
           else RspRx(false, false, w.q[0].cmd.n, w.q[0].cmd.n);
      return;
    }
    match w.q[0]
    case Stop => r := RspStop(false);
    case Of(_, Start(u), _) => r := RspStart(false, false, u / 2, if u % 2 == 1 then Read else Write);
    case Of(_, Tx(data), _) => r := RspTx(|data| > 0, false, |data|, 0);
    case Of(_, Rx(n, _), _) => r := RspRx(n > 0, false, n, 0);
  }

  lemma IdleQueue(w: World)
    requires Inv(w) && w.up && w.h.rxLeft == 0 && w.q == [] && w.h.sch != []
    ensures w.h.free == w.h.len && w.h.cur == 0 && (w.h.sch[0].short ==> Stuck(w.h.sch[0]))
  {
  }

  // With room for the smallest data packet, the only way to come to rest before every
  // transfer is handed back is a head stuck on a skipped START.
  lemma RestMeansDone(w: World)
    requires Good(w) && w.up && w.h.len >= 4
    requires Pumpable(w.h) && forall ev :: !Effective(w, ev)
    ensures w.h.sch == [] || HeadStuck(w, w.h.sch[0].job)
  {
    assert !Effective(w, Deliver(0));
    assert w.h.rxLeft == 0;
    forall r
      ensures !AnswerPossible(w, r)
    {
      assert !Effective(w, Answer(r));
    }
    if w.q != [] {
      var r := AnswerExists(w);
      assert false;
    }
    assert !Effective(w, Transmit);
    if w.h.sch != [] {
      IdleQueue(w);
      assert XferOK(w.h.sch[0]);
    }
  }

  // ---------------------------------------------------------------- runs without a skipped START

  ghost predicate Unskipped(sch: seq<Xfr>) {
    forall i :: 0 <= i < |sch| ==> !sch[i].skipped
  }

  predicate SkipsStart(ev: Event) {
    ev.Answer? && ev.rsp.RspStart? && ev.rsp.skipped
  }

  lemma CompleteUnskipped(h: Host, i: nat, status: Status)
    requires i < |h.sch| && Unskipped(h.sch)
    ensures Unskipped(Complete(h, i, status).sch)
  {
  }

  lemma CheckUnskipped(h: Host, x1: Xfr)
    requires |h.sch| > 0 && Unskipped(h.sch) && !x1.skipped
    ensures Unskipped(h.sch[0 := x1])
    ensures Unskipped(CheckHead(h.(sch := h.sch[0 := x1])).sch)
    ensures Unskipped(CompleteHead(h.(sch := h.sch[0 := x1])).sch)
  {
    var h1 := h.(sch := h.sch[0 := x1]);
    CompleteUnskipped(h1, 0, FinalStatus(h1, x1));
  }

  lemma {:induction false} CompleteAllUnskipped(h: Host)
    ensures CompleteAll(h).sch == []
    decreases |h.sch|
  {
    if |h.sch| > 0 {
      CompleteAllUnskipped(Complete(h, 0, Cancelled));
    }
  }

  lemma StartUnskipped(h: Host, r: Rsp)
    requires Unskipped(h.sch) && r.RspStart? && !r.skipped && OnResponse(h, r).Some?
    ensures Unskipped(OnResponse(h, r).value.sch)
  {
    StartForm(h, r);
    var h1 := h.(free := h.free + 2);
    CheckUnskipped(h1, Addressed(h.sch[0], r));
    CheckUnskipped(h1, Addressed(h.sch[0], r).(rxPhase := Data));
  }

  lemma AnswerUnskipped(w: World, r: Rsp)
    requires Unskipped(w.h.sch) && w.q != [] && !(r.RspStart? && r.skipped)
    ensures Unskipped(OnAnswer(w, r).h.sch)
  {
    match OnResponse(w.h, r)
    case None => CompleteAllUnskipped(w.h);
    case Some(_) =>
      if r.RspStart? {
        StartUnskipped(w.h, r);
      } else if !r.RspStop? {
        var h1 := DataForm(w.h, r);
        CheckUnskipped(h1, Counted(w.h.sch[0], r));
      }
  }

  lemma ByteUnskipped(h: Host, b: byte)
    requires StoreInside(h) && Unskipped(h.sch) && RxByte(h, b).Some?
    ensures Unskipped(RxByte(h, b).value.sch)
  {
    ByteIs(h, b);
    CheckUnskipped(h.(rxLeft := h.rxLeft - 1), Stored(h.sch[0], b));
  }

  lemma DeliverUnskipped(w: World, b: byte)
    requires Inv(w) && Unskipped(w.h.sch) && DeliverPossible(w) && StoreInside(w.h)
    ensures Unskipped(OnDeliver(w, b).h.sch)
  {
    DeliverKeepsInv(w, b);
    ByteUnskipped(w.h, b);
  }

  lemma TransmitUnskipped(h: Host)
    requires Pumpable(h) && TxOne(h).Emit? && Unskipped(h.sch)
    ensures Unskipped(TxOne(h).h.sch)
  {
  }

  lemma CancelUnskipped(h: Host, handle: nat)
    requires Unskipped(h.sch)
    ensures Unskipped(Cancel(h, handle).sch)
  {
    var i := IndexOf(Handles(h.sch), handle);
    if i < |h.sch| {
      CompleteUnskipped(h, i, Cancelled);
    }
  }

  lemma MarkUnskipped(h: Host, handle: nat)
    requires Unskipped(h.sch)
    ensures Unskipped(MarkDetached(h, handle).sch)
  {
  }

  lemma WireUnskipped(w: World, ev: Event)
    requires Inv(w) && Unskipped(w.h.sch) && !SkipsStart(ev)
    requires ev.Transmit? || ev.Count? || ev.Answer? || ev.Deliver? || ev.LinkLost?
    requires (w.up ==> Pumpable(w.h)) && (DeliverPossible(w) ==> StoreInside(w.h))
    ensures Unskipped(Step(w, ev).h.sch)
  {
    match ev
    case Transmit => if w.up && TxOne(w.h).Emit? { TransmitUnskipped(w.h); }
    case Count => if CountPossible(w) { CountKeepsInv(w); }
    case Answer(r) => if AnswerPossible(w, r) { AnswerUnskipped(w, r); }
    case Deliver(b) => if DeliverPossible(w) { DeliverUnskipped(w, b); }
    case LinkLost => CompleteAllUnskipped(w.h);
  }

  lemma StepUnskipped(w: World, ev: Event)
    requires Inv(w) && Unskipped(w.h.sch) && !SkipsStart(ev)
    ensures w.up ==> Pumpable(w.h)
    ensures DeliverPossible(w) ==> StoreInside(w.h)
    ensures Unskipped(Step(w, ev).h.sch)
  {
    InvEnables(w);
    if ev.Transmit? || ev.Count? || ev.Answer? || ev.Deliver? || ev.LinkLost? {
      WireUnskipped(w, ev);
    } else if ev.UserCancel? {
      CancelUnskipped(w.h, ev.handle);
    } else if ev.UserDestroy? {
      CancelUnskipped(w.h, ev.handle);
      MarkUnskipped(Cancel(w.h, ev.handle), ev.handle);
    } else if ev.UserSchedule? {
      assert Unskipped(Schedule(w.h, ev.handle, ev.r).sch);
    }
  }

  lemma {:induction false} RunUnskipped(w: World, evs: seq<Event>)
    requires Good(w) && Unskipped(w.h.sch)
    requires forall k :: 0 <= k < |evs| ==> !SkipsStart(evs[k])
    ensures Unskipped(Run(w, evs).h.sch)
    decreases |evs|
  {
    if evs != [] {
      StepUnskipped(w, evs[0]);
      StepKeepsGood(w, evs[0]);
      RunUnskipped(Step(w, evs[0]), evs[1..]);
    }
  }

  // A device that skips no START gets every scheduled transfer handed back: when such a
  // run has come to rest, nothing is listed any more.
  lemma UnskippedMeansDone(w: World, evs: seq<Event>)
    requires Good(w) && w.h.sch == []
    requires forall k :: 0 <= k < |evs| ==> !SkipsStart(evs[k])
    requires var w1 := Run(w, evs); w1.up && w1.h.len >= 4
    requires var w1 := Run(w, evs); Pumpable(w1.h) && forall ev :: !Effective(w1, ev)
    ensures Run(w, evs).h.sch == []
  {
    RunUnskipped(w, evs);
    RunKeepsGood(w, evs);
    RestMeansDone(Run(w, evs));
  }
}
