/**
 From the bytes a device prints to the events of the TWI world, byte by byte: the calls
 the receiver makes on a byte of an answer do to the host what the event does that the
 byte stands for, and between two bytes users and the pump may do what they like.
 */
module TwiWire {
  import opened Basics
  import opened TwiHost
  import opened TwiWorld
  import opened TwiInvariant
  import opened TwiAnswer
  import opened TwiEvents
  import opened TwiRuns
  import RxParser
  import RxPackets

  // What a call of the receiver does to the TWI master host; None is a detach. A payload
  // byte must find the receiver's byte counter where the host has it.
  function Dispatch(h: Host, c: RxParser.Call): Option<Host> {
    match c
    case CallInfo(block) =>
      if |block| < RxParser.INFO_LEN then None else Some(h.(len := LengthIn(block), free := LengthIn(block)))
    case CallBusError => Some(h.(busError := true))
    case CallArbLost => Some(h.(arbLost := true))
    case CallMStart(skipped, nack, ad, read) =>
      OnResponse(h, RspStart(skipped, nack, ad, if read then Read else Write))
    case CallMStop(skipped) => OnResponse(h, RspStop(skipped))
    case CallCount(dev, cnt) => if IsMaster(dev) then OnCount(h, cnt) else Some(h)
    case CallHeader(dev, short, nack, cnt, moved) =>
      if !IsMaster(dev) then Some(h)
      else if dev == RxParser.MasterTx then OnResponse(h, RspTx(short, nack, cnt, moved))
      else OnResponse(h, RspRx(short, nack, cnt, moved))
    case CallByte(dev, b, left) =>
      if dev != RxParser.MasterRx then Some(h)
      else if h.rxLeft != left + 1 || !StoreInside(h) then None
      else RxByte(h, b)
    case _ => Some(h)
  }

  predicate IsMaster(dev: RxParser.Dev) {
    dev == RxParser.MasterTx || dev == RxParser.MasterRx
  }

  // The length of the device's master buffer, as its info block tells it.
  function LengthIn(block: seq<byte>): nat
    requires |block| >= RxParser.INFO_LEN
  {
    RxParser.Number(block[6], block[7])
  }

  // What a user call or the pump does to the host.
  function Does(h: Host, ev: Event): Host
    requires Pumpable(h)
  {
    match ev
    case UserCreate => Create(h)
    case UserSchedule(handle, r) => Schedule(h, handle, r)
    case UserCancel(handle) => Cancel(h, handle)
    case UserDestroy(handle) => Destroy(h, handle)
    case UserEnable(on) =>
      if on then h.(enabled := true) else h.(enabled := false, busError := false, arbLost := false)
    case Transmit => (match TxOne(h) case Quiet => h case Emit(h1, _) => h1)
    case _ => h
  }

  // An event of the host's own: a user call that names a seven-bit address if any, or the pump.
  predicate Own(ev: Event) {
    && Orderly(ev)
    && (ev.UserCreate? || ev.UserSchedule? || ev.UserCancel? || ev.UserDestroy? || ev.UserEnable? || ev.Transmit?)
  }

  // ---------------------------------------------------------------- answers

  // How a conforming answer, with its payload, is printed.
  function PacketOf(r: Rsp, data: seq<byte>): RxPackets.Packet
    requires r.RspStart? ==> r.ad < 256
  {
    match r
    case RspStart(skipped, nack, ad, dir) => RxPackets.PMStart(skipped, nack, ad, dir == Read)
    case RspStop(skipped) => RxPackets.PMStop(skipped)
    case RspTx(_, nack, cnt, sent) =>
      if sent == 0 then RxPackets.PSkipped(RxParser.MasterTx, nack, cnt)
      else RxPackets.PMoved(RxParser.MasterTx, nack, cnt, sent, [])
    case RspRx(_, nack, cnt, rcvd) =>
      if rcvd == 0 then RxPackets.PSkipped(RxParser.MasterRx, nack, cnt)
      else RxPackets.PMoved(RxParser.MasterRx, nack, cnt, rcvd, data)
  }

  predicate IsData(r: Rsp) {
    r.RspTx? || r.RspRx?
  }

  // How many bytes a data answer says were moved.
  function Moved(r: Rsp): nat {
    match r
    case RspTx(_, _, _, sent) => sent
    case RspRx(_, _, _, rcvd) => rcvd
    case _ => 0
  }

  function DevOf(r: Rsp): RxParser.Dev {
    if r.RspTx? then RxParser.MasterTx else RxParser.MasterRx
  }

  // The answer can be printed, and brings as many bytes as it says.
  predicate Printable(r: Rsp, data: seq<byte>) {
    && (r.RspStart? ==> r.ad < 128)
    && (IsData(r) ==> 1 <= r.cnt <= 32 && Moved(r) <= r.cnt && (r.short <==> Moved(r) < r.cnt))
    && |data| == (if r.RspRx? then r.rcvd else 0)
  }

  function Print(r: Rsp, data: seq<byte>): seq<byte>
    requires Printable(r, data)
  {
    RxPackets.Print(PacketOf(r, data), 0)
  }

  // An answer fits the oldest command and brings as many bytes as it says.
  predicate Fits(w: World, r: Rsp, data: seq<byte>) {
    Boundary(w) && w.q != [] && Conforms(w.q[0], w.dead, r) && |data| == (if r.RspRx? then r.rcvd else 0)
  }

  // What is still to come of an answer: all of it; all but its code; the count of what was
  // moved, and the payload; some of the payload.
  datatype Rest =
    | Nothing
    | Whole(r: Rsp, data: seq<byte>)
    | Counts(r: Rsp, data: seq<byte>)
    | Second(r: Rsp, data: seq<byte>)
    | Payload(data: seq<byte>)

  function Rests(data: seq<byte>): Rest {
    if data == [] then Nothing else Payload(data)
  }

  // What is left when the next byte is through.
  function After(rest: Rest): Rest {
    match rest
    case Nothing => Nothing
    case Whole(r, data) => if r.RspStop? then Nothing else Counts(r, data)
    case Counts(r, data) => if Moved(r) == 0 then Nothing else Second(r, data)
    case Second(_, data) => Rests(data)
    case Payload(data) => if data == [] then Nothing else Rests(data[1..])
  }

  // The event the next byte stands for, if it stands for one.
  function Means(rest: Rest): seq<Event> {
    match rest
    case Nothing => []
    case Whole(r, _) => if r.RspStop? then [Answer(r)] else []
    case Counts(r, _) => if Moved(r) == 0 then [Answer(r)] else [Count]
    case Second(r, _) => [Answer(r)]
    case Payload(data) => if data == [] then [] else [Deliver(data[0])]
  }

  function Header(r: Rsp): RxParser.Call
    requires IsData(r)
  {
    RxParser.CallHeader(DevOf(r), Moved(r) < r.cnt, r.nack, r.cnt, Moved(r))
  }

  // The calls it brings about.
  function Calls(rest: Rest): seq<RxParser.Call>
    requires rest.Counts? ==> !rest.r.RspStop?
    requires rest.Counts? && rest.r.RspStart? ==> rest.r.ad < 256
    requires rest.Second? ==> IsData(rest.r)
  {
    match rest
    case Nothing => []
    case Whole(r, _) => if r.RspStop? then [RxParser.CallMStop(r.stopSkipped)] else []
    case Counts(r, _) =>
      if r.RspStart? then [RxParser.CallMStart(r.skipped, r.nack, r.ad, r.dir == Read)]
      else if Moved(r) == 0 then [RxParser.CallCount(DevOf(r), r.cnt), Header(r)]
      else [RxParser.CallCount(DevOf(r), r.cnt)]
    case Second(r, _) => [Header(r)]
    case Payload(data) => if data == [] then [] else [RxParser.CallByte(RxParser.MasterRx, data[0], |data| - 1)]
  }

  // ---------------------------------------------------------------- the receiver

  predicate Proper(rest: Rest) {
    match rest
    case Nothing => true
    case Whole(r, data) => Printable(r, data)
    case Counts(r, data) => Printable(r, data) && !r.RspStop?
    case Second(r, data) => Printable(r, data) && Moved(r) > 0
    case Payload(data) => data != []
  }

  // These bytes are what is still to come.
  predicate Spells(left: seq<byte>, rest: Rest)
    requires Proper(rest)
  {
    match rest
    case Nothing => left == []
    case Whole(r, data) => left == Print(r, data)
    case Counts(r, data) => left == Print(r, data)[1..]
    case Second(r, data) => left == [Moved(r) - 1] + data
    case Payload(data) => left == data
  }

  // The receiver has taken in what came before.
  predicate Stands(m: RxParser.Mech, rest: Rest) {
    match rest
    case Nothing => m.state == RxParser.Rsp
    case Whole(_, _) => m.state == RxParser.Rsp
    case Counts(r, _) =>
      if r.RspStart? then m.state == RxParser.MStart && m.short == r.skipped && m.nack == r.nack
      else IsData(r) && m.state == RxParser.Cnt(DevOf(r)) && m.short == (Moved(r) == 0) && m.nack == r.nack
    case Second(r, _) =>
      IsData(r) && m.state == RxParser.Moved(DevOf(r)) && m.cnt == r.cnt && !m.short && m.nack == r.nack
    case Payload(data) => m.state == RxParser.Payload(RxParser.MasterRx) && m.left == |data|
  }

  predicate Waits(m: RxParser.Mech, left: seq<byte>, rest: Rest) {
    Proper(rest) && Stands(m, rest) && Spells(left, rest)
  }

  // The receiver takes the next byte, makes these calls and waits for what comes after.
  predicate Reads(m: RxParser.Mech, left: seq<byte>, rest: Rest) {
    && Waits(m, left, rest) && left != []
    && match RxParser.OnByte(m, left[0])
       case Fault => false
       case Next(m1, calls) => calls == Calls(rest) && m1.uartLen == m.uartLen && Waits(m1, left[1..], After(rest))
  }

  lemma ReadsStartCode(m: RxParser.Mech, left: seq<byte>, r: Rsp, data: seq<byte>)
    requires Waits(m, left, Whole(r, data)) && r.RspStart?
    ensures Reads(m, left, Whole(r, data))
  {
    RxPackets.CodeStep(m, 36, r.skipped, r.nack);
  }

  lemma ReadsStop(m: RxParser.Mech, left: seq<byte>, r: Rsp, data: seq<byte>)
    requires Waits(m, left, Whole(r, data)) && r.RspStop?
    ensures Reads(m, left, Whole(r, data))
  {
    RxPackets.CodeStep(m, 37, r.stopSkipped, false);
  }

  // How a data answer is printed.
  lemma DataPrint(r: Rsp, data: seq<byte>)
    requires Printable(r, data) && IsData(r)
    ensures Print(r, data)[0] == RxPackets.Code(RxPackets.DevCode(DevOf(r)), Moved(r) == 0, r.nack)
    ensures Print(r, data)[1..] == [r.cnt - 1] + (if Moved(r) == 0 then [] else [Moved(r) - 1] + data)
  {
    var code := RxPackets.Code(RxPackets.DevCode(DevOf(r)), Moved(r) == 0, r.nack);
    if Moved(r) == 0 {
      assert Print(r, data) == [code, r.cnt - 1];
    } else {
      assert Print(r, data) == [code, r.cnt - 1, Moved(r) - 1] + data;
    }
  }

  lemma ReadsDataCode(m: RxParser.Mech, left: seq<byte>, r: Rsp, data: seq<byte>)
    requires Waits(m, left, Whole(r, data)) && IsData(r)
    ensures Reads(m, left, Whole(r, data))
  {
    DataPrint(r, data);
    RxPackets.CodeStep(m, RxPackets.DevCode(DevOf(r)), Moved(r) == 0, r.nack);
  }

  lemma ReadsStart(m: RxParser.Mech, left: seq<byte>, r: Rsp, data: seq<byte>)
    requires Waits(m, left, Counts(r, data)) && r.RspStart?
    ensures Reads(m, left, Counts(r, data))
  {
    var b: byte := r.ad * 2 + RxPackets.Bit(r.dir == Read, 1);
    assert left == [b];
    assert b / 2 == r.ad && (b % 2 == 1 <==> r.dir == Read);
  }

  lemma ReadsCount(m: RxParser.Mech, left: seq<byte>, r: Rsp, data: seq<byte>)
    requires Waits(m, left, Counts(r, data)) && IsData(r)
    ensures Reads(m, left, Counts(r, data))
  {
    DataPrint(r, data);
    var rest := if Moved(r) == 0 then [] else [Moved(r) - 1] + data;
    assert left[0] == r.cnt - 1 && left[1..] == rest;
  }

  lemma ReadsSecond(m: RxParser.Mech, left: seq<byte>, r: Rsp, data: seq<byte>)
    requires Waits(m, left, Second(r, data))
    ensures Reads(m, left, Second(r, data))
  {
    assert left[1..] == data;
  }

  lemma ReadsPayload(m: RxParser.Mech, left: seq<byte>, data: seq<byte>)
    requires Waits(m, left, Payload(data))
    ensures Reads(m, left, Payload(data))
  {
  }

  // Byte by byte, the receiver takes the answer in.
  lemma ReadsNext(m: RxParser.Mech, left: seq<byte>, rest: Rest)
    requires Waits(m, left, rest) && !rest.Nothing?
    ensures Reads(m, left, rest)
  {
    match rest
    case Whole(r, data) =>
      if r.RspStart? {
        ReadsStartCode(m, left, r, data);
      } else if r.RspStop? {
        ReadsStop(m, left, r, data);
      } else {
        ReadsDataCode(m, left, r, data);
      }
    case Counts(r, data) => if r.RspStart? { ReadsStart(m, left, r, data); } else { ReadsCount(m, left, r, data); }
    case Second(r, data) => ReadsSecond(m, left, r, data);
    case Payload(data) => ReadsPayload(m, left, data);
  }

  // ---------------------------------------------------------------- the host

  function DispatchAll(h: Host, calls: seq<RxParser.Call>): Option<Host>
    decreases |calls|
  {
    if calls == [] then Some(h)
    else match Dispatch(h, calls[0])
         case None => None
         case Some(h1) => DispatchAll(h1, calls[1..])
  }

  // The calls that mean something to this interface.
  predicate Concerns(c: RxParser.Call) {
    match c
    case CallInfo(_) => true
    case CallBusError => true
    case CallArbLost => true
    case CallMStart(_, _, _, _) => true
    case CallMStop(_) => true
    case CallCount(dev, _) => IsMaster(dev)
    case CallHeader(dev, _, _, _, _) => IsMaster(dev)
    case CallByte(dev, _, _) => dev == RxParser.MasterRx
    case _ => false
  }

  lemma {:induction false} IgnoresAll(h: Host, calls: seq<RxParser.Call>)
    requires forall i :: 0 <= i < |calls| ==> !Concerns(calls[i])
    ensures DispatchAll(h, calls) == Some(h)
    decreases |calls|
  {
    if calls != [] {
      assert !Concerns(calls[0]);
      IgnoresAll(h, calls[1..]);
    }
  }

  lemma DispatchOne(h: Host, c: RxParser.Call)
    ensures DispatchAll(h, [c]) == Dispatch(h, c)
  {
    assert [c][1..] == [];
  }

  lemma DispatchTwo(h: Host, a: RxParser.Call, h0: Host, b: RxParser.Call)
    requires Dispatch(h, a) == Some(h0)
    ensures DispatchAll(h, [a, b]) == Dispatch(h0, b)
  {
    assert [a, b][1..] == [b];
    DispatchOne(h0, b);
  }

  // Attached, and all addresses have seven bits.
  ghost predicate Sound(w: World) {
    Good(w) && w.up && SevenBit(w.h.sch)
  }

  // What is still to come can come: it fits the oldest command, or is what the host waits for.
  predicate Shape(w: World, rest: Rest) {
    && Proper(rest)
    && match rest
       case Nothing => Boundary(w)
       case Whole(r, data) => Fits(w, r, data)
       case Counts(r, data) => Fits(w, r, data)
       case Second(r, data) => AnswerPossible(w, r)
       case Payload(data) => w.h.rxLeft == |data| && w.h.early == 0
  }

  // The world is where the bytes so far leave it.
  ghost predicate Ready(w: World, rest: Rest) {
    Sound(w) && Shape(w, rest)
  }

  // The calls of the next byte do to the host what the event does that it stands for.
  ghost predicate Follows(w: World, rest: Rest) {
    && Ready(w, rest)
    && var w1 := Run(w, Means(rest)); DispatchAll(w.h, Calls(rest)) == Some(w1.h) && Ready(w1, After(rest))
  }

  // The event takes w to w1.
  ghost predicate Leads(w: World, ev: Event, w1: World) {
    && Sound(w) && Pumpable(w.h) && (DeliverPossible(w) ==> StoreInside(w.h))
    && Step(w, ev) == w1 && Run(w, [ev]) == w1 && Sound(w1)
  }

  lemma LeadsOn(w: World, ev: Event) returns (w1: World)
    requires Sound(w) && Orderly(ev)
    ensures Leads(w, ev, w1)
  {
    StepKeepsUp(w, ev);
    StepKeepsGood(w, ev);
    w1 := Step(w, ev);
    assert [ev][1..] == [] && Run(w1, []) == w1;
  }

  // ---------------------------------------------------------------- payload

  lemma ByteForm(h: Host, b: byte)
    requires StoreInside(h) && RxByte(h, b).Some?
    ensures RxByte(h, b).value.rxLeft == h.rxLeft - 1 && RxByte(h, b).value.early == h.early
  {
  }

  lemma DeliverStep(w: World, b: byte, left: nat, w1: World)
    requires Leads(w, Deliver(b), w1) && w.h.rxLeft == left + 1
    ensures w1.h.rxLeft == left && w1.h.early == w.h.early
    ensures Dispatch(w.h, RxParser.CallByte(RxParser.MasterRx, b, left)) == Some(w1.h)
  {
    ByteForm(w.h, b);
  }

  lemma FollowsPayload(w: World, data: seq<byte>)
    requires Ready(w, Payload(data))
    ensures Follows(w, Payload(data))
  {
    var w1 := LeadsOn(w, Deliver(data[0]));
    DeliverStep(w, data[0], |data| - 1, w1);
    DispatchOne(w.h, RxParser.CallByte(RxParser.MasterRx, data[0], |data| - 1));
  }

  // ---------------------------------------------------------------- the event of an answer

  // So many payload bytes are to come, and no credit is owed.
  predicate Expects(h: Host, n: nat) {
    h.rxLeft == n && h.early == 0
  }

  lemma CheckKeepsRxLeft(h: Host, n: nat)
    requires |h.sch| > 0 && Expects(h, n)
    ensures Expects(CheckHead(h), n) && Expects(CompleteHead(h), n)
  {
  }

  lemma ExpectsAfterStart(h: Host, r: Rsp)
    requires Expects(h, 0) && OnResponse(h, r).Some? && r.RspStart?
    ensures Expects(OnResponse(h, r).value, 0)
  {
    StartForm(h, r);
    var h1 := h.(free := h.free + 2);
    CheckKeepsRxLeft(h1.(sch := h.sch[0 := Addressed(h.sch[0], r)]), 0);
  }

  lemma ExpectsAfterData(h: Host, r: Rsp)
    requires h.rxLeft == 0 && OnResponse(h, r).Some? && IsData(r)
    ensures Expects(OnResponse(h, r).value, if r.RspRx? then r.rcvd else 0)
  {
    var h1 := DataForm(h, r);
    CheckKeepsRxLeft(h1.(sch := h.sch[0 := Counted(h.sch[0], r)]), if r.RspRx? then r.rcvd else 0);
  }

  lemma AnswerStep(w: World, r: Rsp, w1: World)
    requires Leads(w, Answer(r), w1) && AnswerPossible(w, r)
    ensures OnResponse(w.h, r) == Some(w1.h) && Expects(w1.h, if r.RspRx? then r.rcvd else 0)
  {
    if r.RspStart? {
      ExpectsAfterStart(w.h, r);
    } else if IsData(r) {
      ExpectsAfterData(w.h, r);
    }
  }

  // A byte that completes the head of an answer.
  lemma FollowsAnswer(w: World, rest: Rest, r: Rsp, data: seq<byte>)
    requires Ready(w, rest) && AnswerPossible(w, r) && Means(rest) == [Answer(r)]
    requires DispatchAll(w.h, Calls(rest)) == OnResponse(w.h, r)
    requires After(rest) == Rests(data) && |data| == (if r.RspRx? then r.rcvd else 0)
    ensures Follows(w, rest)
  {
    var w1 := LeadsOn(w, Answer(r));
    AnswerStep(w, r, w1);
  }

  // ---------------------------------------------------------------- codes and counts

  lemma FollowsCode(w: World, r: Rsp, data: seq<byte>)
    requires Ready(w, Whole(r, data))
    ensures Follows(w, Whole(r, data))
  {
    if r.RspStop? {
      DispatchOne(w.h, RxParser.CallMStop(r.stopSkipped));
      FollowsAnswer(w, Whole(r, data), r, []);
    } else {
      assert Run(w, []) == w;
    }
  }

  lemma StartCall(h: Host, r: Rsp)
    requires r.RspStart? && r.ad < 128
    ensures Dispatch(h, RxParser.CallMStart(r.skipped, r.nack, r.ad, r.dir == Read)) == OnResponse(h, r)
  {
  }

  lemma FollowsStart(w: World, r: Rsp, data: seq<byte>)
    requires Ready(w, Counts(r, data)) && r.RspStart?
    ensures Follows(w, Counts(r, data))
  {
    StartCall(w.h, r);
    DispatchOne(w.h, RxParser.CallMStart(r.skipped, r.nack, r.ad, r.dir == Read));
    FollowsAnswer(w, Counts(r, data), r, []);
  }

  lemma HeaderIsAnswer(h: Host, r: Rsp)
    requires IsData(r) && (r.short <==> Moved(r) < r.cnt)
    ensures Dispatch(h, Header(r)) == OnResponse(h, r)
  {
  }

  // Counting first and then taking the answer is taking it in one piece.
  lemma SkippedInOnePiece(h: Host, r: Rsp)
    requires IsData(r) && (r.short <==> Moved(r) < r.cnt) && h.early == 0 && OnResponse(h, r).Some?
    ensures DispatchAll(h, [RxParser.CallCount(DevOf(r), r.cnt), Header(r)]) == OnResponse(h, r)
  {
    var h0 := OnCount(h, r.cnt).value;
    DispatchTwo(h, RxParser.CallCount(DevOf(r), r.cnt), h0, Header(r));
    HeaderIsAnswer(h0, r);
  }

  lemma FollowsSkipped(w: World, r: Rsp, data: seq<byte>)
    requires Ready(w, Counts(r, data)) && IsData(r) && Moved(r) == 0
    ensures Follows(w, Counts(r, data))
  {
    var w1 := LeadsOn(w, Answer(r));
    AnswerStep(w, r, w1);
    SkippedInOnePiece(w.h, r);
  }

  lemma CountStep(w: World, r: Rsp, w1: World)
    requires CountPossible(w) && OnCounted(w) == w1 && w1.up && Conforms(w.q[0], w.dead, r) && IsData(r) && Moved(r) > 0
    ensures Dispatch(w.h, RxParser.CallCount(DevOf(r), r.cnt)) == Some(w1.h) && AnswerPossible(w1, r)
  {
  }

  lemma FollowsCount(w: World, r: Rsp, data: seq<byte>)
    requires Ready(w, Counts(r, data)) && IsData(r) && Moved(r) > 0
    ensures Follows(w, Counts(r, data))
  {
    var w1 := LeadsOn(w, Count);
    CountStep(w, r, w1);
    DispatchOne(w.h, RxParser.CallCount(DevOf(r), r.cnt));
  }

  lemma FollowsSecond(w: World, r: Rsp, data: seq<byte>)
    requires Ready(w, Second(r, data))
    ensures Follows(w, Second(r, data))
  {
    DispatchOne(w.h, Header(r));
    HeaderIsAnswer(w.h, r);
    FollowsAnswer(w, Second(r, data), r, data);
  }

  // Byte by byte, the host goes where the events take it.
  lemma FollowsNext(w: World, rest: Rest)
    requires Ready(w, rest) && !rest.Nothing?
    ensures Follows(w, rest)
  {
    match rest
    case Whole(r, data) => FollowsCode(w, r, data);
    case Counts(r, data) =>
      if r.RspStart? {
        FollowsStart(w, r, data);
      } else if Moved(r) == 0 {
        FollowsSkipped(w, r, data);
      } else {
        FollowsCount(w, r, data);
      }
    case Second(r, data) => FollowsSecond(w, r, data);
    case Payload(data) => FollowsPayload(w, data);
  }

  // ---------------------------------------------------------------- before and between answers

  lemma QueuedSize(w: World)
    requires Inv(w) && Boundary(w) && w.q != [] && w.q[0].Of? && !w.q[0].cmd.Start?
    ensures 1 <= Size(w.q[0].cmd) <= 32
  {
    HeadsCommand(w);
  }

  // Whatever fits the oldest command can be printed, and the world is ready for it.
  lemma FittingIsReady(w: World, r: Rsp, data: seq<byte>)
    requires Ready(w, Nothing) && Fits(w, r, data)
    ensures Ready(w, Whole(r, data))
  {
    if IsData(r) {
      QueuedSize(w);
    }
  }

  // What the receiver's side of the host depends on.
  predicate SameReceiver(h: Host, h1: Host) {
    h1.rxLeft == h.rxLeft && h1.early == h.early && h1.len == h.len
  }

  // The host's own events leave alone what an answer under way depends on.
  predicate Untouched(w: World, w1: World) {
    w1.up == w.up && w1.dead == w.dead && SameReceiver(w.h, w1.h) && w.q <= w1.q
  }

  lemma CompleteKeepsReceiver(h: Host, i: nat, status: Status)
    requires i < |h.sch|
    ensures SameReceiver(h, Complete(h, i, status))
  {
  }

  lemma CancelKeepsReceiver(h: Host, handle: nat)
    ensures SameReceiver(h, Cancel(h, handle))
  {
    var i := IndexOf(Handles(h.sch), handle);
    if i < |h.sch| {
      CompleteKeepsReceiver(h, i, Cancelled);
    }
  }

  lemma DestroyKeepsReceiver(h: Host, handle: nat)
    ensures SameReceiver(h, Destroy(h, handle))
  {
    CancelKeepsReceiver(h, handle);
  }

  lemma TransmitTouchesNothing(w: World, w1: World)
    requires w.up && Pumpable(w.h) && OnTransmit(w) == w1
    ensures Untouched(w, w1) && w1.h == Does(w.h, Transmit)
  {
  }

  lemma EnableTouchesNothing(w: World, on: bool, w1: World)
    requires Leads(w, UserEnable(on), w1)
    ensures Untouched(w, w1) && w1.h == Does(w.h, UserEnable(on))
  {
    EnableShape(w, on);
  }

  lemma CreateTouchesNothing(w: World, w1: World)
    requires w1 == w.(h := Create(w.h)) && Pumpable(w.h)
    ensures Untouched(w, w1) && w1.h == Does(w.h, UserCreate)
  {
  }

  lemma ScheduleTouchesNothing(w: World, handle: nat, r: Request, w1: World)
    requires w1 == w.(h := Schedule(w.h, handle, r)) && Pumpable(w.h)
    ensures Untouched(w, w1) && w1.h == Does(w.h, UserSchedule(handle, r))
  {
  }

  lemma CancelTouchesNothing(w: World, handle: nat, w1: World)
    requires w1 == w.(h := Cancel(w.h, handle)) && Pumpable(w.h)
    ensures Untouched(w, w1) && w1.h == Does(w.h, UserCancel(handle))
  {
    CancelKeepsReceiver(w.h, handle);
  }

  lemma DestroyTouchesNothing(w: World, handle: nat, w1: World)
    requires w1 == w.(h := Destroy(w.h, handle)) && Pumpable(w.h)
    ensures Untouched(w, w1) && w1.h == Does(w.h, UserDestroy(handle))
  {
    DestroyKeepsReceiver(w.h, handle);
  }

  lemma OwnTouchesNothing(w: World, ev: Event, w1: World)
    requires Leads(w, ev, w1) && Own(ev)
    ensures Untouched(w, w1) && w1.h == Does(w.h, ev)
  {
    if ev.Transmit? {
      TransmitTouchesNothing(w, w1);
    } else if ev.UserEnable? {
      EnableTouchesNothing(w, ev.on, w1);
    } else if ev.UserCreate? {
      CreateTouchesNothing(w, w1);
    } else if ev.UserSchedule? {
      ScheduleTouchesNothing(w, ev.handle, ev.r, w1);
    } else if ev.UserCancel? {
      CancelTouchesNothing(w, ev.handle, w1);
    } else {
      DestroyTouchesNothing(w, ev.handle, w1);
    }
  }

  lemma UntouchedIsReady(w: World, rest: Rest, w1: World)
    requires Ready(w, rest) && Untouched(w, w1) && Sound(w1)
    ensures Ready(w1, rest)
  {
    if rest.Whole? || rest.Counts? || rest.Second? {
      assert w1.q[0] == w.q[0];
    }
  }

  lemma OwnKeepsReady(w: World, rest: Rest, ev: Event) returns (w1: World)
    requires Ready(w, rest) && Own(ev)
    ensures Leads(w, ev, w1) && Ready(w1, rest) && w1.h == Does(w.h, ev) && w1.h.len == w.h.len
  {
    w1 := LeadsOn(w, ev);
    OwnTouchesNothing(w, ev, w1);
    UntouchedIsReady(w, rest, w1);
  }

  lemma InfoForm(w: World, len: nat, w1: World)
    requires Leads(w, InfoBlock(len), w1) && w.h.len == 0
    ensures w1 == w.(h := w.h.(len := len, free := len))
  {
  }

  lemma InformedIsReady(w: World, w1: World)
    requires Ready(w, Nothing) && Sound(w1) && w1 == w.(h := w.h.(len := w1.h.len, free := w1.h.free))
    ensures Ready(w1, Nothing)
  {
  }

  // The info block, once, and the flags of the bus.
  lemma InfoIsReady(w: World, block: seq<byte>) returns (w1: World)
    requires Ready(w, Nothing) && w.h.len == 0 && |block| >= RxParser.INFO_LEN
    ensures Leads(w, InfoBlock(LengthIn(block)), w1)
    ensures Dispatch(w.h, RxParser.CallInfo(block)) == Some(w1.h) && Ready(w1, Nothing)
  {
    w1 := LeadsOn(w, InfoBlock(LengthIn(block)));
    InfoForm(w, LengthIn(block), w1);
    InformedIsReady(w, w1);
  }

  lemma FlaggedIsReady(w: World, w1: World)
    requires Ready(w, Nothing) && Sound(w1)
    requires w1 == w.(h := w.h.(busError := w1.h.busError, arbLost := w1.h.arbLost))
    ensures Ready(w1, Nothing)
  {
  }

  lemma BusErrorForm(w: World, w1: World)
    requires Leads(w, RaiseBusError, w1) && Boundary(w)
    ensures w1 == w.(h := w.h.(busError := true))
  {
  }

  lemma BusErrorIsReady(w: World) returns (w1: World)
    requires Ready(w, Nothing)
    ensures Leads(w, RaiseBusError, w1)
    ensures Dispatch(w.h, RxParser.CallBusError) == Some(w1.h) && Ready(w1, Nothing)
  {
    w1 := LeadsOn(w, RaiseBusError);
    BusErrorForm(w, w1);
    FlaggedIsReady(w, w1);
  }

  lemma ArbLostForm(w: World, w1: World)
    requires Leads(w, RaiseArbLost, w1) && Boundary(w)
    ensures w1 == w.(h := w.h.(arbLost := true))
  {
  }

  lemma ArbLostIsReady(w: World) returns (w1: World)
    requires Ready(w, Nothing)
    ensures Leads(w, RaiseArbLost, w1)
    ensures Dispatch(w.h, RxParser.CallArbLost) == Some(w1.h) && Ready(w1, Nothing)
  {
    w1 := LeadsOn(w, RaiseArbLost);
    ArbLostForm(w, w1);
    FlaggedIsReady(w, w1);
  }

  // ---------------------------------------------------------------- reachable worlds

  // Where the events take a reachable world.
  ghost function On(w: World, evs: seq<Event>): (w1: World)
    requires Reachable(w)
    ensures Reachable(w1)
  {
    ReachableOn(w, evs);
    Run(w, evs)
  }

  lemma OnNone(w: World)
    requires Reachable(w)
    ensures On(w, []) == w
  {
    ReachableGood(w);
    assert Run(w, []) == w;
  }

  // A reachable world, attached, that is where the bytes so far leave it.
  ghost predicate Tuned(w: World, rest: Rest) {
    Reachable(w) && w.up && SevenBit(w.h.sch) && Shape(w, rest)
  }

  lemma StartQuiet(w: World)
    requires w == START
    ensures w.up && SevenBit(w.h.sch) && Boundary(w)
  {
  }

  lemma RunsToItself(w: World)
    requires Good(w)
    ensures RunsTo(w, w)
  {
    assert Run(w, []) == w;
  }

  lemma StartIsReachable()
    ensures Reachable(START)
  {
    StartIsGood();
    RunsToItself(START);
  }

  lemma StartIsTuned()
    ensures Tuned(START, Nothing)
  {
    StartIsReachable();
    StartQuiet(START);
  }

  lemma TunedIsReady(w: World, rest: Rest)
    requires Tuned(w, rest)
    ensures Ready(w, rest)
  {
    ReachableGood(w);
  }

  lemma NextIsTuned(w: World, rest: Rest)
    requires Tuned(w, rest) && !rest.Nothing?
    ensures DispatchAll(w.h, Calls(rest)) == Some(On(w, Means(rest)).h) && Tuned(On(w, Means(rest)), After(rest))
  {
    TunedIsReady(w, rest);
    FollowsNext(w, rest);
  }

  lemma FittingIsTuned(w: World, r: Rsp, data: seq<byte>)
    requires Tuned(w, Nothing) && Fits(w, r, data)
    ensures Tuned(w, Whole(r, data))
  {
    TunedIsReady(w, Nothing);
    FittingIsReady(w, r, data);
  }

  lemma OwnIsTuned(w: World, rest: Rest, ev: Event)
    requires Tuned(w, rest) && Own(ev)
    ensures Pumpable(w.h) && On(w, [ev]).h == Does(w.h, ev) && Tuned(On(w, [ev]), rest)
    ensures On(w, [ev]).h.len == w.h.len
  {
    TunedIsReady(w, rest);
    var _ := OwnKeepsReady(w, rest, ev);
  }

  lemma InfoIsTuned(w: World, block: seq<byte>)
    requires Tuned(w, Nothing) && w.h.len == 0 && |block| >= RxParser.INFO_LEN
    ensures var w1 := On(w, [InfoBlock(LengthIn(block))]);
      Tuned(w1, Nothing) && DispatchAll(w.h, [RxParser.CallInfo(block)]) == Some(w1.h)
  {
    TunedIsReady(w, Nothing);
    var _ := InfoIsReady(w, block);
    DispatchOne(w.h, RxParser.CallInfo(block));
  }

  lemma FlagIsTuned(w: World, lost: bool)
    requires Tuned(w, Nothing)
    ensures var w1 := On(w, [if lost then RaiseArbLost else RaiseBusError]);
      && Tuned(w1, Nothing)
      && DispatchAll(w.h, [if lost then RxParser.CallArbLost else RxParser.CallBusError]) == Some(w1.h)
  {
    TunedIsReady(w, Nothing);
    if lost {
      var _ := ArbLostIsReady(w);
      DispatchOne(w.h, RxParser.CallArbLost);
    } else {
      var _ := BusErrorIsReady(w);
      DispatchOne(w.h, RxParser.CallBusError);
    }
  }
}
