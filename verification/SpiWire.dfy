/**
 From the bytes a device prints to the events of the SPI world, byte by byte: the calls
 the receiver makes on a byte of an answer do to the host what the event does that the
 byte stands for, and between two bytes users and the pump may do what they like.
 */
module SpiWire {
  import opened Basics
  import opened SpiHost
  import opened SpiWorld
  import opened SpiInvariant
  import opened SpiSteps
  import opened SpiRuns
  import RxParser
  import RxPackets

  // What a call of the receiver does to the host; None is a detach. The receiver has to
  // know the last byte of a transfer where the host does.
  function Dispatch(h: Host, c: RxParser.Call): Option<Host> {
    match c
    case CallInfo(block) =>
      if |block| < RxParser.INFO_LEN then None else Some(h.(len := LengthIn(block), free := LengthIn(block)))
    case CallSpiCount(skipped, last, ss, cnt) => if skipped then Credit(h, ss, cnt) else OnFull(h, last, ss, cnt)
    case CallSpiSkip(cnt) => RxSkip(h, cnt)
    case CallSpiByte(b, lastByte) =>
      if !StoreInside(h) || lastByte != (h.left == 1 && h.last) then None else RxByte(h, b)
    case _ => Some(h)
  }

  // The length of the device's buffer, as its info block tells it.
  function LengthIn(block: seq<byte>): nat
    requires |block| >= RxParser.INFO_LEN
  {
    RxParser.Number(block[12], block[13])
  }

  // What a user call or the pump does to the host.
  function Does(h: Host, ev: Event): Host
    requires Pumpable(h)
  {
    match ev
    case UserSchedule(buf, ss) => Schedule(h, buf, ss)
    case UserCancel(job) => Cancel(h, job)
    case UserDestroy(job) => Destroy(h, job)
    case Transmit => (match TxOne(h) case Quiet => h case Emit(h1, _) => h1)
    case _ => h
  }

  // An event of the host's own: a user call or the pump.
  predicate Own(ev: Event) {
    ev.UserSchedule? || ev.UserCancel? || ev.UserDestroy? || ev.Transmit?
  }

  // ---------------------------------------------------------------- answers

  // An answer to the oldest packet: it was skipped, or this came back for it.
  datatype Reply = SkippedReply | FullReply(data: seq<byte>)

  predicate Fits(w: World, r: Reply) {
    AnswerPossible(w) && (r.FullReply? ==> w.gone != Some(w.q[0].job) && |r.data| == |w.q[0].data|)
  }

  // How the answer is printed.
  function PacketOf(p: Packet, r: Reply): RxPackets.Packet {
    match r
    case SkippedReply => RxPackets.PSpiSkipped(p.last, p.ss, |p.data|)
    case FullReply(data) => RxPackets.PSpi(p.last, p.ss, |p.data|, data)
  }

  predicate Printable(p: Packet, r: Reply) {
    p.ss < 4 && 1 <= |p.data| <= 32 && (r.FullReply? ==> |r.data| == |p.data|)
  }

  function Print(p: Packet, r: Reply): seq<byte>
    requires Printable(p, r)
  {
    RxPackets.Print(PacketOf(p, r), 0)
  }

  // What is still to come of an answer to the packet: all of it; all but its code; the
  // second count and the bytes; some of the bytes.
  datatype Rest =
    | Nothing
    | Whole(p: Packet, r: Reply)
    | Counts(p: Packet, r: Reply)
    | Second(last: bool, data: seq<byte>)
    | Bytes(last: bool, data: seq<byte>)

  // What is left when the next byte is through.
  function After(rest: Rest): Rest {
    match rest
    case Nothing => Nothing
    case Whole(p, r) => Counts(p, r)
    case Counts(p, SkippedReply) => Nothing
    case Counts(p, FullReply(data)) => Second(p.last, data)
    case Second(last, data) => Bytes(last, data)
    case Bytes(last, data) => if |data| <= 1 then Nothing else Bytes(last, data[1..])
  }

  // The event the next byte stands for, if it stands for one.
  function Means(rest: Rest): seq<Event> {
    match rest
    case Counts(_, SkippedReply) => [AnswerSkipped]
    case Counts(_, FullReply(_)) => [AnswerFull]
    case Bytes(_, data) => if data == [] then [] else [Deliver(data[0])]
    case _ => []
  }

  // The calls it brings about.
  function Calls(rest: Rest): seq<RxParser.Call> {
    match rest
    case Counts(p, SkippedReply) =>
      [RxParser.CallSpiCount(true, p.last, p.ss, |p.data|), RxParser.CallSpiSkip(|p.data|)]
    case Counts(p, FullReply(_)) => [RxParser.CallSpiCount(false, p.last, p.ss, |p.data|)]
    case Bytes(last, data) => if data == [] then [] else [RxParser.CallSpiByte(data[0], last && |data| == 1)]
    case _ => []
  }

  // ---------------------------------------------------------------- the receiver

  predicate Proper(rest: Rest) {
    match rest
    case Nothing => true
    case Whole(p, r) => Printable(p, r)
    case Counts(p, r) => Printable(p, r)
    case Second(_, data) => 1 <= |data| <= 32
    case Bytes(_, data) => data != []
  }

  // These bytes are what is still to come.
  predicate Spells(left: seq<byte>, rest: Rest)
    requires Proper(rest)
  {
    match rest
    case Nothing => left == []
    case Whole(p, r) => left == Print(p, r)
    case Counts(p, r) => left == Print(p, r)[1..]
    case Second(_, data) => left == [|data| - 1] + data
    case Bytes(_, data) => left == data
  }

  // The receiver has taken in what came before.
  predicate Stands(m: RxParser.Mech, rest: Rest) {
    match rest
    case Nothing => m.state == RxParser.Rsp
    case Whole(_, _) => m.state == RxParser.Rsp
    case Counts(_, r) => m.state == RxParser.SpiCnt && m.short == r.SkippedReply?
    case Second(last, data) => m.state == RxParser.SpiRcvd && m.cnt == |data| && m.last == last
    case Bytes(last, data) => m.state == RxParser.SpiData && m.left == |data| - 1 && m.last == last
  }

  predicate Waits(m: RxParser.Mech, left: seq<byte>, rest: Rest) {
    Proper(rest) && Stands(m, rest) && Spells(left, rest)
  }

  // The receiver takes the next byte, makes these calls and waits for what comes after.
  predicate Reads(m: RxParser.Mech, left: seq<byte>, rest: Rest) {
    && Waits(m, left, rest) && left != []
    && match RxParser.OnByte(m, left[0])
       case Fault => false
       case Next(m1, calls) => calls == Calls(rest) && m1.uartLen == m.uartLen && Waits(m1, left[1..], After(rest))
  }

  // How an answer is printed.
  lemma AnswerPrint(p: Packet, r: Reply)
    requires Printable(p, r)
    ensures Print(p, r)[0] == RxPackets.Code(53, r.SkippedReply?, false)
    ensures Print(p, r)[1..] == [RxPackets.Bit(p.last, 128) + p.ss * 32 + |p.data| - 1] +
      (if r.SkippedReply? then [] else [|r.data| - 1] + r.data)
  {
    var code, b := RxPackets.Code(53, r.SkippedReply?, false), RxPackets.Bit(p.last, 128) + p.ss * 32 + |p.data| - 1;
    if r.SkippedReply? {
      assert Print(p, r) == [code, b];
    } else {
      assert Print(p, r) == [code, b, |r.data| - 1] + r.data;
    }
  }

  lemma ReadsCode(m: RxParser.Mech, left: seq<byte>, p: Packet, r: Reply)
    requires Waits(m, left, Whole(p, r))
    ensures Reads(m, left, Whole(p, r))
  {
    AnswerPrint(p, r);
    RxPackets.CodeStep(m, 53, r.SkippedReply?, false);
  }

  lemma ReadsCounts(m: RxParser.Mech, left: seq<byte>, p: Packet, r: Reply)
    requires Waits(m, left, Counts(p, r))
    ensures Reads(m, left, Counts(p, r))
  {
    AnswerPrint(p, r);
    var b := RxPackets.SpiByte(p.last, p.ss, |p.data|);
    var rest := if r.SkippedReply? then [] else [|r.data| - 1] + r.data;
    assert left[0] == b && left[1..] == rest;
  }

  lemma ReadsSecond(m: RxParser.Mech, left: seq<byte>, last: bool, data: seq<byte>)
    requires Waits(m, left, Second(last, data))
    ensures Reads(m, left, Second(last, data))
  {
    assert left[1..] == data;
  }

  lemma ReadsBytes(m: RxParser.Mech, left: seq<byte>, last: bool, data: seq<byte>)
    requires Waits(m, left, Bytes(last, data))
    ensures Reads(m, left, Bytes(last, data))
  {
  }

  // Byte by byte, the receiver takes the answer in.
  lemma ReadsNext(m: RxParser.Mech, left: seq<byte>, rest: Rest)
    requires Waits(m, left, rest) && !rest.Nothing?
    ensures Reads(m, left, rest)
  {
    match rest
    case Whole(p, r) => ReadsCode(m, left, p, r);
    case Counts(p, r) => ReadsCounts(m, left, p, r);
    case Second(last, data) => ReadsSecond(m, left, last, data);
    case Bytes(last, data) => ReadsBytes(m, left, last, data);
  }

  // ---------------------------------------------------------------- the host

  function DispatchAll(h: Host, calls: seq<RxParser.Call>): Option<Host>
    decreases |calls|
  {
    if calls == [] then Some(h)
    else match Dispatch(h, calls[0])
         case None => None
         case Some(h1) => DispatchAll(h1, calls[1..])
  }

  // The calls that mean something to this interface.
  predicate Concerns(c: RxParser.Call) {
    c.CallInfo? || c.CallSpiCount? || c.CallSpiSkip? || c.CallSpiByte?
  }

  lemma {:induction false} IgnoresAll(h: Host, calls: seq<RxParser.Call>)
    requires forall i :: 0 <= i < |calls| ==> !Concerns(calls[i])
    ensures DispatchAll(h, calls) == Some(h)
    decreases |calls|
  {
    if calls != [] {
      assert !Concerns(calls[0]);
      IgnoresAll(h, calls[1..]);
    }
  }

  lemma DispatchOne(h: Host, c: RxParser.Call)
    ensures DispatchAll(h, [c]) == Dispatch(h, c)
  {
    assert [c][1..] == [];
  }

  lemma DispatchTwo(h: Host, a: RxParser.Call, h0: Host, b: RxParser.Call)
    requires Dispatch(h, a) == Some(h0)
    ensures DispatchAll(h, [a, b]) == Dispatch(h0, b)
  {
    assert [a, b][1..] == [b];
    DispatchOne(h0, b);
  }

  ghost predicate Small(q: seq<Packet>) {
    forall k :: 0 <= k < |q| ==> |q[k].data| <= 32
  }

  // Attached, and all packets on their way are small enough for the wire.
  ghost predicate Sound(w: World) {
    Good(w) && w.up && Small(w.q)
  }

  // What is still to come can come: it fits the oldest packet, or is what the host waits for.
  predicate Shape(w: World, rest: Rest) {
    && Proper(rest)
    && match rest
       case Nothing => w.h.left == 0
       case Whole(p, r) => Fits(w, r) && w.q[0] == p
       case Counts(p, r) => Fits(w, r) && w.q[0] == p
       case Second(last, data) => w.h.left == |data| && w.h.last == last
       case Bytes(last, data) => w.h.left == |data| && w.h.last == last
  }

  // The world is where the bytes so far leave it.
  ghost predicate Ready(w: World, rest: Rest) {
    Sound(w) && Shape(w, rest)
  }

  // The calls of the next byte do to the host what the event does that it stands for.
  ghost predicate Follows(w: World, rest: Rest) {
    && Ready(w, rest)
    && var w1 := Run(w, Means(rest)); DispatchAll(w.h, Calls(rest)) == Some(w1.h) && Ready(w1, After(rest))
  }

  // The event takes w to w1.
  ghost predicate Leads(w: World, ev: Event, w1: World) {
    && Sound(w) && Pumpable(w.h) && (w.h.left > 0 ==> StoreInside(w.h))
    && Step(w, ev) == w1 && Run(w, [ev]) == w1 && Sound(w1)
  }

  lemma StepKeepsSmall(w: World, ev: Event)
    requires Inv(w) && Small(w.q)
    ensures w.up ==> Pumpable(w.h)
    ensures w.up && w.h.left > 0 ==> StoreInside(w.h)
    ensures Small(Step(w, ev).q)
  {
    InvEnables(w);
  }

  lemma {:induction false} RunKeepsSmall(w: World, evs: seq<Event>)
    requires Good(w) && Small(w.q)
    ensures Small(Run(w, evs).q)
    decreases |evs|
  {
    if evs != [] {
      StepKeepsGood(w, evs[0]);
      StepKeepsSmall(w, evs[0]);
      RunKeepsSmall(Step(w, evs[0]), evs[1..]);
    }
  }

  lemma ReachableSmall(w: World)
    requires Reachable(w)
    ensures Small(w.q)
  {
    StartIsGood();
    StartSmall();
    SmallFrom(START, w);
  }

  lemma StartSmall()
    ensures Small(START.q)
  {
    var w :| w == START;
    assert w.q == [];
  }

  lemma SmallFrom(w0: World, w: World)
    requires Good(w0) && Small(w0.q) && RunsTo(w0, w)
    ensures Small(w.q)
  {
    var evs :| Run(w0, evs) == w;
    RunKeepsSmall(w0, evs);
  }

  lemma LeadsOn(w: World, ev: Event) returns (w1: World)
    requires Sound(w) && !ev.LinkLost?
    ensures Leads(w, ev, w1)
  {
    StepKeepsInv(w, ev);
    StepKeepsGood(w, ev);
    StepKeepsSmall(w, ev);
    w1 := Step(w, ev);
    assert [ev][1..] == [] && Run(w1, []) == w1;
  }

  // ---------------------------------------------------------------- full answers

  lemma ByteLeft(h: Host, b: byte, h1: Host)
    requires StoreInside(h) && RxByte(h, b) == Some(h1)
    ensures Dispatch(h, RxParser.CallSpiByte(b, h.left == 1 && h.last)) == Some(h1)
    ensures h1.left == h.left - 1 && h1.last == h.last
  {
  }

  lemma DeliverStep(w: World, b: byte, w1: World)
    requires Leads(w, Deliver(b), w1) && w.h.left > 0
    ensures StoreInside(w.h) && RxByte(w.h, b) == Some(w1.h)
  {
  }

  lemma FollowsBytes(w: World, last: bool, data: seq<byte>)
    requires Ready(w, Bytes(last, data))
    ensures Follows(w, Bytes(last, data))
  {
    var w1 := LeadsOn(w, Deliver(data[0]));
    DeliverStep(w, data[0], w1);
    ByteLeft(w.h, data[0], w1.h);
    DispatchOne(w.h, RxParser.CallSpiByte(data[0], last && |data| == 1));
  }

  lemma FullStep(w: World, w1: World)
    requires Leads(w, AnswerFull, w1) && AnswerPossible(w) && w.gone != Some(w.q[0].job)
    ensures var p := w.q[0];
      Dispatch(w.h, RxParser.CallSpiCount(false, p.last, p.ss, |p.data|)) == Some(w1.h)
    ensures w1.h.left == |w.q[0].data| && w1.h.last == w.q[0].last
  {
    CreditComesBack(w);
  }

  lemma FollowsFull(w: World, p: Packet, data: seq<byte>)
    requires Ready(w, Counts(p, FullReply(data)))
    ensures Follows(w, Counts(p, FullReply(data)))
  {
    var w1 := LeadsOn(w, AnswerFull);
    FullStep(w, w1);
    DispatchOne(w.h, RxParser.CallSpiCount(false, p.last, p.ss, |p.data|));
  }

  // ---------------------------------------------------------------- skipped answers

  lemma SkippedEvent(w: World, w1: World)
    requires Leads(w, AnswerSkipped, w1) && AnswerPossible(w)
    ensures OnSkipped(w.h, w.q[0].ss, |w.q[0].data|) == Some(w1.h) && w1.h.left == 0
  {
  }

  // Counting first and then skipping is taking the answer in one piece.
  lemma SkippedInOnePiece(h: Host, last: bool, ss: nat, cnt: nat)
    requires OnSkipped(h, ss, cnt).Some?
    ensures DispatchAll(h, [RxParser.CallSpiCount(true, last, ss, cnt), RxParser.CallSpiSkip(cnt)]) ==
      OnSkipped(h, ss, cnt)
  {
    DispatchTwo(h, RxParser.CallSpiCount(true, last, ss, cnt), Credit(h, ss, cnt).value, RxParser.CallSpiSkip(cnt));
  }

  lemma FollowsSkipped(w: World, p: Packet)
    requires Ready(w, Counts(p, SkippedReply))
    ensures Follows(w, Counts(p, SkippedReply))
  {
    var w1 := LeadsOn(w, AnswerSkipped);
    SkippedEvent(w, w1);
    SkippedInOnePiece(w.h, p.last, p.ss, |p.data|);
  }

  // Byte by byte, the host goes where the events take it.
  lemma FollowsNext(w: World, rest: Rest)
    requires Ready(w, rest) && !rest.Nothing?
    ensures Follows(w, rest)
  {
    match rest
    case Whole(p, r) => assert Run(w, []) == w;
    case Counts(p, SkippedReply) => FollowsSkipped(w, p);
    case Counts(p, FullReply(data)) => FollowsFull(w, p, data);
    case Second(last, data) => assert Run(w, []) == w;
    case Bytes(last, data) => FollowsBytes(w, last, data);
  }

  // ---------------------------------------------------------------- before and between answers

  // Whatever fits the oldest packet can be printed, and the world is ready for it.
  lemma FittingIsReady(w: World, r: Reply)
    requires Ready(w, Nothing) && Fits(w, r)
    ensures Ready(w, Whole(w.q[0], r))
  {
    OldestIsHeadsPacket(w);
    assert XferOK(w.h.sch[0]);
  }

  // The host's own events leave alone what an answer under way depends on.
  predicate Untouched(w: World, w1: World) {
    w1.up == w.up && w1.gone == w.gone && w1.h.left == w.h.left && w1.h.last == w.h.last && w1.h.len == w.h.len
    && w.q <= w1.q
  }

  lemma OwnTouchesNothing(w: World, ev: Event, w1: World)
    requires Leads(w, ev, w1) && Own(ev)
    ensures Untouched(w, w1) && w1.h == Does(w.h, ev)
  {
  }

  lemma UntouchedIsReady(w: World, rest: Rest, w1: World)
    requires Ready(w, rest) && Untouched(w, w1) && Sound(w1)
    ensures Ready(w1, rest)
  {
    if rest.Whole? || rest.Counts? {
      assert w1.q[0] == w.q[0];
    }
  }

  lemma OwnKeepsReady(w: World, rest: Rest, ev: Event) returns (w1: World)
    requires Ready(w, rest) && Own(ev)
    ensures Leads(w, ev, w1) && Ready(w1, rest) && w1.h == Does(w.h, ev) && w1.h.len == w.h.len
  {
    w1 := LeadsOn(w, ev);
    OwnTouchesNothing(w, ev, w1);
    UntouchedIsReady(w, rest, w1);
  }

  // The info block, once.
  lemma InfoIsReady(w: World, block: seq<byte>) returns (w1: World)
    requires Ready(w, Nothing) && w.h.len == 0 && |block| >= RxParser.INFO_LEN
    ensures Leads(w, InfoBlock(LengthIn(block)), w1)
    ensures Dispatch(w.h, RxParser.CallInfo(block)) == Some(w1.h) && Ready(w1, Nothing)
  {
    w1 := LeadsOn(w, InfoBlock(LengthIn(block)));
  }

  // ---------------------------------------------------------------- reachable worlds

  // Where the events take a reachable world.
  ghost function On(w: World, evs: seq<Event>): (w1: World)
    requires Reachable(w)
    ensures Reachable(w1)
  {
    ReachableOn(w, evs);
    Run(w, evs)
  }

  lemma OnNone(w: World)
    requires Reachable(w)
    ensures On(w, []) == w
  {
    ReachableGood(w);
    assert Run(w, []) == w;
  }

  // A reachable world, attached, that is where the bytes so far leave it.
  ghost predicate Tuned(w: World, rest: Rest) {
    Reachable(w) && w.up && Shape(w, rest)
  }

  lemma StartQuiet(w: World)
    requires w == START
    ensures w.up && w.h.left == 0
  {
  }

  lemma RunsToItself(w: World)
    requires Good(w)
    ensures RunsTo(w, w)
  {
    assert Run(w, []) == w;
  }

  lemma StartIsReachable()
    ensures Reachable(START)
  {
    StartIsGood();
    RunsToItself(START);
  }

  lemma StartIsTuned()
    ensures Tuned(START, Nothing)
  {
    StartIsReachable();
    StartQuiet(START);
  }

  lemma TunedIsReady(w: World, rest: Rest)
    requires Tuned(w, rest)
    ensures Ready(w, rest)
  {
    ReachableGood(w);
    ReachableSmall(w);
  }

  lemma NextIsTuned(w: World, rest: Rest)
    requires Tuned(w, rest) && !rest.Nothing?
    ensures DispatchAll(w.h, Calls(rest)) == Some(On(w, Means(rest)).h) && Tuned(On(w, Means(rest)), After(rest))
  {
    TunedIsReady(w, rest);
    FollowsNext(w, rest);
  }

  lemma FittingIsTuned(w: World, r: Reply)
    requires Tuned(w, Nothing) && Fits(w, r)
    ensures Tuned(w, Whole(w.q[0], r))
  {
    TunedIsReady(w, Nothing);
    FittingIsReady(w, r);
  }

  lemma OwnIsTuned(w: World, rest: Rest, ev: Event)
    requires Tuned(w, rest) && Own(ev)
    ensures Pumpable(w.h) && On(w, [ev]).h == Does(w.h, ev) && Tuned(On(w, [ev]), rest)
    ensures On(w, [ev]).h.len == w.h.len
  {
    TunedIsReady(w, rest);
    var _ := OwnKeepsReady(w, rest, ev);
  }

  lemma InfoIsTuned(w: World, block: seq<byte>)
    requires Tuned(w, Nothing) && w.h.len == 0 && |block| >= RxParser.INFO_LEN
    ensures var w1 := On(w, [InfoBlock(LengthIn(block))]);
      Tuned(w1, Nothing) && DispatchAll(w.h, [RxParser.CallInfo(block)]) == Some(w1.h)
  {
    TunedIsReady(w, Nothing);
    var _ := InfoIsReady(w, block);
    DispatchOne(w.h, RxParser.CallInfo(block));
  }
}
