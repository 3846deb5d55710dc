/**
 From the bytes a device prints to the events of the 1-Wire world, byte by byte: the calls
 the receiver makes on a byte of an answer do to the host what the event does that the
 byte stands for, and between two bytes users and the pump may do what they like.
 */
module OwWire {
  import opened Basics
  import opened OwHost
  import opened OwWorld
  import opened OwSteps
  import opened OwRuns
  import RxParser
  import RxPackets

  // What a call of the receiver does to the host; None is a detach. While an answer is
  // received, `busy` stands for the receiver's state.
  function Dispatch(h: Host, c: RxParser.Call): Option<Host> {
    match c
    case CallInfo(block) =>
      if |block| < RxParser.INFO_LEN then None
      else Some(h.(len := LengthIn(block), free := LengthIn(block), probes := ProbesIn(block)))
    case CallOwReset(skipped, _) => RxPlain(h, Reset, skipped)
    case CallOwProbe(skipped, _) => RxPlain(h, Probe, skipped)
    case CallOwEnumHead(skipped, found) =>
      Some(h.(free := h.free + 11, busy := if found then Rom(skipped) else h.busy))
    case CallOwEnum(skipped, found, _) =>
      if !found then EnumDone(h, skipped) else if h.busy == Rom(skipped) then RxRom(h) else None
    case CallOwCount(spu, bits) => if bits == 0 then None else OnTouchFull(h, spu, bits)
    case CallOwSkip => if h.busy.Bytes? then RxTouchSkip(h.(busy := Idle), h.busy.bits) else None
    case CallOwByte(b) => if StoreInside(h) then RxByte(h, b) else None
    case CallOwEnd(short) => if short || h.busy != Idle then None else Some(h)
    case _ => Some(h)
  }

  // The length of the device's buffer, as its info block tells it, and whether its firmware
  // knows the probe command.
  function LengthIn(block: seq<byte>): nat
    requires |block| >= RxParser.INFO_LEN
  {
    RxParser.Number(block[14], block[15])
  }

  predicate ProbesIn(block: seq<byte>)
    requires |block| >= RxParser.INFO_LEN
  {
    block[1] >= 1
  }

  // What a user call or the pump does to the host.
  function Does(h: Host, ev: Event): Host
    requires Pumpable(h)
  {
    match ev
    case UserSchedule(r) => Schedule(h, r)
    case UserCancel(job) => Cancel(h, job)
    case UserDestroy(job) => Destroy(h, job)
    case Transmit => (match TxOne(h) case Quiet => h case Emit(h1, _) => h1)
    case _ => h
  }

  // An event of the host's own: a user call or the pump.
  predicate Own(ev: Event) {
    ev.UserSchedule? || ev.UserCancel? || ev.UserDestroy? || ev.Transmit?
  }

  // ---------------------------------------------------------------- answers

  // An answer to the oldest command. `found` is what a reset saw, or whether an enumeration
  // or a probe found a device; a ROM code comes with an enumeration that did.
  datatype Reply =
    | SingleReply(skipped: bool, found: bool, rom: seq<byte>)
    | SkippedReply
    | FullReply(data: seq<byte>)

  predicate Fits(w: World, r: Reply) {
    && AnswerPossible(w)
    && match r
       case SingleReply(_, _, rom) => w.q[0].kind != Touch && |rom| == 8
       case SkippedReply => TouchPossible(w)
       case FullReply(data) =>
         TouchPossible(w) && w.gone != Some(w.q[0].job) && |data| == BytesFor(w.q[0].bits)
  }

  // How the answer is printed.
  function PacketOf(p: Packet, r: Reply): RxPackets.Packet {
    match r
    case SkippedReply => RxPackets.POwSkipped(p.spu, p.bits)
    case FullReply(data) => RxPackets.POwTouch(p.spu, p.bits, p.bits, data)
    case SingleReply(skipped, found, rom) =>
      match p.kind
      case Reset => RxPackets.POwReset(skipped, found)
      case Probe => RxPackets.POwProbe(skipped, found)
      case _ => if found then RxPackets.POwEnum(skipped, rom) else RxPackets.POwEnumNone(skipped)
  }

  predicate Printable(p: Packet, r: Reply) {
    match r
    case SingleReply(_, _, rom) => p.kind != Touch && |rom| == 8
    case SkippedReply => p.kind == Touch && 1 <= p.bits <= 128
    case FullReply(data) => p.kind == Touch && 1 <= p.bits <= 128 && |data| == BytesFor(p.bits)
  }

  function Print(p: Packet, r: Reply): seq<byte>
    requires Printable(p, r)
  {
    RxPackets.Print(PacketOf(p, r), 0)
  }

  // What is still to come of an answer to the command: all of it; all but its code; the
  // second count and the bytes; some of the bytes; some of a ROM code.
  datatype Rest =
    | Nothing
    | Whole(p: Packet, r: Reply)
    | Counts(p: Packet, r: Reply)
    | Second(bits: nat, data: seq<byte>)
    | Touched(data: seq<byte>)
    | RomCode(skipped: bool, front: seq<byte>, rom: seq<byte>)

  // What is left when the next byte is through.
  function After(rest: Rest): Rest {
    match rest
    case Nothing => Nothing
    case Whole(p, r) =>
      if !r.SingleReply? then Counts(p, r)
      else if p.kind == Enum && r.found then RomCode(r.skipped, [], r.rom)
      else Nothing
    case Counts(p, r) => if r.FullReply? then Second(p.bits, r.data) else Nothing
    case Second(_, data) => Touched(data)
    case Touched(data) => if |data| <= 1 then Nothing else Touched(data[1..])
    case RomCode(skipped, front, rom) =>
      if |rom| <= 1 then Nothing else RomCode(skipped, front + [rom[0]], rom[1..])
  }

  // The event the next byte stands for, if it stands for one.
  function Means(rest: Rest): seq<Event> {
    match rest
    case Nothing => []
    case Whole(_, r) => if r.SingleReply? then [AnswerSingle(r.skipped, r.found)] else []
    case Counts(_, r) => if r.FullReply? then [AnswerFull] else [AnswerSkipped]
    case Second(_, _) => []
    case Touched(data) => if data == [] then [] else [Deliver(data[0])]
    case RomCode(_, _, rom) => if |rom| == 1 then [RomArrives] else []
  }

  // The calls it brings about.
  function Calls(rest: Rest): seq<RxParser.Call> {
    match rest
    case Nothing => []
    case Whole(p, r) => if r.SingleReply? then SingleCalls(p.kind, r.skipped, r.found) else []
    case Counts(p, r) =>
      if r.FullReply? then [RxParser.CallOwCount(p.spu, p.bits)]
      else [RxParser.CallOwCount(p.spu, p.bits), RxParser.CallOwSkip]
    case Second(_, _) => []
    case Touched(data) =>
      if data == [] then []
      else if |data| == 1 then [RxParser.CallOwByte(data[0]), RxParser.CallOwEnd(false)]
      else [RxParser.CallOwByte(data[0])]
    case RomCode(skipped, front, rom) =>
      if |rom| == 1 then [RxParser.CallOwEnum(skipped, true, front + rom)] else []
  }

  function SingleCalls(kind: Kind, skipped: bool, found: bool): seq<RxParser.Call> {
    match kind
    case Reset => [RxParser.CallOwReset(skipped, found)]
    case Probe => [RxParser.CallOwProbe(skipped, found)]
    case _ =>
      if found then [RxParser.CallOwEnumHead(skipped, true)]
      else [RxParser.CallOwEnumHead(skipped, false), RxParser.CallOwEnum(skipped, false, [])]
  }

  // ---------------------------------------------------------------- the receiver

  predicate Proper(rest: Rest) {
    match rest
    case Nothing => true
    case Whole(p, r) => Printable(p, r)
    case Counts(p, r) => Printable(p, r) && !r.SingleReply?
    case Second(bits, data) => 1 <= bits <= 128 && |data| == BytesFor(bits)
    case Touched(data) => data != []
    case RomCode(_, front, rom) => rom != [] && |front| + |rom| == 8
  }

  // These bytes are what is still to come.
  predicate Spells(left: seq<byte>, rest: Rest)
    requires Proper(rest)
  {
    match rest
    case Nothing => left == []
    case Whole(p, r) => left == Print(p, r)
    case Counts(p, r) => left == Print(p, r)[1..]
    case Second(bits, data) => left == [bits - 1] + data
    case Touched(data) => left == data
    case RomCode(_, _, rom) => left == rom
  }

  // The receiver has taken in what came before.
  predicate Stands(m: RxParser.Mech, rest: Rest) {
    match rest
    case Nothing => m.state == RxParser.Rsp
    case Whole(_, _) => m.state == RxParser.Rsp
    case Counts(_, r) => m.state == RxParser.OwCnt && m.short == r.SkippedReply?
    case Second(bits, _) => m.state == RxParser.OwRcvd && m.cnt == bits && !m.short
    case Touched(data) => m.state == RxParser.OwData && m.left / 8 == |data| - 1 && !m.short
    case RomCode(skipped, front, _) => m.state == RxParser.OwRom && m.short == skipped && m.text == front
  }

  predicate Waits(m: RxParser.Mech, left: seq<byte>, rest: Rest) {
    Proper(rest) && Stands(m, rest) && Spells(left, rest)
  }

  // The receiver takes the next byte, makes these calls and waits for what comes after.
  predicate Reads(m: RxParser.Mech, left: seq<byte>, rest: Rest) {
    && Waits(m, left, rest) && left != []
    && match RxParser.OnByte(m, left[0])
       case Fault => false
       case Next(m1, calls) => calls == Calls(rest) && m1.uartLen == m.uartLen && Waits(m1, left[1..], After(rest))
  }

  function SingleCode(kind: Kind): byte {
    if kind == Reset then 58 else if kind == Probe then 61 else 60
  }

  // How the answer to a single command is printed.
  lemma SinglePrint(p: Packet, r: Reply)
    requires Printable(p, r) && r.SingleReply?
    ensures Print(p, r)[0] == RxPackets.Code(SingleCode(p.kind), r.skipped, r.found)
    ensures Print(p, r)[1..] == if p.kind == Enum && r.found then r.rom else []
  {
    var b := RxPackets.Code(SingleCode(p.kind), r.skipped, r.found);
    if p.kind == Enum && r.found {
      assert Print(p, r) == [b] + r.rom;
    } else {
      assert Print(p, r) == [b];
    }
  }

  lemma ReadsSingle(m: RxParser.Mech, left: seq<byte>, p: Packet, r: Reply)
    requires Waits(m, left, Whole(p, r)) && r.SingleReply?
    ensures Reads(m, left, Whole(p, r))
  {
    SinglePrint(p, r);
    RxPackets.CodeStep(m, SingleCode(p.kind), r.skipped, r.found);
  }

  // How the answer to a touch command is printed.
  lemma TouchPrint(p: Packet, r: Reply)
    requires Printable(p, r) && !r.SingleReply?
    ensures Print(p, r)[0] == RxPackets.Code(59, r.SkippedReply?, false)
    ensures Print(p, r)[1..] == [RxPackets.Bit(p.spu, 128) + p.bits - 1] +
      (if r.SkippedReply? then [] else [p.bits - 1] + r.data)
  {
    var code, b := RxPackets.Code(59, r.SkippedReply?, false), RxPackets.Bit(p.spu, 128) + p.bits - 1;
    if r.SkippedReply? {
      assert Print(p, r) == [code, b];
    } else {
      assert Print(p, r) == [code, b, p.bits - 1] + r.data;
    }
  }

  lemma ReadsCode(m: RxParser.Mech, left: seq<byte>, p: Packet, r: Reply)
    requires Waits(m, left, Whole(p, r)) && !r.SingleReply?
    ensures Reads(m, left, Whole(p, r))
  {
    TouchPrint(p, r);
    RxPackets.CodeStep(m, 59, r.SkippedReply?, false);
  }

  lemma ReadsCounts(m: RxParser.Mech, left: seq<byte>, p: Packet, r: Reply)
    requires Waits(m, left, Counts(p, r))
    ensures Reads(m, left, Counts(p, r))
  {
    TouchPrint(p, r);
    var b := RxPackets.OwByte(p.spu, p.bits);
    var rest := if r.SkippedReply? then [] else [p.bits - 1] + r.data;
    assert left[0] == b && left[1..] == rest;
  }

  lemma ReadsSecond(m: RxParser.Mech, left: seq<byte>, bits: nat, data: seq<byte>)
    requires Waits(m, left, Second(bits, data))
    ensures Reads(m, left, Second(bits, data))
  {
    assert left[1..] == data;
  }

  lemma ReadsTouched(m: RxParser.Mech, left: seq<byte>, data: seq<byte>)
    requires Waits(m, left, Touched(data))
    ensures Reads(m, left, Touched(data))
  {
  }

  lemma ReadsRom(m: RxParser.Mech, left: seq<byte>, skipped: bool, front: seq<byte>, rom: seq<byte>)
    requires Waits(m, left, RomCode(skipped, front, rom))
    ensures Reads(m, left, RomCode(skipped, front, rom))
  {
    if |rom| == 1 {
      assert rom == [rom[0]];
    }
  }

  // Byte by byte, the receiver takes the answer in.
  lemma ReadsNext(m: RxParser.Mech, left: seq<byte>, rest: Rest)
    requires Waits(m, left, rest) && !rest.Nothing?
    ensures Reads(m, left, rest)
  {
    match rest
    case Whole(p, r) => if r.SingleReply? { ReadsSingle(m, left, p, r); } else { ReadsCode(m, left, p, r); }
    case Counts(p, r) => ReadsCounts(m, left, p, r);
    case Second(bits, data) => ReadsSecond(m, left, bits, data);
    case Touched(data) => ReadsTouched(m, left, data);
    case RomCode(skipped, front, rom) => ReadsRom(m, left, skipped, front, rom);
  }

  // ---------------------------------------------------------------- the host

  function DispatchAll(h: Host, calls: seq<RxParser.Call>): Option<Host>
    decreases |calls|
  {
    if calls == [] then Some(h)
    else match Dispatch(h, calls[0])
         case None => None
         case Some(h1) => DispatchAll(h1, calls[1..])
  }

  // The calls that mean something to this interface.
  predicate Concerns(c: RxParser.Call) {
    || c.CallInfo? || c.CallOwReset? || c.CallOwProbe? || c.CallOwEnumHead? || c.CallOwEnum?
    || c.CallOwCount? || c.CallOwSkip? || c.CallOwByte? || c.CallOwEnd?
  }

  lemma {:induction false} IgnoresAll(h: Host, calls: seq<RxParser.Call>)
    requires forall i :: 0 <= i < |calls| ==> !Concerns(calls[i])
    ensures DispatchAll(h, calls) == Some(h)
    decreases |calls|
  {
    if calls != [] {
      assert !Concerns(calls[0]);
      IgnoresAll(h, calls[1..]);
    }
  }

  lemma DispatchOne(h: Host, c: RxParser.Call)
    ensures DispatchAll(h, [c]) == Dispatch(h, c)
  {
    assert [c][1..] == [];
  }

  lemma DispatchTwo(h: Host, a: RxParser.Call, h0: Host, b: RxParser.Call)
    requires Dispatch(h, a) == Some(h0)
    ensures DispatchAll(h, [a, b]) == Dispatch(h0, b)
  {
    assert [a, b][1..] == [b];
    DispatchOne(h0, b);
  }

  ghost predicate Small(q: seq<Packet>) {
    forall k :: 0 <= k < |q| ==> q[k].bits <= 128
  }

  // Attached, and all packets on their way are small enough for the wire.
  ghost predicate Sound(w: World) {
    Good(w) && w.up && Small(w.q)
  }

  // What is still to come can come: it fits the oldest command, or is what the host waits for.
  predicate Shape(w: World, rest: Rest) {
    && Proper(rest)
    && match rest
       case Nothing => w.h.busy == Idle
       case Whole(p, r) => Fits(w, r) && w.q[0] == p
       case Counts(p, r) => Fits(w, r) && w.q[0] == p
       case Second(bits, data) => w.h.busy == Bytes(|data|, bits)
       case Touched(data) => w.h.busy.Bytes? && w.h.busy.left == |data|
       case RomCode(skipped, _, _) => w.h.busy == Rom(skipped)
  }

  // The world is where the bytes so far leave it.
  ghost predicate Ready(w: World, rest: Rest) {
    Sound(w) && Shape(w, rest)
  }

  // The calls of the next byte do to the host what the event does that it stands for.
  ghost predicate Follows(w: World, rest: Rest) {
    && Ready(w, rest)
    && var w1 := Run(w, Means(rest)); DispatchAll(w.h, Calls(rest)) == Some(w1.h) && Ready(w1, After(rest))
  }

  // The event takes w to w1.
  ghost predicate Leads(w: World, ev: Event, w1: World) {
    && Sound(w) && Pumpable(w.h) && (w.h.busy.Bytes? ==> StoreInside(w.h))
    && Step(w, ev) == w1 && Run(w, [ev]) == w1 && Sound(w1)
  }

  lemma TransmitKeepsSmall(h: Host)
    requires Pumpable(h) && TxOne(h).Emit?
    ensures TxOne(h).p.bits <= 128
  {
  }

  lemma StepKeepsSmall(w: World, ev: Event)
    requires Inv(w) && Small(w.q)
    ensures w.up ==> Pumpable(w.h)
    ensures w.up && w.h.busy.Bytes? ==> StoreInside(w.h)
    ensures Small(Step(w, ev).q)
  {
    InvEnables(w);
    if ev.Transmit? && w.up && TxOne(w.h).Emit? {
      TransmitKeepsSmall(w.h);
    }
  }

  lemma {:induction false} RunKeepsSmall(w: World, evs: seq<Event>)
    requires Good(w) && Small(w.q)
    ensures Small(Run(w, evs).q)
    decreases |evs|
  {
    if evs != [] {
      StepKeepsGood(w, evs[0]);
      StepKeepsSmall(w, evs[0]);
      RunKeepsSmall(Step(w, evs[0]), evs[1..]);
    }
  }

  lemma ReachableSmall(w: World)
    requires Reachable(w)
    ensures Small(w.q)
  {
    StartIsGood();
    StartSmall();
    SmallFrom(START, w);
  }

  lemma StartSmall()
    ensures Small(START.q)
  {
    var w :| w == START;
    assert w.q == [];
  }

  lemma SmallFrom(w0: World, w: World)
    requires Good(w0) && Small(w0.q) && RunsTo(w0, w)
    ensures Small(w.q)
  {
    var evs :| Run(w0, evs) == w;
    RunKeepsSmall(w0, evs);
  }

  lemma LeadsOn(w: World, ev: Event) returns (w1: World)
    requires Sound(w) && !ev.LinkLost?
    ensures Leads(w, ev, w1)
  {
    StepKeepsInv(w, ev);
    StepKeepsGood(w, ev);
    StepKeepsSmall(w, ev);
    w1 := Step(w, ev);
    assert [ev][1..] == [] && Run(w1, []) == w1;
  }

  // ---------------------------------------------------------------- touch answers

  lemma ByteBusy(h: Host, b: byte, h1: Host)
    requires StoreInside(h) && RxByte(h, b) == Some(h1)
    ensures if h.busy.left > 1 then h1.busy == h.busy.(left := h.busy.left - 1) else h1.busy == Idle
  {
  }

  lemma DeliverStep(w: World, b: byte, w1: World)
    requires Leads(w, Deliver(b), w1) && w.h.busy.Bytes?
    ensures StoreInside(w.h) && RxByte(w.h, b) == Some(w1.h)
  {
  }

  // The end of a packet that came in full changes nothing more.
  lemma TouchedCalls(h: Host, data: seq<byte>, h1: Host)
    requires data != [] && StoreInside(h) && RxByte(h, data[0]) == Some(h1) && (|data| == 1 ==> h1.busy == Idle)
    ensures DispatchAll(h, Calls(Touched(data))) == Some(h1)
  {
    if |data| == 1 {
      DispatchTwo(h, RxParser.CallOwByte(data[0]), h1, RxParser.CallOwEnd(false));
    } else {
      DispatchOne(h, RxParser.CallOwByte(data[0]));
    }
  }

  lemma FollowsTouched(w: World, data: seq<byte>)
    requires Ready(w, Touched(data))
    ensures Follows(w, Touched(data))
  {
    var w1 := LeadsOn(w, Deliver(data[0]));
    DeliverStep(w, data[0], w1);
    ByteBusy(w.h, data[0], w1.h);
    TouchedCalls(w.h, data, w1.h);
  }

  lemma FullStep(w: World, w1: World)
    requires Leads(w, AnswerFull, w1) && TouchPossible(w) && w.gone != Some(w.q[0].job)
    ensures var p := w.q[0];
      Dispatch(w.h, RxParser.CallOwCount(p.spu, p.bits)) == Some(w1.h)
    ensures w1.h.busy == Bytes(BytesFor(w.q[0].bits), w.q[0].bits)
  {
    TouchCredit(w);
    FullForm(w);
  }

  lemma FollowsFull(w: World, p: Packet, data: seq<byte>)
    requires Ready(w, Counts(p, FullReply(data)))
    ensures Follows(w, Counts(p, FullReply(data)))
  {
    var w1 := LeadsOn(w, AnswerFull);
    FullStep(w, w1);
    DispatchOne(w.h, RxParser.CallOwCount(p.spu, p.bits));
  }

  lemma SkippedEvent(w: World, w1: World)
    requires Leads(w, AnswerSkipped, w1) && TouchPossible(w)
    ensures OnTouchSkipped(w.h, w.q[0].spu, w.q[0].bits) == Some(w1.h) && w1.h.busy == Idle
  {
  }

  // Counting first and then skipping is taking the answer in one piece.
  lemma SkippedInOnePiece(h: Host, spu: bool, bits: nat)
    requires bits > 0 && h.busy == Idle && OnTouchSkipped(h, spu, bits).Some?
    ensures DispatchAll(h, [RxParser.CallOwCount(spu, bits), RxParser.CallOwSkip]) == OnTouchSkipped(h, spu, bits)
  {
    var h0 := OnTouchFull(h, spu, bits).value;
    assert h0.(busy := Idle) == RxTouch(h, spu, bits).value;
    DispatchTwo(h, RxParser.CallOwCount(spu, bits), h0, RxParser.CallOwSkip);
  }

  lemma FollowsSkipped(w: World, p: Packet)
    requires Ready(w, Counts(p, SkippedReply))
    ensures Follows(w, Counts(p, SkippedReply))
  {
    var w1 := LeadsOn(w, AnswerSkipped);
    SkippedEvent(w, w1);
    SkippedInOnePiece(w.h, p.spu, p.bits);
  }

  // ---------------------------------------------------------------- resets, probes, enumerations

  lemma SingleStep(w: World, skipped: bool, found: bool, w1: World)
    requires Leads(w, AnswerSingle(skipped, found), w1) && AnswerPossible(w) && w.q[0].kind != Touch
    ensures Answered(w.h, w.q[0].kind, skipped, found) == Some(w1.h)
  {
  }

  lemma CompleteKeepsBusy(h: Host, status: Status)
    requires |h.sch| > 0
    ensures Complete(h, 0, status).busy == h.busy
  {
  }

  lemma SingleBusy(h: Host, kind: Kind, skipped: bool, found: bool)
    requires kind != Touch && Answered(h, kind, skipped, found).Some?
    ensures Answered(h, kind, skipped, found).value.busy == if kind == Enum && found then Rom(skipped) else h.busy
  {
    if kind != Enum {
      CompleteKeepsBusy(h.(free := h.free + Room(kind)), StatusOf(skipped));
    } else if !found {
      CompleteKeepsBusy(h.(free := h.free + 11), StatusOf(skipped));
    }
  }

  // What the answer to a single command does.
  function Answered(h: Host, kind: Kind, skipped: bool, found: bool): Option<Host>
    requires kind != Touch
  {
    if kind == Enum then RxEnum(h, skipped, found) else RxPlain(h, kind, skipped)
  }

  function PlainCall(kind: Kind, skipped: bool, found: bool): RxParser.Call {
    if kind == Reset then RxParser.CallOwReset(skipped, found) else RxParser.CallOwProbe(skipped, found)
  }

  lemma PlainHandled(h: Host, kind: Kind, skipped: bool, found: bool)
    requires kind == Reset || kind == Probe
    ensures SingleCalls(kind, skipped, found) == [PlainCall(kind, skipped, found)]
    ensures Dispatch(h, PlainCall(kind, skipped, found)) == RxPlain(h, kind, skipped)
  {
  }

  lemma FoundHandled(h: Host, skipped: bool)
    ensures SingleCalls(Enum, skipped, true) == [RxParser.CallOwEnumHead(skipped, true)]
    ensures Dispatch(h, RxParser.CallOwEnumHead(skipped, true)) == RxEnum(h, skipped, true)
  {
  }

  lemma NoneHandled(h: Host, skipped: bool, h0: Host)
    requires h0 == h.(free := h.free + 11)
    ensures SingleCalls(Enum, skipped, false) ==
      [RxParser.CallOwEnumHead(skipped, false), RxParser.CallOwEnum(skipped, false, [])]
    ensures Dispatch(h, RxParser.CallOwEnumHead(skipped, false)) == Some(h0)
    ensures Dispatch(h0, RxParser.CallOwEnum(skipped, false, [])) == EnumDone(h0, skipped)
    ensures RxEnum(h, skipped, false) == EnumDone(h0, skipped)
  {
  }

  // The calls of a single answer's code.
  lemma SingleHandled(h: Host, kind: Kind, skipped: bool, found: bool)
    requires kind != Touch
    ensures DispatchAll(h, SingleCalls(kind, skipped, found)) == Answered(h, kind, skipped, found)
  {
    if kind != Enum {
      PlainHandled(h, kind, skipped, found);
      DispatchOne(h, PlainCall(kind, skipped, found));
    } else if found {
      FoundHandled(h, skipped);
      DispatchOne(h, RxParser.CallOwEnumHead(skipped, true));
    } else {
      var h0 := h.(free := h.free + 11);
      NoneHandled(h, skipped, h0);
      DispatchTwo(h, RxParser.CallOwEnumHead(skipped, false), h0, RxParser.CallOwEnum(skipped, false, []));
    }
  }

  lemma FollowsSingle(w: World, p: Packet, r: Reply)
    requires Ready(w, Whole(p, r)) && r.SingleReply?
    ensures Follows(w, Whole(p, r))
  {
    var w1 := LeadsOn(w, AnswerSingle(r.skipped, r.found));
    SingleStep(w, r.skipped, r.found, w1);
    SingleHandled(w.h, p.kind, r.skipped, r.found);
    SingleBusy(w.h, p.kind, r.skipped, r.found);
  }

  lemma RomStep(w: World, w1: World)
    requires Leads(w, RomArrives, w1) && w.h.busy.Rom?
    ensures RxRom(w.h) == Some(w1.h)
  {
  }

  lemma RomBusy(h: Host, h1: Host)
    requires h.busy.Rom? && RxRom(h) == Some(h1)
    ensures h1.busy == Idle
  {
    CompleteKeepsBusy(h.(busy := Idle), StatusOf(h.busy.skippedRom));
  }

  lemma RomCall(h: Host, skipped: bool, rom: seq<byte>)
    requires h.busy == Rom(skipped)
    ensures DispatchAll(h, [RxParser.CallOwEnum(skipped, true, rom)]) == RxRom(h)
  {
    DispatchOne(h, RxParser.CallOwEnum(skipped, true, rom));
  }

  lemma FollowsRomEnd(w: World, skipped: bool, front: seq<byte>, rom: seq<byte>)
    requires Ready(w, RomCode(skipped, front, rom)) && |rom| == 1
    ensures Follows(w, RomCode(skipped, front, rom))
  {
    var w1 := LeadsOn(w, RomArrives);
    RomStep(w, w1);
    RomBusy(w.h, w1.h);
    RomCall(w.h, skipped, front + rom);
  }

  lemma FollowsRom(w: World, skipped: bool, front: seq<byte>, rom: seq<byte>)
    requires Ready(w, RomCode(skipped, front, rom)) && |rom| > 1
    ensures Follows(w, RomCode(skipped, front, rom))
  {
    assert Run(w, []) == w;
  }

  // Byte by byte, the host goes where the events take it.
  lemma FollowsNext(w: World, rest: Rest)
    requires Ready(w, rest) && !rest.Nothing?
    ensures Follows(w, rest)
  {
    match rest
    case Whole(p, r) => if r.SingleReply? { FollowsSingle(w, p, r); } else { assert Run(w, []) == w; }
    case Counts(p, r) => if r.FullReply? { FollowsFull(w, p, r.data); } else { FollowsSkipped(w, p); }
    case Second(_, _) => assert Run(w, []) == w;
    case Touched(data) => FollowsTouched(w, data);
    case RomCode(skipped, front, rom) =>
      if |rom| == 1 { FollowsRomEnd(w, skipped, front, rom); } else { FollowsRom(w, skipped, front, rom); }
  }

  // ---------------------------------------------------------------- before and between answers

  // Whatever fits the oldest command can be printed, and the world is ready for it.
  lemma FittingIsReady(w: World, r: Reply)
    requires Ready(w, Nothing) && Fits(w, r)
    ensures Ready(w, Whole(w.q[0], r))
  {
  }

  // The host's own events leave alone what an answer under way depends on.
  predicate Untouched(w: World, w1: World) {
    w1.up == w.up && w1.gone == w.gone && w1.h.busy == w.h.busy && w1.h.len == w.h.len
    && w.q <= w1.q
  }

  lemma TransmitTouchesNothing(w: World, w1: World)
    requires w.up && Pumpable(w.h) && OnTransmit(w) == w1
    ensures Untouched(w, w1) && w1.h == Does(w.h, Transmit)
  {
  }

  lemma UserTouchesNothing(w: World, ev: Event, w1: World)
    requires Pumpable(w.h) && (ev.UserSchedule? || ev.UserCancel? || ev.UserDestroy?) && w1 == w.(h := Does(w.h, ev))
    ensures Untouched(w, w1)
  {
  }

  lemma OwnTouchesNothing(w: World, ev: Event, w1: World)
    requires Leads(w, ev, w1) && Own(ev)
    ensures Untouched(w, w1) && w1.h == Does(w.h, ev)
  {
    if ev.Transmit? {
      TransmitTouchesNothing(w, w1);
    } else {
      UserTouchesNothing(w, ev, w1);
    }
  }

  lemma UntouchedIsReady(w: World, rest: Rest, w1: World)
    requires Ready(w, rest) && Untouched(w, w1) && Sound(w1)
    ensures Ready(w1, rest)
  {
    if rest.Whole? || rest.Counts? {
      assert w1.q[0] == w.q[0];
    }
  }

  lemma OwnKeepsReady(w: World, rest: Rest, ev: Event) returns (w1: World)
    requires Ready(w, rest) && Own(ev)
    ensures Leads(w, ev, w1) && Ready(w1, rest) && w1.h == Does(w.h, ev) && w1.h.len == w.h.len
  {
    w1 := LeadsOn(w, ev);
    OwnTouchesNothing(w, ev, w1);
    UntouchedIsReady(w, rest, w1);
  }

  // The info block, once.
  lemma InfoIsReady(w: World, block: seq<byte>) returns (w1: World)
    requires Ready(w, Nothing) && w.h.len == 0 && |block| >= RxParser.INFO_LEN
    ensures Leads(w, InfoBlock(LengthIn(block), ProbesIn(block)), w1)
    ensures Dispatch(w.h, RxParser.CallInfo(block)) == Some(w1.h) && Ready(w1, Nothing)
  {
    w1 := LeadsOn(w, InfoBlock(LengthIn(block), ProbesIn(block)));
  }

  // ---------------------------------------------------------------- reachable worlds

  // Where the events take a reachable world.
  ghost function On(w: World, evs: seq<Event>): (w1: World)
    requires Reachable(w)
    ensures Reachable(w1)
  {
    ReachableOn(w, evs);
    Run(w, evs)
  }

  lemma OnNone(w: World)
    requires Reachable(w)
    ensures On(w, []) == w
  {
    ReachableGood(w);
    assert Run(w, []) == w;
  }

  // A reachable world, attached, that is where the bytes so far leave it.
  ghost predicate Tuned(w: World, rest: Rest) {
    Reachable(w) && w.up && Shape(w, rest)
  }

  lemma StartQuiet(w: World)
    requires w == START
    ensures w.up && w.h.busy == Idle
  {
  }

  lemma RunsToItself(w: World)
    requires Good(w)
    ensures RunsTo(w, w)
  {
    assert Run(w, []) == w;
  }

  lemma StartIsReachable()
    ensures Reachable(START)
  {
    StartIsGood();
    RunsToItself(START);
  }

  lemma StartIsTuned()
    ensures Tuned(START, Nothing)
  {
    StartIsReachable();
    StartQuiet(START);
  }

  lemma TunedIsReady(w: World, rest: Rest)
    requires Tuned(w, rest)
    ensures Ready(w, rest)
  {
    ReachableGood(w);
    ReachableSmall(w);
  }

  lemma NextIsTuned(w: World, rest: Rest)
    requires Tuned(w, rest) && !rest.Nothing?
    ensures DispatchAll(w.h, Calls(rest)) == Some(On(w, Means(rest)).h) && Tuned(On(w, Means(rest)), After(rest))
  {
    TunedIsReady(w, rest);
    FollowsNext(w, rest);
  }

  lemma FittingIsTuned(w: World, r: Reply)
    requires Tuned(w, Nothing) && Fits(w, r)
    ensures Tuned(w, Whole(w.q[0], r))
  {
    TunedIsReady(w, Nothing);
    FittingIsReady(w, r);
  }

  lemma OwnIsTuned(w: World, rest: Rest, ev: Event)
    requires Tuned(w, rest) && Own(ev)
    ensures Pumpable(w.h) && On(w, [ev]).h == Does(w.h, ev) && Tuned(On(w, [ev]), rest)
    ensures On(w, [ev]).h.len == w.h.len
  {
    TunedIsReady(w, rest);
    var _ := OwnKeepsReady(w, rest, ev);
  }

  lemma InfoIsTuned(w: World, block: seq<byte>)
    requires Tuned(w, Nothing) && w.h.len == 0 && |block| >= RxParser.INFO_LEN
    ensures var w1 := On(w, [InfoBlock(LengthIn(block), ProbesIn(block))]);
      Tuned(w1, Nothing) && DispatchAll(w.h, [RxParser.CallInfo(block)]) == Some(w1.h)
  {
    TunedIsReady(w, Nothing);
    var _ := InfoIsReady(w, block);
    DispatchOne(w.h, RxParser.CallInfo(block));
  }
}
