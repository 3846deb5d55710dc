/**
 The one serial stream that carries the answers of all interfaces, byte by byte. Between
 any two bytes the users and the pumps of the three interfaces may do what they like.

 A session pairs the PC's side (three hosts and one receiver) with three devices. The
 theorems: the PC, which sees nothing but bytes and its own user calls and pump steps,
 takes every byte and never gives up, and each of its hosts goes along a run of its own
 world. The devices conform, users name seven-bit TWI addresses, and the link holds.
 */
module Stream {
  import opened Basics
  import opened RxParser
  import RxPackets
  import TwiHost
  import TwiWorld
  import TwiWire
  import SpiHost
  import SpiWorld
  import SpiWire
  import OwHost
  import OwWorld
  import OwWire

  // ---------------------------------------------------------------- the PC's side

  datatype Hosts = Hosts(t: TwiHost.Host, s: SpiHost.Host, o: OwHost.Host)

  // A call goes to the interface it concerns; the others pass it over.
  function Dispatch(hs: Hosts, c: Call): Option<Hosts> {
    match (TwiWire.Dispatch(hs.t, c), SpiWire.Dispatch(hs.s, c), OwWire.Dispatch(hs.o, c))
    case (Some(t), Some(s), Some(o)) => Some(Hosts(t, s, o))
    case _ => None
  }

  function DispatchAll(hs: Hosts, calls: seq<Call>): Option<Hosts>
    decreases |calls|
  {
    if calls == [] then Some(hs)
    else match Dispatch(hs, calls[0])
         case None => None
         case Some(hs1) => DispatchAll(hs1, calls[1..])
  }

  lemma {:induction false} DispatchEach(hs: Hosts, calls: seq<Call>, hs1: Hosts)
    requires TwiWire.DispatchAll(hs.t, calls) == Some(hs1.t)
    requires SpiWire.DispatchAll(hs.s, calls) == Some(hs1.s)
    requires OwWire.DispatchAll(hs.o, calls) == Some(hs1.o)
    ensures DispatchAll(hs, calls) == Some(hs1)
    decreases |calls|
  {
    if calls != [] {
      DispatchEach(Dispatch(hs, calls[0]).value, calls[1..], hs1);
    }
  }

  // What the PC sees: a byte that arrives, or a user call or a pump step of an interface.
  datatype Input =
    | Byte(b: byte)
    | TwiDoes(twiEv: TwiWorld.Event)
    | SpiDoes(spiEv: SpiWorld.Event)
    | OwDoes(owEv: OwWorld.Event)

  datatype Pc = Pc(hs: Hosts, m: Mech)

  // None is a detach: a fault of the receiver, a refusal, or a pump without its data.
  function OnInput(p: Pc, i: Input): Option<Pc> {
    match i
    case Byte(b) => (
      match OnByte(p.m, b)
      case Fault => None
      case Next(m1, calls) =>
        match DispatchAll(p.hs, calls)
        case None => None
        case Some(hs1) => Some(Pc(hs1, m1)))
    case TwiDoes(ev) =>
      if !TwiHost.Pumpable(p.hs.t) then None else Some(p.(hs := p.hs.(t := TwiWire.Does(p.hs.t, ev))))
    case SpiDoes(ev) =>
      if !SpiHost.Pumpable(p.hs.s) then None else Some(p.(hs := p.hs.(s := SpiWire.Does(p.hs.s, ev))))
    case OwDoes(ev) =>
      if !OwHost.Pumpable(p.hs.o) then None else Some(p.(hs := p.hs.(o := OwWire.Does(p.hs.o, ev))))
  }

  function PcRun(p: Pc, inputs: seq<Input>): Option<Pc>
    decreases |inputs|
  {
    if inputs == [] then Some(p)
    else match OnInput(p, inputs[0])
         case None => None
         case Some(p1) => PcRun(p1, inputs[1..])
  }

  // ---------------------------------------------------------------- sessions

  // What the stream is in the middle of: nothing, an answer of one of the interfaces, one of
  // the two TWI flags, the info block, or a packet for another interface, with the calls
  // it has yet to bring about.
  datatype Now =
    | Silence
    | ForTwi(twi: TwiWire.Rest)
    | ForSpi(spi: SpiWire.Rest)
    | ForOw(ow: OwWire.Rest)
    | Flag(lost: bool)
    | Announce(block: seq<byte>)
    | Foreign(calls: seq<Call>)

  // `left` is what is still to come of the packet at hand.
  datatype Session = Session(
    t: TwiWorld.World, s: SpiWorld.World, o: OwWorld.World, m: Mech, left: seq<byte>, now: Now)

  const START := Session(
    TwiWorld.START, SpiWorld.START, OwWorld.START,
    Mech(Rsp, false, false, false, false, 0, 0, [], 0), [], Silence)

  datatype Move =
    | TwiOwn(twiEv: TwiWorld.Event)
    | SpiOwn(spiEv: SpiWorld.Event)
    | OwOwn(owEv: OwWorld.Event)
    | AnswerTwi(r: TwiHost.Rsp, data: seq<byte>)
    | AnswerSpi(spiReply: SpiWire.Reply)
    | AnswerOw(owReply: OwWire.Reply)
    | SendFlag(lost: bool)
    | SendInfo(block: seq<byte>)
    | SendOther(p: RxPackets.Packet)
    | ReadByte

  function TwiRest(now: Now): TwiWire.Rest {
    if now.ForTwi? then now.twi else TwiWire.Nothing
  }

  function SpiRest(now: Now): SpiWire.Rest {
    if now.ForSpi? then now.spi else SpiWire.Nothing
  }

  function OwRest(now: Now): OwWire.Rest {
    if now.ForOw? then now.ow else OwWire.Nothing
  }

  function OfTwi(rest: TwiWire.Rest): Now {
    if rest.Nothing? then Silence else ForTwi(rest)
  }

  function OfSpi(rest: SpiWire.Rest): Now {
    if rest.Nothing? then Silence else ForSpi(rest)
  }

  function OfOw(rest: OwWire.Rest): Now {
    if rest.Nothing? then Silence else ForOw(rest)
  }

  // A call that means nothing to the three interfaces.
  predicate Strange(c: Call) {
    !TwiWire.Concerns(c) && !SpiWire.Concerns(c) && !OwWire.Concerns(c)
  }

  predicate AllStrange(calls: seq<Call>) {
    forall i :: 0 <= i < |calls| ==> Strange(calls[i])
  }

  // The info block comes once, before the host knows of any room for commands.
  predicate Unannounced(x: Session) {
    x.t.h.len == 0 && x.s.h.len == 0 && x.o.h.len == 0
  }

  predicate InfoUnderWay(m: Mech, left: seq<byte>, block: seq<byte>) {
    && INFO_LEN <= |block| < 256 && block[0] == |block|
    && if m.state == Rsp then left == [3] + block
       else m.state == RxParser.Info && |m.text| < |block| && m.text == block[..|m.text|] && left == block[|m.text|..]
  }

  predicate StrangeUnderWay(m: Mech, left: seq<byte>, calls: seq<Call>) {
    var f := Feed(m, left);
    left != [] && AllStrange(calls) && f.calls == calls && f.m.Some? && f.m.value.state == Rsp
  }

  // The receiver has taken in what came of the packet at hand.
  predicate Listens(m: Mech, left: seq<byte>, now: Now) {
    match now
    case Silence => m.state == Rsp && left == []
    case ForTwi(rest) => !rest.Nothing? && TwiWire.Waits(m, left, rest)
    case ForSpi(rest) => !rest.Nothing? && SpiWire.Waits(m, left, rest)
    case ForOw(rest) => !rest.Nothing? && OwWire.Waits(m, left, rest)
    case Flag(lost) => m.state == Rsp && left == [if lost then 35 else 34]
    case Announce(block) => InfoUnderWay(m, left, block)
    case Foreign(calls) => StrangeUnderWay(m, left, calls)
  }

  // Each world is reachable by a run of its own, and where the bytes so far leave it.
  ghost predicate InSync(x: Session) {
    && TwiWire.Tuned(x.t, TwiRest(x.now))
    && SpiWire.Tuned(x.s, SpiRest(x.now))
    && OwWire.Tuned(x.o, OwRest(x.now))
    && Listens(x.m, x.left, x.now)
    && (x.now.Announce? ==> Unannounced(x))
  }

  // ---------------------------------------------------------------- moves

  // The events of the three worlds the next byte stands for.
  function TwiMeans(x: Session): seq<TwiWorld.Event> {
    match x.now
    case ForTwi(rest) => TwiWire.Means(rest)
    case Flag(lost) => [if lost then TwiWorld.RaiseArbLost else TwiWorld.RaiseBusError]
    case Announce(block) =>
      if |x.left| == 1 && |block| >= INFO_LEN then [TwiWorld.InfoBlock(TwiWire.LengthIn(block))] else []
    case _ => []
  }

  function SpiMeans(x: Session): seq<SpiWorld.Event> {
    match x.now
    case ForSpi(rest) => SpiWire.Means(rest)
    case Announce(block) =>
      if |x.left| == 1 && |block| >= INFO_LEN then [SpiWorld.InfoBlock(SpiWire.LengthIn(block))] else []
    case _ => []
  }

  function OwMeans(x: Session): seq<OwWorld.Event> {
    match x.now
    case ForOw(rest) => OwWire.Means(rest)
    case Announce(block) =>
      if |x.left| == 1 && |block| >= INFO_LEN then
        [OwWorld.InfoBlock(OwWire.LengthIn(block), OwWire.ProbesIn(block))]
      else []
    case _ => []
  }

  // What the stream is in the middle of after the next byte, which makes so many calls.
  function NowAfter(x: Session, made: nat): Now {
    match x.now
    case Silence => Silence
    case ForTwi(rest) => OfTwi(TwiWire.After(rest))
    case ForSpi(rest) => OfSpi(SpiWire.After(rest))
    case ForOw(rest) => OfOw(OwWire.After(rest))
    case Flag(_) => Silence
    case Announce(_) => if |x.left| <= 1 then Silence else x.now
    case Foreign(calls) => if |x.left| <= 1 then Silence else Foreign(calls[Min(made, |calls|)..])
  }

  // The receiver takes the next byte. A fault would leave everything as it is.
  ghost function Read(x: Session): Session
    requires InSync(x) && x.left != []
  {
    match OnByte(x.m, x.left[0])
    case Fault => x
    case Next(m1, calls) =>
      Session(TwiWire.On(x.t, TwiMeans(x)), SpiWire.On(x.s, SpiMeans(x)), OwWire.On(x.o, OwMeans(x)),
              m1, x.left[1..], NowAfter(x, |calls|))
  }

  // A device starts a packet, which is possible when nothing else is on the wire.
  ghost function Begin(x: Session, mv: Move): Session
    requires InSync(x) && x.now.Silence?
  {
    match mv
    case AnswerTwi(r, data) =>
      if TwiWire.Fits(x.t, r, data) then
        TwiWire.FittingIsTuned(x.t, r, data);
        x.(now := ForTwi(TwiWire.Whole(r, data)), left := TwiWire.Print(r, data))
      else x
    case AnswerSpi(r) =>
      if SpiWire.Fits(x.s, r) then
        SpiWire.FittingIsTuned(x.s, r);
        x.(now := ForSpi(SpiWire.Whole(x.s.q[0], r)), left := SpiWire.Print(x.s.q[0], r))
      else x
    case AnswerOw(r) =>
      if OwWire.Fits(x.o, r) then
        OwWire.FittingIsTuned(x.o, r);
        x.(now := ForOw(OwWire.Whole(x.o.q[0], r)), left := OwWire.Print(x.o.q[0], r))
      else x
    case SendFlag(lost) =>
      x.(now := Flag(lost),
         left := RxPackets.Print(if lost then RxPackets.PArbLost else RxPackets.PBusError, x.m.uartLen))
    case SendInfo(block) =>
      if Unannounced(x) && RxPackets.WellFormed(RxPackets.PInfo(block), x.m.uartLen) then
        x.(now := Announce(block), left := RxPackets.Print(RxPackets.PInfo(block), x.m.uartLen))
      else x
    case SendOther(p) =>
      if RxPackets.WellFormed(p, x.m.uartLen) && AllStrange(RxPackets.CallsOf(p)) then
        x.(now := Foreign(RxPackets.CallsOf(p)), left := RxPackets.Print(p, x.m.uartLen))
      else x
    case _ => x
  }

  // Moves that are not possible leave the session as it is.
  ghost function Step(x: Session, mv: Move): Session
    requires InSync(x)
  {
    match mv
    case TwiOwn(ev) => if TwiWire.Own(ev) then x.(t := TwiWire.On(x.t, [ev])) else x
    case SpiOwn(ev) => if SpiWire.Own(ev) then x.(s := SpiWire.On(x.s, [ev])) else x
    case OwOwn(ev) => if OwWire.Own(ev) then x.(o := OwWire.On(x.o, [ev])) else x
    case ReadByte => if x.left == [] then x else Read(x)
    case _ => if x.now.Silence? then Begin(x, mv) else x
  }

  // What the PC sees of a move.
  ghost function Sees(x: Session, mv: Move): seq<Input> {
    match mv
    case TwiOwn(ev) => if TwiWire.Own(ev) then [TwiDoes(ev)] else []
    case SpiOwn(ev) => if SpiWire.Own(ev) then [SpiDoes(ev)] else []
    case OwOwn(ev) => if OwWire.Own(ev) then [OwDoes(ev)] else []
    case ReadByte => if x.left == [] then [] else [Byte(x.left[0])]
    case _ => []
  }

  function PcOf(x: Session): Pc {
    Pc(Hosts(x.t.h, x.s.h, x.o.h), x.m)
  }

  // The move keeps everything in step, and the PC comes along.
  ghost predicate Carries(x: Session, mv: Move) {
    InSync(x) && InSync(Step(x, mv)) && PcRun(PcOf(x), Sees(x, mv)) == Some(PcOf(Step(x, mv)))
  }

  // ---------------------------------------------------------------- users and pumps

  lemma {:induction false} InputOne(p: Pc, i: Input, p1: Pc)
    requires OnInput(p, i) == Some(p1)
    ensures PcRun(p, [i]) == Some(p1)
  {
    assert [i][1..] == [] && PcRun(p1, []) == Some(p1);
  }

  lemma TwiInput(p: Pc, ev: TwiWorld.Event, h1: TwiHost.Host)
    requires TwiHost.Pumpable(p.hs.t) && TwiWire.Does(p.hs.t, ev) == h1
    ensures PcRun(p, [TwiDoes(ev)]) == Some(p.(hs := p.hs.(t := h1)))
  {
    InputOne(p, TwiDoes(ev), p.(hs := p.hs.(t := h1)));
  }

  lemma TwiChanged(x: Session, w1: TwiWorld.World)
    requires InSync(x) && TwiWire.Tuned(w1, TwiRest(x.now)) && w1.h.len == x.t.h.len
    ensures InSync(x.(t := w1))
  {
  }

  lemma TwiOwnCarries(x: Session, ev: TwiWorld.Event)
    requires InSync(x) && TwiWire.Own(ev)
    ensures Carries(x, TwiOwn(ev))
  {
    var w1 := TwiWire.On(x.t, [ev]);
    TwiWire.OwnIsTuned(x.t, TwiRest(x.now), ev);
    TwiInput(PcOf(x), ev, w1.h);
    TwiChanged(x, w1);
  }

  lemma SpiInput(p: Pc, ev: SpiWorld.Event, h1: SpiHost.Host)
    requires SpiHost.Pumpable(p.hs.s) && SpiWire.Does(p.hs.s, ev) == h1
    ensures PcRun(p, [SpiDoes(ev)]) == Some(p.(hs := p.hs.(s := h1)))
  {
    InputOne(p, SpiDoes(ev), p.(hs := p.hs.(s := h1)));
  }

  lemma SpiChanged(x: Session, w1: SpiWorld.World)
    requires InSync(x) && SpiWire.Tuned(w1, SpiRest(x.now)) && w1.h.len == x.s.h.len
    ensures InSync(x.(s := w1))
  {
  }

  lemma SpiOwnCarries(x: Session, ev: SpiWorld.Event)
    requires InSync(x) && SpiWire.Own(ev)
    ensures Carries(x, SpiOwn(ev))
  {
    var w1 := SpiWire.On(x.s, [ev]);
    SpiWire.OwnIsTuned(x.s, SpiRest(x.now), ev);
    SpiInput(PcOf(x), ev, w1.h);
    SpiChanged(x, w1);
  }

  lemma OwInput(p: Pc, ev: OwWorld.Event, h1: OwHost.Host)
    requires OwHost.Pumpable(p.hs.o) && OwWire.Does(p.hs.o, ev) == h1
    ensures PcRun(p, [OwDoes(ev)]) == Some(p.(hs := p.hs.(o := h1)))
  {
    InputOne(p, OwDoes(ev), p.(hs := p.hs.(o := h1)));
  }

  lemma OwChanged(x: Session, w1: OwWorld.World)
    requires InSync(x) && OwWire.Tuned(w1, OwRest(x.now)) && w1.h.len == x.o.h.len
    ensures InSync(x.(o := w1))
  {
  }

  lemma OwOwnCarries(x: Session, ev: OwWorld.Event)
    requires InSync(x) && OwWire.Own(ev)
    ensures Carries(x, OwOwn(ev))
  {
    var w1 := OwWire.On(x.o, [ev]);
    OwWire.OwnIsTuned(x.o, OwRest(x.now), ev);
    OwInput(PcOf(x), ev, w1.h);
    OwChanged(x, w1);
  }

  // ---------------------------------------------------------------- starting a packet

  // The session with another packet on the wire.
  lemma Started(x: Session, now: Now, left: seq<byte>)
    requires InSync(x) && x.now.Silence? && Listens(x.m, left, now) && (now.Announce? ==> Unannounced(x))
    requires TwiWire.Tuned(x.t, TwiRest(now)) && SpiWire.Tuned(x.s, SpiRest(now)) && OwWire.Tuned(x.o, OwRest(now))
    ensures var x1 := x.(now := now, left := left); InSync(x1) && PcRun(PcOf(x), []) == Some(PcOf(x1))
  {
  }

  lemma TwiBegins(x: Session, r: TwiHost.Rsp, data: seq<byte>)
    requires InSync(x) && x.now.Silence? && TwiWire.Fits(x.t, r, data)
    ensures TwiWire.Printable(r, data)
    ensures var x1 := x.(now := ForTwi(TwiWire.Whole(r, data)), left := TwiWire.Print(r, data));
      InSync(x1) && PcRun(PcOf(x), []) == Some(PcOf(x1))
  {
    TwiWire.FittingIsTuned(x.t, r, data);
    Started(x, ForTwi(TwiWire.Whole(r, data)), TwiWire.Print(r, data));
  }

  lemma SpiBegins(x: Session, r: SpiWire.Reply)
    requires InSync(x) && x.now.Silence? && SpiWire.Fits(x.s, r)
    ensures SpiWire.Printable(x.s.q[0], r)
    ensures var x1 := x.(now := ForSpi(SpiWire.Whole(x.s.q[0], r)), left := SpiWire.Print(x.s.q[0], r));
      InSync(x1) && PcRun(PcOf(x), []) == Some(PcOf(x1))
  {
    SpiWire.FittingIsTuned(x.s, r);
    Started(x, ForSpi(SpiWire.Whole(x.s.q[0], r)), SpiWire.Print(x.s.q[0], r));
  }

  lemma OwBegins(x: Session, r: OwWire.Reply)
    requires InSync(x) && x.now.Silence? && OwWire.Fits(x.o, r)
    ensures OwWire.Printable(x.o.q[0], r)
    ensures var x1 := x.(now := ForOw(OwWire.Whole(x.o.q[0], r)), left := OwWire.Print(x.o.q[0], r));
      InSync(x1) && PcRun(PcOf(x), []) == Some(PcOf(x1))
  {
    OwWire.FittingIsTuned(x.o, r);
    Started(x, ForOw(OwWire.Whole(x.o.q[0], r)), OwWire.Print(x.o.q[0], r));
  }

  lemma PrintedIsUnderWay(m: Mech, p: RxPackets.Packet)
    requires m.state == Rsp && RxPackets.WellFormed(p, m.uartLen) && AllStrange(RxPackets.CallsOf(p))
    ensures StrangeUnderWay(m, RxPackets.Print(p, m.uartLen), RxPackets.CallsOf(p))
  {
    RxPackets.TakesPacket(m, p, m.uartLen);
  }

  lemma OtherBegins(x: Session, p: RxPackets.Packet)
    requires InSync(x) && x.now.Silence? && RxPackets.WellFormed(p, x.m.uartLen) && AllStrange(RxPackets.CallsOf(p))
    ensures var x1 := x.(now := Foreign(RxPackets.CallsOf(p)), left := RxPackets.Print(p, x.m.uartLen));
      InSync(x1) && PcRun(PcOf(x), []) == Some(PcOf(x1))
  {
    PrintedIsUnderWay(x.m, p);
    Started(x, Foreign(RxPackets.CallsOf(p)), RxPackets.Print(p, x.m.uartLen));
  }

  lemma FlagBegins(x: Session, lost: bool)
    requires InSync(x) && x.now.Silence?
    ensures var x1 := x.(now := Flag(lost), left := [if lost then 35 else 34]);
      InSync(x1) && PcRun(PcOf(x), []) == Some(PcOf(x1))
  {
    Started(x, Flag(lost), [if lost then 35 else 34]);
  }

  lemma InfoBegins(x: Session, block: seq<byte>)
    requires InSync(x) && x.now.Silence? && Unannounced(x)
    requires INFO_LEN <= |block| < 256 && block[0] == |block|
    ensures var x1 := x.(now := Announce(block), left := [3] + block);
      InSync(x1) && PcRun(PcOf(x), []) == Some(PcOf(x1))
  {
    Started(x, Announce(block), [3] + block);
  }

  lemma TwiSync(x: Session, r: TwiHost.Rsp, data: seq<byte>)
    requires InSync(x) && x.now.Silence?
    ensures InSync(Begin(x, AnswerTwi(r, data))) && PcRun(PcOf(x), []) == Some(PcOf(Begin(x, AnswerTwi(r, data))))
  {
    if TwiWire.Fits(x.t, r, data) {
      TwiBegins(x, r, data);
    }
  }

  lemma SpiSync(x: Session, r: SpiWire.Reply)
    requires InSync(x) && x.now.Silence?
    ensures InSync(Begin(x, AnswerSpi(r))) && PcRun(PcOf(x), []) == Some(PcOf(Begin(x, AnswerSpi(r))))
  {
    if SpiWire.Fits(x.s, r) {
      SpiBegins(x, r);
    }
  }

  lemma OwSync(x: Session, r: OwWire.Reply)
    requires InSync(x) && x.now.Silence?
    ensures InSync(Begin(x, AnswerOw(r))) && PcRun(PcOf(x), []) == Some(PcOf(Begin(x, AnswerOw(r))))
  {
    if OwWire.Fits(x.o, r) {
      OwBegins(x, r);
    }
  }

  // How the flags and the info block are printed.
  lemma SmallPrints(lost: bool, block: seq<byte>, uartLen: nat)
    ensures RxPackets.Print(if lost then RxPackets.PArbLost else RxPackets.PBusError, uartLen) ==
      [if lost then 35 else 34]
    ensures RxPackets.WellFormed(RxPackets.PInfo(block), uartLen) ==>
      RxPackets.Print(RxPackets.PInfo(block), uartLen) == [3] + block
    ensures RxPackets.WellFormed(RxPackets.PInfo(block), uartLen) <==> INFO_LEN <= |block| < 256 && block[0] == |block|
  {
  }

  lemma FlagSync(x: Session, lost: bool)
    requires InSync(x) && x.now.Silence?
    ensures InSync(Begin(x, SendFlag(lost))) && PcRun(PcOf(x), []) == Some(PcOf(Begin(x, SendFlag(lost))))
  {
    SmallPrints(lost, [], x.m.uartLen);
    FlagBegins(x, lost);
  }

  lemma InfoSync(x: Session, block: seq<byte>)
    requires InSync(x) && x.now.Silence?
    ensures InSync(Begin(x, SendInfo(block))) && PcRun(PcOf(x), []) == Some(PcOf(Begin(x, SendInfo(block))))
  {
    SmallPrints(false, block, x.m.uartLen);
    if Unannounced(x) && RxPackets.WellFormed(RxPackets.PInfo(block), x.m.uartLen) {
      InfoBegins(x, block);
    }
  }

  lemma OtherSync(x: Session, p: RxPackets.Packet)
    requires InSync(x) && x.now.Silence?
    ensures InSync(Begin(x, SendOther(p))) && PcRun(PcOf(x), []) == Some(PcOf(Begin(x, SendOther(p))))
  {
    if RxPackets.WellFormed(p, x.m.uartLen) && AllStrange(RxPackets.CallsOf(p)) {
      OtherBegins(x, p);
    }
  }

  lemma BeginSync(x: Session, mv: Move)
    requires InSync(x) && x.now.Silence? && !mv.TwiOwn? && !mv.SpiOwn? && !mv.OwOwn? && !mv.ReadByte?
    ensures InSync(Begin(x, mv)) && PcRun(PcOf(x), []) == Some(PcOf(Begin(x, mv)))
  {
    match mv
    case AnswerTwi(r, data) => TwiSync(x, r, data);
    case AnswerSpi(r) => SpiSync(x, r);
    case AnswerOw(r) => OwSync(x, r);
    case SendFlag(lost) => FlagSync(x, lost);
    case SendInfo(block) => InfoSync(x, block);
    case SendOther(p) => OtherSync(x, p);
  }

  // ---------------------------------------------------------------- reading a byte

  // What the PC makes of the next byte.
  lemma ByteSeen(p: Pc, b: byte, m1: Mech, calls: seq<Call>, hs1: Hosts)
    requires OnByte(p.m, b) == Next(m1, calls) && DispatchAll(p.hs, calls) == Some(hs1)
    ensures PcRun(p, [Byte(b)]) == Some(Pc(hs1, m1))
  {
    InputOne(p, Byte(b), Pc(hs1, m1));
  }

  // The calls of an answer reach their own interface only.
  lemma TwiGets(hs: Hosts, rest: TwiWire.Rest, h1: TwiHost.Host)
    requires TwiWire.Proper(rest) && TwiWire.DispatchAll(hs.t, TwiWire.Calls(rest)) == Some(h1)
    ensures DispatchAll(hs, TwiWire.Calls(rest)) == Some(hs.(t := h1))
  {
    SpiWire.IgnoresAll(hs.s, TwiWire.Calls(rest));
    OwWire.IgnoresAll(hs.o, TwiWire.Calls(rest));
    DispatchEach(hs, TwiWire.Calls(rest), hs.(t := h1));
  }

  lemma SpiGets(hs: Hosts, rest: SpiWire.Rest, h1: SpiHost.Host)
    requires SpiWire.DispatchAll(hs.s, SpiWire.Calls(rest)) == Some(h1)
    ensures DispatchAll(hs, SpiWire.Calls(rest)) == Some(hs.(s := h1))
  {
    TwiWire.IgnoresAll(hs.t, SpiWire.Calls(rest));
    OwWire.IgnoresAll(hs.o, SpiWire.Calls(rest));
    DispatchEach(hs, SpiWire.Calls(rest), hs.(s := h1));
  }

  lemma OwGets(hs: Hosts, rest: OwWire.Rest, h1: OwHost.Host)
    requires OwWire.DispatchAll(hs.o, OwWire.Calls(rest)) == Some(h1)
    ensures DispatchAll(hs, OwWire.Calls(rest)) == Some(hs.(o := h1))
  {
    TwiWire.IgnoresAll(hs.t, OwWire.Calls(rest));
    SpiWire.IgnoresAll(hs.s, OwWire.Calls(rest));
    DispatchEach(hs, OwWire.Calls(rest), hs.(o := h1));
  }

  lemma Unmoved(x: Session)
    requires InSync(x)
    ensures TwiWire.On(x.t, []) == x.t && SpiWire.On(x.s, []) == x.s && OwWire.On(x.o, []) == x.o
  {
    TwiWire.OnNone(x.t);
    SpiWire.OnNone(x.s);
    OwWire.OnNone(x.o);
  }

  // The next byte takes x to x1.
  ghost predicate Reads(x: Session, x1: Session) {
    && InSync(x) && x.left != [] && Read(x) == x1 && InSync(x1)
    && PcRun(PcOf(x), [Byte(x.left[0])]) == Some(PcOf(x1))
  }

  lemma TwiReads(x: Session, x1: Session)
    requires InSync(x) && x.now.ForTwi? && x.left != [] && Read(x) == x1
    ensures Reads(x, x1)
  {
    var rest := x.now.twi;
    TwiWire.ReadsNext(x.m, x.left, rest);
    TwiWire.NextIsTuned(x.t, rest);
    Unmoved(x);
    TwiGets(PcOf(x).hs, rest, x1.t.h);
    ByteSeen(PcOf(x), x.left[0], x1.m, TwiWire.Calls(rest), PcOf(x1).hs);
  }

  lemma SpiReads(x: Session, x1: Session)
    requires InSync(x) && x.now.ForSpi? && x.left != [] && Read(x) == x1
    ensures Reads(x, x1)
  {
    var rest := x.now.spi;
    SpiWire.ReadsNext(x.m, x.left, rest);
    SpiWire.NextIsTuned(x.s, rest);
    Unmoved(x);
    SpiGets(PcOf(x).hs, rest, x1.s.h);
    ByteSeen(PcOf(x), x.left[0], x1.m, SpiWire.Calls(rest), PcOf(x1).hs);
  }

  lemma OwReads(x: Session, x1: Session)
    requires InSync(x) && x.now.ForOw? && x.left != [] && Read(x) == x1
    ensures Reads(x, x1)
  {
    var rest := x.now.ow;
    OwWire.ReadsNext(x.m, x.left, rest);
    OwWire.NextIsTuned(x.o, rest);
    Unmoved(x);
    OwGets(PcOf(x).hs, rest, x1.o.h);
    ByteSeen(PcOf(x), x.left[0], x1.m, OwWire.Calls(rest), PcOf(x1).hs);
  }

  // ---------------------------------------------------------------- flags and the info block

  function FlagCall(lost: bool): Call {
    if lost then CallArbLost else CallBusError
  }

  lemma FlagGets(hs: Hosts, lost: bool, h1: TwiHost.Host)
    requires TwiWire.DispatchAll(hs.t, [FlagCall(lost)]) == Some(h1)
    ensures DispatchAll(hs, [FlagCall(lost)]) == Some(hs.(t := h1))
  {
    SpiWire.IgnoresAll(hs.s, [FlagCall(lost)]);
    OwWire.IgnoresAll(hs.o, [FlagCall(lost)]);
    DispatchEach(hs, [FlagCall(lost)], hs.(t := h1));
  }

  lemma FlagHeard(m: Mech, lost: bool)
    requires m.state == Rsp
    ensures OnByte(m, if lost then 35 else 34) == Next(m, [FlagCall(lost)])
  {
  }

  lemma FlagReads(x: Session, x1: Session)
    requires InSync(x) && x.now.Flag? && x.left != [] && Read(x) == x1
    ensures Reads(x, x1)
  {
    FlagHeard(x.m, x.now.lost);
    TwiWire.FlagIsTuned(x.t, x.now.lost);
    Unmoved(x);
    FlagGets(PcOf(x).hs, x.now.lost, x1.t.h);
    ByteSeen(PcOf(x), x.left[0], x.m, [FlagCall(x.now.lost)], PcOf(x1).hs);
  }

  // How the receiver takes the info block in.
  lemma InfoHeard(m: Mech, left: seq<byte>, block: seq<byte>)
    requires InfoUnderWay(m, left, block)
    ensures match OnByte(m, left[0])
      case Fault => false
      case Next(m1, calls) =>
        if |left| == 1 then m1.state == Rsp && calls == [CallInfo(block[..INFO_LEN])]
        else calls == [] && InfoUnderWay(m1, left[1..], block)
  {
    if m.state == Rsp {
      assert left[1..] == block == block[0..] && block[..0] == [];
    } else {
      var k := |m.text|;
      var t := m.text + [left[0]];
      assert t == block[..k + 1] && left[1..] == block[k + 1..];
      assert t[0] == block[0];
      if |left| == 1 {
        assert t == block;
      }
    }
  }

  // What the first bytes of the block tell is what the block tells.
  lemma FrontTellsAll(block: seq<byte>)
    requires |block| >= INFO_LEN
    ensures TwiWire.LengthIn(block[..INFO_LEN]) == TwiWire.LengthIn(block)
    ensures SpiWire.LengthIn(block[..INFO_LEN]) == SpiWire.LengthIn(block)
    ensures OwWire.LengthIn(block[..INFO_LEN]) == OwWire.LengthIn(block)
    ensures OwWire.ProbesIn(block[..INFO_LEN]) == OwWire.ProbesIn(block)
  {
  }

  lemma InfoEnds(x: Session, x1: Session)
    requires InSync(x) && x.now.Announce? && |x.left| == 1 && Read(x) == x1
    ensures Reads(x, x1)
  {
    var front := x.now.block[..INFO_LEN];
    InfoHeard(x.m, x.left, x.now.block);
    FrontTellsAll(x.now.block);
    TwiWire.InfoIsTuned(x.t, front);
    SpiWire.InfoIsTuned(x.s, front);
    OwWire.InfoIsTuned(x.o, front);
    DispatchEach(PcOf(x).hs, [CallInfo(front)], PcOf(x1).hs);
    ByteSeen(PcOf(x), x.left[0], x1.m, [CallInfo(front)], PcOf(x1).hs);
  }

  lemma InfoGoesOn(x: Session, x1: Session)
    requires InSync(x) && x.now.Announce? && |x.left| > 1 && Read(x) == x1
    ensures Reads(x, x1)
  {
    InfoHeard(x.m, x.left, x.now.block);
    Unmoved(x);
    ByteSeen(PcOf(x), x.left[0], x1.m, [], PcOf(x1).hs);
  }

  // ---------------------------------------------------------------- packets for others

  // How the receiver takes a packet for another interface in.
  lemma OtherHeard(m: Mech, left: seq<byte>, calls: seq<Call>)
    requires StrangeUnderWay(m, left, calls)
    ensures match OnByte(m, left[0])
      case Fault => false
      case Next(m1, made) =>
        && made <= calls && AllStrange(made)
        && (if |left| == 1 then m1.state == Rsp else StrangeUnderWay(m1, left[1..], calls[|made|..]))
  {
    assert OnByte(m, left[0]).Next?;
    var made := OnByte(m, left[0]).calls;
    assert calls[|made|..] == Feed(OnByte(m, left[0]).m, left[1..]).calls;
  }

  lemma OtherGets(hs: Hosts, calls: seq<Call>)
    requires AllStrange(calls)
    ensures DispatchAll(hs, calls) == Some(hs)
  {
    forall i | 0 <= i < |calls|
      ensures !TwiWire.Concerns(calls[i]) && !SpiWire.Concerns(calls[i]) && !OwWire.Concerns(calls[i])
    {
      assert Strange(calls[i]);
    }
    TwiWire.IgnoresAll(hs.t, calls);
    SpiWire.IgnoresAll(hs.s, calls);
    OwWire.IgnoresAll(hs.o, calls);
    DispatchEach(hs, calls, hs);
  }

  lemma OtherReads(x: Session, x1: Session)
    requires InSync(x) && x.now.Foreign? && x.left != [] && Read(x) == x1
    ensures Reads(x, x1)
  {
    OtherHeard(x.m, x.left, x.now.calls);
    Unmoved(x);
    var made := OnByte(x.m, x.left[0]).calls;
    OtherGets(PcOf(x).hs, made);
    ByteSeen(PcOf(x), x.left[0], x1.m, made, PcOf(x1).hs);
  }

  // ---------------------------------------------------------------- any move

  // The PC takes every byte that arrives.
  lemma EveryByteIsTaken(x: Session)
    requires InSync(x) && x.left != []
    ensures Reads(x, Read(x))
  {
    match x.now
    case ForTwi(_) => TwiReads(x, Read(x));
    case ForSpi(_) => SpiReads(x, Read(x));
    case ForOw(_) => OwReads(x, Read(x));
    case Flag(_) => FlagReads(x, Read(x));
    case Announce(_) => if |x.left| == 1 { InfoEnds(x, Read(x)); } else { InfoGoesOn(x, Read(x)); }
    case Foreign(_) => OtherReads(x, Read(x));
  }

  lemma OwnStep(x: Session, mv: Move)
    requires InSync(x) && (mv.TwiOwn? || mv.SpiOwn? || mv.OwOwn?)
    ensures Carries(x, mv)
  {
    match mv
    case TwiOwn(ev) => if TwiWire.Own(ev) { TwiOwnCarries(x, ev); }
    case SpiOwn(ev) => if SpiWire.Own(ev) { SpiOwnCarries(x, ev); }
    case OwOwn(ev) => if OwWire.Own(ev) { OwOwnCarries(x, ev); }
  }

  lemma ReadStep(x: Session)
    requires InSync(x)
    ensures Carries(x, ReadByte)
  {
    if x.left != [] {
      EveryByteIsTaken(x);
    }
  }

  lemma BeginStep(x: Session, mv: Move)
    requires InSync(x) && !mv.TwiOwn? && !mv.SpiOwn? && !mv.OwOwn? && !mv.ReadByte?
    ensures Carries(x, mv)
  {
    if x.now.Silence? {
      BeginSync(x, mv);
    }
  }

  lemma StepCarries(x: Session, mv: Move)
    requires InSync(x)
    ensures Carries(x, mv)
  {
    if mv.TwiOwn? || mv.SpiOwn? || mv.OwOwn? {
      OwnStep(x, mv);
    } else if mv.ReadByte? {
      ReadStep(x);
    } else {
      BeginStep(x, mv);
    }
  }

  // ---------------------------------------------------------------- whole sessions

  // The session after a sequence of moves, in order.
  ghost function Run(x: Session, moves: seq<Move>): Session
    requires InSync(x)
    decreases |moves|
  {
    if moves == [] then x
    else
      StepCarries(x, moves[0]);
      Run(Step(x, moves[0]), moves[1..])
  }

  // What the PC sees of it.
  ghost function SeesAll(x: Session, moves: seq<Move>): seq<Input>
    requires InSync(x)
    decreases |moves|
  {
    if moves == [] then []
    else
      StepCarries(x, moves[0]);
      Sees(x, moves[0]) + SeesAll(Step(x, moves[0]), moves[1..])
  }

  lemma PcRunFirst(p: Pc, a: seq<Input>, b: seq<Input>) returns (p1: Pc)
    requires a != [] && PcRun(p, a).Some?
    ensures PcRun(p, a) == PcRun(p1, a[1..]) && PcRun(p, a + b) == PcRun(p1, a[1..] + b)
  {
    p1 := OnInput(p, a[0]).value;
    assert (a + b)[0] == a[0] && (a + b)[1..] == a[1..] + b;
  }

  lemma {:induction false} PcRunTwice(p: Pc, a: seq<Input>, p1: Pc, b: seq<Input>)
    requires PcRun(p, a) == Some(p1)
    ensures PcRun(p, a + b) == PcRun(p1, b)
    decreases |a|
  {
    if a == [] {
      assert a + b == b;
    } else {
      var p0 := PcRunFirst(p, a, b);
      PcRunTwice(p0, a[1..], p1, b);
    }
  }

  // Whatever the order in which packets follow one another on the stream, and whatever users
  // and pumps do between any two bytes: the PC, which sees only the bytes and what its own
  // users and pumps do, never gives up, and its three hosts are those of three worlds each
  // of which goes along a run of its own.
  lemma {:induction false} StreamDrivesHosts(x: Session, moves: seq<Move>)
    requires InSync(x)
    ensures InSync(Run(x, moves))
    ensures PcRun(PcOf(x), SeesAll(x, moves)) == Some(PcOf(Run(x, moves)))
    decreases |moves|
  {
    if moves != [] {
      StepCarries(x, moves[0]);
      var x1 := Step(x, moves[0]);
      StreamDrivesHosts(x1, moves[1..]);
      PcRunTwice(PcOf(x), Sees(x, moves[0]), PcOf(x1), SeesAll(x1, moves[1..]));
    }
  }

  lemma StartInSync()
    ensures InSync(START)
  {
    TwiWire.StartIsTuned();
    SpiWire.StartIsTuned();
    OwWire.StartIsTuned();
  }
}
