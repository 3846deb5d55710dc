/**
 The 1-Wire part of the host as the fields and loops it works with: the transmit pump
 over its four kinds of command, and the response handlers. Each method is proved to do
 to the abstract host what OwHost's function does.
 */
module OwContext {
  import opened Basics
  import opened OwHost
  import OwSteps

  const CMD_RESET: byte := 58
  const CMD_TOUCH: byte := 59
  const CMD_ENUM: byte := 60
  const CMD_PROBE: byte := 61

  function TouchByte(bits: nat, spu: bool): byte
    requires 1 <= bits <= 128
  {
    bits - 1 + (if spu then 128 else 0)
  }

  // How many bytes follow the code of an enumeration, as its flags tell.
  function SearchLength(flags: byte): nat {
    1 + (if flags / 4 % 2 == 1 then 1 else 0) + (if flags / 8 % 2 == 1 then 8 else 0)
  }

  predicate Encodable(p: Packet) {
    match p.kind
    case Reset => true
    case Touch => 1 <= p.bits <= 128 && |p.data| == BytesFor(p.bits)
    case Enum => p.data != [] && |p.data| == SearchLength(p.data[0])
    case Probe => |p.data| == 8
  }

  function Encode(p: Packet): seq<byte>
    requires Encodable(p)
  {
    match p.kind
    case Reset => [CMD_RESET]
    case Touch => [CMD_TOUCH, TouchByte(p.bits, p.spu)] + p.data
    case Enum => [CMD_ENUM] + p.data
    case Probe => [CMD_PROBE] + p.data
  }

  predicate AllEncodable(ps: seq<Packet>) {
    forall i :: 0 <= i < |ps| ==> Encodable(ps[i])
  }

  function EncodeAll(ps: seq<Packet>): seq<byte>
    requires AllEncodable(ps)
  {
    if ps == [] then [] else Encode(ps[0]) + EncodeAll(ps[1..])
  }

  lemma {:induction false} EncodeSnoc(ps: seq<Packet>, p: Packet)
    requires AllEncodable(ps) && Encodable(p)
    ensures AllEncodable(ps + [p]) && EncodeAll(ps + [p]) == EncodeAll(ps) + Encode(p)
  {
    if ps == [] {
      assert ps + [p] == [p] && [p][1..] == [];
      assert Encode(p) + [] == Encode(p);
    } else {
      assert (ps + [p])[1..] == ps[1..] + [p] && (ps + [p])[0] == ps[0];
      EncodeSnoc(ps[1..], p);
      Associative(Encode(ps[0]), EncodeAll(ps[1..]), Encode(p));
    }
  }

  // The flags of an enumeration can be read back.
  lemma FlagsRead(s: Search)
    ensures var b := SearchFlags(s);
      && (b % 2 == 1 <==> s.next) && (b / 2 % 2 == 1 <==> s.alarm)
      && (b / 4 % 2 == 1 <==> s.family.Some?) && (b / 8 % 2 == 1 <==> s.smartOn.Some?)
      && (s.smartOn.Some? ==> (b / 16 % 2 == 1 <==> s.smartOn.value.aux))
  {
  }

  lemma SearchBytesAre(out: seq<byte>, s: Search)
    ensures var begun := out + [SearchFlags(s)];
      var named := if s.family.Some? then begun + [s.family.value] else begun;
      (if s.smartOn.Some? then named + s.smartOn.value.rom else named) == out + ArgBytes(SearchArgs(s))
  {
    var family := if s.family.Some? then [s.family.value] else [];
    var rom := if s.smartOn.Some? then s.smartOn.value.rom else [];
    assert (out + [SearchFlags(s)]) + family + rom == out + ([SearchFlags(s)] + family + rom);
  }

  lemma ArgsEncodable(args: Args)
    requires args.SearchArgs?
    ensures ArgBytes(args) != [] && |ArgBytes(args)| == SearchLength(ArgBytes(args)[0])
  {
    FlagsRead(args.search);
  }

  // What the device makes of the bytes of an enumeration.
  function ReadSearch(s: seq<byte>): Search
    requires s != [] && |s| == SearchLength(s[0])
  {
    var named := s[0] / 4 % 2 == 1;
    Search(s[0] % 2 == 1, s[0] / 2 % 2 == 1, if named then Some(s[1]) else None,
           if s[0] / 8 % 2 == 1 then Some(SmartOn(s[0] / 16 % 2 == 1, if named then s[2..] else s[1..])) else None)
  }

  // It is what the user asked for.
  lemma SearchIsRead(s: Search)
    ensures ArgBytes(SearchArgs(s)) != []
    ensures |ArgBytes(SearchArgs(s))| == SearchLength(ArgBytes(SearchArgs(s))[0])
    ensures ReadSearch(ArgBytes(SearchArgs(s))) == s
  {
    FlagsRead(s);
    var b := ArgBytes(SearchArgs(s));
    if s.smartOn.Some? {
      assert (if s.family.Some? then b[2..] else b[1..]) == s.smartOn.value.rom;
    }
  }

  // The device's view of a stream of commands: the first one and what follows it.
  datatype Command =
    | ResetCommand
    | TouchCommand(spu: bool, bits: nat, data: seq<byte>)
    | EnumCommand(search: Search)
    | ProbeCommand(rom: seq<byte>)

  datatype Heard = Garbled | Heard(c: Command, rest: seq<byte>)

  function Listen(s: seq<byte>): Heard {
    if s == [] then Garbled
    else if s[0] == CMD_RESET then Heard(ResetCommand, s[1..])
    else if s[0] == CMD_PROBE then
      if |s| < 9 then Garbled else Heard(ProbeCommand(s[1..9]), s[9..])
    else if |s| == 1 then Garbled
    else if s[0] == CMD_TOUCH then
      var bits := s[1] % 128 + 1;
      var n := 2 + BytesFor(bits);
      if |s| < n then Garbled else Heard(TouchCommand(s[1] >= 128, bits, s[2..n]), s[n..])
    else if s[0] == CMD_ENUM then
      var n := 1 + SearchLength(s[1]);
      if |s| < n then Garbled else Heard(EnumCommand(ReadSearch(s[1..n])), s[n..])
    else Garbled
  }

  // The whole stream, command by command; None if some of it is garbled.
  function ListenAll(s: seq<byte>): Option<seq<Command>>
    decreases |s|
  {
    if s == [] then Some([])
    else match Listen(s)
         case Garbled => None
         case Heard(c, rest) =>
           match ListenAll(rest)
           case None => None
           case Some(cs) => Some([c] + cs)
  }

  function CommandOf(p: Packet): Command
    requires Encodable(p)
  {
    match p.kind
    case Reset => ResetCommand
    case Touch => TouchCommand(p.spu, p.bits, p.data)
    case Enum => EnumCommand(ReadSearch(p.data))
    case Probe => ProbeCommand(p.data)
  }

  function CommandsOf(ps: seq<Packet>): (r: seq<Command>)
    requires AllEncodable(ps)
    ensures |r| == |ps| && forall i :: 0 <= i < |ps| ==> r[i] == CommandOf(ps[i])
  {
    if ps == [] then [] else [CommandOf(ps[0])] + CommandsOf(ps[1..])
  }

  lemma TouchByteRead(bits: nat, spu: bool)
    requires 1 <= bits <= 128
    ensures TouchByte(bits, spu) % 128 + 1 == bits && (TouchByte(bits, spu) >= 128 <==> spu)
  {
  }

  lemma ListenTouch(p: Packet, rest: seq<byte>)
    requires Encodable(p) && p.kind == Touch
    ensures Listen(Encode(p) + rest) == Heard(CommandOf(p), rest)
  {
    var s, n := Encode(p) + rest, 2 + |p.data|;
    TouchByteRead(p.bits, p.spu);
    assert s[0] == CMD_TOUCH && s[1] == TouchByte(p.bits, p.spu);
    assert s[2..n] == p.data && s[n..] == rest;
  }

  lemma ListenEnum(p: Packet, rest: seq<byte>)
    requires Encodable(p) && p.kind == Enum
    ensures Listen(Encode(p) + rest) == Heard(CommandOf(p), rest)
  {
    var s, n := Encode(p) + rest, 1 + |p.data|;
    assert s[1] == p.data[0];
    assert s[1..n] == p.data && s[n..] == rest;
  }

  // The device hears exactly the command that was encoded, whatever comes after it.
  lemma ListenEncode(p: Packet, rest: seq<byte>)
    requires Encodable(p)
    ensures Listen(Encode(p) + rest) == Heard(CommandOf(p), rest)
  {
    var s := Encode(p) + rest;
    match p.kind
    case Reset => assert s[1..] == rest;
    case Touch => ListenTouch(p, rest);
    case Enum => ListenEnum(p, rest);
    case Probe => assert s[1..9] == p.data && s[9..] == rest;
  }

  // It hears a stream of commands as it was encoded.
  lemma {:induction false} ListenEncodeAll(ps: seq<Packet>)
    requires AllEncodable(ps)
    ensures ListenAll(EncodeAll(ps)) == Some(CommandsOf(ps))
    decreases |ps|
  {
    if ps != [] {
      ListenEncode(ps[0], EncodeAll(ps[1..]));
      ListenEncodeAll(ps[1..]);
    }
  }

  // ---------------------------------------------------------------- the pump as a whole

  predicate XferReady(x: Xfr) {
    x.fi < x.sc && (x.kind == Touch && !x.detached ==> |x.buf| == BytesFor(x.sc)) && (x.kind != Touch ==> x.sc == 1)
    && ArgsFit(x.kind, x.args)
  }

  predicate PumpReady(h: Host) {
    forall i :: 0 <= i < |h.sch| && h.cur <= i ==> XferReady(h.sch[i])
  }

  lemma PumpStaysReady(h: Host)
    requires PumpReady(h)
    ensures Pumpable(h)
    ensures TxOne(h).Emit? ==> PumpReady(TxOne(h).h) && TxOne(h).h.free < h.free && Encodable(TxOne(h).p)
  {
    if h.cur < |h.sch| {
      assert XferReady(h.sch[h.cur]);
      if h.sch[h.cur].kind == Enum {
        ArgsEncodable(h.sch[h.cur].args);
      }
    }
    if TxOne(h).Emit? {
      var h1 := TxOne(h).h;
      forall i | 0 <= i < |h1.sch| && h1.cur <= i ensures XferReady(h1.sch[i]) {
        assert XferReady(h.sch[i]);
      }
    }
  }

  // Everything the pump sends in one go.
  function Pump(h: Host): (r: (Host, seq<Packet>))
    requires PumpReady(h)
    ensures PumpReady(r.0) && TxOne(r.0) == Quiet && AllEncodable(r.1)
    decreases h.free
  {
    PumpStaysReady(h);
    match TxOne(h)
    case Quiet => (h, [])
    case Emit(h1, p) =>
      var (h2, ps) := Pump(h1);
      (h2, [p] + ps)
  }

  // What the pump sends in one go, the device hears as the commands the pump meant.
  lemma PumpIsHeard(h: Host)
    requires PumpReady(h)
    ensures ListenAll(EncodeAll(Pump(h).1)) == Some(CommandsOf(Pump(h).1))
  {
    ListenEncodeAll(Pump(h).1);
  }

  // The packets ps are the first of what the pump sends from h0, and h is where they lead.
  predicate Onward(h0: Host, ps: seq<Packet>, h: Host) {
    && PumpReady(h0) && PumpReady(h) && AllEncodable(ps)
    && Pump(h0).0 == Pump(h).0 && Pump(h0).1 == ps + Pump(h).1
  }

  lemma PumpStep(h: Host, p: Packet, h1: Host)
    requires PumpReady(h) && Pumpable(h) && TxOne(h) == Emit(h1, p)
    ensures PumpReady(h1) && Encodable(p) && h1.free < h.free
    ensures Pump(h).0 == Pump(h1).0 && Pump(h).1 == [p] + Pump(h1).1
  {
    PumpStaysReady(h);
  }

  lemma Shift<T>(all: seq<T>, ps: seq<T>, p: T, rest: seq<T>, more: seq<T>)
    requires all == ps + rest && rest == [p] + more
    ensures all == (ps + [p]) + more
  {
  }

  lemma OnwardStep(h0: Host, ps: seq<Packet>, h: Host, p: Packet, h1: Host)
    requires Onward(h0, ps, h) && Pumpable(h) && TxOne(h) == Emit(h1, p)
    ensures Onward(h0, ps + [p], h1) && h1.free < h.free
    ensures Encodable(p) && EncodeAll(ps + [p]) == EncodeAll(ps) + Encode(p)
  {
    PumpStep(h, p, h1);
    EncodeSnoc(ps, p);
    Shift(Pump(h0).1, ps, p, Pump(h).1, Pump(h1).1);
  }

  lemma OnwardDone(h0: Host, ps: seq<Packet>, h: Host)
    requires Onward(h0, ps, h) && Pumpable(h) && TxOne(h) == Quiet
    ensures Pump(h0) == (h, ps)
  {
    assert ps + [] == ps;
  }

  // What TxOne does for a transfer that can go on.
  lemma EmitForm(h: Host)
    requires Pumpable(h) && h.cur < |h.sch| && !h.sch[h.cur].skipped && h.free >= Room(h.sch[h.cur].kind)
    ensures var (p, x1) := NextPacket(h, h.sch[h.cur]);
      TxOne(h) == Emit(h.(free := h.free - Cost(p), sch := h.sch[h.cur := x1],
                          cur := if x1.fi == x1.sc then h.cur + 1 else h.cur), p)
  {
  }

  // ---------------------------------------------------------------- the context

  // What the user of a transfer is told besides its status: whether a reset saw a device, or
  // an enumeration or probe found one, and the ROM code of one an enumeration found.
  datatype Report = Report(job: nat, found: bool, rom: seq<byte>)

  class OwCtx {
    var sch: seq<Xfr>
    var cur: nat
    var hwBufLen: nat
    var hwBufFree: nat
    var busy: Busy
    var probes: bool
    var out: seq<byte>       // the serial stream
    var told: seq<Report>    // to the users, in order
    var nextJob: nat         // numbers the transfers, by which users name them
    ghost var log: seq<Done>

    ghost function Abs(): Host
      reads this
    {
      Host(sch, cur, hwBufLen, hwBufFree, busy, probes, nextJob, log)
    }

    constructor ()
      ensures Abs() == Host([], 0, 0, 0, Idle, false, 0, []) && out == [] && told == []
    {
      sch, cur, hwBufLen, hwBufFree, busy, probes, out, nextJob, log := [], 0, 0, 0, Idle, false, [], 0, [];
      told := [];
    }

    // ------------------------------------------------------------ user calls

    method Schedule(r: Request) returns (ok: bool)
      requires r.TouchRequest? ==> |r.buf| == BytesFor(r.sc)
      modifies this
      ensures Abs() == OwHost.Schedule(old(Abs()), r) && out == old(out)
      ensures ok <==> !(r.TouchRequest? && r.sc == 0) && !(r.ProbeRequest? && !probes)
    {
      if r.TouchRequest? {
        if r.sc == 0 { return false; }
      } else if r.ProbeRequest? {
        if !probes { return false; }
      }
      var x := Xfr(nextJob, Reset, false, NoArgs, false, false, [], 1, 0, 0, 0, false, 0, 0, [], 0);
      match r {
        case ResetRequest =>
        case TouchRequest(buf, sc, spu) => x := x.(kind := Touch, spu := spu, buf := buf, sc := sc, orig := buf);
        case EnumRequest(search) => x := x.(kind := Enum, args := SearchArgs(search));
        case ProbeRequest(rom) => x := x.(kind := Probe, args := RomArgs(rom));
      }
      sch := sch + [x];
      nextJob := nextJob + 1;
      return true;
    }

    method XfrComplete(i: nat, status: Status)
      requires i < |sch|
      modifies this`sch, this`cur, this`log
      ensures Abs() == Complete(old(Abs()), i, status)
    {
      log := log + [Done(sch[i], status)];
      if i < cur {
        cur := cur - 1;
      }
      sch := Without(sch, i);
    }

    method XfrCancel(job: nat)
      modifies this`sch, this`cur, this`log
      ensures Abs() == Cancel(old(Abs()), job)
    {
      var i := IndexOf(sch, job);
      if i < |sch| && !sch[i].active {
        XfrComplete(i, Cancelled);
      }
    }

    method XfrDestroy(job: nat)
      modifies this`sch, this`cur, this`log
      ensures Abs() == Destroy(old(Abs()), job)
    {
      XfrCancel(job);
      var i := IndexOf(sch, job);
      if i < |sch| {
        var x := sch[i];
        if !x.detached {
          x := x.(detached := true, cut := x.fi);
        }
        sch := sch[i := x];
      }
    }

    // ------------------------------------------------------------ transmit pump

    method TxByte(b: byte)
      modifies this`out
      ensures out == old(out) + [b]
    {
      out := out + [b];
    }

    method TxBytes(s: seq<byte>)
      modifies this`out
      ensures out == old(out) + s
    {
      var k := 0;
      while k < |s|
        invariant 0 <= k <= |s| && out == old(out) + s[..k]
      {
        TxByte(s[k]);
        assert (old(out) + s[..k]) + [s[k]] == old(out) + s[..k + 1];
        k := k + 1;
      }
      assert s[..k] == s;
    }

    // Flags of an enumeration, and what they announce.
    method TxSearch(s: Search)
      modifies this`out
      ensures out == old(out) + ArgBytes(SearchArgs(s))
    {
      var flags: byte := 0;
      if s.next { flags := flags + 1; }
      if s.alarm { flags := flags + 2; }
      if s.family.Some? { flags := flags + 4; }
      if s.smartOn.Some? {
        flags := flags + 8;
        if s.smartOn.value.aux { flags := flags + 16; }
      }
      TxByte(flags);
      if s.family.Some? {
        TxByte(s.family.value);
      }
      if s.smartOn.Some? {
        TxBytes(s.smartOn.value.rom);
      }
      SearchBytesAre(old(out), s);
    }

    // The bytes with the next bits of the current transfer, from where its fetch index stands.
    method TxBits(bits: nat)
      requires cur < |sch| && sch[cur].kind == Touch && 1 <= bits && sch[cur].fi + bits <= sch[cur].sc
      requires sch[cur].fi % 8 == 0 && (bits % 8 == 0 || sch[cur].fi + bits == sch[cur].sc)
      requires !sch[cur].detached ==> |sch[cur].buf| == BytesFor(sch[cur].sc)
      modifies this`out, this`sch
      ensures sch == old(sch)[cur := old(sch)[cur].(fi := old(sch)[cur].fi + bits)]
      ensures out == old(out) + DataBytes(old(sch)[cur], bits)
    {
      ghost var x0 := sch[cur];
      ghost var data := DataBytes(x0, bits);
      var x := sch[cur];
      var byteCnt := (bits - 1) / 8 + 1;
      ghost var k := 0;
      while byteCnt > 0
        invariant 0 <= byteCnt && k + byteCnt == |data| == BytesFor(bits)
        invariant x == x0.(fi := if byteCnt > 0 then x0.fi + 8 * k else x0.fi + bits)
        invariant sch == old(sch) && out == old(out) + data[..k]
        decreases byteCnt
      {
        FetchInside(x0, bits, k);
        var b := if !x.detached then x.buf[x.fi / 8] else 0xFF;
        assert b == data[k];
        var dataBits := x.sc - x.fi;
        if dataBits > 8 { dataBits := 8; }
        x := x.(fi := x.fi + dataBits);
        TxByte(b);
        assert (old(out) + data[..k]) + [b] == old(out) + data[..k + 1];
        byteCnt := byteCnt - 1;
        k := k + 1;
      }
      assert data[..k] == data;
      sch := sch[cur := x];
    }

    // How many bits go into the next packet.
    method NextBits() returns (bits: nat)
      requires cur < |sch| && sch[cur].fi < sch[cur].sc && hwBufFree >= 4
      ensures bits == BitCount(Abs(), sch[cur])
    {
      var hwBytesLeft := hwBufFree - 3;
      if hwBytesLeft > 16 { hwBytesLeft := 16; }
      bits := sch[cur].sc - sch[cur].fi;
      if bits > 128 { bits := 128; }
      var hwBitsLeft := hwBytesLeft * 8;
      if bits > hwBitsLeft { bits := hwBitsLeft; }
    }

    // Code and count of a touch packet.
    method TxTouchHead(bits: nat, spu: bool)
      requires 1 <= bits <= 128
      modifies this`out
      ensures out == old(out) + [CMD_TOUCH, TouchByte(bits, spu)]
    {
      TxByte(CMD_TOUCH);
      TxByte(TouchByte(bits, spu));
      assert old(out) + [CMD_TOUCH] + [TouchByte(bits, spu)] == old(out) + [CMD_TOUCH, TouchByte(bits, spu)];
    }

    // Head and bits of a touch packet.
    method TxTouchPacket(bits: nat)
      requires cur < |sch| && sch[cur].kind == Touch && 1 <= bits <= 128 && sch[cur].fi + bits <= sch[cur].sc
      requires sch[cur].fi % 8 == 0 && (bits % 8 == 0 || sch[cur].fi + bits == sch[cur].sc)
      requires !sch[cur].detached ==> |sch[cur].buf| == BytesFor(sch[cur].sc)
      modifies this`out, this`sch
      ensures var x := old(sch)[cur];
        && sch == old(sch)[cur := x.(fi := x.fi + bits)]
        && out == old(out) + ([CMD_TOUCH, TouchByte(bits, x.spu)] + DataBytes(x, bits))
    {
      TxTouchHead(bits, sch[cur].spu);
      TxBits(bits);
      Associative(old(out), [CMD_TOUCH, TouchByte(bits, sch[cur].spu)], DataBytes(old(sch)[cur], bits));
    }

    // A packet of bits; the transfer goes on in the next round if bits are left.
    method TxTouch() returns (ghost p: Packet, ghost x1: Xfr)
      requires cur < |sch| && XferReady(sch[cur]) && sch[cur].kind == Touch && sch[cur].fi % 8 == 0 && hwBufFree >= 4
      modifies this
      ensures Unchanged(old(Abs()), Abs())
      ensures (p, x1) == NextPacket(old(Abs()), old(sch)[old(cur)]) && Encodable(p)
      ensures sch == old(sch)[old(cur) := x1] && hwBufFree == old(hwBufFree) - Cost(p)
      ensures cur == (if x1.fi == x1.sc then old(cur) + 1 else old(cur))
      ensures out == old(out) + Encode(p)
    {
      var x := sch[cur];
      var bits := NextBits();
      p, x1 := NextPacket(Abs(), x).0, NextPacket(Abs(), x).1;
      hwBufFree := hwBufFree - (3 + ((bits - 1) / 8 + 1));
      TxTouchPacket(bits);
      TouchSent(old(sch), cur, sch[cur], x1);
      CountPacket();
    }

    // One more packet of the current transfer is on its way.
    method CountPacket()
      requires cur < |sch|
      modifies this`sch, this`cur
      ensures var x := old(sch)[old(cur)];
        && sch == old(sch)[old(cur) := x.(active := true, packets := x.packets + 1)]
        && cur == (if x.fi == x.sc then old(cur) + 1 else old(cur))
    {
      sch := sch[cur := sch[cur].(active := true, packets := sch[cur].packets + 1)];
      if sch[cur].fi == sch[cur].sc {
        cur := cur + 1;
      }
    }

    // A single command; the next transfer is up.
    method TxSingle() returns (ghost p: Packet, ghost x1: Xfr)
      requires cur < |sch| && XferReady(sch[cur]) && sch[cur].kind != Touch && hwBufFree >= Room(sch[cur].kind)
      modifies this
      ensures Unchanged(old(Abs()), Abs())
      ensures (p, x1) == NextPacket(old(Abs()), old(sch)[old(cur)]) && Encodable(p)
      ensures sch == old(sch)[old(cur) := x1] && hwBufFree == old(hwBufFree) - Cost(p)
      ensures cur == old(cur) + 1 && x1.fi == x1.sc
      ensures out == old(out) + Encode(p)
    {
      var x := sch[cur];
      p := NextPacket(Abs(), x).0;
      x1 := NextPacket(Abs(), x).1;
      match x.kind {
        case Reset =>
          hwBufFree := hwBufFree - 1;
          TxByte(CMD_RESET);
        case Enum =>
          hwBufFree := hwBufFree - 11;
          TxByte(CMD_ENUM);
          TxSearch(x.args.search);
          Associative(old(out), [CMD_ENUM], ArgBytes(x.args));
        case Probe =>
          hwBufFree := hwBufFree - 9;
          TxByte(CMD_PROBE);
          TxBytes(x.args.rom);
          Associative(old(out), [CMD_PROBE], x.args.rom);
      }
      sch := sch[cur := x.(active := true, fi := 1)];
      cur := cur + 1;
    }

    // The pump: it sends all it has credit for, in the order TxOne would, and no more.
    method OwTx()
      requires PumpReady(Abs()) && WholeFrom(sch, cur)
      modifies this
      ensures Abs() == Pump(old(Abs())).0
      ensures out == old(out) + EncodeAll(Pump(old(Abs())).1)
    {
      ghost var h0, ps := Abs(), [];
      assert [] + Pump(h0).1 == Pump(h0).1;
      PumpStaysReady(h0);
      while cur < |sch|
        invariant PumpReady(Abs()) && Onward(h0, ps, Abs()) && WholeFrom(sch, cur) && Pumpable(Abs())
        invariant out == old(out) + EncodeAll(ps)
        decreases hwBufFree
      {
        ghost var h := Abs();
        assert XferReady(sch[cur]);
        if sch[cur].skipped { break; }
        if hwBufFree < Room(sch[cur].kind) { break; }
        EmitForm(h);
        ghost var p, x1;
        if sch[cur].kind == Touch {
          p, x1 := TxTouch();
        } else {
          p, x1 := TxSingle();
        }
        assert TxOne(h) == Emit(Abs(), p);
        OnwardStep(h0, ps, h, p, Abs());
        PumpStaysReady(Abs());
        StillWhole(h, Abs());
        Associative(old(out), EncodeAll(ps), Encode(p));
        ps := ps + [p];
      }
      OnwardDone(h0, ps, Abs());
    }

    // ------------------------------------------------------------ responses

    // Each handler answers whether the response was consistent; if not, the caller detaches.
    method OnReset(skipped: bool, pd: bool) returns (ok: bool)
      modifies this
      ensures ok ==> |old(sch)| > 0 && told == old(told) + [Report(old(sch)[0].job, pd, [])]
      ensures (ok <==> RxPlain(old(Abs()), Reset, skipped).Some?) && out == old(out)
      ensures ok ==> Some(Abs()) == RxPlain(old(Abs()), Reset, skipped)
    {
      hwBufFree := hwBufFree + 1;
      ok := Finish(Reset, skipped, pd, []);
    }

    method OnProbe(skipped: bool, found: bool) returns (ok: bool)
      modifies this
      ensures ok ==> |old(sch)| > 0 && told == old(told) + [Report(old(sch)[0].job, found, [])]
      ensures (ok <==> RxPlain(old(Abs()), Probe, skipped).Some?) && out == old(out)
      ensures ok ==> Some(Abs()) == RxPlain(old(Abs()), Probe, skipped)
    {
      hwBufFree := hwBufFree + 9;
      ok := Finish(Probe, skipped, found, []);
    }

    method OnEnum(skipped: bool, found: bool) returns (ok: bool)
      modifies this
      ensures ok ==>
        && (found || |old(sch)| > 0)
        && told == if found then old(told) else old(told) + [Report(old(sch)[0].job, false, [])]
      ensures (ok <==> RxEnum(old(Abs()), skipped, found).Some?) && out == old(out)
      ensures ok ==> Some(Abs()) == RxEnum(old(Abs()), skipped, found)
    {
      hwBufFree := hwBufFree + 11;
      if found {
        busy := Rom(skipped);
        return true;
      }
      ok := Finish(Enum, skipped, false, []);
    }

    method OnRomCode(rom: seq<byte>) returns (ok: bool)
      requires busy.Rom? && |rom| == 8
      modifies this
      ensures ok ==> |old(sch)| > 0 && told == old(told) + [Report(old(sch)[0].job, true, rom)]
      ensures (ok <==> RxRom(old(Abs())).Some?) && out == old(out)
      ensures ok ==> Some(Abs()) == RxRom(old(Abs()))
    {
      var skipped := busy.skippedRom;
      busy := Idle;
      ok := Finish(Enum, skipped, true, rom);
    }

    // Completes the head if it is of the kind the response is for, and tells its user what
    // was found.
    method Finish(kind: Kind, skipped: bool, found: bool, rom: seq<byte>) returns (ok: bool)
      modifies this`sch, this`cur, this`log, this`told
      ensures ok ==> |old(sch)| > 0 && told == old(told) + [Report(old(sch)[0].job, found, rom)]
      ensures !ok ==> told == old(told)
      ensures ok <==> |old(sch)| > 0 && old(sch)[0].kind == kind
      ensures ok ==> Abs() == Complete(old(Abs()), 0, StatusOf(skipped))
      ensures !ok ==> Abs() == old(Abs())
    {
      if |sch| == 0 { return false; }
      if sch[0].kind != kind { return false; }
      told := told + [Report(sch[0].job, found, rom)];
      XfrComplete(0, if skipped then Skipped else Success);
      return true;
    }

    method OnTouchCount(spu: bool, bits: nat) returns (ok: bool)
      requires bits > 0
      modifies this`hwBufFree
      ensures ok <==> RxTouch(old(Abs()), spu, bits).Some?
      ensures ok ==> Some(Abs()) == RxTouch(old(Abs()), spu, bits)
    {
      if |sch| == 0 { return false; }
      if sch[0].kind != Touch { return false; }
      if sch[0].spu != spu { return false; }
      hwBufFree := hwBufFree + ((bits - 1) / 8 + 1 + 3);
      return hwBufFree <= hwBufLen;
    }

    method OnTouchSkip(spu: bool, bits: nat) returns (ok: bool)
      requires bits > 0
      modifies this
      ensures (ok <==> OnTouchSkipped(old(Abs()), spu, bits).Some?) && out == old(out)
      ensures ok ==> Some(Abs()) == OnTouchSkipped(old(Abs()), spu, bits)
    {
      ok := OnTouchCount(spu, bits);
      if ok {
        var x := sch[0];
        x := x.(packets := x.packets - 1, done := x.done + bits);
        if !x.skipped {
          x := x.(skipped := true, xfrd := x.si);
        }
        sch := sch[0 := x];
        if x.packets == 0 {
          XfrComplete(0, Skipped);
        }
      }
    }

    method OnTouchData(spu: bool, bits: nat) returns (ok: bool)
      requires bits > 0
      modifies this
      ensures (ok <==> OnTouchFull(old(Abs()), spu, bits).Some?) && out == old(out)
      ensures ok ==> Some(Abs()) == OnTouchFull(old(Abs()), spu, bits)
    {
      ok := OnTouchCount(spu, bits);
      busy := Bytes((bits - 1) / 8 + 1, bits);
    }

    // Stores a byte; the last one ends the packet, and perhaps the transfer.
    method OnTouchByte(b: byte) returns (ok: bool)
      requires StoreInside(Abs())
      modifies this
      ensures (ok <==> RxByte(old(Abs()), b).Some?) && out == old(out)
      ensures ok ==> Some(Abs()) == RxByte(old(Abs()), b)
    {
      if |sch| == 0 { return false; }
      var x := sch[0];
      if !x.detached {
        x := x.(buf := x.buf[x.si / 8 := b]);
      }
      var dataBits := x.sc - x.si;
      if dataBits > 8 { dataBits := 8; }
      x := x.(si := x.si + dataBits);
      assert x == Stored(sch[0], b);
      if busy.left > 1 {
        sch := sch[0 := x];
        busy := busy.(left := busy.left - 1);
      } else {
        var ended := EndPacket(x, false);
      }
      return true;
    }

    // The end of a packet. The transfer goes on as long as bits are missing; after a short
    // packet no more are sent, and it only waits for the packets still on their way.
    method EndPacket(x1: Xfr, short: bool) returns (ok: bool)
      requires |sch| > 0 && busy.Bytes?
      modifies this
      ensures out == old(out)
      ensures var h, x2 := old(Abs()), Ended(x1, old(busy).bits);
        var last := if short then x2.packets == 0 else x2.si == x2.sc;
        && (ok <==> last || x2.si != x2.sc)
        && Abs() == if last then Complete(h.(sch := h.sch[0 := x2.(xfrd := x2.si)], busy := Idle), 0, Success)
                    else h.(sch := h.sch[0 := x2], busy := Idle)
    {
      var x := x1.(packets := x1.packets - 1, done := x1.done + busy.bits);
      busy := Idle;
      var lastPacket := false;
      if short {
        if x.packets == 0 { lastPacket := true; }
      } else {
        if x.si == x.sc { lastPacket := true; }
      }
      if lastPacket {
        x := x.(xfrd := x.si);
        sch := sch[0 := x];
        XfrComplete(0, Success);
      } else {
        sch := sch[0 := x];
        if x.si == x.sc { return false; }
      }
      return true;
    }
  }

  // What the pump leaves alone.
  predicate Unchanged(h: Host, h1: Host) {
    h1.len == h.len && h1.busy == h.busy && h1.probes == h.probes && h1.nextJob == h.nextJob && h1.log == h.log
  }

  lemma TouchSent(sch0: seq<Xfr>, cur: nat, x: Xfr, x1: Xfr)
    requires cur < |sch0| && x == sch0[cur].(fi := x1.fi)
    requires x1 == sch0[cur].(active := true, fi := x1.fi, packets := sch0[cur].packets + 1)
    ensures sch0[cur := x][cur := x.(active := true, packets := x.packets + 1)] == sch0[cur := x1]
  {
  }

  // The fetch index of a touch transfer that goes on is at a byte's start.
  predicate WholeFrom(sch: seq<Xfr>, cur: nat) {
    forall i :: cur <= i < |sch| && sch[i].kind == Touch ==> sch[i].fi % 8 == 0
  }

  lemma FetchInside(x: Xfr, bits: nat, k: nat)
    requires x.fi % 8 == 0 && x.fi + bits <= x.sc && k < BytesFor(bits)
    requires bits % 8 == 0 || x.fi + bits == x.sc
    ensures x.fi + 8 * k < x.fi + bits && (x.fi + 8 * k) / 8 == x.fi / 8 + k < BytesFor(x.sc)
    ensures k + 1 < BytesFor(bits) ==> x.sc - (x.fi + 8 * k) > 8
    ensures k + 1 == BytesFor(bits) ==>
      (if x.sc - (x.fi + 8 * k) > 8 then 8 else x.sc - (x.fi + 8 * k)) == bits - 8 * k
  {
  }

  lemma StillWhole(h: Host, h1: Host)
    requires PumpReady(h) && WholeFrom(h.sch, h.cur) && Pumpable(h) && TxOne(h).Emit? && TxOne(h).h == h1
    ensures WholeFrom(h1.sch, h1.cur)
  {
    forall i | h1.cur <= i < |h1.sch| && h1.sch[i].kind == Touch ensures h1.sch[i].fi % 8 == 0 {
      assert h.sch[i].kind == Touch && h.cur <= i;
    }
  }

  // The host's invariant makes the pump ready.
  lemma HostIsReady(h: Host)
    requires OwSteps.HostOK(h)
    ensures PumpReady(h) && WholeFrom(h.sch, h.cur)
  {
    forall i | h.cur <= i < |h.sch| ensures XferReady(h.sch[i]) && (h.sch[i].kind == Touch ==> h.sch[i].fi % 8 == 0) {
      assert OwSteps.XferOK(h.sch[i]);
    }
  }
}
