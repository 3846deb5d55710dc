/**
 The host side of the 1-Wire interface, on values. Four kinds of transfer share one
 list: reset, touch bits, enumeration and probe. A touch transfer sends its bits in
 packets from the buffer it receives into; the others are a single command.

 `job`, `done`, `orig`, `cut`, `nextJob` and `log` are bookkeeping for the statements.
 A transfer that is a single command counts as one unit: sc is 1, and fi says whether
 it was sent.
 */
module OwHost {
  import opened Basics

  datatype Status = Success | Skipped | Cancelled

  datatype Kind = Reset | Touch | Enum | Probe

  type RomCode = s: seq<byte> | |s| == 8 witness [0, 0, 0, 0, 0, 0, 0, 0]

  // A branch of a switch on the bus that is to be turned on for an enumeration.
  datatype SmartOn = SmartOn(aux: bool, rom: RomCode)

  datatype Search = Search(next: bool, alarm: bool, family: Option<byte>, smartOn: Option<SmartOn>)

  // What an enumeration or a probe asks for.
  datatype Args = NoArgs | SearchArgs(search: Search) | RomArgs(rom: RomCode)

  predicate ArgsFit(kind: Kind, args: Args) {
    (kind == Enum <==> args.SearchArgs?) && (kind == Probe <==> args.RomArgs?)
  }

  function Bit(on: bool, weight: byte): byte {
    if on then weight else 0
  }

  function SearchFlags(s: Search): (b: byte)
    ensures b < 32
  {
    Bit(s.next, 1) + Bit(s.alarm, 2) + Bit(s.family.Some?, 4) +
    Bit(s.smartOn.Some?, 8) + Bit(s.smartOn.Some? && s.smartOn.value.aux, 16)
  }

  // What follows the command code of an enumeration or a probe.
  function ArgBytes(args: Args): seq<byte> {
    match args
    case NoArgs => []
    case SearchArgs(s) =>
      [SearchFlags(s)]
      + (if s.family.Some? then [s.family.value] else [])
      + (if s.smartOn.Some? then s.smartOn.value.rom else [])
    case RomArgs(rom) => rom
  }

  // `packets` counts the touch packets on their way, `done` the units answered; `buf` is the
  // user's buffer, as far as the host has changed it, `orig` the buffer as the user filled
  // it, `cut` how much was sent when the user destroyed the transfer.
  datatype Xfr = Xfr(
    job: nat, kind: Kind, spu: bool, args: Args, active: bool, detached: bool,
    buf: seq<byte>, sc: nat, fi: nat, si: nat, packets: int, skipped: bool, xfrd: nat,
    done: nat, orig: seq<byte>, cut: nat)

  datatype Done = Done(x: Xfr, status: Status)

  datatype Packet = Packet(job: nat, kind: Kind, spu: bool, last: bool, bits: nat, data: seq<byte>)

  datatype Request =
    | ResetRequest
    | TouchRequest(buf: seq<byte>, sc: nat, spu: bool)
    | EnumRequest(search: Search)
    | ProbeRequest(rom: RomCode)

  // What the receiver is in the middle of: the bytes of a touch answer of so many bits, or
  // the ROM code of an enumeration answer.
  datatype Busy = Idle | Bytes(left: nat, bits: nat) | Rom(skippedRom: bool)

  // `probes`: the firmware knows the probe command.
  datatype Host = Host(
    sch: seq<Xfr>, cur: nat, len: nat, free: nat, busy: Busy, probes: bool,
    nextJob: nat, log: seq<Done>)

  // Bytes that hold so many bits.
  function BytesFor(bits: nat): nat {
    (bits + 7) / 8
  }

  function Cost(p: Packet): nat {
    match p.kind
    case Reset => 1
    case Touch => 3 + |p.data|
    case Enum => 11
    case Probe => 9
  }

  // ---------------------------------------------------------------- user calls

  // A touch buffer has to hold the bits; that is up to the user.
  predicate MaySchedule(h: Host, r: Request) {
    match r
    case TouchRequest(buf, sc, _) => sc > 0 && |buf| == BytesFor(sc)
    case ProbeRequest(_) => h.probes
    case _ => true
  }

  function NewXfr(h: Host, r: Request): Xfr {
    var x := Xfr(h.nextJob, Reset, false, NoArgs, false, false, [], 1, 0, 0, 0, false, 0, 0, [], 0);
    match r
    case ResetRequest => x
    case TouchRequest(buf, sc, spu) => x.(kind := Touch, spu := spu, buf := buf, sc := sc, orig := buf)
    case EnumRequest(search) => x.(kind := Enum, args := SearchArgs(search))
    case ProbeRequest(rom) => x.(kind := Probe, args := RomArgs(rom))
  }

  function Schedule(h: Host, r: Request): Host {
    if MaySchedule(h, r) then h.(sch := h.sch + [NewXfr(h, r)], nextJob := h.nextJob + 1) else h
  }

  function Complete(h: Host, i: nat, status: Status): Host
    requires i < |h.sch|
  {
    h.(sch := Without(h.sch, i), cur := if i < h.cur then h.cur - 1 else h.cur,
       log := h.log + [Done(h.sch[i], status)])
  }

  function IndexOf(sch: seq<Xfr>, job: nat): (i: nat)
    ensures i <= |sch|
    ensures i < |sch| ==> sch[i].job == job
  {
    if sch == [] then 0 else if sch[0].job == job then 0 else 1 + IndexOf(sch[1..], job)
  }

  function Cancel(h: Host, job: nat): Host {
    var i := IndexOf(h.sch, job);
    if i < |h.sch| && !h.sch[i].active then Complete(h, i, Cancelled) else h
  }

  // From now on the buffer is the user's again: the host must not look at it any more.
  function Detach(x: Xfr): Xfr {
    if x.detached then x else x.(detached := true, cut := x.fi)
  }

  function Destroy(h: Host, job: nat): Host {
    var h1 := Cancel(h, job);
    var i := IndexOf(h1.sch, job);
    if i < |h1.sch| then h1.(sch := h1.sch[i := Detach(h1.sch[i])]) else h1
  }

  // ---------------------------------------------------------------- transmit pump

  datatype Emission = Quiet | Emit(h: Host, p: Packet)

  // What the pump needs of the transfer it works on.
  predicate Pumpable(h: Host) {
    h.cur < |h.sch| ==>
      var x := h.sch[h.cur];
      x.fi < x.sc && (x.kind == Touch && !x.detached ==> |x.buf| == BytesFor(x.sc))
  }

  // At most 128 bits and no more than are left; if the bytes do not all fit, as many
  // whole bytes as do.
  function BitCount(h: Host, x: Xfr): (n: nat)
    requires x.fi < x.sc && h.free >= 4
    ensures 1 <= n <= 128 && x.fi + n <= x.sc && 3 + BytesFor(n) <= h.free
    ensures n % 8 == 0 || x.fi + n == x.sc
  {
    Min(Min(x.sc - x.fi, 128), 8 * Min(h.free - 3, 16))
  }

  function DataBytes(x: Xfr, bits: nat): (r: seq<byte>)
    requires x.fi + bits <= x.sc && (!x.detached ==> |x.buf| == BytesFor(x.sc))
    ensures |r| == BytesFor(bits)
  {
    if x.detached then seq(BytesFor(bits), _ => 0xFF)
    else x.buf[x.fi / 8..x.fi / 8 + BytesFor(bits)]
  }

  function Room(kind: Kind): nat {
    match kind
    case Reset => 1
    case Touch => 4
    case Enum => 11
    case Probe => 9
  }

  // The command at hand and the transfer after it was sent.
  function NextPacket(h: Host, x: Xfr): (r: (Packet, Xfr))
    requires x.fi < x.sc && h.free >= Room(x.kind) && (x.kind == Touch && !x.detached ==> |x.buf| == BytesFor(x.sc))
    ensures r.1 == x.(active := true, fi := r.1.fi, packets := r.1.packets) && x.fi < r.1.fi <= x.sc
    ensures Cost(r.0) <= h.free
  {
    if x.kind == Touch then
      var n := BitCount(h, x);
      (Packet(x.job, Touch, x.spu, x.fi + n == x.sc, n, DataBytes(x, n)),
       x.(active := true, fi := x.fi + n, packets := x.packets + 1))
    else
      (Packet(x.job, x.kind, x.spu, true, 1, ArgBytes(x.args)), x.(active := true, fi := x.sc))
  }

  // One command's worth of the transmit pump.
  function TxOne(h: Host): Emission
    requires Pumpable(h)
  {
    if h.cur >= |h.sch| || h.sch[h.cur].skipped || h.free < Room(h.sch[h.cur].kind) then Quiet
    else
      var (p, x1) := NextPacket(h, h.sch[h.cur]);
      Emit(h.(free := h.free - Cost(p), sch := h.sch[h.cur := x1],
              cur := if x1.fi == x1.sc then h.cur + 1 else h.cur), p)
  }

  // ---------------------------------------------------------------- responses

  function StatusOf(skipped: bool): Status {
    if skipped then Skipped else Success
  }

  // Reset and probe answers are complete at once.
  function RxPlain(h: Host, kind: Kind, skipped: bool): Option<Host>
    requires kind == Reset || kind == Probe
  {
    if |h.sch| == 0 || h.sch[0].kind != kind then None
    else Some(Complete(h.(free := h.free + Room(kind)), 0, StatusOf(skipped)))
  }

  // An enumeration answer returns its credit first; if something was found, the ROM code
  // is still to come.
  function RxEnum(h: Host, skipped: bool, found: bool): Option<Host> {
    var h1 := h.(free := h.free + 11);
    if found then Some(h1.(busy := Rom(skipped)))
    else EnumDone(h1, skipped)
  }

  function EnumDone(h: Host, skipped: bool): Option<Host> {
    if |h.sch| == 0 || h.sch[0].kind != Enum then None
    else Some(Complete(h, 0, StatusOf(skipped)))
  }

  function RxRom(h: Host): Option<Host>
    requires h.busy.Rom?
  {
    EnumDone(h.(busy := Idle), h.busy.skippedRom)
  }

  // The head of a touch answer.
  function RxTouch(h: Host, spu: bool, bits: nat): Option<Host>
    requires bits > 0
  {
    if |h.sch| == 0 || h.sch[0].kind != Touch || h.sch[0].spu != spu then None
    else
      var free := h.free + BytesFor(bits) + 3;
      if free > h.len then None else Some(h.(free := free))
  }

  function RxTouchSkip(h: Host, bits: nat): Option<Host> {
    if |h.sch| == 0 then None
    else
      var h1 := h.(sch := h.sch[0 := Missed(h.sch[0], bits)]);
      Some(if h1.sch[0].packets == 0 then Complete(h1, 0, Skipped) else h1)
  }

  function Missed(x: Xfr, bits: nat): Xfr {
    x.(packets := x.packets - 1, skipped := true, xfrd := if x.skipped then x.xfrd else x.si,
       done := x.done + bits)
  }

  function OnTouchSkipped(h: Host, spu: bool, bits: nat): Option<Host>
    requires bits > 0
  {
    var o := RxTouch(h, spu, bits);
    if o.None? then None else RxTouchSkip(o.value, bits)
  }

  function OnTouchFull(h: Host, spu: bool, bits: nat): Option<Host>
    requires bits > 0
  {
    var o := RxTouch(h, spu, bits);
    if o.None? then None else Some(o.value.(busy := Bytes(BytesFor(bits), bits)))
  }

  predicate StoreInside(h: Host) {
    h.busy.Bytes? && h.busy.left > 0 && (|h.sch| > 0 ==> h.sch[0].si <= h.sch[0].sc) &&
    (|h.sch| > 0 && !h.sch[0].detached ==> h.sch[0].si / 8 < |h.sch[0].buf|)
  }

  function Stored(x: Xfr, b: byte): Xfr
    requires x.si <= x.sc && (!x.detached ==> x.si / 8 < |x.buf|)
  {
    x.(buf := if x.detached then x.buf else x.buf[x.si / 8 := b], si := x.si + Min(x.sc - x.si, 8))
  }

  function Ended(x: Xfr, bits: nat): Xfr {
    x.(packets := x.packets - 1, done := x.done + bits)
  }

  // A byte of a touch answer; the last one ends the packet, and perhaps the transfer.
  function RxByte(h: Host, b: byte): Option<Host>
    requires StoreInside(h)
  {
    if |h.sch| == 0 then None
    else
      var x1 := Stored(h.sch[0], b);
      if h.busy.left > 1 then
        Some(h.(sch := h.sch[0 := x1], busy := h.busy.(left := h.busy.left - 1)))
      else
        var x2 := Ended(x1, h.busy.bits);
        if x2.si == x2.sc then
          Some(Complete(h.(sch := h.sch[0 := x2.(xfrd := x2.si)], busy := Idle), 0, Success))
        else Some(h.(sch := h.sch[0 := x2], busy := Idle))
  }
}
