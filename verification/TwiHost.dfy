/**
 The host side of the TWI master interface, on values: the scheduled transfers
 with their counters and phases, the credit the host holds on the device's
 command buffer, and what each entry point does to them.

 A transfer object keeps its `handle` for life and gets a fresh `job` number each
 time it is scheduled. Job numbers, `orig`, `cut`, `nextJob`, `nextHandle` and `log` are
 bookkeeping for the statements; nothing the host does depends on them. `buf` is the
 user's buffer, as far as the host has changed it; `orig` is the buffer as the user handed
 it over, and `cut` how much of it had gone through when the user destroyed the transfer.
 */
module TwiHost {
  import opened Basics

  datatype Dir = Write | Read

  // Which part of a transfer has been reached: START and address, or the data.
  datatype Phase = Addressing | Data

  // Which list a transfer object is in.
  datatype Loc = Cached | Assigned | Scheduled

  datatype Status = Success | Cancelled | BusError | ArbLost | Skipped

  datatype Xfr = Xfr(
    handle: nat, job: nat,
    active: bool, detached: bool,
    buf: seq<byte>, sc: nat, cmd: nat, rsp: nat, xfrd: nat,
    ad: byte, dir: Dir, forceStop: bool,
    txPhase: Phase, rxPhase: Phase,
    nack: bool, short: bool, skipped: bool,
    orig: seq<byte>, cut: nat)

  // What the user asks for when scheduling.
  datatype Request = Request(buf: seq<byte>, ad: byte, dir: Dir, forceStop: bool)

  // A transfer as it was when it left the scheduled list.
  datatype Done = Done(x: Xfr, status: Status)

  // Commands that occupy the device's master buffer.
  datatype Cmd =
    | Start(u: byte)
    | Tx(data: seq<byte>)
    | Rx(n: nat, last: bool)

  // Whether a command is the last of its transfer, and if so whether a STOP is due.
  datatype Progress = More | Final(stop: bool)

  datatype Entry = Stop | Of(job: nat, cmd: Cmd, progress: Progress)

  datatype Rsp =
    | RspStart(skipped: bool, nack: bool, ad: byte, dir: Dir)
    | RspStop(stopSkipped: bool)
    | RspTx(short: bool, nack: bool, cnt: nat, sent: nat)
    | RspRx(short: bool, nack: bool, cnt: nat, rcvd: nat)

  // `cur` indexes the transfer the pump works on; |sch| stands for the null pointer.
  // `rxLeft` counts the payload bytes of the current Rx response still to arrive, `early`
  // is the credit that the head of the response being received has already returned.
  datatype Host = Host(
    cache: seq<nat>, assign: seq<nat>, sch: seq<Xfr>, cur: nat,
    loc: map<nat, Loc>, cachedCnt: int, assignedCnt: int, schCnt: int,
    len: nat, free: nat, txStop: bool, enabled: bool,
    busError: bool, arbLost: bool, rxLeft: nat, early: nat,
    nextHandle: nat, nextJob: nat, log: seq<Done>)

  const IDLE := Host([], [], [], 0, map[], 0, 0, 0, 0, 0, false, false, false, false, 0, 0, 0, 0, [])

  // ---------------------------------------------------------------- sizes

  function Size(c: Cmd): nat {
    match c
    case Start(_) => 0
    case Tx(data) => |data|
    case Rx(n, _) => n
  }

  // Bytes a command occupies in the device's master buffer.
  function Cost(e: Entry): nat {
    match e
    case Stop => 1
    case Of(_, Start(_), _) => 2
    case Of(_, c, _) => 3 + Size(c)
  }

  function AddressByte(x: Xfr): byte {
    (x.ad * 2) % 256 + (if x.dir == Read then 1 else 0)
  }

  predicate Probe(x: Xfr) {
    x.dir == Write && x.sc == 0
  }

  // ---------------------------------------------------------------- pool

  function IndexOf(s: seq<nat>, handle: nat): (i: nat)
    ensures i <= |s|
    ensures i < |s| ==> s[i] == handle
    ensures i == |s| ==> handle !in s
  {
    if s == [] then 0 else if s[0] == handle then 0 else 1 + IndexOf(s[1..], handle)
  }

  function Handles(sch: seq<Xfr>): (r: seq<nat>)
    ensures |r| == |sch|
    ensures forall i :: 0 <= i < |sch| ==> r[i] == sch[i].handle
  {
    seq(|sch|, i requires 0 <= i < |sch| => sch[i].handle)
  }

  predicate At(h: Host, handle: nat, loc: Loc) {
    handle in h.loc && h.loc[handle] == loc
  }

  // The first handle of a list.
  function HeadOf(s: seq<nat>): nat {
    if s == [] then 0 else s[0]
  }

  // The list without the handle.
  function Unlinked(s: seq<nat>, handle: nat): seq<nat> {
    var i := IndexOf(s, handle);
    if i < |s| then Without(s, i) else s
  }

  function Assign(h: Host, handle: nat): Host {
    h.(assign := h.assign + [handle], assignedCnt := h.assignedCnt + 1, loc := h.loc[handle := Assigned])
  }

  function Create(h: Host): Host {
    if h.cachedCnt > 0 then
      var handle := HeadOf(h.cache);
      Assign(h.(cache := Unlinked(h.cache, handle), cachedCnt := h.cachedCnt - 1), handle)
    else
      Assign(h.(nextHandle := h.nextHandle + 1), h.nextHandle)
  }

  predicate MaySchedule(h: Host, handle: nat, r: Request) {
    !(r.dir == Read && |r.buf| == 0) && At(h, handle, Assigned)
  }

  function NewXfr(h: Host, handle: nat, r: Request): Xfr {
    Xfr(handle, h.nextJob, false, false, r.buf, |r.buf|, 0, 0, 0,
        r.ad, r.dir, r.forceStop, Addressing, Addressing, false, false, false, r.buf, 0)
  }

  function Schedule(h: Host, handle: nat, r: Request): Host {
    if MaySchedule(h, handle, r) then
      h.(assign := Unlinked(h.assign, handle), assignedCnt := h.assignedCnt - 1,
         sch := h.sch + [NewXfr(h, handle, r)], schCnt := h.schCnt + 1,
         loc := h.loc[handle := Scheduled],
         nextJob := h.nextJob + 1)
    else h
  }

  function Unassign(h: Host, handle: nat): Host {
    h.(assign := Unlinked(h.assign, handle), assignedCnt := h.assignedCnt - 1,
       cache := h.cache + [handle], cachedCnt := h.cachedCnt + 1,
       loc := h.loc[handle := Cached])
  }

  // Without transfer i, which is in no list for the moment.
  function Taken(h: Host, i: nat, status: Status): Host
    requires i < |h.sch|
  {
    h.(sch := Without(h.sch, i), schCnt := h.schCnt - 1,
       cur := if i < h.cur then h.cur - 1 else h.cur,
       log := h.log + [Done(h.sch[i], status)])
  }

  // Transfer i leaves the scheduled list with the given status.
  function Complete(h: Host, i: nat, status: Status): Host
    requires i < |h.sch|
  {
    var x := h.sch[i];
    var h1 := Assign(Taken(h, i, status), x.handle);
    if x.detached then Unassign(h1, x.handle) else h1
  }

  function CompleteAll(h: Host): Host
    decreases |h.sch|
  {
    if |h.sch| == 0 then h else CompleteAll(Complete(h, 0, Cancelled))
  }

  // Only a scheduled transfer that is not active yet can be cancelled.
  function Cancel(h: Host, handle: nat): Host {
    var i := IndexOf(Handles(h.sch), handle);
    if At(h, handle, Scheduled) && i < |h.sch| && !h.sch[i].active then Complete(h, i, Cancelled) else h
  }

  // From now on the buffer is the user's again: the host must not look at it any more.
  function Detach(x: Xfr): Xfr {
    if x.detached then x
    else x.(detached := true, cut := if x.dir == Write then x.cmd else x.xfrd)
  }

  // Marks the transfer, to be unassigned when it completes.
  function MarkDetached(h: Host, handle: nat): Host {
    var i := IndexOf(Handles(h.sch), handle);
    if i < |h.sch| then h.(sch := h.sch[i := Detach(h.sch[i])]) else h
  }

  function Destroy(h: Host, handle: nat): Host {
    var h1 := Cancel(h, handle);
    if At(h1, handle, Assigned) then Unassign(h1, handle) else MarkDetached(h1, handle)
  }

  // ---------------------------------------------------------------- transmit pump

  // What the pump needs to know about the transfer it works on.
  predicate Pumpable(h: Host) {
    h.cur < |h.sch| ==>
      var x := h.sch[h.cur];
      && x.cmd <= x.sc
      && (x.txPhase == Data ==> x.cmd < x.sc)
      && (!x.detached ==> |x.buf| == x.sc)
  }

  function DataBytes(x: Xfr, n: nat): (r: seq<byte>)
    requires x.cmd + n <= x.sc
    requires !x.detached ==> |x.buf| == x.sc
    ensures |r| == n
  {
    if x.detached then seq(n, _ => 0xFF) else x.buf[x.cmd..x.cmd + n]
  }

  // Whether a STOP is due once the transfer at cur has been emitted.
  predicate StopDue(h: Host, x: Xfr) {
    h.enabled && (x.forceStop || h.cur + 1 >= |h.sch|)
  }

  function NextXfr(h: Host, x: Xfr): Host {
    h.(txStop := StopDue(h, x), cur := h.cur + 1)
  }

  datatype Emission = Quiet | Emit(h: Host, e: Entry)

  function EmitStart(h: Host, x: Xfr): Emission
    requires h.cur < |h.sch| && h.free >= 2
  {
    var x1 := x.(active := true, txPhase := if Probe(x) then Addressing else Data);
    var h1 := h.(free := h.free - 2, sch := h.sch[h.cur := x1]);
    var u := AddressByte(x);
    if Probe(x) then Emit(NextXfr(h1, x1), Of(x.job, Start(u), Final(StopDue(h1, x1))))
    else Emit(h1, Of(x.job, Start(u), More))
  }

  // Payload size of the next data packet: at most 32, and it has to fit.
  function PacketSize(h: Host, x: Xfr): (n: nat)
    requires x.cmd < x.sc && h.free >= 4
    ensures 1 <= n <= 32 && n <= x.sc - x.cmd && 3 + n <= h.free
  {
    Min(Min(x.sc - x.cmd, 32), h.free - 3)
  }

  function EmitData(h: Host, x: Xfr): Emission
    requires h.cur < |h.sch| && h.free >= 4 && x.cmd < x.sc
    requires !x.detached ==> |x.buf| == x.sc
  {
    var n := PacketSize(h, x);
    var last := x.cmd + n == x.sc;
    var x1 := x.(cmd := x.cmd + n);
    var h1 := h.(free := h.free - (3 + n), sch := h.sch[h.cur := x1]);
    var c := if x.dir == Write then Tx(DataBytes(x, n)) else Rx(n, last);
    if last then Emit(NextXfr(h1, x1), Of(x.job, c, Final(StopDue(h1, x1))))
    else Emit(h1, Of(x.job, c, More))
  }

  // One command's worth of the transmit pump.
  function TxOne(h: Host): Emission
    requires Pumpable(h)
  {
    if h.txStop then
      if h.free < 1 then Quiet else Emit(h.(free := h.free - 1, txStop := false), Stop)
    else if h.cur >= |h.sch| then Quiet
    else
      var x := h.sch[h.cur];
      if x.short then Quiet
      else if x.txPhase == Addressing then
        if h.free < 2 then Quiet else EmitStart(h, x)
      else
        if h.free < 4 then Quiet else EmitData(h, x)
  }

  // ---------------------------------------------------------------- responses

  predicate CanComplete(x: Xfr) {
    x.rxPhase == x.txPhase && (if x.short then x.rsp == x.cmd else x.rsp == x.sc)
  }

  function FinalStatus(h: Host, x: Xfr): Status {
    if h.busError then BusError
    else if h.arbLost then ArbLost
    else if x.skipped then Skipped
    else Success
  }

  // The head transfer completes with the status its flags call for.
  function CompleteHead(h: Host): Host
    requires |h.sch| > 0
  {
    Complete(h, 0, FinalStatus(h, h.sch[0])).(busError := false, arbLost := false)
  }

  function CheckHead(h: Host): Host
    requires |h.sch| > 0
  {
    if CanComplete(h.sch[0]) then CompleteHead(h) else h
  }

  function RxStart(h: Host, skipped: bool, nack: bool, ad: byte, dir: Dir): Option<Host> {
    if |h.sch| == 0 then None
    else
      var x := h.sch[0];
      if x.rxPhase != Addressing || ad != x.ad || dir != x.dir then None
      else
        var x1 := x.(nack := x.nack || nack, skipped := x.skipped || skipped, short := x.short || skipped);
        if CanComplete(x1) then Some(CompleteHead(h.(sch := h.sch[0 := x1])))
        else Some(h.(sch := h.sch[0 := x1.(rxPhase := Data)]))
  }

  function RxMasterTx(h: Host, short: bool, nack: bool, cnt: nat, sent: nat): Option<Host> {
    if |h.sch| == 0 then None
    else
      var x := h.sch[0];
      if x.rxPhase != Data || (!short && x.short) then None
      else
        var x1 := x.(rsp := x.rsp + cnt, xfrd := x.xfrd + sent, nack := x.nack || nack, short := x.short || short);
        Some(CheckHead(h.(sch := h.sch[0 := x1])))
  }

  function RxMasterRx(h: Host, short: bool, nack: bool, cnt: nat, rcvd: nat): Option<Host> {
    if |h.sch| == 0 then None
    else
      var x := h.sch[0];
      if x.rxPhase != Data || (!short && x.short) then None
      else
        var x1 := x.(rsp := x.rsp + cnt, nack := x.nack || nack, short := x.short || short);
        var h1 := h.(sch := h.sch[0 := x1], rxLeft := rcvd);
        Some(if rcvd == 0 then CheckHead(h1) else h1)
  }

  // A payload byte of the current Rx response; the store has to stay inside the buffer.
  function RxByte(h: Host, b: byte): Option<Host>
    requires h.rxLeft > 0
    requires |h.sch| > 0 && !h.sch[0].detached ==> h.sch[0].xfrd < |h.sch[0].buf|
  {
    if |h.sch| == 0 then None
    else
      var x := h.sch[0];
      if x.rxPhase != Data then None
      else
        var x1 := x.(buf := if x.detached then x.buf else x.buf[x.xfrd := b], xfrd := x.xfrd + 1);
        var h1 := h.(sch := h.sch[0 := x1], rxLeft := h.rxLeft - 1);
        if h1.rxLeft == 0 then Some(CheckHead(h1))
        else if x1.xfrd == x1.sc then None
        else Some(h1)
  }

  // The byte count of a data response returns its credit, before the rest of it is there.
  function OnCount(h: Host, cnt: nat): Option<Host> {
    if h.free + cnt + 3 > h.len then None
    else Some(h.(free := h.free + cnt + 3, early := cnt + 3))
  }

  // A response that is complete but for its payload.
  function OnResponse(h: Host, r: Rsp): Option<Host> {
    match r
    case RspStart(skipped, nack, ad, dir) =>
      RxStart(h.(free := h.free + 2), skipped, nack, ad, dir)
    case RspStop(_) =>
      Some(h.(free := h.free + 1))
    case RspTx(short, nack, cnt, sent) =>
      var o := if h.early > 0 then Some(h) else OnCount(h, cnt);
      if o.None? then None else RxMasterTx(o.value.(early := 0), short, nack, cnt, sent)
    case RspRx(short, nack, cnt, rcvd) =>
      var o := if h.early > 0 then Some(h) else OnCount(h, cnt);
      if o.None? then None else RxMasterRx(o.value.(early := 0), short, nack, cnt, rcvd)
  }
}
