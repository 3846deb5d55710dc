/**
 The host side of the SPI interface, on values. A transfer sends from and receives
 into one and the same buffer: `fi` is where the next byte to send is fetched, `si`
 where the next byte received is stored.

 `job`, `orig`, `cut`, `nextJob` and `log` are bookkeeping for the statements; nothing
 the host does depends on them, except that users name a transfer by its job.
 */
module SpiHost {
  import opened Basics

  datatype Status = Success | Skipped | Cancelled

  // `buf` is the user's buffer, as far as the host has changed it, `orig` the buffer as the
  // user filled it, `cut` how much of it had been sent when the user destroyed the transfer.
  datatype Xfr = Xfr(
    job: nat, active: bool, detached: bool,
    buf: seq<byte>, sc: nat, fi: nat, si: nat, xfrd: nat, ss: nat, skipped: bool,
    orig: seq<byte>, cut: nat)

  // A transfer as it was when it left the scheduled list.
  datatype Done = Done(x: Xfr, status: Status)

  // A data packet; `job` is bookkeeping, the wire does not carry it.
  datatype Packet = Packet(job: nat, ss: nat, last: bool, data: seq<byte>)

  // `cur` indexes the transfer the pump works on; |sch| stands for the null pointer.
  // `left` counts the bytes still to come of the answer being received, `last` is that
  // answer's flag.
  datatype Host = Host(
    sch: seq<Xfr>, cur: nat, len: nat, free: nat, left: nat, last: bool,
    nextJob: nat, log: seq<Done>)

  // ---------------------------------------------------------------- user calls

  function NewXfr(h: Host, buf: seq<byte>, ss: nat): Xfr {
    Xfr(h.nextJob, false, false, buf, |buf|, 0, 0, 0, ss, false, buf, 0)
  }

  function Schedule(h: Host, buf: seq<byte>, ss: nat): Host {
    if ss > 3 || |buf| == 0 then h
    else h.(sch := h.sch + [NewXfr(h, buf, ss)], nextJob := h.nextJob + 1)
  }

  // Transfer i leaves the scheduled list.
  function Complete(h: Host, i: nat, status: Status): Host
    requires i < |h.sch|
  {
    h.(sch := Without(h.sch, i), cur := if i < h.cur then h.cur - 1 else h.cur,
       log := h.log + [Done(h.sch[i], status)])
  }

  function CompleteAll(h: Host): Host
    decreases |h.sch|
  {
    if |h.sch| == 0 then h else CompleteAll(Complete(h, 0, Cancelled))
  }

  function IndexOf(sch: seq<Xfr>, job: nat): (i: nat)
    ensures i <= |sch|
    ensures i < |sch| ==> sch[i].job == job
  {
    if sch == [] then 0 else if sch[0].job == job then 0 else 1 + IndexOf(sch[1..], job)
  }

  function Cancel(h: Host, job: nat): Host {
    var i := IndexOf(h.sch, job);
    if i < |h.sch| && !h.sch[i].active then Complete(h, i, Cancelled) else h
  }

  // From now on the buffer is the user's again: the host must not look at it any more.
  function Detach(x: Xfr): Xfr {
    if x.detached then x else x.(detached := true, cut := x.fi)
  }

  function Destroy(h: Host, job: nat): Host {
    var h1 := Cancel(h, job);
    var i := IndexOf(h1.sch, job);
    if i < |h1.sch| then h1.(sch := h1.sch[i := Detach(h1.sch[i])]) else h1
  }

  // ---------------------------------------------------------------- transmit pump

  datatype Emission = Quiet | Emit(h: Host, p: Packet)

  // What the pump needs of the transfer it works on.
  predicate Pumpable(h: Host) {
    h.cur < |h.sch| ==> var x := h.sch[h.cur]; x.fi < x.sc && (!x.detached ==> |x.buf| == x.sc)
  }

  // At most 32 bytes, no more than are left, and packet and header have to fit.
  function PacketSize(h: Host, x: Xfr): (n: nat)
    requires x.fi < x.sc && h.free >= 3
    ensures 1 <= n <= 32 && n <= x.sc - x.fi && 2 + n <= h.free
  {
    Min(Min(x.sc - x.fi, 32), h.free - 2)
  }

  function DataBytes(x: Xfr, n: nat): (r: seq<byte>)
    requires x.fi + n <= x.sc && (!x.detached ==> |x.buf| == x.sc)
    ensures |r| == n
  {
    if x.detached then seq(n, _ => 0xFF) else x.buf[x.fi..x.fi + n]
  }

  // One packet's worth of the transmit pump.
  function TxOne(h: Host): Emission
    requires Pumpable(h)
  {
    if h.cur >= |h.sch| || h.sch[h.cur].skipped || h.free < 3 then Quiet
    else
      var x := h.sch[h.cur];
      var n := PacketSize(h, x);
      var x1 := x.(active := true, fi := x.fi + n);
      var last := x1.fi == x1.sc;
      Emit(h.(free := h.free - (2 + n), sch := h.sch[h.cur := x1], cur := if last then h.cur + 1 else h.cur),
           Packet(x.job, x.ss, last, DataBytes(x, n)))
  }

  // ---------------------------------------------------------------- responses

  // The head of an answer: it names the slave select line, and its count returns credit.
  function Credit(h: Host, ss: nat, cnt: nat): Option<Host> {
    if |h.sch| == 0 || h.sch[0].ss != ss || h.free + cnt + 2 > h.len then None
    else Some(h.(free := h.free + cnt + 2))
  }

  // An answer that says its packet was skipped.
  function RxSkip(h: Host, cnt: nat): Option<Host> {
    if |h.sch| == 0 then None
    else
      var x := h.sch[0];
      var x1 := x.(skipped := true, xfrd := if x.skipped then x.xfrd else x.si, si := x.si + cnt);
      var h1 := h.(sch := h.sch[0 := x1]);
      if x1.si == x1.fi then Some(Complete(h1, 0, Skipped))
      else if x1.si > x1.fi then None
      else Some(h1)
  }

  predicate StoreInside(h: Host) {
    h.left > 0 && (|h.sch| > 0 && !h.sch[0].detached ==> h.sch[0].si < |h.sch[0].buf|)
  }

  function Stored(x: Xfr, b: byte): Xfr
    requires !x.detached ==> x.si < |x.buf|
  {
    x.(buf := if x.detached then x.buf else x.buf[x.si := b], si := x.si + 1)
  }

  // A byte of an answer that is not skipped.
  function RxByte(h: Host, b: byte): Option<Host>
    requires StoreInside(h)
  {
    if |h.sch| == 0 || h.sch[0].skipped then None
    else
      var x1 := Stored(h.sch[0], b);
      var h1 := h.(left := h.left - 1);
      if h.left == 1 && h.last then
        Some(Complete(h1.(sch := h.sch[0 := x1.(xfrd := x1.si)]), 0, Success))
      else if x1.si == x1.sc then None
      else Some(h1.(sch := h.sch[0 := x1]))
  }

  function OnSkipped(h: Host, ss: nat, cnt: nat): Option<Host> {
    var o := Credit(h, ss, cnt);
    if o.None? then None else RxSkip(o.value, cnt)
  }

  // The two counts of an answer that is not skipped.
  function OnFull(h: Host, last: bool, ss: nat, cnt: nat): Option<Host> {
    var o := Credit(h, ss, cnt);
    if o.None? then None else Some(o.value.(left := cnt, last := last))
  }
}
