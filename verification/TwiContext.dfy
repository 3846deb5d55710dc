/**
 The TWI context as an object whose methods update its fields in place: the
 entry points, the transmit pump with its loops, and the response handlers.
 Transfers are records in the lists; `cur` is the position of the transfer the
 pump works on, with the length of the list standing for the null pointer.
 */
module TwiContext {
  import opened Basics
  import opened TwiHost
  import opened TwiMaster

  // What a consistent START answer makes of the head.
  lemma StartHandled(h: Host, x: Xfr, skipped: bool, nack: bool, ad: byte, dir: Dir)
    requires |h.sch| > 0 && h.sch[0].rxPhase == Addressing && h.sch[0].ad == ad && h.sch[0].dir == dir
    requires x == h.sch[0].(nack := h.sch[0].nack || nack, skipped := h.sch[0].skipped || skipped,
                            short := h.sch[0].short || skipped)
    ensures RxStart(h, skipped, nack, ad, dir) ==
      Some(if CanComplete(x) then CompleteHead(h.(sch := h.sch[0 := x]))
           else h.(sch := h.sch[0 := x.(rxPhase := Data)]))
  {
  }

  lemma TxHandled(h: Host, x: Xfr, short: bool, nack: bool, cnt: nat, sent: nat)
    requires |h.sch| > 0 && h.sch[0].rxPhase == Data && (h.sch[0].short ==> short)
    requires x == h.sch[0].(rsp := h.sch[0].rsp + cnt, xfrd := h.sch[0].xfrd + sent,
                            nack := h.sch[0].nack || nack, short := h.sch[0].short || short)
    ensures RxMasterTx(h, short, nack, cnt, sent) == Some(CheckHead(h.(sch := h.sch[0 := x])))
  {
  }

  // Completing does not look at the flags.
  lemma FlagsApart(h: Host, status: Status)
    requires |h.sch| > 0
    ensures Complete(h.(busError := false, arbLost := false), 0, status) ==
            Complete(h, 0, status).(busError := false, arbLost := false)
  {
    var handle := h.sch[0].handle;
    UnassignApart(Assign(Taken(h, 0, status), handle), handle);
  }

  lemma UnassignApart(h: Host, handle: nat)
    ensures Unassign(h.(busError := false, arbLost := false), handle) ==
            Unassign(h, handle).(busError := false, arbLost := false)
  {
  }

  // What the pump's START makes of the host.
  lemma StartEmitted(h: Host, u: byte)
    requires !h.txStop && h.cur < |h.sch| && h.free >= 2 && Pumpable(h)
    requires !h.sch[h.cur].short && h.sch[h.cur].txPhase == Addressing && u == AddressByte(h.sch[h.cur])
    ensures var x := h.sch[h.cur];
      var x1 := x.(active := true, txPhase := if Probe(x) then Addressing else Data);
      var h1 := h.(free := h.free - 2, sch := h.sch[h.cur := x1]);
      TxOne(h) ==
        if Probe(x) then Emit(NextXfr(h1, x1), Of(x.job, Start(u), Final(StopDue(h1, x1))))
        else Emit(h1, Of(x.job, Start(u), More))
  {
  }

  // What a data packet makes of the host.
  lemma DataEmitted(h: Host, n: nat)
    requires !h.txStop && h.cur < |h.sch| && h.free >= 4 && Pumpable(h)
    requires !h.sch[h.cur].short && h.sch[h.cur].txPhase == Data && n == PacketSize(h, h.sch[h.cur])
    ensures var x := h.sch[h.cur];
      var x1 := x.(cmd := x.cmd + n);
      var h1 := h.(free := h.free - (3 + n), sch := h.sch[h.cur := x1]);
      var c := if x.dir == Write then Tx(DataBytes(x, n)) else Rx(n, x1.cmd == x.sc);
      TxOne(h) ==
        if x1.cmd == x.sc then Emit(NextXfr(h1, x1), Of(x.job, c, Final(StopDue(h1, x1))))
        else Emit(h1, Of(x.job, c, More))
  {
  }

  lemma OneMoreByte(x: Xfr, n: nat)
    requires x.cmd + n < x.sc && (!x.detached ==> |x.buf| == x.sc)
    ensures DataBytes(x, n + 1) == DataBytes(x, n) + [if x.detached then 0xFF else x.buf[x.cmd + n]]
  {
  }

  class TwiCtx {
    var cache: seq<nat>
    var assign: seq<nat>
    var sch: seq<Xfr>
    var cur: nat
    var loc: map<nat, Loc>      // where each transfer object is
    var cachedCnt: int
    var assignedCnt: int
    var schCnt: int
    var hwMBufLen: nat
    var hwMBufFree: nat
    var hwMTxStop: bool
    var hwEnabled: bool
    var busError: bool
    var arbLost: bool
    var mrxRcvd: nat            // payload bytes of the current Rx response still to arrive
    var out: seq<byte>          // everything handed to the serial transmitter
    var nextHandle: nat         // stands for the identity of the next new object
    var nextJob: nat            // numbers the transfers for the statements; it goes into their records
    ghost var early: nat        // credit returned ahead of the rest of the current response
    ghost var log: seq<Done>

    ghost function Abs(): Host
      reads this
    {
      Host(cache, assign, sch, cur, loc, cachedCnt, assignedCnt, schCnt, hwMBufLen, hwMBufFree, hwMTxStop, hwEnabled,
           busError, arbLost, mrxRcvd, early, nextHandle, nextJob, log)
    }

    constructor ()
      ensures Abs() == IDLE && out == []
    {
      cache, assign, sch, cur := [], [], [], 0;
      loc, cachedCnt, assignedCnt, schCnt := map[], 0, 0, 0;
      hwMBufLen, hwMBufFree, mrxRcvd, early := 0, 0, 0, 0;
      hwMTxStop, hwEnabled, busError, arbLost := false, false, false, false;
      out, nextHandle, nextJob, log := [], 0, 0, [];
    }

    // ------------------------------------------------------------ entry points

    // The object joins the assigned ones.
    method XfrAssign(handle: nat)
      modifies this`assign, this`assignedCnt, this`loc
      ensures Abs() == Assign(old(Abs()), handle)
    {
      assign := assign + [handle];
      assignedCnt := assignedCnt + 1;
      loc := loc[handle := Assigned];
    }

    method XfrCreate() returns (handle: nat)
      modifies this
      ensures Abs() == Create(old(Abs())) && out == old(out)
      ensures assign == old(assign) + [handle]
    {
      if cachedCnt > 0 {
        handle := HeadOf(cache);
        cache := Unlinked(cache, handle);
        cachedCnt := cachedCnt - 1;
      } else {
        handle := nextHandle;
        nextHandle := nextHandle + 1;
      }
      XfrAssign(handle);
    }

    // The object leaves the assigned ones.
    method XfrUnlink(handle: nat)
      modifies this`assign, this`assignedCnt
      ensures var h := old(Abs());
        Abs() == h.(assign := Unlinked(h.assign, handle), assignedCnt := h.assignedCnt - 1)
    {
      assign := Unlinked(assign, handle);
      assignedCnt := assignedCnt - 1;
    }

    // Sets the transfer up for the scheduled state.
    method XfrSetUp(handle: nat, r: Request) returns (x: Xfr)
      ensures x == NewXfr(Abs(), handle, r)
    {
      x := Xfr(handle, nextJob, false, false, r.buf, |r.buf|, 0, 0, 0,
               r.ad, r.dir, r.forceStop, Addressing, Addressing, false, false, false, r.buf, 0);
    }

    // The transfer joins the scheduled ones.
    method XfrLink(x: Xfr)
      modifies this`sch, this`schCnt, this`loc, this`nextJob
      ensures var h := old(Abs());
        Abs() == h.(sch := h.sch + [x], schCnt := h.schCnt + 1,
                    loc := h.loc[x.handle := Scheduled], nextJob := h.nextJob + 1)
    {
      sch := sch + [x];
      schCnt := schCnt + 1;
      loc := loc[x.handle := Scheduled];
      nextJob := nextJob + 1;
    }

    method XfrMasterSchedule(handle: nat, r: Request) returns (ok: bool)
      modifies this
      ensures ok <==> !(r.dir == Read && |r.buf| == 0) && At(old(Abs()), handle, Assigned)
      ensures Abs() == Schedule(old(Abs()), handle, r) && out == old(out)
    {
      if r.dir == Read && |r.buf| == 0 { return false; }
      if handle !in loc || loc[handle] != Assigned { return false; }
      var x := XfrSetUp(handle, r);
      XfrUnlink(handle);
      XfrLink(x);
      return true;
    }

    // Back to the cache.
    method XfrUnassign(handle: nat)
      modifies this
      ensures Abs() == Unassign(old(Abs()), handle) && out == old(out)
    {
      XfrUnlink(handle);
      cache := cache + [handle];
      cachedCnt := cachedCnt + 1;
      loc := loc[handle := Cached];
    }

    // The transfer leaves the scheduled ones; if the pump is at it, the next one takes its place.
    method XfrTake(i: nat, status: Status)
      requires i < |sch|
      modifies this`cur, this`sch, this`schCnt, this`log
      ensures Abs() == Taken(old(Abs()), i, status)
    {
      if i < cur {
        cur := cur - 1;
      }
      log := log + [Done(sch[i], status)];
      sch := Without(sch, i);
      schCnt := schCnt - 1;
    }

    method XfrMasterComplete(i: nat, status: Status)
      requires i < |sch|
      modifies this
      ensures Abs() == Complete(old(Abs()), i, status) && out == old(out)
    {
      var x := sch[i];
      XfrTake(i, status);
      XfrAssign(x.handle);
      if x.detached {
        XfrUnassign(x.handle);
      }
    }

    method CompleteAllXfrs()
      modifies this
      ensures Abs() == CompleteAll(old(Abs())) && sch == [] && out == old(out)
    {
      while |sch| > 0
        invariant CompleteAll(Abs()) == CompleteAll(old(Abs())) && out == old(out)
        decreases |sch|
      {
        XfrMasterComplete(0, Cancelled);
      }
    }

    method XfrCancel(handle: nat) returns (scheduled: bool)
      modifies this
      ensures scheduled <==> At(old(Abs()), handle, Scheduled)
      ensures Abs() == Cancel(old(Abs()), handle) && out == old(out)
    {
      if handle !in loc || loc[handle] != Scheduled { return false; }
      var i := IndexOf(Handles(sch), handle);
      if i < |sch| && !sch[i].active {
        XfrMasterComplete(i, Cancelled);
      }
      return true;
    }

    method XfrDestroy(handle: nat)
      modifies this
      ensures Abs() == Destroy(old(Abs()), handle) && out == old(out)
    {
      var scheduled := XfrCancel(handle);
      if handle in loc && loc[handle] == Assigned {
        XfrUnassign(handle);
      } else {
        var k := IndexOf(Handles(sch), handle);
        if k < |sch| {
          sch := sch[k := Detach(sch[k])];
        }
      }
    }

    // ------------------------------------------------------------ transmit pump

    method TxByte(b: byte)
      modifies this`out
      ensures out == old(out) + [b]
    {
      out := out + [b];
    }

    // Hands cnt bytes of the current transfer to the transmitter, one at a time.
    method TxData(cnt: nat)
      requires cur < |sch| && sch[cur].cmd + cnt <= sch[cur].sc
      requires !sch[cur].detached ==> |sch[cur].buf| == sch[cur].sc
      modifies this`out, this`sch
      ensures sch == old(sch)[cur := old(sch)[cur].(cmd := old(sch)[cur].cmd + cnt)]
      ensures out == old(out) + DataBytes(old(sch)[cur], cnt)
    {
      ghost var x := sch[cur];
      var left := cnt;
      while left > 0
        invariant 0 <= left <= cnt && cur < |old(sch)| && x == old(sch)[cur]
        invariant x.cmd + cnt <= x.sc && (!x.detached ==> |x.buf| == x.sc)
        invariant sch == old(sch)[cur := x.(cmd := x.cmd + (cnt - left))]
        invariant out == old(out) + DataBytes(x, cnt - left)
        decreases left
      {
        var dataByte: byte := if !sch[cur].detached then sch[cur].buf[sch[cur].cmd] else 0xFF;
        sch := sch[cur := sch[cur].(cmd := sch[cur].cmd + 1)];
        TxByte(dataByte);
        left := left - 1;
        OneMoreByte(x, cnt - left - 1);
      }
    }

    // Moves on to the next scheduled transfer and decides whether a STOP is due.
    method NextTransfer()
      requires cur < |sch|
      modifies this`cur, this`hwMTxStop
      ensures Abs() == NextXfr(old(Abs()), old(sch)[old(cur)])
    {
      hwMTxStop := sch[cur].forceStop;
      cur := cur + 1;
      if cur >= |sch| {
        hwMTxStop := true;
      }
      if !hwEnabled {
        hwMTxStop := false;
      }
    }

    method SendStop()
      requires hwMTxStop && hwMBufFree >= 1
      modifies this
      ensures Pumpable(old(Abs())) ==> TxOne(old(Abs())) == Emit(Abs(), Stop)
      ensures hwMBufFree < old(hwMBufFree) && !hwMTxStop && sch == old(sch) && cur == old(cur)
      ensures out == old(out) + Encode(Stop)
    {
      hwMBufFree := hwMBufFree - 1;
      TxByte(CMD_STOP);
      hwMTxStop := false;
    }

    // The first two bytes of a command.
    method TxPair(c: byte, u: byte)
      modifies this`out
      ensures out == old(out) + [c, u]
    {
      TxByte(c);
      TxByte(u);
      assert old(out) + [c] + [u] == old(out) + [c, u];
    }

    // The transfer is active from now on; unless it is a probe, its data is next.
    method MarkStarted() returns (probe: bool)
      requires cur < |sch| && hwMBufFree >= 2 && sch[cur].txPhase == Addressing
      modifies this`hwMBufFree, this`sch
      ensures probe == Probe(old(sch)[cur])
      ensures var x := old(sch)[cur];
        sch == old(sch)[cur := x.(active := true, txPhase := if probe then Addressing else Data)]
      ensures hwMBufFree == old(hwMBufFree) - 2
    {
      var x := sch[cur];
      hwMBufFree := hwMBufFree - 2;
      x := x.(active := true);
      probe := x.dir == Write && x.sc == 0;
      if !probe {
        x := x.(txPhase := Data);
      }
      sch := sch[cur := x];
    }

    // Sends START; a probe is through with that, other transfers go on to their data.
    method SendStart() returns (probe: bool, ghost e: Entry)
      requires !hwMTxStop && cur < |sch| && hwMBufFree >= 2
      requires !sch[cur].short && sch[cur].txPhase == Addressing && Pumpable(Abs())
      modifies this
      ensures TxOne(old(Abs())) == Emit(Abs(), e) && out == old(out) + Encode(e)
      ensures probe == Probe(old(sch)[old(cur)])
      ensures hwMBufFree < old(hwMBufFree)
      ensures !probe ==>
        && cur == old(cur) && !hwMTxStop && |sch| == |old(sch)|
        && sch[cur].txPhase == Data && !sch[cur].short
    {
      ghost var h := Abs();
      var x := sch[cur];
      var u: byte := (x.ad * 2) % 256;
      if x.dir == Read {
        u := u + 1;
      }
      StartEmitted(h, u);
      TxPair(CMD_START, u);
      probe := MarkStarted();
      e := Of(x.job, Start(u), if probe then Final(StopDue(Abs(), sch[cur])) else More);
      if probe {
        NextTransfer();
      }
    }

    // How many bytes the next packet takes, and whether it is the last.
    method NextPacket() returns (cnt: nat, last: bool)
      requires cur < |sch| && hwMBufFree >= 4 && sch[cur].cmd < sch[cur].sc
      ensures cnt == PacketSize(Abs(), sch[cur]) && (last <==> sch[cur].cmd + cnt == sch[cur].sc)
    {
      var hwLeft := hwMBufFree - 3;
      if hwLeft > 32 { hwLeft := 32; }
      last := true;
      cnt := sch[cur].sc - sch[cur].cmd;
      if cnt > 32 { cnt, last := 32, false; }
      if cnt > hwLeft { cnt, last := hwLeft, false; }
    }

    // Sends the bytes of one packet and counts them.
    method WriteTx(cnt: nat)
      requires cur < |sch| && 1 <= cnt <= 32 && sch[cur].cmd + cnt <= sch[cur].sc
      requires !sch[cur].detached ==> |sch[cur].buf| == sch[cur].sc
      modifies this`out, this`sch
      ensures var x := old(sch)[cur];
        sch == old(sch)[cur := x.(cmd := x.cmd + cnt)] && out == old(out) + ([CMD_TX, cnt - 1] + DataBytes(x, cnt))
    {
      ghost var x := sch[cur];
      TxPair(CMD_TX, cnt - 1);
      TxData(cnt);
      Associative(old(out), [CMD_TX, cnt - 1], DataBytes(x, cnt));
    }

    method WritePacket(cnt: nat, last: bool) returns (ghost c: Cmd)
      requires cur < |sch| && 1 <= cnt <= 32 && sch[cur].cmd + cnt <= sch[cur].sc
      requires !sch[cur].detached ==> |sch[cur].buf| == sch[cur].sc
      modifies this`out, this`sch
      ensures var x := old(sch)[cur];
        && sch == old(sch)[cur := x.(cmd := x.cmd + cnt)]
        && c == (if x.dir == Write then Tx(DataBytes(x, cnt)) else Rx(cnt, last))
      ensures forall p :: out == old(out) + Encode(Of(old(sch)[cur].job, c, p))
    {
      ghost var x := sch[cur];
      if sch[cur].dir == Write {
        WriteTx(cnt);
        c := Tx(DataBytes(x, cnt));
      } else {
        var u: byte := cnt - 1;
        if last { u := u + 128; }
        TxPair(CMD_RX, u);
        sch := sch[cur := sch[cur].(cmd := sch[cur].cmd + cnt)];
        c := Rx(cnt, last);
      }
    }

    // Sends one data packet and takes its room off the credit.
    method PutPacket() returns (ghost c: Cmd)
      requires cur < |sch| && hwMBufFree >= 4 && sch[cur].cmd < sch[cur].sc
      requires !sch[cur].detached ==> |sch[cur].buf| == sch[cur].sc
      modifies this`out, this`sch, this`hwMBufFree
      ensures var x := old(sch)[cur]; var n := PacketSize(old(Abs()), x);
        && sch == old(sch)[cur := x.(cmd := x.cmd + n)]
        && hwMBufFree == old(hwMBufFree) - (3 + n)
        && c == (if x.dir == Write then Tx(DataBytes(x, n)) else Rx(n, x.cmd + n == x.sc))
      ensures forall p :: out == old(out) + Encode(Of(old(sch)[cur].job, c, p))
    {
      var cnt, last := NextPacket();
      c := WritePacket(cnt, last);
      hwMBufFree := hwMBufFree - (3 + cnt);
    }

    // Sends one data packet; moves on if the transfer is fully emitted with it.
    method SendPacket() returns (all: bool, ghost e: Entry)
      requires !hwMTxStop && cur < |sch| && hwMBufFree >= 4
      requires !sch[cur].short && sch[cur].txPhase == Data && Pumpable(Abs())
      modifies this
      ensures TxOne(old(Abs())) == Emit(Abs(), e)
      ensures out == old(out) + Encode(e) && hwMBufFree < old(hwMBufFree)
      ensures !all ==>
        && cur == old(cur) && |sch| == |old(sch)| && !hwMTxStop
        && sch[cur].txPhase == Data && !sch[cur].short
    {
      ghost var x := sch[cur];
      DataEmitted(Abs(), PacketSize(Abs(), x));
      ghost var c := PutPacket();
      all := !(sch[cur].cmd < sch[cur].sc);
      e := Of(x.job, c, if all then Final(StopDue(Abs(), sch[cur])) else More);
      if all {
        NextTransfer();
      }
    }

    // The data phase: packets until the transfer is through or the credit is used up.
    method TxPackets() returns (stopped: bool, ghost es: seq<Entry>)
      requires PumpReady(Abs()) && !hwMTxStop && cur < |sch| && !sch[cur].short && sch[cur].txPhase == Data
      modifies this
      ensures Sent(old(Abs()), old(out), es, Abs(), out) && PumpReady(Abs())
      ensures stopped ==> TxOne(Abs()) == Quiet
      ensures !stopped ==> hwMBufFree < old(hwMBufFree)
    {
      ghost var h0 := Abs();
      es := [];
      while true
        invariant Sent(h0, old(out), es, Abs(), out) && PumpReady(Abs())
        invariant hwMBufFree <= old(hwMBufFree)
        invariant !hwMTxStop && cur < |sch| && !sch[cur].short && sch[cur].txPhase == Data
        decreases hwMBufFree
      {
        ghost var h, o := Abs(), out;
        PumpStaysReady(h);
        if hwMBufFree < 4 {
          return true, es;
        }
        var all, e := SendPacket();
        EmitsOne(h, Abs(), e);
        SentJoin(h0, old(out), es, h, o, [e], Abs(), out);
        es := es + [e];
        if all {
          return false, es;
        }
      }
    }

    // The current transfer: START if it is still to come, then its packets.
    method TxTransfer() returns (stopped: bool, ghost es: seq<Entry>)
      requires PumpReady(Abs()) && !hwMTxStop
      modifies this
      ensures Sent(old(Abs()), old(out), es, Abs(), out) && PumpReady(Abs())
      ensures stopped ==> TxOne(Abs()) == Quiet
      ensures !stopped ==> hwMBufFree < old(hwMBufFree)
    {
      ghost var h := Abs();
      PumpStaysReady(h);
      es := [];
      if cur >= |sch| || sch[cur].short {
        return true, es;
      }
      if sch[cur].txPhase == Data {
        stopped, es := TxPackets();
        return;
      }
      if hwMBufFree < 2 {
        return true, es;
      }
      var probe, e := SendStart();
      EmitsOne(h, Abs(), e);
      es := [e];
      if probe {
        return false, es;
      }
      ghost var h1, o1 := Abs(), out;
      ghost var fs;
      stopped, fs := TxPackets();
      SentJoin(h, old(out), [e], h1, o1, fs, Abs(), out);
      es := [e] + fs;
    }

    // A STOP that is due goes out before anything else.
    method TxStop() returns (stopped: bool, ghost es: seq<Entry>)
      requires PumpReady(Abs())
      modifies this
      ensures Sent(old(Abs()), old(out), es, Abs(), out) && PumpReady(Abs())
      ensures stopped ==> TxOne(Abs()) == Quiet
      ensures !stopped ==> hwMBufFree <= old(hwMBufFree) && !hwMTxStop
    {
      ghost var h := Abs();
      PumpStaysReady(h);
      es := [];
      stopped := false;
      if hwMTxStop {
        if hwMBufFree < 1 {
          return true, es;
        }
        SendStop();
        EmitsOne(h, Abs(), Stop);
        es := [Stop];
      }
    }

    // One turn of the pump: a due STOP, then the current transfer.
    method TxRound() returns (stopped: bool, ghost es: seq<Entry>)
      requires PumpReady(Abs())
      modifies this
      ensures Sent(old(Abs()), old(out), es, Abs(), out) && PumpReady(Abs())
      ensures stopped ==> TxOne(Abs()) == Quiet
      ensures !stopped ==> hwMBufFree < old(hwMBufFree)
    {
      ghost var h := Abs();
      stopped, es := TxStop();
      if !stopped {
        ghost var h1, o1 := Abs(), out;
        ghost var fs;
        stopped, fs := TxTransfer();
        SentJoin(h, old(out), es, h1, o1, fs, Abs(), out);
        es := es + fs;
      }
    }

    // The pump: it emits all it has credit for, in the order TxOne would, and no more.
    method TxMaster()
      requires PumpReady(Abs())
      modifies this
      ensures Abs() == Pump(old(Abs())).0
      ensures out == old(out) + EncodeAll(Pump(old(Abs())).1)
    {
      ghost var h0 := Abs();
      ghost var es := [];
      var stopped := false;
      while !stopped
        invariant Sent(h0, old(out), es, Abs(), out) && PumpReady(Abs())
        invariant stopped ==> TxOne(Abs()) == Quiet
        decreases !stopped, hwMBufFree
      {
        ghost var h, o := Abs(), out;
        ghost var fs;
        stopped, fs := TxRound();
        SentJoin(h0, old(out), es, h, o, fs, Abs(), out);
        es := es + fs;
      }
      EmitsAll(h0, es, Abs());
    }

    // ------------------------------------------------------------ responses

    // The status the flags call for; a bus error goes before a lost arbitration.
    method TakeStatus(x: Xfr) returns (status: Status)
      modifies this`busError, this`arbLost
      ensures status == FinalStatus(old(Abs()), x)
      ensures !busError && !arbLost
    {
      status := Success;
      if x.skipped {
        status := Skipped;
      }
      if arbLost {
        arbLost := false;
        status := ArbLost;
      }
      if busError {
        busError := false;
        status := BusError;
      }
    }

    method CompleteFirst()
      requires |sch| > 0
      modifies this
      ensures Abs() == CompleteHead(old(Abs())) && out == old(out)
    {
      ghost var h := Abs();
      var status := TakeStatus(sch[0]);
      FlagsApart(h, status);
      XfrMasterComplete(0, status);
    }

    // Completes the head if its counters say so.
    method CheckComplete() returns (done: bool)
      requires |sch| > 0
      modifies this
      ensures done <==> CanComplete(old(sch)[0])
      ensures Abs() == CheckHead(old(Abs())) && out == old(out)
    {
      var x := sch[0];
      if x.rxPhase != x.txPhase { return false; }
      if x.short {
        if x.rsp != x.cmd { return false; }
      } else {
        if x.rsp != x.sc { return false; }
      }
      CompleteFirst();
      return true;
    }

    // Stores the head's new counters, and completes it if asked and due.
    method PutHead(x: Xfr, check: bool)
      requires |sch| > 0
      modifies this
      ensures var h1 := old(Abs()).(sch := old(sch)[0 := x]);
        Abs() == if check then CheckHead(h1) else h1
      ensures out == old(out)
    {
      sch := sch[0 := x];
      if check {
        var done := CheckComplete();
      }
    }

    // Completes the head if START was all there was to it, or moves it to its data phase.
    method FinishAddressing(x: Xfr)
      requires |sch| > 0
      modifies this
      ensures var h := old(Abs());
        Abs() == if CanComplete(x) then CompleteHead(h.(sch := h.sch[0 := x]))
                 else h.(sch := h.sch[0 := x.(rxPhase := Data)])
      ensures out == old(out)
    {
      sch := sch[0 := x];
      var done := CheckComplete();
      if !done {
        sch := sch[0 := x.(rxPhase := Data)];
        assert sch == old(sch)[0 := x.(rxPhase := Data)];
      }
    }

    method HandleStart(skipped: bool, nack: bool, ad: byte, dir: Dir) returns (ok: bool)
      modifies this
      ensures ok <==> RxStart(old(Abs()), skipped, nack, ad, dir).Some?
      ensures ok ==> Some(Abs()) == RxStart(old(Abs()), skipped, nack, ad, dir)
      ensures out == old(out)
    {
      if |sch| == 0 { return false; }
      if sch[0].rxPhase != Addressing { return false; }
      if ad != sch[0].ad || dir != sch[0].dir { return false; }
      var x := sch[0];
      if nack {
        x := x.(nack := true);
      }
      if skipped {
        x := x.(skipped := true, short := true);
      }
      StartHandled(Abs(), x, skipped, nack, ad, dir);
      FinishAddressing(x);
      return true;
    }

    // Each handler answers whether the response was consistent; if not, the caller detaches.
    method OnStart(skipped: bool, nack: bool, ad: byte, dir: Dir) returns (ok: bool)
      modifies this
      ensures ok <==> OnResponse(old(Abs()), RspStart(skipped, nack, ad, dir)).Some?
      ensures ok ==> Some(Abs()) == OnResponse(old(Abs()), RspStart(skipped, nack, ad, dir))
      ensures out == old(out)
    {
      hwMBufFree := hwMBufFree + 2;
      ok := HandleStart(skipped, nack, ad, dir);
    }

    method OnStop(skipped: bool) returns (ok: bool)
      modifies this
      ensures ok && Some(Abs()) == OnResponse(old(Abs()), RspStop(skipped))
      ensures out == old(out)
    {
      hwMBufFree := hwMBufFree + 1;
      ok := true;
    }

    // The count of a data response has arrived: its credit comes back at once.
    method OnByteCount(cnt: nat) returns (ok: bool)
      modifies this
      ensures ok <==> OnCount(old(Abs()), cnt).Some?
      ensures ok ==> Some(Abs()) == OnCount(old(Abs()), cnt) && early > 0
      ensures out == old(out)
    {
      hwMBufFree := hwMBufFree + (cnt + 3);
      early := cnt + 3;
      ok := hwMBufFree <= hwMBufLen;
    }

    // An answer without the short flag may not follow one that had it.
    method CountIn(x: Xfr, short: bool, nack: bool, cnt: nat) returns (ok: bool, x1: Xfr)
      ensures ok <==> short || !x.short
      ensures ok ==> x1 == x.(rsp := x.rsp + cnt, nack := x.nack || nack, short := x.short || short)
    {
      x1 := x.(rsp := x.rsp + cnt);
      if nack {
        x1 := x1.(nack := true);
      }
      if short {
        x1 := x1.(short := true);
      } else {
        if x1.short { return false, x1; }
      }
      ok := true;
    }

    method HandleMasterTx(short: bool, nack: bool, cnt: nat, sent: nat) returns (ok: bool)
      modifies this
      ensures ok <==> RxMasterTx(old(Abs()), short, nack, cnt, sent).Some?
      ensures ok ==> Some(Abs()) == RxMasterTx(old(Abs()), short, nack, cnt, sent)
      ensures out == old(out)
    {
      if |sch| == 0 { return false; }
      if sch[0].rxPhase != Data { return false; }
      var x;
      ok, x := CountIn(sch[0], short, nack, cnt);
      if !ok { return; }
      x := x.(xfrd := x.xfrd + sent);
      TxHandled(Abs(), x, short, nack, cnt, sent);
      PutHead(x, true);
    }

    method HandleMasterRx(short: bool, nack: bool, cnt: nat, rcvd: nat) returns (ok: bool)
      modifies this
      ensures ok <==> RxMasterRx(old(Abs()), short, nack, cnt, rcvd).Some?
      ensures ok ==> Some(Abs()) == RxMasterRx(old(Abs()), short, nack, cnt, rcvd)
      ensures out == old(out)
    {
      mrxRcvd := rcvd;
      if |sch| == 0 { return false; }
      if sch[0].rxPhase != Data { return false; }
      var x;
      ok, x := CountIn(sch[0], short, nack, cnt);
      if !ok { return; }
      PutHead(x, mrxRcvd == 0);
    }

    // The rest of the header has arrived.
    method OnMasterTx(short: bool, nack: bool, cnt: nat, sent: nat) returns (ok: bool)
      requires early > 0
      modifies this
      ensures ok <==> OnResponse(old(Abs()), RspTx(short, nack, cnt, sent)).Some?
      ensures ok ==> Some(Abs()) == OnResponse(old(Abs()), RspTx(short, nack, cnt, sent))
      ensures out == old(out)
    {
      early := 0;
      ok := HandleMasterTx(short, nack, cnt, sent);
    }

    method OnMasterRx(short: bool, nack: bool, cnt: nat, rcvd: nat) returns (ok: bool)
      requires early > 0
      modifies this
      ensures ok <==> OnResponse(old(Abs()), RspRx(short, nack, cnt, rcvd)).Some?
      ensures ok ==> Some(Abs()) == OnResponse(old(Abs()), RspRx(short, nack, cnt, rcvd))
      ensures out == old(out)
    {
      early := 0;
      ok := HandleMasterRx(short, nack, cnt, rcvd);
    }

    method StoreHead(b: byte)
      requires |sch| > 0 && (!sch[0].detached ==> sch[0].xfrd < |sch[0].buf|)
      modifies this`sch
      ensures var x := old(sch)[0];
        sch == old(sch)[0 := x.(buf := if x.detached then x.buf else x.buf[x.xfrd := b], xfrd := x.xfrd + 1)]
    {
      var x := sch[0];
      if !x.detached {
        x := x.(buf := x.buf[x.xfrd := b]);
      }
      x := x.(xfrd := x.xfrd + 1);
      sch := sch[0 := x];
    }

    // A payload byte goes to the user's buffer, unless the user has destroyed the transfer.
    method OnMasterRxByte(b: byte) returns (ok: bool)
      requires mrxRcvd > 0
      requires |sch| > 0 && !sch[0].detached ==> sch[0].xfrd < |sch[0].buf|
      modifies this
      ensures ok <==> RxByte(old(Abs()), b).Some?
      ensures ok ==> Some(Abs()) == RxByte(old(Abs()), b)
      ensures out == old(out)
    {
      mrxRcvd := mrxRcvd - 1;
      if |sch| == 0 { return false; }
      if sch[0].rxPhase != Data { return false; }
      StoreHead(b);
      if mrxRcvd == 0 {
        var done := CheckComplete();
      } else {
        if sch[0].xfrd == sch[0].sc { return false; }
      }
      return true;
    }
  }
}
