/** Responses of a conforming device find their transfer and keep the invariant. */
module TwiAnswer {
  import opened Basics
  import opened TwiHost
  import opened TwiWorld
  import opened TwiInvariant
  import opened TwiSteps

  // ---------------------------------------------------------------- popping the queue

  lemma PopKeepsOwners(sch: seq<Xfr>, q: seq<Entry>)
    requires QueueOK(sch, q) && q != []
    ensures QueueOK(sch, q[1..])
  {
    var q1 := q[1..];
    forall k | 0 <= k < |q1|
      ensures Owned(sch, q1[k])
    {
      assert q1[k] == q[k + 1];
    }
  }

  // Popping the head's oldest command leaves the other transfers' commands alone.
  lemma PopKeepsTail(h: Host, q: seq<Entry>)
    requires JobsOK(h) && |h.sch| > 0 && q != [] && q[0].Of? && q[0].job == h.sch[0].job
    requires PendsOK(h.sch, q) && BusyOK(h, q)
    ensures forall k :: 0 < k < |h.sch| ==> PendOK(h.sch[k], Pend(q[1..], h.sch[k].job))
    ensures forall k :: 0 < k < h.cur ==> Pend(q[1..], h.sch[k].job) != []
  {
    forall k | 0 < k < |h.sch|
      ensures PendOK(h.sch[k], Pend(q[1..], h.sch[k].job))
      ensures k < h.cur ==> Pend(q[1..], h.sch[k].job) != []
    {
      assert h.sch[0].job < h.sch[k].job;
      assert Pend(q[1..], h.sch[k].job) == Pend(q, h.sch[k].job);
      assert PendOK(h.sch[k], Pend(q, h.sch[k].job));
    }
  }

  lemma PopHead(h: Host, q: seq<Entry>, x1: Xfr)
    requires JobsOK(h) && |h.sch| > 0 && q != []
    requires QueueOK(h.sch, q) && PendsOK(h.sch, q) && BusyOK(h, q)
    requires q[0].Of? && q[0].job == h.sch[0].job == x1.job
    requires PendOK(x1, Pend(q[1..], x1.job))
    ensures var s1, q1 := h.sch[0 := x1], q[1..];
      QueueOK(s1, q1) && PendsOK(s1, q1) && BusyOK(h.(sch := s1), q1)
  {
    PopKeepsOwners(h.sch, q);
    ReplaceKeepsOwners(h.sch, q[1..], 0, x1);
    PopKeepsTail(h, q);
  }

  lemma PopStop(h: Host, q: seq<Entry>)
    requires q != [] && q[0].Stop? && QueueOK(h.sch, q) && PendsOK(h.sch, q) && BusyOK(h, q) && WaitOK(h, q)
    ensures QueueOK(h.sch, q[1..]) && PendsOK(h.sch, q[1..]) && BusyOK(h, q[1..]) && WaitOK(h, q[1..])
  {
    PopKeepsOwners(h.sch, q);
    forall k | 0 <= k < |h.sch|
      ensures Pend(q[1..], h.sch[k].job) == Pend(q, h.sch[k].job)
    {
    }
  }

  lemma HeadsCommand(w: World)
    requires HostOK(w.h) && LinkOK(w) && w.h.rxLeft == 0 && w.q != [] && w.q[0].Of?
    ensures |w.h.sch| > 0 && w.q[0].job == w.h.sch[0].job
    ensures var x := w.h.sch[0];
      && x.active && XferOK(x)
      && Pend(w.q, x.job) == [w.q[0].cmd] + Pend(w.q[1..], x.job)
      && (x.rxPhase == Addressing ==> w.q[0].cmd == Start(AddressByte(x)) && DataOK(x, Pend(w.q[1..], x.job)))
      && (x.rxPhase == Data ==>
            && DataCmd(w.q[0].cmd, x.dir)
            && DataOK(x.(rsp := x.rsp + Size(w.q[0].cmd)), Pend(w.q[1..], x.job))
            && x.rsp + Size(w.q[0].cmd) <= x.cmd)
  {
    OldestIsHeads(w, 0);
    var x := w.h.sch[0];
    var rest := Pend(w.q[1..], x.job);
    assert XferOK(x);
    assert PendOK(x, Pend(w.q, x.job));
    assert ([w.q[0].cmd] + rest)[1..] == rest;
    if x.rxPhase == Data {
      assert DataCmd(Pend(w.q, x.job)[0], x.dir);
      assert forall k :: 0 <= k < |rest| ==> rest[k] == Pend(w.q, x.job)[k + 1];
    }
  }

  // ---------------------------------------------------------------- one answer each

  // The head after its START was answered.
  function Addressed(x: Xfr, r: Rsp): Xfr
    requires r.RspStart?
  {
    x.(nack := x.nack || r.nack, skipped := x.skipped || r.skipped, short := x.short || r.skipped)
  }

  // The head after one of its data commands was answered, payload aside.
  function Counted(x: Xfr, r: Rsp): Xfr
    requires r.RspTx? || r.RspRx?
  {
    match r
    case RspTx(short, nack, cnt, sent) =>
      x.(rsp := x.rsp + cnt, xfrd := x.xfrd + sent, nack := x.nack || nack, short := x.short || short)
    case RspRx(short, nack, cnt, rcvd) =>
      x.(rsp := x.rsp + cnt, nack := x.nack || nack, short := x.short || short)
  }

  // Rewriting the counters of the head alone.
  lemma ReplaceHeadKeepsHost(h: Host, h1: Host, x1: Xfr)
    requires HostOK(h) && |h.sch| > 0 && XferOK(x1)
    requires x1.handle == h.sch[0].handle && x1.job == h.sch[0].job
    requires x1.active == h.sch[0].active && x1.cmd == h.sch[0].cmd && x1.sc == h.sch[0].sc
    requires h1.cache == h.cache && h1.assign == h.assign && h1.sch == h.sch[0 := x1] && h1.cur == h.cur
    requires SamePlaces(h, h1) && h1.nextJob == h.nextJob
    ensures HostOK(h1)
  {
    assert Handles(h1.sch) == Handles(h.sch);
    SamePool(h, h1);
  }

  // What HeadOK asks of a head x1 with `left` payload bytes to come.
  ghost predicate HeadFits(x1: Xfr, left: nat, dead: bool) {
    && (left > 0 ==> x1.rxPhase == Data && x1.dir == Read)
    && (x1.rxPhase == Data ==>
          && x1.xfrd + left <= x1.rsp
          && (x1.short ==> dead)
          && (!x1.short ==> x1.xfrd + left == x1.rsp && !x1.skipped)
          && (x1.short && x1.rsp > 0 ==> x1.xfrd + left < x1.rsp))
  }

  // The host with the answered command's credit back and the head rewritten.
  function Credited(h: Host, e: Entry, x1: Xfr, left: nat): Host
    requires |h.sch| > 0
  {
    h.(free := if h.early > 0 then h.free else h.free + Cost(e), early := 0,
       sch := h.sch[0 := x1], rxLeft := left)
  }

  lemma CreditedKeepsHost(h: Host, e: Entry, x1: Xfr, left: nat)
    requires HostOK(h) && |h.sch| > 0 && XferOK(x1)
    requires x1.handle == h.sch[0].handle && x1.job == h.sch[0].job
    requires x1.active == h.sch[0].active && x1.cmd == h.sch[0].cmd && x1.sc == h.sch[0].sc
    ensures HostOK(Credited(h, e, x1, left))
  {
    ReplaceHeadKeepsHost(h, Credited(h, e, x1, left), x1);
  }

  lemma CreditedKeepsCore(h: Host, q: seq<Entry>, dead: bool, rxJob: nat, x1: Xfr, left: nat, dead1: bool)
    requires JobsOK(h) && LinkCore(h, q, dead, rxJob) && |h.sch| > 0 && q != []
    requires h.early > 0 ==> h.early == Cost(q[0])
    requires q[0].Of? && q[0].job == h.sch[0].job == x1.job
    requires PendOK(x1, Pend(q[1..], x1.job)) && HeadFits(x1, left, dead1)
    ensures LinkCore(Credited(h, q[0], x1, left), q[1..], dead1, x1.job)
  {
    var h1 := Credited(h, q[0], x1, left);
    PopHead(h, q, x1);
    assert BusyOK(h1, q[1..]);
    forall k | 0 < k < |h1.sch|
      ensures Unanswered(h1.sch[k])
    {
      assert h1.sch[k] == h.sch[k];
    }
  }

  // What the handler of a START answer computes for a seven-bit address, or refuses.
  lemma StartResponse(h: Host, r: Rsp, e: Entry)
    requires r.RspStart? && |h.sch| > 0 && h.sch[0].rxPhase == Addressing && XferOK(h.sch[0]) && h.sch[0].active
    requires h.rxLeft == 0 && h.early == 0 && e.Of? && e.cmd == Start(AddressByte(h.sch[0]))
    requires r.ad == e.cmd.u / 2 && r.dir == (if e.cmd.u % 2 == 1 then Read else Write)
    ensures OnResponse(h, r).Some? <==> h.sch[0].ad < 128
    ensures h.sch[0].ad < 128 ==>
      var x1 := Addressed(h.sch[0], r);
      OnResponse(h, r) == Some(
        if Probe(h.sch[0]) then CompleteHead(Credited(h, e, x1, 0))
        else Credited(h, e, x1.(rxPhase := Data), 0))
  {
    assert e.cmd.u / 2 == h.sch[0].ad % 128;
    var x1 := Addressed(h.sch[0], r);
    assert h.(free := h.free + 2, sch := h.sch[0 := x1]) == Credited(h, e, x1, 0);
  }

  // A START answer is accepted exactly when the address fits seven bits.
  lemma StartAnswer(w: World, r: Rsp)
    requires Inv(w) && AnswerPossible(w, r) && w.q[0].Of? && w.q[0].cmd.Start?
    ensures |w.h.sch| > 0 && (OnResponse(w.h, r).Some? <==> w.h.sch[0].ad < 128)
    ensures w.h.sch[0].ad < 128 ==> Inv(OnAnswer(w, r))
  {
    HeadsCommand(w);
    StartResponse(w.h, r, w.q[0]);
    var x := w.h.sch[0];
    if x.ad < 128 {
      var h1 := OnResponse(w.h, r).value;
      if Probe(x) {
        ProbeAnswered(w, r);
      } else {
        StartWaits(w, r, Addressed(x, r).(rxPhase := Data));
      }
      InvOf(w, r, h1);
    }
  }

  lemma ProbeAnswered(w: World, r: Rsp)
    requires Inv(w) && AnswerPossible(w, r) && w.q[0].Of? && w.q[0].cmd.Start?
    requires |w.h.sch| > 0 && Probe(w.h.sch[0])
    ensures var x1 := Addressed(w.h.sch[0], r);
      var h1 := CompleteHead(Credited(w.h, w.q[0], x1, 0));
      HostOK(h1) && LinkCore(h1, w.q[1..], DeadAfter(w.dead, r), w.q[0].job) && WaitOK(h1, w.q[1..])
  {
    HeadsCommand(w);
    var x := w.h.sch[0];
    NoBytesNoCommands(x, Pend(w.q[1..], x.job));
    ProbeFinishes(w.h, w.q, DeadAfter(w.dead, r), Addressed(x, r));
  }

  lemma InvOf(w: World, r: Rsp, h1: Host)
    requires w.up && w.q != [] && w.q[0].Of? && OnResponse(w.h, r) == Some(h1)
    requires HostOK(h1) && LinkCore(h1, w.q[1..], DeadAfter(w.dead, r), w.q[0].job) && WaitOK(h1, w.q[1..])
    requires h1.early == 0
    ensures Inv(OnAnswer(w, r))
  {
    assert OnAnswer(w, r).h == h1;
  }

  // Probe: nothing but the START was due, so the transfer is done.
  lemma ProbeFinishes(h: Host, q: seq<Entry>, dead: bool, x1: Xfr)
    requires HostOK(h) && |h.sch| > 0 && h.rxLeft == 0 && h.early == 0 && q != []
    requires q[0].Of? && q[0].job == h.sch[0].job == x1.job && Pend(q[1..], x1.job) == []
    requires CreditOK(h, q) && QueueOK(h.sch, q) && PendsOK(h.sch, q) && BusyOK(h, q) && HeadOnlyOK(h.sch)
    requires x1.handle == h.sch[0].handle && x1.detached == h.sch[0].detached
    ensures var h1 := CompleteHead(Credited(h, q[0], x1, 0));
      HostOK(h1) && LinkCore(h1, q[1..], dead, x1.job) && WaitOK(h1, q[1..])
  {
    var h0 := Credited(h, q[0], x1, 0);
    var h1 := CompleteHead(h0);
    ProbeKeepsHost(h, q[0], x1);
    PopKeepsOwners(h.sch, q);
    RemoveKeepsOwners(h.sch, q[1..], 0);
    PopKeepsTail(h, q);
    forall k | 0 <= k < |h1.sch|
      ensures PendOK(h1.sch[k], Pend(q[1..], h1.sch[k].job))
      ensures k < h1.cur ==> Pend(q[1..], h1.sch[k].job) != []
      ensures Unanswered(h1.sch[k])
    {
      assert h1.sch[k] == h.sch[k + 1];
    }
    assert h1.sch == Without(h.sch, 0);
    assert HeadOK(h1, dead, x1.job);
  }

  lemma ProbeKeepsHost(h: Host, e: Entry, x1: Xfr)
    requires HostOK(h) && |h.sch| > 0
    requires x1.handle == h.sch[0].handle && x1.detached == h.sch[0].detached
    ensures HostOK(CompleteHead(Credited(h, e, x1, 0)))
    ensures CompleteHead(Credited(h, e, x1, 0)).sch == Without(h.sch, 0)
  {
    CompleteKeepsHost(h, 0, Success);
    ProbeLists(h, e, x1);
    SameLists(Complete(h, 0, Success), CompleteHead(Credited(h, e, x1, 0)));
  }

  // What the head looked like does not matter to the lists once it is gone.
  lemma ProbeLists(h: Host, e: Entry, x1: Xfr)
    requires |h.sch| > 0 && x1.handle == h.sch[0].handle && x1.detached == h.sch[0].detached
    ensures var h1, h2 := CompleteHead(Credited(h, e, x1, 0)), Complete(h, 0, Success);
      && h1.sch == h2.sch == Without(h.sch, 0) && h1.cache == h2.cache && h1.assign == h2.assign
      && h1.cur == h2.cur && SamePlaces(h2, h1) && h1.nextJob == h2.nextJob
  {
  }

  // Otherwise the head moves on to its data phase.
  lemma HeadAfterStart(w: World, r: Rsp, x2: Xfr)
    requires Inv(w) && AnswerPossible(w, r) && w.q[0].Of? && w.q[0].cmd.Start?
    requires |w.h.sch| > 0 && w.q[0].job == w.h.sch[0].job && !Probe(w.h.sch[0])
    requires x2 == Addressed(w.h.sch[0], r).(rxPhase := Data)
    ensures XferOK(x2) && DataOK(x2, Pend(w.q[1..], x2.job)) && HeadFits(x2, 0, DeadAfter(w.dead, r))
    ensures w.h.cur > 0 ==> Pend(w.q[1..], x2.job) != []
    ensures Pend(w.q[1..], x2.job) == [] ==> x2.cmd == 0 && x2.short == x2.skipped
  {
    HeadsCommand(w);
    var rest := Pend(w.q[1..], x2.job);
    assert DataOK(w.h.sch[0], rest);
    assert DataOK(x2, rest);
    NoBytesNoCommands(x2, rest);
    if w.h.cur > 0 {
      assert Emitted(w.h.sch[0]);
    }
  }

  lemma StartWaits(w: World, r: Rsp, x2: Xfr)
    requires Inv(w) && AnswerPossible(w, r) && w.q[0].Of? && w.q[0].cmd.Start?
    requires |w.h.sch| > 0 && w.q[0].job == w.h.sch[0].job && !Probe(w.h.sch[0])
    requires x2 == Addressed(w.h.sch[0], r).(rxPhase := Data)
    ensures var h1 := Credited(w.h, w.q[0], x2, 0);
      HostOK(h1) && LinkCore(h1, w.q[1..], DeadAfter(w.dead, r), x2.job) && WaitOK(h1, w.q[1..])
  {
    HeadAfterStart(w, r, x2);
    CreditedKeepsHost(w.h, w.q[0], x2, 0);
    CreditedKeepsCore(w.h, w.q, w.dead, w.rxJob, x2, 0, DeadAfter(w.dead, r));
  }

  lemma StopAnswer(w: World, r: Rsp)
    requires Inv(w) && AnswerPossible(w, r) && w.q[0].Stop?
    ensures Inv(OnAnswer(w, r)) && OnResponse(w.h, r).Some?
  {
    PopStop(w.h, w.q);
    var h1 := w.h.(free := w.h.free + 1);
    SameLists(w.h, h1);
    assert OnAnswer(w, r).h == h1;
    assert HeadOK(h1, w.dead, w.rxJob);
  }

  function PayloadOf(r: Rsp): nat {
    if r.RspRx? then r.rcvd else 0
  }

  lemma HeadAfterData(w: World, r: Rsp)
    requires Inv(w) && AnswerPossible(w, r) && w.q[0].Of? && !w.q[0].cmd.Start?
    ensures |w.h.sch| > 0 && w.q[0].job == w.h.sch[0].job && (r.RspTx? || r.RspRx?)
    ensures var x := w.h.sch[0]; var x1 := Counted(x, r);
      && x.rxPhase == Data && r.cnt == Size(w.q[0].cmd) && (x.short ==> r.short)
      && XferOK(x1) && PendOK(x1, Pend(w.q[1..], x1.job))
      && HeadFits(x1, PayloadOf(r), DeadAfter(w.dead, r))
  {
    HeadsCommand(w);
    var x := w.h.sch[0];
    var x1 := Counted(x, r);
    assert DataOK(x1, Pend(w.q[1..], x1.job));
  }

  lemma DataResponse(h: Host, r: Rsp, e: Entry)
    requires |h.sch| > 0 && h.sch[0].rxPhase == Data && h.rxLeft == 0 && e.Of?
    requires (r.RspTx? && e.cmd.Tx?) || (r.RspRx? && e.cmd.Rx?)
    requires r.cnt == Size(e.cmd) && (h.early == 0 ==> h.free + Cost(e) <= h.len) && (h.sch[0].short ==> r.short)
    ensures var h1 := Credited(h, e, Counted(h.sch[0], r), PayloadOf(r));
      OnResponse(h, r) == Some(if PayloadOf(r) == 0 then CheckHead(h1) else h1)
  {
  }

  // Data answers never trip a consistency check.
  lemma DataAnswer(w: World, r: Rsp)
    requires Inv(w) && AnswerPossible(w, r) && w.q[0].Of? && !w.q[0].cmd.Start?
    ensures Inv(OnAnswer(w, r)) && OnResponse(w.h, r).Some?
  {
    HeadAfterData(w, r);
    var x1 := Counted(w.h.sch[0], r);
    var left := PayloadOf(r);
    var h1 := Credited(w.h, w.q[0], x1, left);
    DataResponse(w.h, r, w.q[0]);
    CreditedKeepsHost(w.h, w.q[0], x1, left);
    CreditedKeepsCore(w.h, w.q, w.dead, w.rxJob, x1, left, DeadAfter(w.dead, r));
    if left == 0 {
      CheckHeadKeeps(h1, w.q[1..], DeadAfter(w.dead, r), x1.job);
      InvOf(w, r, CheckHead(h1));
    } else {
      InvOf(w, r, h1);
    }
  }

  // ---------------------------------------------------------------- payload bytes

  function Stored(x: Xfr, b: byte): Xfr
    requires !x.detached ==> x.xfrd < |x.buf|
  {
    x.(buf := if x.detached then x.buf else x.buf[x.xfrd := b], xfrd := x.xfrd + 1)
  }

  lemma StoredXfer(x: Xfr, b: byte)
    requires XferOK(x) && x.dir == Read && x.rxPhase == Data && x.xfrd < x.rsp
    ensures !x.detached ==> x.xfrd < |x.buf|
    ensures XferOK(Stored(x, b))
  {
  }

  lemma ByteResponse(h: Host, b: byte)
    requires StoreInside(h) && |h.sch| > 0 && XferOK(h.sch[0])
    requires h.sch[0].rxPhase == Data && h.sch[0].xfrd + h.rxLeft <= h.sch[0].rsp
    ensures var h1 := h.(sch := h.sch[0 := Stored(h.sch[0], b)], rxLeft := h.rxLeft - 1);
      RxByte(h, b) == Some(if h1.rxLeft == 0 then CheckHead(h1) else h1)
  {
  }

  lemma StoredKeepsCore(h: Host, q: seq<Entry>, dead: bool, rxJob: nat, b: byte)
    requires XfersOK(h) && LinkCore(h, q, dead, rxJob) && StoreInside(h)
    ensures |h.sch| > 0
    ensures LinkCore(h.(sch := h.sch[0 := Stored(h.sch[0], b)], rxLeft := h.rxLeft - 1), q, dead, rxJob)
  {
    var x1 := Stored(h.sch[0], b);
    var h1 := h.(sch := h.sch[0 := x1], rxLeft := h.rxLeft - 1);
    assert XferOK(h.sch[0]);
    ReplaceKeepsOwners(h.sch, q, 0, x1);
    StoredKeepsPends(h, q, x1);
    forall k | 0 < k < |h1.sch|
      ensures Unanswered(h1.sch[k])
    {
      assert h1.sch[k] == h.sch[k];
    }
    assert HeadOK(h1, dead, rxJob);
  }

  lemma StoredKeepsPends(h: Host, q: seq<Entry>, x1: Xfr)
    requires PendsOK(h.sch, q) && BusyOK(h, q) && |h.sch| > 0 && h.sch[0].active && h.sch[0].rxPhase == Data
    requires x1 == h.sch[0].(buf := x1.buf, xfrd := x1.xfrd)
    ensures PendsOK(h.sch[0 := x1], q) && BusyOK(h.(sch := h.sch[0 := x1]), q)
  {
    assert PendOK(h.sch[0], Pend(q, h.sch[0].job));
    assert DataOK(x1, Pend(q, x1.job));
  }

  // A payload byte never trips the overflow check.
  lemma DeliverKeepsInv(w: World, b: byte)
    requires Inv(w) && DeliverPossible(w) && StoreInside(w.h)
    ensures Inv(OnDeliver(w, b)) && RxByte(w.h, b).Some?
  {
    StoredKeepsCore(w.h, w.q, w.dead, w.rxJob, b);
    assert XferOK(w.h.sch[0]);
    var x1 := Stored(w.h.sch[0], b);
    var h1 := w.h.(sch := w.h.sch[0 := x1], rxLeft := w.h.rxLeft - 1);
    StoredXfer(w.h.sch[0], b);
    ReplaceHeadKeepsHost(w.h, h1, x1);
    ByteResponse(w.h, b);
    if h1.rxLeft == 0 {
      CheckHeadKeeps(h1, w.q, w.dead, w.rxJob);
      DeliverInv(w, b, CheckHead(h1));
    } else {
      DeliverInv(w, b, h1);
    }
  }

  lemma DeliverInv(w: World, b: byte, h1: Host)
    requires w.up && StoreInside(w.h) && RxByte(w.h, b) == Some(h1)
    requires HostOK(h1) && LinkCore(h1, w.q, w.dead, w.rxJob) && WaitOK(h1, w.q) && h1.early == 0
    ensures Inv(OnDeliver(w, b))
  {
    assert OnDeliver(w, b).h == h1;
  }
}
