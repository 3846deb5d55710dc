/**
 The host and a conforming device, joined by the queue of commands the host has
 emitted and the device has not answered yet, and every event that can happen
 to them. `trace` and `delivered` record what went over the wire.

 A conforming device answers its commands in order, once each, echoing address,
 direction and count. Once a command of a transfer was NACKed, cut short or
 skipped, the remaining commands of that transfer come back skipped.
 */
module TwiWorld {
  import opened Basics
  import opened TwiHost

  // `dead` is the device's memory that the current transfer has gone wrong.
  // `rxJob` is the job whose Rx command the device is delivering bytes for.
  datatype World = World(
    h: Host, up: bool, q: seq<Entry>, dead: bool,
    trace: seq<Entry>, delivered: map<nat, seq<byte>>, rxJob: nat)

  const START := World(IDLE, true, [], false, [], map[], 0)

  datatype Event =
    | UserCreate
    | UserSchedule(handle: nat, r: Request)
    | UserCancel(handle: nat)
    | UserDestroy(handle: nat)
    | UserEnable(on: bool)
    | InfoBlock(len: nat)       // the device announces its buffer length, once
    | Transmit                  // the pump emits one command, if it can
    | Count                     // the count of an answer that is not skipped arrives
    | Answer(rsp: Rsp)          // the device answers its oldest command
    | Deliver(b: byte)          // the device sends a byte of an Rx payload
    | RaiseBusError
    | RaiseArbLost
    | LinkLost

  // ---------------------------------------------------------------- the device

  predicate Conforms(e: Entry, dead: bool, r: Rsp) {
    match e
    case Stop => r.RspStop?
    case Of(_, Start(u), _) =>
      r.RspStart? && r.ad == u / 2 && r.dir == (if u % 2 == 1 then Read else Write)
    case Of(_, Tx(data), _) =>
      && r.RspTx? && r.cnt == |data| && r.sent <= r.cnt
      && r.short == (r.sent < r.cnt)
      && (dead ==> r.sent == 0)
    case Of(_, Rx(n, _), _) =>
      && r.RspRx? && r.cnt == n && r.rcvd <= r.cnt
      && r.short == (r.rcvd < r.cnt)
      && (dead ==> r.rcvd == 0)
  }

  function DeadAfter(dead: bool, r: Rsp): bool {
    match r
    case RspStart(skipped, nack, _, _) => skipped || nack
    case RspStop(_) => dead
    case RspTx(short, nack, _, _) => dead || short || nack
    case RspRx(short, nack, _, _) => dead || short || nack
  }

  // ---------------------------------------------------------------- events

  function Down(w: World): World {
    w.(up := false, h := CompleteAll(w.h))
  }

  function Settle(w: World, o: Option<Host>): World {
    match o
    case None => Down(w)
    case Some(h) => w.(h := h)
  }

  function DeliveredTo(w: World, job: nat): seq<byte> {
    if job in w.delivered then w.delivered[job] else []
  }

  // No response is under way.
  predicate Boundary(w: World) {
    w.up && w.h.rxLeft == 0 && w.h.early == 0
  }

  // Part of the oldest data command was carried out, so its answer gives two counts.
  predicate CountPossible(w: World) {
    Boundary(w) && !w.dead && w.q != [] && w.q[0].Of? && !w.q[0].cmd.Start?
  }

  // A response can only start when the payload of the previous one is through. The count
  // of an answer that is not skipped may have arrived ahead of the rest.
  predicate AnswerPossible(w: World, r: Rsp) {
    && w.up && w.h.rxLeft == 0 && w.q != [] && Conforms(w.q[0], w.dead, r)
    && (w.h.early > 0 ==> (r.RspTx? && r.sent > 0) || (r.RspRx? && r.rcvd > 0))
  }

  predicate DeliverPossible(w: World) {
    w.up && w.h.rxLeft > 0
  }

  function OnTransmit(w: World): World
    requires Pumpable(w.h)
  {
    match TxOne(w.h)
    case Quiet => w
    case Emit(h, e) => w.(h := h, q := w.q + [e], trace := w.trace + [e])
  }

  function OnCounted(w: World): World
    requires CountPossible(w)
  {
    Settle(w, OnCount(w.h, Size(w.q[0].cmd)))
  }

  function OnAnswer(w: World, r: Rsp): World
    requires w.q != []
  {
    var e := w.q[0];
    var w1 := w.(q := w.q[1..], dead := DeadAfter(w.dead, r),
                 rxJob := if e.Of? then e.job else w.rxJob);
    Settle(w1, OnResponse(w1.h, r))
  }

  predicate StoreInside(h: Host) {
    h.rxLeft > 0 && (|h.sch| > 0 && !h.sch[0].detached ==> h.sch[0].xfrd < |h.sch[0].buf|)
  }

  function OnDeliver(w: World, b: byte): World
    requires StoreInside(w.h)
  {
    var w1 := w.(delivered := w.delivered[w.rxJob := DeliveredTo(w, w.rxJob) + [b]]);
    Settle(w1, RxByte(w1.h, b))
  }

  // Events that are not possible in w leave it as it is.
  function Step(w: World, ev: Event): World
    requires w.up ==> Pumpable(w.h)
    requires DeliverPossible(w) ==> StoreInside(w.h)
  {
    match ev
    case UserCreate => w.(h := Create(w.h))
    case UserSchedule(handle, r) => w.(h := Schedule(w.h, handle, r))
    case UserCancel(handle) => w.(h := Cancel(w.h, handle))
    case UserDestroy(handle) => w.(h := Destroy(w.h, handle))
    case UserEnable(on) =>
      if !w.up then w
      else if on then w.(h := w.h.(enabled := true))
      else w.(h := w.h.(enabled := false, busError := false, arbLost := false))
    case InfoBlock(len) => if w.up && w.h.len == 0 then w.(h := w.h.(len := len, free := len)) else w
    case Transmit => if w.up then OnTransmit(w) else w
    case Count => if CountPossible(w) then OnCounted(w) else w
    case Answer(r) => if AnswerPossible(w, r) then OnAnswer(w, r) else w
    case Deliver(b) => if DeliverPossible(w) then OnDeliver(w, b) else w
    case RaiseBusError => if Boundary(w) then w.(h := w.h.(busError := true)) else w
    case RaiseArbLost => if Boundary(w) then w.(h := w.h.(arbLost := true)) else w
    case LinkLost => if w.up then Down(w) else w
  }

  // ---------------------------------------------------------------- reading queues

  // The commands of one job, in order.
  function Pend(q: seq<Entry>, job: nat): (r: seq<Cmd>)
    ensures |r| <= |q|
  {
    if q == [] then []
    else (if q[0].Of? && q[0].job == job then [q[0].cmd] else []) + Pend(q[1..], job)
  }

  function Bytes(cs: seq<Cmd>): nat {
    if cs == [] then 0 else Size(cs[0]) + Bytes(cs[1..])
  }

  function Load(q: seq<Entry>): nat {
    if q == [] then 0 else Cost(q[0]) + Load(q[1..])
  }

  lemma LoadPositive(q: seq<Entry>)
    ensures q != [] ==> Load(q) > 0
  {
    if q != [] {
      assert Cost(q[0]) > 0;
    }
  }

  lemma {:induction false} PendAppend(q: seq<Entry>, e: Entry, job: nat)
    ensures Pend(q + [e], job) == if e.Of? && e.job == job then Pend(q, job) + [e.cmd] else Pend(q, job)
  {
    if q == [] {
      assert q + [e] == [e] && [e][1..] == [];
    } else {
      assert (q + [e])[1..] == q[1..] + [e];
      PendAppend(q[1..], e, job);
    }
  }

  lemma {:induction false} BytesAppend(cs: seq<Cmd>, c: Cmd)
    ensures Bytes(cs + [c]) == Bytes(cs) + Size(c)
  {
    if cs == [] {
      assert cs + [c] == [c] && [c][1..] == [];
    } else {
      assert (cs + [c])[1..] == cs[1..] + [c];
      BytesAppend(cs[1..], c);
    }
  }

  lemma {:induction false} LoadAppend(q: seq<Entry>, e: Entry)
    ensures Load(q + [e]) == Load(q) + Cost(e)
  {
    if q == [] {
      assert q + [e] == [e] && [e][1..] == [];
    } else {
      assert (q + [e])[1..] == q[1..] + [e];
      LoadAppend(q[1..], e);
    }
  }

  // A job has pending commands exactly when an entry of the queue carries its number.
  lemma {:induction false} PendWitness(q: seq<Entry>, job: nat) returns (k: nat)
    requires Pend(q, job) != []
    ensures k < |q| && q[k].Of? && q[k].job == job
  {
    if q[0].Of? && q[0].job == job {
      k := 0;
    } else {
      k := PendWitness(q[1..], job);
      k := k + 1;
    }
  }

  lemma {:induction false} PendPresent(q: seq<Entry>, k: nat)
    requires k < |q| && q[k].Of?
    ensures Pend(q, q[k].job) != []
  {
    if k > 0 {
      PendPresent(q[1..], k - 1);
    }
  }
}
