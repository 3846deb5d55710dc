/**
 The SPI host and a conforming device, joined by the queue of packets sent and not
 answered yet. The device answers every packet once, in order, echoing slave select,
 last flag and count, either in full or as skipped; once a packet of a transfer was
 skipped, it skips the transfer's other packets too.
 */
module SpiWorld {
  import opened Basics
  import opened SpiHost

  // `gone` is the transfer of which a packet was skipped last, `rxJob` the one whose
  // answer is being received; `trace` and `delivered` record what went over the wire.
  datatype World = World(
    h: Host, up: bool, q: seq<Packet>, gone: Option<nat>,
    trace: seq<Packet>, delivered: map<nat, seq<byte>>, rxJob: nat)

  const START := World(Host([], 0, 0, 0, 0, false, 0, []), true, [], None, [], map[], 0)

  datatype Event =
    | UserSchedule(buf: seq<byte>, ss: nat)
    | UserCancel(job: nat)
    | UserDestroy(job: nat)
    | InfoBlock(len: nat)   // the device announces its buffer length, once
    | Transmit              // the pump sends one packet, if it can
    | AnswerSkipped         // the oldest packet is answered as skipped
    | AnswerFull            // the head of a full answer to the oldest packet
    | Deliver(b: byte)      // the next byte of a full answer
    | LinkLost

  function Down(w: World): World {
    w.(up := false, h := CompleteAll(w.h))
  }

  function Settle(w: World, o: Option<Host>): World {
    match o
    case None => Down(w)
    case Some(h) => w.(h := h)
  }

  function Got(w: World, job: nat): seq<byte> {
    if job in w.delivered then w.delivered[job] else []
  }

  predicate AnswerPossible(w: World) {
    w.up && w.h.left == 0 && w.q != []
  }

  function OnTransmit(w: World): World
    requires Pumpable(w.h)
  {
    match TxOne(w.h)
    case Quiet => w
    case Emit(h, p) => w.(h := h, q := w.q + [p], trace := w.trace + [p])
  }

  function OnAnswerSkipped(w: World): World
    requires w.q != []
  {
    var p := w.q[0];
    Settle(w.(q := w.q[1..], gone := Some(p.job)), OnSkipped(w.h, p.ss, |p.data|))
  }

  function OnAnswerFull(w: World): World
    requires w.q != []
  {
    var p := w.q[0];
    Settle(w.(q := w.q[1..], rxJob := p.job), OnFull(w.h, p.last, p.ss, |p.data|))
  }

  function OnDeliver(w: World, b: byte): World
    requires StoreInside(w.h)
  {
    Settle(w.(delivered := w.delivered[w.rxJob := Got(w, w.rxJob) + [b]]), RxByte(w.h, b))
  }

  // Events that are not possible in w leave it as it is.
  function Step(w: World, ev: Event): World
    requires w.up ==> Pumpable(w.h)
    requires w.up && w.h.left > 0 ==> StoreInside(w.h)
  {
    match ev
    case UserSchedule(buf, ss) => w.(h := Schedule(w.h, buf, ss))
    case UserCancel(job) => w.(h := Cancel(w.h, job))
    case UserDestroy(job) => w.(h := Destroy(w.h, job))
    case InfoBlock(len) => if w.up && w.h.len == 0 then w.(h := w.h.(len := len, free := len)) else w
    case Transmit => if w.up then OnTransmit(w) else w
    case AnswerSkipped => if AnswerPossible(w) then OnAnswerSkipped(w) else w
    case AnswerFull => if AnswerPossible(w) && w.gone != Some(w.q[0].job) then OnAnswerFull(w) else w
    case Deliver(b) => if w.up && w.h.left > 0 then OnDeliver(w, b) else w
    case LinkLost => if w.up then Down(w) else w
  }

  function Load(q: seq<Packet>): nat {
    if q == [] then 0 else 2 + |q[0].data| + Load(q[1..])
  }

  lemma {:induction false} LoadAppend(q: seq<Packet>, p: Packet)
    ensures Load(q + [p]) == Load(q) + 2 + |p.data|
  {
    if q == [] {
      assert q + [p] == [p] && [p][1..] == [];
    } else {
      assert (q + [p])[1..] == q[1..] + [p];
      LoadAppend(q[1..], p);
    }
  }

  // What was sent of one transfer, in order.
  function Sent(trace: seq<Packet>, job: nat): seq<byte> {
    if trace == [] then []
    else (if trace[0].job == job then trace[0].data else []) + Sent(trace[1..], job)
  }

  lemma {:induction false} SentAppend(trace: seq<Packet>, p: Packet, job: nat)
    ensures Sent(trace + [p], job) == if p.job == job then Sent(trace, job) + p.data else Sent(trace, job)
  {
    if trace == [] {
      assert trace + [p] == [p] && [p][1..] == [];
    } else {
      assert (trace + [p])[1..] == trace[1..] + [p];
      SentAppend(trace[1..], p, job);
      var first := if trace[0].job == job then trace[0].data else [];
      assert first + (Sent(trace[1..], job) + p.data) == (first + Sent(trace[1..], job)) + p.data;
    }
  }
}
