/**
 The 1-Wire host and a conforming device, joined by the queue of commands sent and not
 answered yet. The device answers each once, in order, a touch packet either in full or
 as skipped; once a packet of a transfer was skipped it skips the transfer's others.
 */
module OwWorld {
  import opened Basics
  import opened OwHost

  datatype World = World(
    h: Host, up: bool, q: seq<Packet>, gone: Option<nat>,
    trace: seq<Packet>, delivered: map<nat, seq<byte>>, rxJob: nat)

  const START := World(Host([], 0, 0, 0, Idle, false, 0, []), true, [], None, [], map[], 0)

  datatype Event =
    | UserSchedule(r: Request)
    | UserCancel(job: nat)
    | UserDestroy(job: nat)
    | InfoBlock(len: nat, probes: bool)
    | Transmit
    | AnswerSingle(skipped: bool, found: bool)   // to a reset, probe or enumeration
    | RomArrives                                 // the ROM code of an enumeration
    | AnswerSkipped                              // a touch packet was skipped
    | AnswerFull                                 // the head of a full touch answer
    | Deliver(b: byte)
    | LinkLost

  // Losing the link leaves 1-Wire transfers scheduled: the code that completes the
  // transfers of the other interfaces passes them over.
  function Settle(w: World, o: Option<Host>): World {
    match o
    case None => w.(up := false)
    case Some(h) => w.(h := h)
  }

  function Got(w: World, job: nat): seq<byte> {
    if job in w.delivered then w.delivered[job] else []
  }

  predicate AnswerPossible(w: World) {
    w.up && w.h.busy.Idle? && w.q != []
  }

  predicate TouchPossible(w: World) {
    AnswerPossible(w) && w.q[0].kind == Touch && w.q[0].bits > 0
  }

  function OnTransmit(w: World): World
    requires Pumpable(w.h)
  {
    match TxOne(w.h)
    case Quiet => w
    case Emit(h, p) => w.(h := h, q := w.q + [p], trace := w.trace + [p])
  }

  function OnAnswerSingle(w: World, skipped: bool, found: bool): World
    requires w.q != [] && w.q[0].kind != Touch
  {
    var w1 := w.(q := w.q[1..], rxJob := w.q[0].job);
    Settle(w1, if w.q[0].kind == Enum then RxEnum(w.h, skipped, found) else RxPlain(w.h, w.q[0].kind, skipped))
  }

  function OnAnswerSkipped(w: World): World
    requires w.q != [] && w.q[0].bits > 0
  {
    var p := w.q[0];
    Settle(w.(q := w.q[1..], gone := Some(p.job)), OnTouchSkipped(w.h, p.spu, p.bits))
  }

  function OnAnswerFull(w: World): World
    requires w.q != [] && w.q[0].bits > 0
  {
    var p := w.q[0];
    Settle(w.(q := w.q[1..], rxJob := p.job), OnTouchFull(w.h, p.spu, p.bits))
  }

  function OnDeliver(w: World, b: byte): World
    requires StoreInside(w.h)
  {
    Settle(w.(delivered := w.delivered[w.rxJob := Got(w, w.rxJob) + [b]]), RxByte(w.h, b))
  }

  // Events that are not possible in w leave it as it is.
  function Step(w: World, ev: Event): World
    requires w.up ==> Pumpable(w.h)
    requires w.up && w.h.busy.Bytes? ==> StoreInside(w.h)
  {
    match ev
    case UserSchedule(r) => w.(h := Schedule(w.h, r))
    case UserCancel(job) => w.(h := Cancel(w.h, job))
    case UserDestroy(job) => w.(h := Destroy(w.h, job))
    case InfoBlock(len, probes) =>
      if w.up && w.h.len == 0 then w.(h := w.h.(len := len, free := len, probes := probes)) else w
    case Transmit => if w.up then OnTransmit(w) else w
    case AnswerSingle(skipped, found) =>
      if AnswerPossible(w) && w.q[0].kind != Touch then OnAnswerSingle(w, skipped, found) else w
    case RomArrives => if w.up && w.h.busy.Rom? then Settle(w, RxRom(w.h)) else w
    case AnswerSkipped => if TouchPossible(w) then OnAnswerSkipped(w) else w
    case AnswerFull => if TouchPossible(w) && w.gone != Some(w.q[0].job) then OnAnswerFull(w) else w
    case Deliver(b) => if w.up && w.h.busy.Bytes? then OnDeliver(w, b) else w
    case LinkLost => w.(up := false)
  }

  function Load(q: seq<Packet>): nat {
    if q == [] then 0 else Cost(q[0]) + Load(q[1..])
  }

  lemma {:induction false} LoadAppend(q: seq<Packet>, p: Packet)
    ensures Load(q + [p]) == Load(q) + Cost(p)
  {
    if q == [] {
      assert q + [p] == [p] && [p][1..] == [];
    } else {
      assert (q + [p])[1..] == q[1..] + [p];
      LoadAppend(q[1..], p);
    }
  }

  // How many packets of a transfer are on their way.
  function CountOf(q: seq<Packet>, job: nat): nat {
    if q == [] then 0 else (if q[0].job == job then 1 else 0) + CountOf(q[1..], job)
  }

  lemma {:induction false} CountAppend(q: seq<Packet>, p: Packet, job: nat)
    ensures CountOf(q + [p], job) == CountOf(q, job) + (if p.job == job then 1 else 0)
  {
    if q == [] {
      assert q + [p] == [p] && [p][1..] == [];
    } else {
      assert (q + [p])[1..] == q[1..] + [p];
      CountAppend(q[1..], p, job);
    }
  }

  // What was sent of one touch transfer, in order.
  function Sent(trace: seq<Packet>, job: nat): seq<byte> {
    if trace == [] then []
    else (if trace[0].job == job then trace[0].data else []) + Sent(trace[1..], job)
  }

  lemma {:induction false} SentAppend(trace: seq<Packet>, p: Packet, job: nat)
    ensures Sent(trace + [p], job) == if p.job == job then Sent(trace, job) + p.data else Sent(trace, job)
  {
    if trace == [] {
      assert trace + [p] == [p] && [p][1..] == [];
    } else {
      assert (trace + [p])[1..] == trace[1..] + [p];
      SentAppend(trace[1..], p, job);
      var first := if trace[0].job == job then trace[0].data else [];
      assert first + (Sent(trace[1..], job) + p.data) == (first + Sent(trace[1..], job)) + p.data;
    }
  }
}
