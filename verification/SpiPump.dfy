/** What the SPI pump of the object layer does to the world is a run of Transmit events. */
module SpiPump {
  import opened Basics
  import opened SpiHost
  import opened SpiWorld
  import opened SpiRuns
  import opened SpiContext

  function Transmits(n: nat): (evs: seq<Event>)
    ensures |evs| == n
  {
    if n == 0 then [] else [Transmit] + Transmits(n - 1)
  }

  lemma TransmitsMore(n: nat)
    ensures Transmits(n + 1)[0] == Transmit && Transmits(n + 1)[1..] == Transmits(n)
  {
  }

  lemma TransmitLeads(w: World, w1: World)
    requires Good(w) && w.up && Pumpable(w.h) && OnTransmit(w) == w1
    ensures w.up && w.h.left > 0 ==> StoreInside(w.h)
    ensures Good(w1) && Step(w, Transmit) == w1
  {
    StepKeepsGood(w, Transmit);
  }

  lemma TransmitFirst(w: World, n: nat, w1: World)
    requires Good(w) && w.up && Pumpable(w.h) && OnTransmit(w) == w1
    ensures Good(w1) && Run(w, Transmits(n + 1)) == Run(w1, Transmits(n))
  {
    TransmitLeads(w, w1);
    TransmitsMore(n);
    RunFirst(w, Transmits(n + 1));
  }

  // The world after the pump has emitted es.
  function Added(w: World, h: Host, es: seq<Packet>): World {
    w.(h := h, q := w.q + es, trace := w.trace + es)
  }

  lemma AddedNone(w: World)
    ensures Added(w, w.h, []) == w
  {
  }

  lemma AddedMore(w: World, h1: Host, e: Packet, h2: Host, es: seq<Packet>)
    ensures Added(Added(w, h1, [e]), h2, es) == Added(w, h2, [e] + es)
  {
    Associative(w.q, [e], es);
    Associative(w.trace, [e], es);
  }

  lemma TransmitAdds(w: World, h1: Host, e: Packet)
    requires Pumpable(w.h) && TxOne(w.h) == Emit(h1, e)
    ensures OnTransmit(w) == Added(w, h1, [e])
  {
  }

  lemma PumpFirst(h: Host, h1: Host, e: Packet)
    requires PumpReady(h) && Pumpable(h) && TxOne(h) == Emit(h1, e)
    ensures PumpReady(h1) && h1.free < h.free
    ensures Pump(h) == (Pump(h1).0, [e] + Pump(h1).1)
  {
    PumpStaysReady(h);
  }

  // One go of the pump, whatever state a run has led to: so many Transmit events take the
  // world to where the pump takes the host, and the pump's commands are what they add to
  // the queue and the trace.
  lemma {:induction false} PumpIsARun(w: World)
    requires Good(w) && w.up
    ensures PumpReady(w.h)
    ensures Run(w, Transmits(|Pump(w.h).1|)) == Added(w, Pump(w.h).0, Pump(w.h).1)
    decreases w.h.free
  {
    HostIsReady(w.h);
    PumpStaysReady(w.h);
    match TxOne(w.h)
    case Quiet => AddedNone(w);
    case Emit(h1, e) =>
      PumpFirst(w.h, h1, e);
      TransmitAdds(w, h1, e);
      TransmitFirst(w, |Pump(h1).1|, Added(w, h1, [e]));
      PumpIsARun(Added(w, h1, [e]));
      AddedMore(w, h1, e, Pump(h1).0, Pump(h1).1);
  }
}
