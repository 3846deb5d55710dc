/** A run from the start that ends with a START the device skipped, and that is stuck. */
module TwiWitness {
  import opened TwiHost
  import opened TwiWorld
  import opened TwiRuns

  // The event takes w to w1.
  ghost predicate Takes(w: World, ev: Event, w1: World) {
    (w.up ==> Pumpable(w.h)) && (DeliverPossible(w) ==> StoreInside(w.h)) && Step(w, ev) == w1
  }

  ghost predicate Next(w: World, ev: Event, w1: World) {
    Good(w) && Takes(w, ev, w1) && Good(w1)
  }

  lemma NextOf(w: World, ev: Event) returns (w1: World)
    requires Good(w)
    ensures Next(w, ev, w1)
  {
    StepKeepsGood(w, ev);
    w1 := Step(w, ev);
  }

  lemma RunNext(w: World, ev: Event, w1: World, evs: seq<Event>)
    requires Next(w, ev, w1)
    ensures Run(w, [ev] + evs) == Run(w1, evs)
  {
    assert ([ev] + evs)[1..] == evs;
  }

  // ---------------------------------------------------------------- the five events

  const ONE_BYTE := Request([7], 10, Write, false)
  const SKIP := RspStart(true, false, 10, Write)

  // One object, and room for a START but not for a packet.
  ghost predicate Ready(w: World) {
    && w.up && w.q == [] && At(w.h, 0, Assigned) && w.h.sch == [] && w.h.cur == 0 && w.h.free == 5
    && !w.h.txStop && w.h.early == 0 && w.h.rxLeft == 0 && w.h.nextJob == 0
  }

  ghost predicate Empty(w: World) {
    && w.up && w.q == [] && w.h.cachedCnt == 0 && w.h.nextHandle == 0 && w.h.sch == [] && w.h.cur == 0
    && w.h.len == 0 && !w.h.txStop && w.h.early == 0 && w.h.rxLeft == 0 && w.h.nextJob == 0
  }

  lemma StartIsEmpty(w: World)
    requires w == START
    ensures Empty(w)
  {
  }

  lemma EmptyCreated(w: World, w1: World)
    requires Empty(w) && Takes(w, UserCreate, w1)
    ensures Ready(w1.(h := w1.h.(free := 5))) && w1.h.len == 0
  {
  }

  lemma CreatedReady(w: World, w1: World)
    requires Ready(w.(h := w.h.(free := 5))) && w.h.len == 0 && Takes(w, InfoBlock(5), w1)
    ensures Ready(w1)
  {
  }

  ghost predicate Listed(w: World, x: Xfr) {
    && w.up && w.q == [] && w.h.sch == [x] && w.h.cur == 0 && w.h.free == 5
    && !w.h.txStop && w.h.early == 0 && w.h.rxLeft == 0
    && x.buf == [7] && x.sc == 1 && x.cmd == 0 && x.ad == 10 && x.dir == Write && x.job == 0
    && !x.short && !x.detached && x.txPhase == Addressing
  }

  lemma ReadyScheduled(w: World, w1: World)
    requires Ready(w) && Takes(w, UserSchedule(0, ONE_BYTE), w1)
    ensures Listed(w1, NewXfr(w.h, 0, ONE_BYTE))
  {
  }

  lemma StartedOf(h: Host, x: Xfr)
    requires h.sch == [x] && h.cur == 0 && h.free >= 2 && !h.txStop && Pumpable(h)
    requires x.sc == 1 && x.cmd == 0 && x.ad == 10 && x.dir == Write && !x.short && x.txPhase == Addressing
    ensures TxOne(h).Emit? && TxOne(h).e == Of(x.job, Start(20), More)
    ensures var h1 := TxOne(h).h;
      h1.sch == [x.(active := true, txPhase := Data)] && h1.cur == 0 && h1.early == h.early && h1.rxLeft == h.rxLeft
  {
  }

  lemma ListedStarted(w: World, x: Xfr, w1: World)
    requires Listed(w, x) && Takes(w, Transmit, w1)
    ensures AnswerPossible(w1, SKIP) && w1.q[0].Of? && w1.q[0].cmd.Start?
    ensures w1.h.sch == [x.(active := true, txPhase := Data)] && w1.h.sch[0].job == 0
  {
    StartedOf(w.h, x);
  }

  lemma StartedSticks(w: World, x: Xfr, w1: World)
    requires Next(w, Answer(SKIP), w1) && AnswerPossible(w, SKIP) && w.q[0].Of? && w.q[0].cmd.Start?
    requires w.h.sch == [x] && x.ad == 10 && x.sc == 1 && x.cmd == 0 && x.job == 0
    ensures HeadStuck(w1, 0)
  {
    SkippedStartSticks(w, SKIP);
  }

  // It does happen: one object, a device with a buffer of five bytes, a write of one byte
  // whose packet does not fit behind its START, and the device skips the START.
  lemma SkippedStartOccurs() returns (w1: World)
    ensures Reachable(w1) && HeadStuck(w1, 0)
  {
    var w := TheStart();
    w1 := StartSticks(w);
  }

  lemma TheStart() returns (w: World)
    ensures w == START && Good(w)
  {
    StartIsGood();
    w := START;
  }

  lemma StartSticks(w: World) returns (w1: World)
    requires w == START && Good(w)
    ensures Reachable(w1) && HeadStuck(w1, 0)
  {
    StartIsEmpty(w);
    w1 := EmptySticks(w);
    FromStart(w, w1);
  }

  lemma FromStart(w: World, w1: World)
    requires w == START && Good(w) && RunsTo(w, w1)
    ensures Reachable(w1)
  {
  }

  lemma EmptySticks(w: World) returns (w5: World)
    requires Good(w) && Empty(w)
    ensures RunsTo(w, w5) && HeadStuck(w5, 0)
  {
    var w1 := NextOf(w, UserCreate);
    EmptyCreated(w, w1);
    var w2 := NextOf(w1, InfoBlock(5));
    CreatedReady(w1, w2);
    var evs;
    w5, evs := ReadySticks(w2);
    RunNext(w1, InfoBlock(5), w2, evs);
    evs := [InfoBlock(5)] + evs;
    RunNext(w, UserCreate, w1, evs);
    evs := [UserCreate] + evs;
    assert Run(w, evs) == w5;
  }

  lemma ReadySticks(w2: World) returns (w5: World, evs: seq<Event>)
    requires Good(w2) && Ready(w2)
    ensures Run(w2, evs) == w5 && HeadStuck(w5, 0)
  {
    var w3 := NextOf(w2, UserSchedule(0, ONE_BYTE));
    ReadyScheduled(w2, w3);
    var w4 := NextOf(w3, Transmit);
    var x := NewXfr(w2.h, 0, ONE_BYTE);
    ListedStarted(w3, x, w4);
    w5 := NextOf(w4, Answer(SKIP));
    StartedSticks(w4, x.(active := true, txPhase := Data), w5);
    evs := [UserSchedule(0, ONE_BYTE)] + ([Transmit] + ([Answer(SKIP)] + []));
    RunNext(w4, Answer(SKIP), w5, []);
    RunNext(w3, Transmit, w4, [Answer(SKIP)] + []);
    RunNext(w2, UserSchedule(0, ONE_BYTE), w3, [Transmit] + ([Answer(SKIP)] + []));
  }
}
