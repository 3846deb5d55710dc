/** A run from the start in which a full answer can follow a skipped one of the same transfer. */
module SpiWitness {
  import opened Basics
  import opened SpiHost
  import opened SpiWorld
  import opened SpiRuns

  // The event takes w to w1.
  ghost predicate Takes(w: World, ev: Event, w1: World) {
    (w.up ==> Pumpable(w.h)) && (w.up && w.h.left > 0 ==> StoreInside(w.h)) && Step(w, ev) == w1
  }

  ghost predicate Next(w: World, ev: Event, w1: World) {
    Good(w) && Takes(w, ev, w1) && Good(w1)
  }

  lemma NextOf(w: World, ev: Event) returns (w1: World)
    requires Good(w)
    ensures Next(w, ev, w1)
  {
    StepKeepsGood(w, ev);
    w1 := Step(w, ev);
  }

  lemma RunNext(w: World, ev: Event, w1: World, evs: seq<Event>)
    requires Next(w, ev, w1)
    ensures Run(w, [ev] + evs) == Run(w1, evs)
  {
    assert ([ev] + evs)[1..] == evs;
  }

  lemma TheStart() returns (w: World)
    ensures w == START && Good(w)
  {
    StartIsGood();
    w := START;
  }

  lemma FromStart(w: World, w1: World)
    requires w == START && Good(w) && RunsTo(w, w1)
    ensures Reachable(w1)
  {
  }

  // ---------------------------------------------------------------- the events

  ghost predicate Empty(w: World) {
    w.up && w.q == [] && w.h.sch == [] && w.h.cur == 0 && w.h.len == 0 && w.h.left == 0
  }

  // One transfer of 33 bytes of which `fi` were sent, the packets of which are under way.
  ghost predicate Going(w: World, free: nat, fi: nat, packets: nat) {
    && w.up && |w.h.sch| == 1 && w.h.left == 0 && w.h.free == free && |w.q| == packets
    && (var x := w.h.sch[0];
        && x.sc == 33 == |x.buf| && x.fi == fi && x.si == 0 && x.ss == 0 && !x.skipped && !x.detached
        && w.h.cur == (if fi < 33 then 0 else 1)
        && forall k :: 0 <= k < |w.q| ==> w.q[k].job == x.job)
  }

  lemma StartIsEmpty(w: World)
    requires w == START
    ensures Empty(w)
  {
  }

  lemma EmptyReady(w: World, w1: World, w2: World, buf: seq<byte>)
    requires Empty(w) && |buf| == 33 && Takes(w, InfoBlock(40), w1) && Takes(w1, UserSchedule(buf, 0), w2)
    ensures Going(w2, 40, 0, 0)
  {
  }

  lemma FirstGoes(w: World, w1: World)
    requires Going(w, 40, 0, 0) && Takes(w, Transmit, w1)
    ensures Going(w1, 6, 32, 1)
  {
  }

  lemma SecondGoes(w: World, w1: World)
    requires Going(w, 6, 32, 1) && Takes(w, Transmit, w1)
    ensures Going(w1, 3, 33, 2)
  {
  }

  lemma FirstSkipped(w: World, w1: World)
    requires Good(w) && Going(w, 3, 33, 2) && Takes(w, AnswerSkipped, w1) && Good(w1)
    ensures w1.q != [] && w1.gone == Some(w1.q[0].job)
    ensures w1.h.left == 0
  {
    assert w.q[0].job == w.q[1].job && w1.q == w.q[1..];
  }

  // It can come to a full answer after a skipped one: a transfer of 33 bytes takes two
  // packets, both fit in a buffer of 40, and the device skips the first.
  lemma SkippedFirstOccurs() returns (w1: World)
    ensures Reachable(w1) && AnswerPossible(w1) && w1.gone == Some(w1.q[0].job)
  {
    var w := TheStart();
    StartIsEmpty(w);
    w1 := EmptySkips(w);
    FromStart(w, w1);
  }

  lemma EmptySkips(w: World) returns (w5: World)
    requires Good(w) && Empty(w)
    ensures RunsTo(w, w5) && AnswerPossible(w5) && w5.gone == Some(w5.q[0].job)
  {
    var buf := seq(33, _ => 0);
    var w1 := NextOf(w, InfoBlock(40));
    var w2 := NextOf(w1, UserSchedule(buf, 0));
    EmptyReady(w, w1, w2, buf);
    var evs;
    w5, evs := ReadySkips(w2);
    RunNext(w1, UserSchedule(buf, 0), w2, evs);
    RunNext(w, InfoBlock(40), w1, [UserSchedule(buf, 0)] + evs);
    assert Run(w, [InfoBlock(40)] + ([UserSchedule(buf, 0)] + evs)) == w5;
  }

  lemma ReadySkips(w2: World) returns (w5: World, evs: seq<Event>)
    requires Good(w2) && Going(w2, 40, 0, 0)
    ensures Run(w2, evs) == w5 && AnswerPossible(w5) && w5.gone == Some(w5.q[0].job)
  {
    var w3 := NextOf(w2, Transmit);
    FirstGoes(w2, w3);
    var w4 := NextOf(w3, Transmit);
    SecondGoes(w3, w4);
    w5 := NextOf(w4, AnswerSkipped);
    FirstSkipped(w4, w5);
    StaysUp(w4, w5);
    evs := [Transmit] + ([Transmit] + ([AnswerSkipped] + []));
    RunNext(w4, AnswerSkipped, w5, []);
    RunNext(w3, Transmit, w4, [AnswerSkipped] + []);
    RunNext(w2, Transmit, w3, [Transmit] + ([AnswerSkipped] + []));
  }

  lemma StaysUp(w: World, w1: World)
    requires Next(w, AnswerSkipped, w1) && w.up
    ensures w1.up
  {
    NeverDetaches(w, [AnswerSkipped]);
    RunNext(w, AnswerSkipped, w1, []);
    assert [AnswerSkipped] + [] == [AnswerSkipped];
  }
}
