/** Runs from the start in which a full answer can follow a skipped one, or a link is lost in between. */
module OwWitness {
  import opened Basics
  import opened OwHost
  import opened OwWorld
  import opened OwRuns

  // The event takes w to w1.
  ghost predicate Takes(w: World, ev: Event, w1: World) {
    (w.up ==> Pumpable(w.h)) && (w.up && w.h.busy.Bytes? ==> StoreInside(w.h)) && Step(w, ev) == w1
  }

  ghost predicate Next(w: World, ev: Event, w1: World) {
    Good(w) && Takes(w, ev, w1) && Good(w1)
  }

  lemma NextOf(w: World, ev: Event) returns (w1: World)
    requires Good(w)
    ensures Next(w, ev, w1)
  {
    StepKeepsGood(w, ev);
    w1 := Step(w, ev);
  }

  lemma RunNext(w: World, ev: Event, w1: World, evs: seq<Event>)
    requires Next(w, ev, w1)
    ensures Run(w, [ev] + evs) == Run(w1, evs)
  {
    assert ([ev] + evs)[1..] == evs;
  }

  lemma TheStart() returns (w: World)
    ensures w == START && Good(w)
  {
    StartIsGood();
    w := START;
  }

  lemma FromStart(w: World, w1: World)
    requires w == START && Good(w) && RunsTo(w, w1)
    ensures Reachable(w1)
  {
  }

  // ---------------------------------------------------------------- a skipped first packet

  ghost predicate Empty(w: World) {
    w.up && w.q == [] && w.h.sch == [] && w.h.cur == 0 && w.h.len == 0 && w.h.busy == Idle
  }

  // One touch transfer of 129 bits of which `fi` were sent, the packets of which are under way.
  ghost predicate Going(w: World, free: nat, fi: nat, packets: nat) {
    && w.up && |w.h.sch| == 1 && w.h.busy == Idle && w.h.free == free && |w.q| == packets
    && (var x := w.h.sch[0];
        && x.kind == Touch && x.sc == 129 && |x.buf| == 17 && x.fi == fi && !x.skipped && !x.detached
        && w.h.cur == (if fi < 129 then 0 else 1)
        && forall k :: 0 <= k < |w.q| ==> w.q[k].job == x.job && w.q[k].kind == Touch && w.q[k].bits > 0)
  }

  lemma StartIsEmpty(w: World)
    requires w == START
    ensures Empty(w)
  {
  }

  lemma EmptyReady(w: World, w1: World, w2: World, buf: seq<byte>)
    requires Empty(w) && |buf| == 17
    requires Takes(w, InfoBlock(40, false), w1) && Takes(w1, UserSchedule(TouchRequest(buf, 129, false)), w2)
    ensures Going(w2, 40, 0, 0)
  {
  }

  lemma FirstGoes(w: World, w1: World)
    requires Going(w, 40, 0, 0) && Takes(w, Transmit, w1)
    ensures Going(w1, 21, 128, 1)
  {
  }

  lemma SecondGoes(w: World, w1: World)
    requires Going(w, 21, 128, 1) && Takes(w, Transmit, w1)
    ensures Going(w1, 17, 129, 2)
  {
  }

  lemma FirstSkipped(w: World, w1: World)
    requires Going(w, 17, 129, 2) && Takes(w, AnswerSkipped, w1)
    ensures w1.q != [] && w1.q[0].kind == Touch && w1.q[0].bits > 0 && w1.gone == Some(w1.q[0].job)
    ensures w1.h.busy == Idle
  {
    assert w.q[0].job == w.q[1].job && w1.q == w.q[1..];
  }

  // It can come to a full answer after a skipped one: 129 bits take two packets, both fit
  // in a buffer of 40 bytes, and the device skips the first.
  lemma SkippedFirstOccurs() returns (w1: World)
    ensures Reachable(w1) && TouchPossible(w1) && w1.gone == Some(w1.q[0].job)
  {
    var w := TheStart();
    StartIsEmpty(w);
    w1 := EmptySkips(w);
    FromStart(w, w1);
  }

  lemma EmptySkips(w: World) returns (w5: World)
    requires Good(w) && Empty(w)
    ensures RunsTo(w, w5) && TouchPossible(w5) && w5.gone == Some(w5.q[0].job)
  {
    var r := TouchRequest(seq(17, _ => 0), 129, false);
    var w1 := NextOf(w, InfoBlock(40, false));
    var w2 := NextOf(w1, UserSchedule(r));
    EmptyReady(w, w1, w2, r.buf);
    var evs;
    w5, evs := ReadySkips(w2);
    RunNext(w1, UserSchedule(r), w2, evs);
    RunNext(w, InfoBlock(40, false), w1, [UserSchedule(r)] + evs);
    assert Run(w, [InfoBlock(40, false)] + ([UserSchedule(r)] + evs)) == w5;
  }

  lemma ReadySkips(w2: World) returns (w5: World, evs: seq<Event>)
    requires Good(w2) && Going(w2, 40, 0, 0)
    ensures Run(w2, evs) == w5 && TouchPossible(w5) && w5.gone == Some(w5.q[0].job)
  {
    var w3 := NextOf(w2, Transmit);
    FirstGoes(w2, w3);
    var w4 := NextOf(w3, Transmit);
    SecondGoes(w3, w4);
    w5 := NextOf(w4, AnswerSkipped);
    FirstSkipped(w4, w5);
    StaysUp(w4, w5);
    evs := [Transmit] + ([Transmit] + ([AnswerSkipped] + []));
    RunNext(w4, AnswerSkipped, w5, []);
    RunNext(w3, Transmit, w4, [AnswerSkipped] + []);
    RunNext(w2, Transmit, w3, [Transmit] + ([AnswerSkipped] + []));
  }

  lemma StaysUp(w: World, w1: World)
    requires Next(w, AnswerSkipped, w1) && w.up
    ensures w1.up
  {
    NeverDetaches(w, [AnswerSkipped]);
    RunNext(w, AnswerSkipped, w1, []);
    assert [AnswerSkipped] + [] == [AnswerSkipped];
  }

  // ---------------------------------------------------------------- a link lost in between

  lemma EmptyActive(w: World, w1: World, w2: World, w3: World)
    requires Empty(w) && Takes(w, InfoBlock(11, false), w1) && Takes(w1, UserSchedule(ResetRequest), w2)
    requires Takes(w2, Transmit, w3)
    ensures w3.up && |w3.h.sch| == 1 && w3.h.sch[0].active
  {
  }

  // The link can be lost while a transfer is active: a reset that was sent and not answered.
  lemma LostActiveOccurs() returns (w1: World)
    ensures Reachable(w1) && !w1.up && |w1.h.sch| == 1 && w1.h.sch[0].active
  {
    var w := TheStart();
    StartIsEmpty(w);
    w1 := EmptyLost(w);
    FromStart(w, w1);
  }

  lemma EmptyLost(w: World) returns (w4: World)
    requires Good(w) && Empty(w)
    ensures RunsTo(w, w4) && !w4.up && |w4.h.sch| == 1 && w4.h.sch[0].active
  {
    var e1, e2 := InfoBlock(11, false), UserSchedule(ResetRequest);
    var w1 := NextOf(w, e1);
    var w2 := NextOf(w1, e2);
    var w3 := NextOf(w2, Transmit);
    EmptyActive(w, w1, w2, w3);
    w4 := NextOf(w3, LinkLost);
    RunNext(w3, LinkLost, w4, []);
    RunNext(w2, Transmit, w3, [LinkLost] + []);
    RunNext(w1, e2, w2, [Transmit] + ([LinkLost] + []));
    RunNext(w, e1, w1, [e2] + ([Transmit] + ([LinkLost] + [])));
    assert Run(w, [e1] + ([e2] + ([Transmit] + ([LinkLost] + [])))) == w4;
  }
}
