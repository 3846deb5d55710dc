/**
 What goes over the wire, transfer by transfer: the command stream each transfer
 leaves in the trace, the grammar of the stream as a whole, the bytes a read
 collects, and what is true of a transfer when it is handed back to the user.
 */
module TwiTrace {
  import opened Basics
  import opened TwiHost
  import opened TwiWorld
  import opened TwiInvariant
  import opened TwiSteps

  // ---------------------------------------------------------------- one transfer's story

  // The bytes carried by a sequence of Tx commands.
  function Payload(cs: seq<Cmd>): seq<byte> {
    if cs == [] then [] else (if cs[0].Tx? then cs[0].data else []) + Payload(cs[1..])
  }

  // What a write has put on the wire: the bytes the user handed over, and 0xFF for all
  // that was still to be sent when the user destroyed it.
  function Spoken(x: Xfr): seq<byte> {
    if x.detached then Front(x.orig, x.cut) + Filler(x.cmd - x.cut) else Front(x.orig, x.cmd)
  }

  // One START, then data packets of 1..32 bytes; `last` marks the final read packet.
  ghost predicate TraceOf(x: Xfr, cs: seq<Cmd>) {
    if !x.active then cs == []
    else
      && |cs| > 0 && cs[0] == Start(AddressByte(x))
      && Packets(x, cs[1..])
  }

  ghost predicate Packets(x: Xfr, ds: seq<Cmd>) {
    && (forall k :: 0 <= k < |ds| ==> DataCmd(ds[k], x.dir))
    && Bytes(ds) == x.cmd
    && (x.dir == Write ==> Payload(ds) == Spoken(x))
    && (forall k :: 0 <= k < |ds| && ds[k].Rx? ==> (ds[k].last <==> k == |ds| - 1 && x.cmd == x.sc))
  }

  // A read's buffer is what the device delivered for it, followed by what was there before.
  // A destroyed read left the buffer as the first `cut` bytes made it.
  ghost predicate DeliveredOK(x: Xfr, got: seq<byte>) {
    if x.dir == Write then got == []
    else
      && |got| == x.xfrd <= |x.orig|
      && (if x.detached then x.cut <= x.xfrd && x.buf == got[..x.cut] + x.orig[x.cut..]
          else x.buf == got + x.orig[x.xfrd..])
  }

  ghost predicate Told(x: Xfr, trace: seq<Entry>, delivered: map<nat, seq<byte>>) {
    && TraceOf(x, Pend(trace, x.job))
    && DeliveredOK(x, Got(delivered, x.job))
  }

  function Got(delivered: map<nat, seq<byte>>, job: nat): seq<byte> {
    if job in delivered then delivered[job] else []
  }

  ghost predicate AllTold(h: Host, trace: seq<Entry>, delivered: map<nat, seq<byte>>) {
    && (forall i :: 0 <= i < |h.sch| ==> Told(h.sch[i], trace, delivered))
    && (forall k :: 0 <= k < |h.log| ==> Told(h.log[k].x, trace, delivered))
  }

  // ---------------------------------------------------------------- jobs

  function Jobs(sch: seq<Xfr>): (r: seq<nat>)
    ensures |r| == |sch|
    ensures forall i :: 0 <= i < |sch| ==> r[i] == sch[i].job
  {
    seq(|sch|, i requires 0 <= i < |sch| => sch[i].job)
  }

  function LogJobs(log: seq<Done>): (r: seq<nat>)
    ensures |r| == |log|
    ensures forall k :: 0 <= k < |log| ==> r[k] == log[k].x.job
  {
    seq(|log|, k requires 0 <= k < |log| => log[k].x.job)
  }

  function JobBag(h: Host): multiset<nat> {
    multiset(Jobs(h.sch)) + multiset(LogJobs(h.log))
  }

  // Each job is listed or was handed back, never both and never twice.
  ghost predicate BagOK(h: Host) {
    forall j: nat :: JobBag(h)[j] == if j < h.nextJob then 1 else 0
  }

  lemma SameBag(h: Host, h1: Host)
    requires BagOK(h) && JobBag(h1) == JobBag(h) && h1.nextJob == h.nextJob
    ensures BagOK(h1)
  {
  }

  lemma JobsWithout(sch: seq<Xfr>, i: nat)
    requires i < |sch|
    ensures Jobs(Without(sch, i)) == Without(Jobs(sch), i)
  {
  }

  lemma CompleteKeepsBag(h: Host, i: nat, status: Status)
    requires BagOK(h) && i < |h.sch|
    ensures BagOK(Complete(h, i, status))
  {
    var h1 := Complete(h, i, status);
    JobsWithout(h.sch, i);
    WithoutMultiset(Jobs(h.sch), i);
    assert LogJobs(h1.log) == LogJobs(h.log) + [h.sch[i].job];
    SameBag(h, h1);
  }

  lemma ScheduleKeepsBag(h: Host, handle: nat, r: Request)
    requires BagOK(h) && MaySchedule(h, handle, r)
    ensures BagOK(Schedule(h, handle, r))
  {
    var h1 := Schedule(h, handle, r);
    assert Jobs(h1.sch) == Jobs(h.sch) + [h.nextJob];
    assert JobBag(h1) == JobBag(h) + multiset{h.nextJob};
  }

  // A listed job was not handed back yet.
  lemma ListedNotLogged(h: Host, i: nat, k: nat)
    requires BagOK(h) && i < |h.sch| && k < |h.log|
    ensures h.sch[i].job != h.log[k].x.job
  {
    if h.sch[i].job == h.log[k].x.job {
      BothCounted(h, i, k);
      assert false;
    }
  }

  lemma BothCounted(h: Host, i: nat, k: nat)
    requires i < |h.sch| && k < |h.log| && h.sch[i].job == h.log[k].x.job
    ensures JobBag(h)[h.sch[i].job] >= 2
  {
    assert Jobs(h.sch)[i] in multiset(Jobs(h.sch));
    assert LogJobs(h.log)[k] in multiset(LogJobs(h.log));
  }

  // ---------------------------------------------------------------- the stream as a whole

  // What may come right after e.
  ghost predicate FollowOK(e: Entry, f: Entry) {
    match e
    case Stop => f.Of? && f.cmd.Start?
    case Of(job, _, More) => f.Of? && (if f.cmd.Start? then job < f.job else f.job == job)
    case Of(job, _, Final(stop)) => if stop then f.Stop? else f.Of? && f.cmd.Start? && job < f.job
  }

  ghost predicate GrammarOK(trace: seq<Entry>) {
    && (trace != [] ==> trace[0].Of? && trace[0].cmd.Start?)
    && (forall k :: 0 <= k < |trace| - 1 ==> FollowOK(trace[k], trace[k + 1]))
  }

  // How the end of the stream and the host's pump position fit together.
  ghost predicate EdgeOK(h: Host, trace: seq<Entry>) {
    && (h.txStop <==> trace != [] && trace[|trace| - 1].Of? && trace[|trace| - 1].progress == Final(true))
    && (h.cur < |h.sch| && h.sch[h.cur].active ==>
          && trace != [] && trace[|trace| - 1].Of?
          && trace[|trace| - 1].job == h.sch[h.cur].job && trace[|trace| - 1].progress == More)
    && (forall i, k :: 0 <= i < |h.sch| && !h.sch[i].active && 0 <= k < |trace| && trace[k].Of? ==>
          trace[k].job < h.sch[i].job)
  }

  // A command marked final really was the last of its transfer.
  ghost predicate FinalsOK(h: Host, trace: seq<Entry>) {
    forall k :: 0 <= k < |trace| && trace[k].Of? && trace[k].progress.Final? ==>
      && (forall i :: 0 <= i < |h.sch| && h.sch[i].job == trace[k].job ==> Emitted(h.sch[i]))
      && (forall i :: 0 <= i < |h.log| && h.log[i].x.job == trace[k].job ==> Emitted(h.log[i].x))
  }

  ghost predicate BelowNext(trace: seq<Entry>, delivered: map<nat, seq<byte>>, nextJob: nat) {
    && (forall k :: 0 <= k < |trace| && trace[k].Of? ==> trace[k].job < nextJob)
    && (forall j :: j in delivered ==> j < nextJob)
  }

  // ---------------------------------------------------------------- handing back

  // A transfer completed by its responses was answered in full: without a short answer
  // everything was transferred, with one something is missing.
  ghost predicate Counts(x: Xfr) {
    && x.xfrd <= x.rsp <= x.cmd <= x.sc
    && |x.buf| == x.sc
    && OriginOK(x)
  }

  ghost predicate Outcome(d: Done) {
    d.status != Cancelled ==>
      && Counts(d.x)
      && d.x.active && d.x.rsp == d.x.cmd
      && (!d.x.short ==> d.x.xfrd == d.x.sc)
      && (d.x.short && !Probe(d.x) ==> d.x.xfrd < d.x.sc)
      && (d.status == Skipped ==> d.x.skipped)
      && (d.status == Success ==> !d.x.skipped)
  }

  ghost predicate OutcomesOK(h: Host) {
    forall k :: 0 <= k < |h.log| ==> Outcome(h.log[k])
  }

  ghost predicate Story(h: Host, trace: seq<Entry>, delivered: map<nat, seq<byte>>) {
    && BagOK(h)
    && AllTold(h, trace, delivered)
    && FinalsOK(h, trace)
    && EdgeOK(h, trace)
    && BelowNext(trace, delivered, h.nextJob)
    && OutcomesOK(h)
  }

  ghost predicate Chronicle(w: World) {
    Story(w.h, w.trace, w.delivered) && GrammarOK(w.trace)
  }

  // ---------------------------------------------------------------- basic moves

  lemma CompleteKeepsTold(h: Host, i: nat, status: Status, trace: seq<Entry>, delivered: map<nat, seq<byte>>)
    requires i < |h.sch| && AllTold(h, trace, delivered)
    ensures AllTold(Complete(h, i, status), trace, delivered)
  {
    var h1 := Complete(h, i, status);
    forall k | 0 <= k < |h1.sch|
      ensures Told(h1.sch[k], trace, delivered)
    {
      assert h1.sch[k] == h.sch[Old(i, k)];
    }
    forall k | 0 <= k < |h1.log|
      ensures Told(h1.log[k].x, trace, delivered)
    {
      assert k < |h.log| ==> h1.log[k] == h.log[k];
    }
  }

  lemma CompleteKeepsFinals(h: Host, i: nat, status: Status, trace: seq<Entry>)
    requires i < |h.sch| && FinalsOK(h, trace)
    ensures FinalsOK(Complete(h, i, status), trace)
  {
    var h1 := Complete(h, i, status);
    forall k, m | 0 <= k < |trace| && trace[k].Of? && trace[k].progress.Final? && 0 <= m < |h1.sch| &&
                  h1.sch[m].job == trace[k].job
      ensures Emitted(h1.sch[m])
    {
      assert h1.sch[m] == h.sch[Old(i, m)];
    }
  }

  lemma CompleteKeepsEdge(h: Host, i: nat, status: Status, trace: seq<Entry>)
    requires i < |h.sch| && SplitOK(h) && EdgeOK(h, trace)
    ensures EdgeOK(Complete(h, i, status), trace)
  {
    var h1 := Complete(h, i, status);
    if h1.cur < |h1.sch| && h1.sch[h1.cur].active {
      assert h1.sch[h1.cur] == h.sch[Old(i, h1.cur)];
    }
    forall m, k | 0 <= m < |h1.sch| && !h1.sch[m].active && 0 <= k < |trace| && trace[k].Of?
      ensures trace[k].job < h1.sch[m].job
    {
      assert h1.sch[m] == h.sch[Old(i, m)];
    }
  }

  lemma CompleteKeepsStory(h: Host, i: nat, status: Status, trace: seq<Entry>, delivered: map<nat, seq<byte>>)
    requires i < |h.sch| && SplitOK(h) && Story(h, trace, delivered) && Outcome(Done(h.sch[i], status))
    ensures Story(Complete(h, i, status), trace, delivered)
  {
    CompleteKeepsBag(h, i, status);
    CompleteKeepsTold(h, i, status, trace, delivered);
    CompleteKeepsFinals(h, i, status, trace);
    CompleteKeepsEdge(h, i, status, trace);
    CompleteKeepsOutcomes(h, i, status);
  }

  lemma CompleteKeepsOutcomes(h: Host, i: nat, status: Status)
    requires i < |h.sch| && OutcomesOK(h) && Outcome(Done(h.sch[i], status))
    ensures OutcomesOK(Complete(h, i, status))
    ensures Complete(h, i, status).nextJob == h.nextJob
  {
  }

  // The story does not depend on credit, flags, or the pool lists.
  lemma SameStory(h: Host, h1: Host, trace: seq<Entry>, delivered: map<nat, seq<byte>>)
    requires Story(h, trace, delivered)
    requires h1.sch == h.sch && h1.log == h.log && h1.cur == h.cur && h1.txStop == h.txStop && h1.nextJob == h.nextJob
    ensures Story(h1, trace, delivered)
  {
    assert JobBag(h1) == JobBag(h);
    SameBag(h, h1);
  }

  // Rewriting transfer i in a way its own story survives.
  lemma ReplaceKeepsStory(h: Host, h1: Host, i: nat, x1: Xfr, trace: seq<Entry>,
                          delivered: map<nat, seq<byte>>, delivered1: map<nat, seq<byte>>)
    requires i < |h.sch| && Story(h, trace, delivered)
    requires h1.sch == h.sch[i := x1] && h1.log == h.log && h1.cur == h.cur && h1.txStop == h.txStop
    requires h1.nextJob == h.nextJob
    requires x1.job == h.sch[i].job && x1.active == h.sch[i].active && x1.cmd == h.sch[i].cmd && x1.sc == h.sch[i].sc
    requires Told(x1, trace, delivered1)
    requires forall j :: j != x1.job ==> Got(delivered1, j) == Got(delivered, j)
    requires BelowNext(trace, delivered1, h.nextJob) && JobsOK(h)
    ensures Story(h1, trace, delivered1)
  {
    assert Jobs(h1.sch) == Jobs(h.sch);
    SameBag(h, h1);
    forall k | 0 <= k < |h1.sch|
      ensures Told(h1.sch[k], trace, delivered1)
    {
      if k != i {
        assert h1.sch[k] == h.sch[k] && h.sch[k].job != x1.job;
        assert Told(h.sch[k], trace, delivered);
      }
    }
    forall k | 0 <= k < |h1.log|
      ensures Told(h1.log[k].x, trace, delivered1)
    {
      ListedNotLogged(h, i, k);
      assert Told(h.log[k].x, trace, delivered);
    }
    ReplaceKeepsEdge(h, h1, i, x1, trace);
  }

  lemma ReplaceKeepsEdge(h: Host, h1: Host, i: nat, x1: Xfr, trace: seq<Entry>)
    requires i < |h.sch| && FinalsOK(h, trace) && EdgeOK(h, trace)
    requires h1.sch == h.sch[i := x1] && h1.log == h.log && h1.cur == h.cur && h1.txStop == h.txStop
    requires x1.job == h.sch[i].job && x1.active == h.sch[i].active && x1.cmd == h.sch[i].cmd && x1.sc == h.sch[i].sc
    ensures FinalsOK(h1, trace) && EdgeOK(h1, trace)
  {
    assert forall k :: 0 <= k < |h.sch| ==> h1.sch[k].active == h.sch[k].active && h1.sch[k].job == h.sch[k].job;
    assert forall k :: 0 <= k < |h.sch| ==> (Emitted(h.sch[k]) ==> Emitted(h1.sch[k]));
  }
}
