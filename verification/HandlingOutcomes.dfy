/** How a handling ends: exactly when an acknowledged job goes unreported, and exactly
    when a forced cancellation leaves the handling. */
module HandlingOutcomes {
  import opened Options
  import opened Wire
  import opened Handling
  import opened HandlingHistory

  ghost predicate Any(h: seq<Entry>, p: Entry -> bool) { exists i :: 0 <= i < |h| && p(h[i]) }

  lemma AnyGrow(h: seq<Entry>, e: Entry, p: Entry -> bool)
    ensures Any(h + [e], p) <==> Any(h, p) || p(e)
  {
    var h1 := h + [e];
    assert h1[|h|] == e;
    if i :| 0 <= i < |h| && p(h[i]) { assert h1[i] == h[i]; }
  }

  // ---- acknowledged without a report ----

  /** A webhook attempt, an attempt to write `cancelled`, or a read that found the job terminal. */
  predicate IsReport(e: Entry) {
    e.call.Send? || (e.call.Write? && e.call.state == Cancelled) || (e.call.ReadState? && e.got.Yes?)
  }

  /** The cloud learns nothing about this job from the handling. */
  ghost predicate Unreported(m: Message, h: seq<Entry>) { m.WellAddressed() && !Any(h, IsReport) }

  predicate CompletedFine(e: Entry) { e.call.Write? && e.call.state == Completed && !Hard(e.got) }

  predicate PollNo(e: Entry) { e.call.Poll? && !e.got.Yes? && !e.got.Err? }

  /** The `completed` write went through and the poll after it said no: the result was to be sent. */
  ghost predicate PassedLastCheck(h: seq<Entry>) {
    exists i :: 0 <= i < |h| - 1 && CompletedFine(h[i]) && PollNo(h[i + 1])
  }

  /** The three ways out that skip the report: a poll raises through (in the handler, or forced), the `failed`
      write raises through, or a forced cancellation hits the runner, the cancel hook or the `completed` write. */
  predicate Severs(e: Entry) {
    || (e.call.Poll? && e.got.Err?)
    || (e.call.Write? && e.call.state == Failed && Hard(e.got))
    || (e.got == Err(ForcedCancel)
         && (e.call.Execute? || e.call.CancelHook? || (e.call.Write? && e.call.state == Completed)))
  }

  /** The last call before the acknowledgement severed the handling before any result was to be sent. */
  ghost predicate Severed(h: seq<Entry>) { h != [] && Severs(h[|h| - 1]) && !PassedLastCheck(h) }

  lemma PassedGrow(h: seq<Entry>, e: Entry)
    ensures PassedLastCheck(h + [e]) <==> PassedLastCheck(h) || (h != [] && CompletedFine(h[|h| - 1]) && PollNo(e))
  {
    var h1 := h + [e];
    assert forall i :: 0 <= i < |h| ==> h1[i] == h[i];
    assert h1[|h|] == e;
    if h != [] && CompletedFine(h[|h| - 1]) && PollNo(e) {
      var i := |h| - 1;
      assert CompletedFine(h1[i]) && PollNo(h1[i + 1]);
    }
    if i :| 0 <= i < |h| - 1 && CompletedFine(h[i]) && PollNo(h[i + 1]) {
      assert CompletedFine(h1[i]) && PollNo(h1[i + 1]);
    }
  }

  ghost predicate NotJustCompleted(h: seq<Entry>) { h == [] || !CompletedFine(h[|h| - 1]) }

  ghost predicate ReportInv(m: Message, pc: Pc, h: seq<Entry>) {
    match pc
    case AckEarly => !Unreported(m, h) && !Severed(h)
    case Finished(_) => h != [] && (h[|h| - 1].call.Ack? ==> (Unreported(m, h) <==> Severed(h[..|h| - 1])))
    case FinalAck(_) => m.WellAddressed() && (Any(h, IsReport) <==> !Severed(h))
    case MarkCancelled => m.WellAddressed()
    case SendError => m.WellAddressed()
    case SendResult(_) => m.WellAddressed() && PassedLastCheck(h)
    case AskInHandler => m.WellAddressed() && NotJustCompleted(h) && (Any(h, IsReport) <==> PassedLastCheck(h))
    case MarkFailed => m.WellAddressed() && (Any(h, IsReport) <==> PassedLastCheck(h))
    case AskBeforeSend(_) =>
      m.WellAddressed() && h != [] && CompletedFine(h[|h| - 1]) && !Any(h, IsReport) && !PassedLastCheck(h)
    case _ => m.WellAddressed() && NotJustCompleted(h) && !Any(h, IsReport) && !PassedLastCheck(h)
  }

  lemma ReportStep(m: Message, pc: Pc, h: seq<Entry>, g: Got)
    requires ReportInv(m, pc, h) && !pc.Finished?
    ensures ReportInv(m, Advance(m, pc, g), h + [Entry(m.id, CallAt(m, pc), g)])
  {
    var e := Entry(m.id, CallAt(m, pc), g);
    AnyGrow(h, e, IsReport);
    PassedGrow(h, e);
    assert (h + [e])[..|h|] == h;
    hide Any, PassedLastCheck;
  }

  lemma {:induction false} ReportTrace(m: Message, gs: seq<Got>)
    ensures var (p, t) := Trace(m, gs); ReportInv(m, p, t)
  {
    if gs == [] {
      assert !Any([], IsReport) && !PassedLastCheck([]);
    } else {
      ReportTrace(m, gs[..|gs| - 1]);
      var (pc, h) := Trace(m, gs[..|gs| - 1]);
      if !pc.Finished? { ReportStep(m, pc, h, gs[|gs| - 1]); }
      hide ReportInv, Advance;
    }
  }

  /** A handling that acknowledged its message left the job unreported (no webhook attempted, no `cancelled`
      write, not found terminal, all fields present) if and only if it was severed. */
  lemma UnreportedExact(m: Message, gs: seq<Got>)
    requires var (p, t) := Trace(m, gs); p.Finished? && t != [] && t[|t| - 1].call.Ack?
    ensures var t := Trace(m, gs).1; Unreported(m, t) <==> Severed(t[..|t| - 1])
  {
    ReportTrace(m, gs);
  }

  lemma {:induction false} WritesHas(h: seq<Entry>, i: nat)
    requires i < |h| && h[i].call.Write?
    ensures h[i].call.state in Writes(h)
    decreases |h|
  {
    if i < |h| - 1 { WritesHas(h[..|h| - 1], i); }
  }

  lemma NoCompletedWrite(h: seq<Entry>)
    requires Completed !in Writes(h)
    ensures !PassedLastCheck(h)
  {
    hide Writes;
    if i :| 0 <= i < |h| - 1 && CompletedFine(h[i]) && PollNo(h[i + 1]) { WritesHas(h, i); }
  }

  /** The run ended, acknowledged its message, reported nothing, and `e` was its last call before that. */
  ghost predicate EndsUnreported(m: Message, gs: seq<Got>, e: Entry) {
    var (p, t) := Trace(m, gs);
    p.Finished? && |t| >= 2 && t[|t| - 1] == Entry(m.id, Ack(m.id), Done) && t[|t| - 2] == e && Unreported(m, t)
  }

  lemma AcknowledgeUnreported(m: Message, gs: seq<Got>, e: Entry)
    requires var (p, h) := Trace(m, gs);
      p.FinalAck? && h != [] && h[|h| - 1] == e && Severs(e) && Completed !in Writes(h)
    ensures EndsUnreported(m, gs + [Done], e)
  {
    hide Trace, Writes, Any;
    var h := Trace(m, gs).1;
    Snoc(m, gs, Done);
    NoCompletedWrite(h);
    var t := Trace(m, gs + [Done]).1;
    assert t[..|t| - 1] == h;
    UnreportedExact(m, gs + [Done]);
  }

  lemma RunnerRaises(m: Message, f: Fault) returns (gs: seq<Got>)
    requires m.WellAddressed() && m.work.Some?
    ensures var (p, h) := Trace(m, gs);
      p == Thrown(f) && h != [] && h[|h| - 1] == Entry(m.id, Execute(m.Job(), m.Task()), Err(f))
        && Writes(h) == [Executing]
  {
    var g2 := [No] + [No] + [Done];
    ReachWaiting(m, [No], [No] + [No], g2);
    hide Trace, Writes;
    gs := g2 + [Err(f)];
    Snoc(m, g2, Err(f));
  }

  /** The runner raises, then the poll of the handler raises. */
  lemma PollRaisesUnreported(m: Message) returns (gs: seq<Got>)
    requires m.WellAddressed() && m.work.Some?
    ensures EndsUnreported(m, gs, Entry(m.id, Poll(m.Job()), Err(Connection)))
  {
    var g3 := RunnerRaises(m, OtherError);
    hide Trace, Writes, EndsUnreported;
    Snoc(m, g3, Err(Connection));
    AcknowledgeUnreported(m, g3 + [Err(Connection)], Entry(m.id, Poll(m.Job()), Err(Connection)));
    gs := g3 + [Err(Connection)] + [Done];
  }

  /** The runner raises, then the `failed` write raises anything but a connection error. */
  lemma FailedWriteUnreported(m: Message) returns (gs: seq<Got>)
    requires m.WellAddressed() && m.work.Some?
    ensures EndsUnreported(m, gs, Entry(m.id, Write(m.Job(), Failed), Err(OtherError)))
  {
    var g3 := RunnerRaises(m, OtherError);
    hide Trace, Writes, EndsUnreported;
    Snoc(m, g3, No);
    Snoc(m, g3 + [No], Err(OtherError));
    AcknowledgeUnreported(m, g3 + [No] + [Err(OtherError)], Entry(m.id, Write(m.Job(), Failed), Err(OtherError)));
    gs := g3 + [No] + [Err(OtherError)] + [Done];
  }

  /** A forced cancellation while the runner works. */
  lemma ForcedUnreported(m: Message) returns (gs: seq<Got>)
    requires m.WellAddressed() && m.work.Some?
    ensures EndsUnreported(m, gs, Entry(m.id, Execute(m.Job(), m.Task()), Err(ForcedCancel)))
  {
    var g3 := RunnerRaises(m, ForcedCancel);
    hide Trace, Writes, EndsUnreported;
    AcknowledgeUnreported(m, g3, Entry(m.id, Execute(m.Job(), m.Task()), Err(ForcedCancel)));
    gs := g3 + [Done];
  }

  // ---- a forced cancellation ----

  predicate ForcedElsewhere(e: Entry) { e.got == Err(ForcedCancel) && !e.call.Reap? }

  predicate ForcedReap(e: Entry) { e.got == Err(ForcedCancel) && e.call.Reap? }

  /** The acknowledgement raised another exception, which replaces the one on its way out. */
  ghost predicate Replaced(h: seq<Entry>) { h != [] && h[|h| - 1].call.Ack? && h[|h| - 1].got == Err(OtherError) }

  ghost predicate ForcedInv(pc: Pc, h: seq<Entry>) {
    if pc.Finished? then pc == Finished(Escape(ForcedCancel)) <==> Any(h, ForcedElsewhere) && !Replaced(h)
    else Any(h, ForcedElsewhere) <==> pc == FinalAck(Escape(ForcedCancel))
  }

  lemma ForcedStep(m: Message, pc: Pc, h: seq<Entry>, g: Got)
    requires ForcedInv(pc, h) && !pc.Finished?
    ensures ForcedInv(Advance(m, pc, g), h + [Entry(m.id, CallAt(m, pc), g)])
  {
    AnyGrow(h, Entry(m.id, CallAt(m, pc), g), ForcedElsewhere);
    hide Any;
  }

  lemma {:induction false} ForcedTrace(m: Message, gs: seq<Got>)
    ensures var (p, t) := Trace(m, gs); ForcedInv(p, t)
  {
    if gs != [] {
      ForcedTrace(m, gs[..|gs| - 1]);
      var (pc, h) := Trace(m, gs[..|gs| - 1]);
      if !pc.Finished? { ForcedStep(m, pc, h, gs[|gs| - 1]); }
      hide ForcedInv, Advance;
    }
  }

  /** A handling that has ended passes a forced cancellation on if and only if one arrived anywhere but at
      the reaping of the runner and no other failure of the acknowledgement replaced it. */
  lemma ForcedExact(m: Message, gs: seq<Got>)
    requires Trace(m, gs).0.Finished?
    ensures var (p, t) := Trace(m, gs);
      p == Finished(Escape(ForcedCancel)) <==> Any(t, ForcedElsewhere) && !Replaced(t)
  {
    ForcedTrace(m, gs);
  }

  lemma ReapForced(m: Message, gs: seq<Got>)
    requires Trace(m, gs).0 == ReapRunner
    ensures var (p, t) := Trace(m, gs + [Err(ForcedCancel)]); p == MarkCancelled && Any(t, ForcedReap)
  {
    hide Trace, Any, Writes;
    Snoc(m, gs, Err(ForcedCancel));
    AnyGrow(Trace(m, gs).1, Entry(m.id, Reap(m.Job()), Err(ForcedCancel)), ForcedReap);
  }

  lemma CancelledReturns(m: Message, gs: seq<Got>)
    requires Trace(m, gs).0 == MarkCancelled && Any(Trace(m, gs).1, ForcedReap)
    ensures var (p, t) := Trace(m, gs + [Done] + [Done]); p == Finished(Return) && Any(t, ForcedReap)
  {
    hide Trace, Any, Writes;
    Snoc(m, gs, Done);
    AnyGrow(Trace(m, gs).1, Entry(m.id, Write(m.Job(), Cancelled), Done), ForcedReap);
    Snoc(m, gs + [Done], Done);
    AnyGrow(Trace(m, gs + [Done]).1, Entry(m.id, Ack(m.id), Done), ForcedReap);
  }

  /** It is swallowed there: for every job that can run there is a handling that receives a forced
      cancellation and returns normally. */
  lemma ReapSwallows(m: Message) returns (gs: seq<Got>)
    requires m.WellAddressed() && m.work.Some?
    ensures var (p, t) := Trace(m, gs); p == Finished(Return) && Any(t, ForcedReap)
  {
    var g4 := ReachStopRunner(m);
    hide Trace, Writes, SawYes, Any;
    Snoc(m, g4, Done);
    ReapForced(m, g4 + [Done]);
    CancelledReturns(m, g4 + [Done] + [Err(ForcedCancel)]);
    gs := g4 + [Done] + [Err(ForcedCancel)] + [Done] + [Done];
  }
}
