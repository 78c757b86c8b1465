/** What the call history of one handling can look like, whatever the
    environment replies. */
module HandlingHistory {
  import opened Options
  import opened Wire
  import opened Handling

  /** The states a history tried to write, in order. */
  function Writes(h: seq<Entry>): seq<State> {
    if h == [] then []
    else Writes(h[..|h| - 1]) + (if h[|h| - 1].call.Write? then [h[|h| - 1].call.state] else [])
  }

  /** How many webhook calls returned normally. */
  function Delivered(h: seq<Entry>): nat {
    if h == [] then 0
    else Delivered(h[..|h| - 1]) + (if h[|h| - 1].call.Send? && !h[|h| - 1].got.Err? then 1 else 0)
  }

  ghost predicate IsYes(e: Entry) { e.call.Poll? && e.got.Yes? }

  ghost predicate IsNo(e: Entry) { e.call.Poll? && !e.got.Yes? && !e.got.Err? }

  ghost predicate SawYes(h: seq<Entry>) { exists i :: 0 <= i < |h| && IsYes(h[i]) }

  /** After a positive cancel poll nothing is sent and only `cancelled` is
      written. */
  ghost predicate QuietAfterYes(h: seq<Entry>) {
    forall i, k :: 0 <= i < k < |h| && IsYes(h[i]) ==>
      !h[k].call.Send? && (h[k].call.Write? ==> h[k].call.state == Cancelled)
  }

  /** The call at `k` directly follows a negative poll, up to one status write. */
  ghost predicate FollowsNo(h: seq<Entry>, k: nat)
    requires k <= |h|
  {
    || (k >= 1 && IsNo(h[k - 1]))
    || (k >= 2 && h[k - 1].call.Write? && IsNo(h[k - 2]))
  }

  ghost predicate SendsFollowNo(h: seq<Entry>) {
    forall k :: 0 <= k < |h| && h[k].call.Send? ==> FollowsNo(h, k)
  }

  /** The forced cancellation that hits the executor's cancel hook. */
  ghost predicate HookKilled(h: seq<Entry>) {
    exists i :: 0 <= i < |h| && h[i].call.CancelHook? && h[i].got == Err(ForcedCancel)
  }

  ghost predicate EndsCancelled(w: seq<State>) { w != [] && w[|w| - 1] == Cancelled }

  /** The status paths of one `_process_message` call. */
  ghost predicate FullPath(w: seq<State>) {
    || w == [] || w == [Cancelled] || w == [Executing]
    || w == [Executing, Completed] || w == [Executing, Failed] || w == [Executing, Cancelled]
    || w == [Executing, Completed, Failed] || w == [Executing, Completed, Cancelled]
  }

  /** The paths possible at each await. */
  ghost predicate PathAt(pc: Pc, w: seq<State>) {
    match pc
    case AskStatus => w == []
    case AskCancel => w == []
    case MarkBefore => w == []
    case MarkExecuting => w == []
    case AckEarly => w == [] || w == [Cancelled]
    case AskBeforeSend(_) => w == [Executing, Completed]
    case SendResult(_) => w == [Executing, Completed]
    case MarkCancelled => w == [Executing] || w == [Executing, Completed]
    case AskInHandler => w == [Executing] || w == [Executing, Completed]
    case MarkFailed => w == [Executing] || w == [Executing, Completed]
    case SendError => w == [Executing, Failed] || w == [Executing, Completed, Failed]
    case FinalAck(Return) => FullPath(w) && |w| >= 2
    case FinalAck(Escape(_)) => FullPath(w) && |w| >= 1 && w[0] == Executing
    case Finished(_) => FullPath(w)
    case _ => w == [Executing]
  }

  ghost predicate PathInv(pc: Pc, h: seq<Entry>) {
    && PathAt(pc, Writes(h))
    && Delivered(h) <= (if pc.FinalAck? || pc.Finished? then 1 else 0)
  }

  /** Once a poll said yes, only these awaits remain. */
  ghost predicate Cancelling(pc: Pc) {
    pc.MarkBefore? || pc.AckEarly? || pc.StopRunner? || pc.ReapRunner? || pc.MarkCancelled? || pc.FinalAck?
      || pc.Finished?
  }

  ghost predicate QuietInv(pc: Pc, h: seq<Entry>) {
    QuietAfterYes(h) && (SawYes(h) ==> Cancelling(pc))
  }

  ghost predicate SendInv(pc: Pc, h: seq<Entry>) {
    && SendsFollowNo(h)
    && (pc.SendResult? || pc.MarkFailed? ==> h != [] && IsNo(h[|h| - 1]))
    && (pc.SendError? ==> |h| >= 2 && h[|h| - 1].call.Write? && IsNo(h[|h| - 2]))
  }

  ghost predicate EndInv(pc: Pc, h: seq<Entry>) {
    && (SawYes(h) ==> Cancelling(pc))
    && (SawYes(h) && (pc.AckEarly? || pc.FinalAck? || pc.Finished?) ==> EndsCancelled(Writes(h)) || HookKilled(h))
    && (HookKilled(h) ==> (pc.FinalAck? || pc.Finished?) && !EndsCancelled(Writes(h)))
  }

  ghost predicate CancelInv(pc: Pc, h: seq<Entry>) { QuietInv(pc, h) && SendInv(pc, h) && EndInv(pc, h) }

  lemma Grow(h: seq<Entry>, e: Entry)
    ensures Writes(h + [e]) == Writes(h) + (if e.call.Write? then [e.call.state] else [])
    ensures Delivered(h + [e]) == Delivered(h) + (if e.call.Send? && !e.got.Err? then 1 else 0)
  {
    assert (h + [e])[..|h|] == h;
  }

  lemma SawYesGrow(h: seq<Entry>, e: Entry)
    ensures SawYes(h + [e]) <==> SawYes(h) || IsYes(e)
  {
    if i :| 0 <= i < |h| && IsYes(h[i]) { assert IsYes((h + [e])[i]); }
    if IsYes(e) { assert IsYes((h + [e])[|h|]); }
  }

  lemma PathStep(m: Message, pc: Pc, h: seq<Entry>, g: Got)
    requires PathInv(pc, h) && !pc.Finished?
    ensures PathInv(Advance(m, pc, g), h + [Entry(m.id, CallAt(m, pc), g)])
  {
    Grow(h, Entry(m.id, CallAt(m, pc), g));
    hide Writes, Delivered;
  }

  lemma QuietStep(m: Message, pc: Pc, h: seq<Entry>, g: Got)
    requires QuietInv(pc, h) && !pc.Finished?
    ensures QuietInv(Advance(m, pc, g), h + [Entry(m.id, CallAt(m, pc), g)])
  {
    var h1 := h + [Entry(m.id, CallAt(m, pc), g)];
    assert forall i :: 0 <= i < |h| ==> h1[i] == h[i];
    assert SawYes(h1) ==> SawYes(h) || IsYes(h1[|h|]);
  }

  lemma SendStep(m: Message, pc: Pc, h: seq<Entry>, g: Got)
    requires SendInv(pc, h) && !pc.Finished?
    ensures SendInv(Advance(m, pc, g), h + [Entry(m.id, CallAt(m, pc), g)])
  {
    var h1 := h + [Entry(m.id, CallAt(m, pc), g)];
    assert forall i :: 0 <= i < |h| ==> h1[i] == h[i];
    forall k | 0 <= k < |h1| && h1[k].call.Send? ensures FollowsNo(h1, k) {
      if k < |h| { assert FollowsNo(h, k); }
    }
  }

  lemma HookKilledGrow(h: seq<Entry>, e: Entry)
    ensures HookKilled(h + [e]) <==> HookKilled(h) || (e.call.CancelHook? && e.got == Err(ForcedCancel))
  {
    var h1 := h + [e];
    assert h1[|h|] == e;
    if i :| 0 <= i < |h| && h[i].call.CancelHook? && h[i].got == Err(ForcedCancel) { assert h1[i] == h[i]; }
  }

  lemma EndStep(m: Message, pc: Pc, h: seq<Entry>, g: Got)
    requires EndInv(pc, h) && PathInv(pc, h) && !pc.Finished?
    ensures EndInv(Advance(m, pc, g), h + [Entry(m.id, CallAt(m, pc), g)])
  {
    var e := Entry(m.id, CallAt(m, pc), g);
    var h1 := h + [e];
    Grow(h, e);
    SawYesGrow(h, e);
    HookKilledGrow(h, e);
    hide HookKilled, SawYes, Writes, Delivered;
  }

  /** The await and history reached by a handling that got these replies. */
  function Trace(m: Message, gs: seq<Got>): (Pc, seq<Entry>)
  {
    if gs == [] then (Start(m), [])
    else
      var (pc, h) := Trace(m, gs[..|gs| - 1]);
      if pc.Finished? then (pc, h)
      else (Advance(m, pc, gs[|gs| - 1]), h + [Entry(m.id, CallAt(m, pc), gs[|gs| - 1])])
  }

  lemma {:induction false} TraceInv(m: Message, gs: seq<Got>)
    ensures var (p, t) := Trace(m, gs); PathInv(p, t) && CancelInv(p, t)
  {
    if gs != [] {
      TraceInv(m, gs[..|gs| - 1]);
      var (pc, h) := Trace(m, gs[..|gs| - 1]);
      if !pc.Finished? {
        PathStep(m, pc, h, gs[|gs| - 1]);
        QuietStep(m, pc, h, gs[|gs| - 1]);
        SendStep(m, pc, h, gs[|gs| - 1]);
        EndStep(m, pc, h, gs[|gs| - 1]);
      }
    }
  }

  /** The state read, the first cancel poll or the first write raised, so the job never started. */
  ghost predicate CutEarly(h: seq<Entry>) {
    || (|h| == 1 && h[0].call.ReadState? && h[0].got.Err?)
    || (|h| == 2 && h[1].call.Poll? && h[1].got.Err?)
    || (|h| == 3 && h[2].call.Write? && Hard(h[2].got))
  }

  ghost predicate AckInv(m: Message, pc: Pc, h: seq<Entry>) {
    && (forall i :: 0 <= i < |h| ==> h[i].call.Ack? ==> h[i].call.id == m.id && i == |h| - 1 && pc.Finished?)
    && (pc.AskStatus? ==> h == [])
    && (pc.AskCancel? ==> |h| == 1)
    && (pc.MarkBefore? || pc.MarkExecuting? ==> |h| == 2)
    && (pc.Finished? ==> h != [] && (h[|h| - 1].call.Ack? <==> !CutEarly(h)))
  }

  lemma AckStep(m: Message, pc: Pc, h: seq<Entry>, g: Got)
    requires AckInv(m, pc, h) && !pc.Finished?
    ensures AckInv(m, Advance(m, pc, g), h + [Entry(m.id, CallAt(m, pc), g)])
  {
    var h1 := h + [Entry(m.id, CallAt(m, pc), g)];
    assert forall i :: 0 <= i < |h| ==> h1[i] == h[i];
  }

  /** Acknowledgement: a handling acknowledges at most once, its own message, as its last call; and one
      that has ended did so if and only if no failure cut it short before the job started. */
  lemma {:induction false} AckExact(m: Message, gs: seq<Got>)
    ensures var (p, t) := Trace(m, gs);
      && (forall i :: 0 <= i < |t| && t[i].call.Ack? ==> t[i].call.id == m.id && i == |t| - 1)
      && (p.Finished? ==> t != [] && (t[|t| - 1].call.Ack? <==> !CutEarly(t)))
  {
    AckTrace(m, gs);
  }

  lemma {:induction false} AckTrace(m: Message, gs: seq<Got>)
    ensures var (p, t) := Trace(m, gs); AckInv(m, p, t)
  {
    if gs != [] {
      AckTrace(m, gs[..|gs| - 1]);
      var (pc, h) := Trace(m, gs[..|gs| - 1]);
      if !pc.Finished? { AckStep(m, pc, h, gs[|gs| - 1]); }
      hide AckInv, Advance;
    }
  }

  /** Status history: every prefix of every handling writes one of eight paths,
      a handling that returns after starting wrote a complete one, and at most
      one webhook call of it returns normally. */
  lemma StatusHistory(m: Message, gs: seq<Got>)
    ensures var (p, t) := Trace(m, gs);
      && FullPath(Writes(t))
      && Delivered(t) <= 1
      && (p == FinalAck(Return) ==> |Writes(t)| >= 2)
      && (p.AckEarly? ==> Writes(t) == [] || Writes(t) == [Cancelled])
  {
    TraceInv(m, gs);
  }

  /** Cancellation safety: after a poll answered yes the handling sends nothing
      and, once it is about to acknowledge or has ended, its last attempted write
      is `cancelled` exactly if no forced cancellation hit the executor's cancel
      hook; conversely every webhook follows a negative poll. */
  lemma CancellationSafety(m: Message, gs: seq<Got>)
    ensures var (p, t) := Trace(m, gs);
      && QuietAfterYes(t)
      && SendsFollowNo(t)
      && (SawYes(t) && (p.AckEarly? || p.FinalAck? || p.Finished?) ==> (EndsCancelled(Writes(t)) <==> !HookKilled(t)))
  {
    TraceInv(m, gs);
  }

  /** Reading off one more reply. */
  lemma Snoc(m: Message, gs: seq<Got>, g: Got)
    requires !Trace(m, gs).0.Finished?
    ensures var (pc, h) := Trace(m, gs); var (pc1, h1) := Trace(m, gs + [g]);
      && pc1 == Advance(m, pc, g)
      && h1 == h + [Entry(m.id, CallAt(m, pc), g)]
      && Writes(h1) == Writes(h) + (if CallAt(m, pc).Write? then [CallAt(m, pc).state] else [])
  {
    assert (gs + [g])[..|gs|] == gs;
    Grow(Trace(m, gs).1, Entry(m.id, CallAt(m, Trace(m, gs).0), g));
  }

  lemma ReachWaiting(m: Message, g0: seq<Got>, g1: seq<Got>, gs: seq<Got>)
    requires m.WellAddressed() && m.work.Some?
    requires g0 == [No] && g1 == g0 + [No] && gs == g1 + [Done]
    ensures Trace(m, gs).0 == Waiting && Writes(Trace(m, gs).1) == [Executing]
  {
    assert Trace(m, []) == (AskStatus, []) && Writes([]) == [] && [] + [No] == g0;
    hide Trace, Writes;
    Snoc(m, [], No);
    Snoc(m, g0, No);
    Snoc(m, g1, Done);
  }

  lemma ReachStopRunner(m: Message) returns (gs: seq<Got>)
    requires m.WellAddressed() && m.work.Some?
    ensures Trace(m, gs).0 == StopRunner && SawYes(Trace(m, gs).1) && Writes(Trace(m, gs).1) == [Executing]
  {
    var g2 := [No] + [No] + [Done];
    ReachWaiting(m, [No], [No] + [No], g2);
    hide Trace, Writes, SawYes;
    var g3 := g2 + [Busy];
    Snoc(m, g2, Busy);
    gs := g3 + [Yes];
    Snoc(m, g3, Yes);
    SawYesGrow(Trace(m, g3).1, Entry(m.id, Poll(m.Job()), Yes));
  }

  /** The exception in `CancellationSafety` is real for every job that can run:
      a poll says yes, the cancel hook is hit by a forced cancellation, and the
      message is acknowledged with `executing` as its last write. */
  lemma HookKillLosesCancelledWrite(m: Message) returns (gs: seq<Got>)
    requires m.WellAddressed() && m.work.Some?
    ensures var (p, t) := Trace(m, gs);
      p == Finished(Escape(ForcedCancel)) && SawYes(t) && Writes(t) == [Executing] && t != []
        && t[|t| - 1] == Entry(m.id, Ack(m.id), Done)
  {
    var g4 := ReachStopRunner(m);
    hide Trace, Writes, SawYes;
    var g5 := g4 + [Err(ForcedCancel)];
    Snoc(m, g4, Err(ForcedCancel));
    SawYesGrow(Trace(m, g4).1, Entry(m.id, CancelHook(m.Job()), Err(ForcedCancel)));
    gs := g5 + [Done];
    Snoc(m, g5, Done);
    SawYesGrow(Trace(m, g5).1, Entry(m.id, Ack(m.id), Done));
  }

  // ---- delivery of one batch result ----

  /** The await and history of one delivery coroutine that got these replies. */
  function DTrace(m: Message, c: string, gs: seq<Got>): (DPc, seq<Entry>)
  {
    if gs == [] then (DAsk, [])
    else
      var (pc, h) := DTrace(m, c, gs[..|gs| - 1]);
      if Over(pc) then (pc, h)
      else (DAdvance(pc, gs[|gs| - 1]), h + [Entry(m.id, DCallAt(m, c, pc), gs[|gs| - 1])])
  }

  ghost predicate DPathAt(pc: DPc, w: seq<State>) {
    match pc
    case DAsk => w == []
    case DMarkCompleted => w == []
    case DAskAgain => w == [Completed]
    case DSend => w == [Completed]
    case DMarkCancelled => w == [] || w == [Completed]
    case _ => w == [] || w == [Completed] || w == [Cancelled] || w == [Completed, Cancelled]
  }

  ghost predicate DQuietInv(pc: DPc, h: seq<Entry>) {
    QuietAfterYes(h) && (SawYes(h) ==> pc.DMarkCancelled? || pc.DAck? || Over(pc))
  }

  ghost predicate DSendInv(pc: DPc, h: seq<Entry>) {
    SendsFollowNo(h) && (pc.DSend? ==> h != [] && IsNo(h[|h| - 1]))
  }

  ghost predicate DPathInv(pc: DPc, h: seq<Entry>) {
    && DPathAt(pc, Writes(h))
    && Delivered(h) <= (if pc.DAck? || Over(pc) then 1 else 0)
    && (SawYes(h) ==> pc.DMarkCancelled? || pc.DAck? || Over(pc))
    && (pc.DMarkCancelled? ==> SawYes(h))
    && (pc.DAck? || pc.DDone? ==> Writes(h) == [Completed] || SawYes(h))
    && (SawYes(h) && !pc.DMarkCancelled? ==> EndsCancelled(Writes(h)))
  }

  ghost predicate DInv(pc: DPc, h: seq<Entry>) { DQuietInv(pc, h) && DSendInv(pc, h) && DPathInv(pc, h) }

  lemma DQuietStep(m: Message, c: string, pc: DPc, h: seq<Entry>, g: Got)
    requires DQuietInv(pc, h) && DSendInv(pc, h) && !Over(pc)
    ensures var h1 := h + [Entry(m.id, DCallAt(m, c, pc), g)];
      DQuietInv(DAdvance(pc, g), h1) && DSendInv(DAdvance(pc, g), h1)
  {
    var h1 := h + [Entry(m.id, DCallAt(m, c, pc), g)];
    assert forall i :: 0 <= i < |h| ==> h1[i] == h[i];
    assert SawYes(h1) ==> SawYes(h) || IsYes(h1[|h|]);
    forall k | 0 <= k < |h1| && h1[k].call.Send? ensures FollowsNo(h1, k) {
      if k < |h| { assert FollowsNo(h, k); }
    }
  }

  lemma DPathStep(m: Message, c: string, pc: DPc, h: seq<Entry>, g: Got)
    requires DPathInv(pc, h) && !Over(pc)
    ensures DPathInv(DAdvance(pc, g), h + [Entry(m.id, DCallAt(m, c, pc), g)])
  {
    var e := Entry(m.id, DCallAt(m, c, pc), g);
    Grow(h, e);
    SawYesGrow(h, e);
    hide Writes, Delivered, SawYes;
  }

  lemma {:induction false} DTraceInv(m: Message, c: string, gs: seq<Got>)
    ensures DInv(DTrace(m, c, gs).0, DTrace(m, c, gs).1)
  {
    if gs != [] {
      DTraceInv(m, c, gs[..|gs| - 1]);
      var (pc, h) := DTrace(m, c, gs[..|gs| - 1]);
      if !Over(pc) {
        DQuietStep(m, c, pc, h, gs[|gs| - 1]);
        DPathStep(m, c, pc, h, gs[|gs| - 1]);
      }
    }
  }

  /** The same two laws for the delivery of a batch result: four status paths,
      one webhook, and after a positive poll only the `cancelled` write. */
  lemma DeliveryHistory(m: Message, c: string, gs: seq<Got>)
    ensures var (p, t) := DTrace(m, c, gs);
      && (Writes(t) == [] || Writes(t) == [Completed] || Writes(t) == [Cancelled]
           || Writes(t) == [Completed, Cancelled])
      && Delivered(t) <= 1 && QuietAfterYes(t) && SendsFollowNo(t)
      && (SawYes(t) && !p.DMarkCancelled? ==> EndsCancelled(Writes(t)))
      && (p.DDone? && !SawYes(t) ==> Writes(t) == [Completed])
  {
    DTraceInv(m, c, gs);
  }
}
