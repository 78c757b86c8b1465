/** Whole-run properties of the consume loop: handlings and deliveries never
    overlap, and every handling, batch preamble and delivery obeys the history laws. */
module LoopSafety {
  import opened Options
  import opened Wire
  import opened Handling
  import opened Consumer
  import opened HandlingHistory
  import opened HandlingOutcomes
  import opened CrashSafety

  /** The loop is handling, filtering, executing or recovering messages. */
  ghost predicate Working(main: Main) {
    main.ListPending? || main.Fetch? || main.Handle? || main.Filter? || main.MarkAll? || main.Batch?
  }

  ghost predicate Serial(s: Sys) { Working(s.main) ==> s.node.slot.Empty? }

  /** Every step that can lead into work starts from an empty slot. */
  lemma NextSerial(s: Sys, act: Action)
    requires Serial(s)
    ensures Serial(Next(s, act))
  {
    if act.MainStep? { MainSerial(s.node, s.main, act.a); }
  }

  lemma GotoSlot(n: Node, m: Message, next: Pc, hist: seq<Entry>, t: Then)
    ensures HandleGoto(n, m, next, hist, t).node.slot == n.slot
  {
    hide Backoff;
  }

  lemma FilterGotoSlot(n: Node, ms: seq<Message>, i: nat, next: Pc, hist: seq<Entry>, parsed: seq<Message>)
    requires i < |ms|
    ensures FilterGoto(n, ms, i, next, hist, parsed).node.slot == n.slot
  {
    hide Backoff;
  }

  lemma DispatchSerial(n: Node, ms: seq<Message>, recheck: bool)
    ensures Dispatch(n, ms, recheck).node.slot == n.slot
  {
  }

  lemma LoopSerial(n: Node, a: Answer)
    ensures Serial(LoopStep(n, a))
  {
    hide Backoff, Deliver, Dispatch, Fresh;
    if a.Read? {
      DispatchSerial(n.(world := Deliver(n.world, a.ms), healthy := true, failures := 0), a.ms, a.recheck);
    }
  }

  lemma AwaitSerial(n: Node, ms: seq<Message>, recheck: bool, a: Answer)
    ensures Serial(AwaitSlotStep(n, ms, recheck, a))
  {
    hide Backoff, Dispatch, TaskOver, KillAll;
    TaskOverDelivering(n.slot);
    DispatchSerial(n.(slot := Empty), ms, recheck);
  }

  lemma StepSlot(n: Node, main: Main, a: Answer)
    requires main.Handle? || (main.Filter? && main.i < |main.ms|)
    ensures MainNext(n, main, a).node.slot == n.slot
  {
    hide HandleGoto, FilterGoto, Advance, CallAt, Observe, Perform;
    if main.Handle? {
      var g := Seen(n, main.m, main.pc, a);
      GotoSlot(AfterReply(n, main.m, main.pc, a), main.m, Advance(main.m, main.pc, g),
               main.hist + [Entry(main.m.id, CallAt(main.m, main.pc), g)], main.then_);
    } else {
      var m := main.ms[main.i];
      var g := Seen(n, m, main.pc, a);
      FilterGotoSlot(CallEffect(n, m.id, CallAt(m, main.pc), a), main.ms, main.i, Advance(m, main.pc, g),
                     main.hist + [Entry(m.id, CallAt(m, main.pc), g)], main.parsed);
    }
  }

  lemma MainSerial(n: Node, main: Main, a: Answer)
    requires Serial(Sys(n, main))
    ensures Serial(MainNext(n, main, a))
  {
    hide Backoff, LoopStep, AwaitSlotStep, HandleStep, FilterStep, Perform, Observe, Executions, Children;
    if main.Loop? { LoopSerial(n, a); }
    else if main.AwaitSlot? { AwaitSerial(n, main.ms, main.recheck, a); }
    else if main.Handle? || (main.Filter? && main.i < |main.ms|) { StepSlot(n, main, a); }
  }

  lemma {:induction false} RunSerial(s: Sys, acts: seq<Action>)
    requires Serial(s)
    ensures Serial(Run(s, acts))
    decreases |acts|
  {
    if acts != [] {
      NextSerial(s, acts[0]);
      RunSerial(Next(s, acts[0]), acts[1..]);
    }
  }

  /** Serialisation: in every state of every run in which the loop handles,
      filters, executes or recovers messages, no delivery task exists, so no
      message being recovered or handled is still being delivered. */
  lemma Serialisation(canBatch: bool, status: map<JobId, State>, cancels: set<JobId>, acts: seq<Action>)
    ensures var s := Run(Initial(canBatch, status, cancels), acts); Working(s.main) ==> s.node.slot.Empty?
  {
    RunSerial(Initial(canBatch, status, cancels), acts);
  }

  // ---- every handling of a run is one of the traces of HandlingHistory ----

  ghost predicate IsTrace(m: Message, pc: Pc, hist: seq<Entry>) { exists gs :: Trace(m, gs) == (pc, hist) }

  /** A delivery cut off by a forced cancellation keeps its history. */
  ghost predicate IsDTrace(c: Child) {
    exists gs :: DTrace(c.m, c.counts, gs).1 == c.hist && (DTrace(c.m, c.counts, gs).0 == c.pc || c.pc.DFailed?)
  }

  /** The batch preamble follows a handling up to the `executing` write; unparsable work is acknowledged there. */
  ghost predicate IsPreamble(m: Message, pc: Pc, hist: seq<Entry>) {
    InGate(pc) && (IsTrace(m, pc, hist) || (pc.AckEarly? && IsTrace(m, MarkExecuting, hist)))
  }

  ghost predicate TracedMain(main: Main) {
    && (main.Handle? ==> IsTrace(main.m, main.pc, main.hist) && !main.pc.Finished?)
    && (main.Filter? ==> main.i < |main.ms| && IsPreamble(main.ms[main.i], main.pc, main.hist))
  }

  ghost predicate TracedSlot(s: Slot) {
    s.Delivering? ==> forall i :: 0 <= i < |s.children| ==> IsDTrace(s.children[i])
  }

  ghost predicate Traced(s: Sys) { TracedMain(s.main) && TracedSlot(s.node.slot) }

  lemma StartTraced(m: Message)
    ensures IsTrace(m, Start(m), []) && InGate(Start(m)) && !Start(m).Finished?
  {
    assert Trace(m, []) == (Start(m), []);
  }

  lemma TraceStep(m: Message, pc: Pc, hist: seq<Entry>, g: Got)
    requires IsTrace(m, pc, hist) && !pc.Finished?
    ensures IsTrace(m, Advance(m, pc, g), hist + [Entry(m.id, CallAt(m, pc), g)])
  {
    hide Trace, Advance, CallAt, Writes;
    var gs :| Trace(m, gs) == (pc, hist);
    Snoc(m, gs, g);
    assert Trace(m, gs + [g]) == (Advance(m, pc, g), hist + [Entry(m.id, CallAt(m, pc), g)]);
  }

  lemma NextTraced(n: Node, t: Then)
    ensures TracedMain(HandleNext(n, t).main) && HandleNext(n, t).node == n
  {
    if t.ThenHandle? && t.rest != [] { StartTraced(t.rest[0]); }
  }

  lemma DispatchTraced(n: Node, ms: seq<Message>, recheck: bool)
    ensures TracedMain(Dispatch(n, ms, recheck).main) && Dispatch(n, ms, recheck).node.slot == n.slot
  {
    hide IsTrace;
    NextTraced(n, ThenHandle(ms));
    EnterTraced(n, ms, 0, []);
  }

  lemma EnterTraced(n: Node, ms: seq<Message>, i: nat, parsed: seq<Message>)
    ensures TracedMain(EnterFilter(n, ms, i, parsed).main)
  {
    hide IsTrace;
    if i < |ms| { StartTraced(ms[i]); }
  }

  lemma FilterGotoTraced(n: Node, ms: seq<Message>, i: nat, next: Pc, hist: seq<Entry>, parsed: seq<Message>)
    requires i < |ms| && IsTrace(ms[i], next, hist) && (InGate(next) || next.MarkExecuting? || next.Finished?)
    ensures TracedMain(FilterGoto(n, ms, i, next, hist, parsed).main)
  {
    hide IsTrace, EnterFilter, Backoff;
    EnterTraced(n, ms, i + 1, parsed + [ms[i]]);
    EnterTraced(n, ms, i + 1, parsed);
  }

  lemma PreambleEnds(n: Node, ms: seq<Message>, i: nat, g: Got, hist: seq<Entry>, parsed: seq<Message>)
    requires i < |ms|
    ensures TracedMain(FilterGoto(n, ms, i, Advance(ms[i], AckEarly, g), hist, parsed).main)
  {
    hide IsTrace, EnterFilter, Backoff;
    EnterTraced(n, ms, i + 1, parsed);
  }

  lemma PreambleTraced(n: Node, ms: seq<Message>, i: nat, pc: Pc, hist: seq<Entry>, parsed: seq<Message>, a: Answer)
    requires i < |ms| && IsPreamble(ms[i], pc, hist)
    ensures TracedMain(FilterStep(n, ms, i, pc, hist, parsed, a).main)
  {
    var m := ms[i];
    var g := Seen(n, m, pc, a);
    var hist1 := hist + [Entry(m.id, CallAt(m, pc), g)];
    var n1 := CallEffect(n, m.id, CallAt(m, pc), a);
    if pc.AckEarly? {
      PreambleEnds(n1, ms, i, g, hist1, parsed);
    } else {
      TraceStep(m, pc, hist, g);
      hide IsTrace, CallAt, Perform, Observe, FilterGoto;
      FilterGotoTraced(n1, ms, i, Advance(m, pc, g), hist1, parsed);
    }
  }

  lemma HandleTraced(n: Node, m: Message, pc: Pc, hist: seq<Entry>, t: Then, a: Answer)
    requires IsTrace(m, pc, hist) && !pc.Finished?
    ensures TracedMain(HandleStep(n, m, pc, hist, t, a).main)
  {
    hide IsTrace, Advance, CallAt, Perform, Observe, Backoff, HandleNext;
    TraceStep(m, pc, hist, Seen(n, m, pc, a));
    NextTraced(AfterReply(n, m, pc, a), t);
  }

  lemma ChildTraced(c: Child, g: Got)
    requires IsDTrace(c) && !Over(c.pc)
    ensures IsDTrace(Child(c.m, c.counts, DAdvance(c.pc, g), c.hist + [Entry(c.m.id, DCallAt(c.m, c.counts, c.pc), g)]))
  {
    var gs :| DTrace(c.m, c.counts, gs).1 == c.hist && (DTrace(c.m, c.counts, gs).0 == c.pc || c.pc.DFailed?);
    assert (gs + [g])[..|gs|] == gs;
    assert DTrace(c.m, c.counts, gs + [g]).0 == DAdvance(c.pc, g);
  }

  lemma KillTraced(c: Child)
    requires IsDTrace(c)
    ensures IsDTrace(Kill(c))
  {
    var gs :| DTrace(c.m, c.counts, gs).1 == c.hist && (DTrace(c.m, c.counts, gs).0 == c.pc || c.pc.DFailed?);
    assert DTrace(c.m, c.counts, gs).1 == Kill(c).hist;
  }

  lemma LaunchTraced(parsed: seq<Message>, all: seq<string>)
    requires |parsed| == |all|
    ensures TracedSlot(Delivering(Children(parsed, all), None))
  {
    forall i | 0 <= i < |parsed| ensures IsDTrace(Children(parsed, all)[i]) {
      assert DTrace(parsed[i], all[i], []) == (DAsk, []);
    }
  }

  lemma AwaitTraced(n: Node, ms: seq<Message>, recheck: bool, a: Answer)
    requires TracedSlot(n.slot)
    ensures Traced(AwaitSlotStep(n, ms, recheck, a))
  {
    if n.slot.Delivering? {
      forall i | 0 <= i < |n.slot.children| ensures IsDTrace(KillAll(n.slot).children[i]) {
        KillTraced(n.slot.children[i]);
      }
      assert TracedSlot(KillAll(n.slot));
    }
    hide TracedSlot, KillAll, TaskOver, Backoff, Dispatch;
    DispatchTraced(n.(slot := Empty), ms, recheck);
    assert TracedSlot(Empty) by { EmptyTraced(); }
  }

  lemma EmptyTraced()
    ensures TracedSlot(Empty)
    ensures TracedSlot(Delivering([], Some(OtherError)))
  {
  }

  lemma BatchTraced(n: Node, ms: seq<Message>, parsed: seq<Message>, a: Answer)
    requires TracedSlot(n.slot)
    ensures Traced(BatchStep(n, ms, parsed, a))
  {
    EmptyTraced();
    if a.BatchReturned? && |a.all| == |parsed| { LaunchTraced(parsed, a.all); }
    NextTraced(n.(log := n.log + Executions(parsed, Observe(n.world, Ack(0), a))), ThenHandle(ms));
    hide TracedSlot, Executions, Children, HandleNext, Observe;
  }

  lemma MainTraced(n: Node, main: Main, a: Answer)
    requires Traced(Sys(n, main))
    ensures Traced(MainNext(n, main, a))
  {
    hide TracedSlot, IsTrace, Backoff, Perform, Observe, Executions, Children, Dispatch, Deliver, Fresh,
      HandleStep, FilterStep, FilterGoto, AwaitSlotStep, BatchStep, HandleNext, Oldest, Advance, CallAt, IsPreamble;
    match main
    case Loop => if a.Read? {
      DispatchTraced(n.(world := Deliver(n.world, a.ms), healthy := true, failures := 0), a.ms, a.recheck);
    }
    case AwaitSlot(ms, recheck) => AwaitTraced(n, ms, recheck, a);
    case ListPending(inLoop) => NextTraced(n, ThenFetch(Oldest(n.world.pel), inLoop));
    case Fetch(todo, inLoop) => if todo != [] {
      NextTraced(n, ThenFetch(todo[1..], inLoop));
      if todo[0] in n.world.entries { StartTraced(n.world.entries[todo[0]]); }
    }
    case Handle(m, pc, hist, t) => HandleTraced(n, m, pc, hist, t, a); StepSlot(n, main, a);
    case Filter(ms, i, pc, hist, parsed) => PreambleTraced(n, ms, i, pc, hist, parsed, a); StepSlot(n, main, a);
    case Batch(ms, parsed) => BatchTraced(n, ms, parsed, a);
    case _ =>
  }

  lemma {:induction false} RunTraced(s: Sys, acts: seq<Action>)
    requires Traced(s)
    ensures Traced(Run(s, acts))
    decreases |acts|
  {
    if acts != [] {
      var act := acts[0];
      if act.MainStep? { MainTraced(s.node, s.main, act.a); }
      if act.ChildStep? && Background(s.node, act) != s.node {
        var c := s.node.slot.children[act.i];
        ChildTraced(c, Observe(s.node.world, DCallAt(c.m, c.counts, c.pc), act.a));
      }
      RunTraced(Next(s, act), acts[1..]);
    }
  }

  /** What every handling in progress obeys. At the acknowledgement: the last write is `cancelled` after a
      positive poll unless the cancel hook was killed, and the job is unreported exactly if it was severed. */
  ghost predicate HandlingLaws(m: Message, pc: Pc, h: seq<Entry>) {
    && FullPath(Writes(h)) && Delivered(h) <= 1 && QuietAfterYes(h) && SendsFollowNo(h)
    && (SawYes(h) && (pc.AckEarly? || pc.FinalAck?) ==> (EndsCancelled(Writes(h)) <==> !HookKilled(h)))
    && (pc.FinalAck? ==> (Unreported(m, h) <==> Severed(h)))
  }

  /** What the preamble of a batch obeys: at most the `cancelled` write, no webhook, and exactly that write
      when it is about to acknowledge after a positive poll. */
  ghost predicate PreambleLaws(pc: Pc, h: seq<Entry>) {
    && (Writes(h) == [] || Writes(h) == [Cancelled]) && Delivered(h) == 0 && QuietAfterYes(h) && SendsFollowNo(h)
    && (pc.AckEarly? ==> (SawYes(h) <==> Writes(h) == [Cancelled]))
  }

  ghost predicate DeliveryLaws(pc: DPc, h: seq<Entry>) {
    && FullDelivery(Writes(h)) && Delivered(h) <= 1 && QuietAfterYes(h) && SendsFollowNo(h)
    && (pc.DAck? && SawYes(h) ==> EndsCancelled(Writes(h)))
  }

  /** In every state of every run the handling in progress, the preamble in progress and every batch
      delivery, finished or not, obey the status paths and the cancellation laws. */
  lemma HistoryLawsInRuns(canBatch: bool, status: map<JobId, State>, cancels: set<JobId>, acts: seq<Action>)
    ensures var s := Run(Initial(canBatch, status, cancels), acts);
      && (s.main.Handle? ==> HandlingLaws(s.main.m, s.main.pc, s.main.hist))
      && (s.main.Filter? ==> PreambleLaws(s.main.pc, s.main.hist))
      && (s.node.slot.Delivering? ==> forall i :: 0 <= i < |s.node.slot.children| ==>
            DeliveryLaws(s.node.slot.children[i].pc, s.node.slot.children[i].hist))
  {
    RunTraced(Initial(canBatch, status, cancels), acts);
    var s := Run(Initial(canBatch, status, cancels), acts);
    hide Run, Initial, HandlingLaws, PreambleLaws, DeliveryLaws, IsTrace, IsDTrace, IsPreamble;
    if s.main.Handle? { HandlingObeys(s.main.m, s.main.pc, s.main.hist); }
    if s.main.Filter? { PreambleObeys(s.main.ms[s.main.i], s.main.pc, s.main.hist); }
    if s.node.slot.Delivering? {
      forall i | 0 <= i < |s.node.slot.children|
        ensures DeliveryLaws(s.node.slot.children[i].pc, s.node.slot.children[i].hist)
      {
        DeliveryObeys(s.node.slot.children[i]);
      }
    }
  }

  lemma HandlingObeys(m: Message, pc: Pc, h: seq<Entry>)
    requires IsTrace(m, pc, h)
    ensures HandlingLaws(m, pc, h)
  {
    var gs :| Trace(m, gs) == (pc, h);
    hide Trace, Unreported, Severed, SawYes, HookKilled, Writes, Delivered, QuietAfterYes, SendsFollowNo, FullPath,
         EndsCancelled;
    StatusHistory(m, gs);
    CancellationSafety(m, gs);
    ReportAtAck(m, gs);
  }

  lemma ReportAtAck(m: Message, gs: seq<Got>)
    ensures var (p, t) := Trace(m, gs); p.FinalAck? ==> (Unreported(m, t) <==> Severed(t))
  {
    ReportTrace(m, gs);
    hide Trace, Any, Severed;
  }

  lemma PreambleObeys(m: Message, pc: Pc, h: seq<Entry>)
    requires IsPreamble(m, pc, h)
    ensures PreambleLaws(pc, h)
  {
    var at := if IsTrace(m, pc, h) then pc else MarkExecuting;
    var gs :| Trace(m, gs) == (at, h);
    TraceInv(m, gs);
    WroteOnlyAfterYes(m, gs);
    hide Trace, SawYes, HookKilled, Writes, Delivered, QuietAfterYes, SendsFollowNo;
  }

  ghost predicate EarlyInv(pc: Pc, h: seq<Entry>) {
    && (pc.AskStatus? || pc.AskCancel? ==> Writes(h) == [])
    && (pc.MarkBefore? ==> SawYes(h))
    && (pc.AckEarly? && Writes(h) != [] ==> SawYes(h))
  }

  lemma EarlyStep(m: Message, pc: Pc, h: seq<Entry>, g: Got)
    requires EarlyInv(pc, h) && !pc.Finished?
    ensures EarlyInv(Advance(m, pc, g), h + [Entry(m.id, CallAt(m, pc), g)])
  {
    var e := Entry(m.id, CallAt(m, pc), g);
    SawYesGrow(h, e);
    Grow(h, e);
    hide SawYes, Writes, Delivered;
  }

  /** Before the job starts `cancelled` is written only after a positive poll. */
  lemma {:induction false} WroteOnlyAfterYes(m: Message, gs: seq<Got>)
    ensures var (p, t) := Trace(m, gs); EarlyInv(p, t)
  {
    if gs != [] {
      WroteOnlyAfterYes(m, gs[..|gs| - 1]);
      var (pc, h) := Trace(m, gs[..|gs| - 1]);
      if !pc.Finished? { EarlyStep(m, pc, h, gs[|gs| - 1]); }
      hide EarlyInv, Advance;
    }
  }

  lemma DeliveryObeys(c: Child)
    requires IsDTrace(c)
    ensures DeliveryLaws(c.pc, c.hist)
  {
    var gs :| DTrace(c.m, c.counts, gs).1 == c.hist && (DTrace(c.m, c.counts, gs).0 == c.pc || c.pc.DFailed?);
    DeliveryHistory(c.m, c.counts, gs);
  }

  ghost predicate FullDelivery(w: seq<State>) {
    w == [] || w == [Completed] || w == [Cancelled] || w == [Completed, Cancelled]
  }
}
