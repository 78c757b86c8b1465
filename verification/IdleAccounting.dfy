/** The idle event and `current_job_id`: what they mean in every reachable state,
    and exactly which failures break that meaning. */
module IdleAccounting {
  import opened Options
  import opened Wire
  import opened Handling
  import opened Consumer
  import opened LoopSafety

  /** The handling has set `current_job_id`. */
  ghost predicate Started(pc: Pc) {
    !pc.AskStatus? && !pc.AskCancel? && !pc.MarkBefore? && !pc.AckEarly? && !pc.Finished?
  }

  ghost predicate IdleMain(idle: bool, current: Option<JobId>, main: Main) {
    && (current.Some? <==> main.Handle? && Started(main.pc))
    && (main.Handle? && Started(main.pc) ==> current == Some(main.m.Job()) && !idle)
    && (main.MarkAll? || main.Batch? ==> !idle)
    && (main.Handle? ==> !main.pc.Finished?)
    && (main.Filter? ==> !Started(main.pc))
  }

  /** `current_job_id` names the job being executed, and whenever a job, a batch or
      its delivery is under way the idle event is clear. */
  ghost predicate IdleInv(s: Sys) {
    && IdleMain(s.node.idle, s.node.current, s.main)
    && (s.node.slot.Delivering? && !TaskOver(s.node.slot) ==> !s.node.idle)
  }

  /** The `executing` write, made before the `try`, or the final acknowledgement,
      made in front of the two resets, raises something other than a connection error. */
  ghost predicate Leak(s: Sys, act: Action) {
    && act.MainStep? && s.main.Handle? && (s.main.pc.MarkExecuting? || s.main.pc.FinalAck?)
    && Hard(Seen(s.node, s.main.m, s.main.pc, act.a))
  }

  lemma GotoIdle(n: Node, m: Message, next: Pc, hist: seq<Entry>, t: Then)
    requires n.current.Some? <==> Started(next)
    requires Started(next) ==> n.current == Some(m.Job()) && !n.idle
    ensures var s := HandleGoto(n, m, next, hist, t); IdleMain(s.node.idle, s.node.current, s.main)
  {
    hide Backoff;
  }

  lemma LeakEscapes(n: Node, m: Message, next: Pc, hist: seq<Entry>, t: Then)
    requires next.Finished? && next.exit.Escape?
    ensures var s := HandleGoto(n, m, next, hist, t);
      s.node.current == n.current && s.node.idle == n.idle && !s.main.Handle?
  {
    hide Backoff;
  }

  lemma FilterGotoIdle(n: Node, ms: seq<Message>, i: nat, next: Pc, hist: seq<Entry>, parsed: seq<Message>)
    requires i < |ms| && n.current.None? && (!Started(next) || next.MarkExecuting?)
    ensures var s := FilterGoto(n, ms, i, next, hist, parsed); IdleMain(s.node.idle, s.node.current, s.main)
  {
    hide Backoff;
  }

  lemma AdvanceStarted(m: Message, pc: Pc, g: Got)
    requires !pc.Finished?
    ensures var next := Advance(m, pc, g);
      && (!Started(pc) ==> (Started(next) <==> pc.AskCancel? && next.MarkExecuting?))
      && (Started(next) && !Started(pc) ==> next.MarkExecuting?)
      && (Started(pc) && !Started(next) ==> next.Finished? && (pc.FinalAck? || (pc.MarkExecuting? && Hard(g))))
      && (pc.FinalAck? ==> next.Finished?)
      && ((pc.MarkExecuting? || pc.FinalAck?) && Hard(g) ==> next == Finished(Escape(g.fault)))
  {
  }

  lemma HandleIdle(s: Sys, a: Answer)
    requires IdleInv(s) && s.main.Handle? && s.node.slot.Empty?
    ensures IdleInv(Next(s, MainStep(a))) <==> !Leak(s, MainStep(a))
  {
    var (n, m, pc, t) := (s.node, s.main.m, s.main.pc, s.main.then_);
    var g := Seen(n, m, pc, a);
    var next := Advance(m, pc, g);
    var n1 := AfterReply(n, m, pc, a);
    var hist1 := s.main.hist + [Entry(m.id, CallAt(m, pc), g)];
    AdvanceStarted(m, pc, g);
    StepSlot(n, s.main, a);
    if Leak(s, MainStep(a)) { LeakEscapes(n1, m, next, hist1, t); }
    else { GotoIdle(n1, m, next, hist1, t); }
    hide Advance, CallAt, Observe, Perform, HandleGoto, Backoff;
  }

  lemma FilterIdle(s: Sys, a: Answer)
    requires IdleInv(s) && s.main.Filter? && s.node.slot.Empty?
    ensures IdleInv(Next(s, MainStep(a)))
  {
    var (n, ms, i, pc) := (s.node, s.main.ms, s.main.i, s.main.pc);
    if i < |ms| {
      var g := Seen(n, ms[i], pc, a);
      StepSlot(n, s.main, a);
      if !pc.Finished? { AdvanceStarted(ms[i], pc, g); }
      FilterGotoIdle(CallEffect(n, ms[i].id, CallAt(ms[i], pc), a), ms, i, Advance(ms[i], pc, g),
                     s.main.hist + [Entry(ms[i].id, CallAt(ms[i], pc), g)], s.main.parsed);
    }
    hide Advance, CallAt, Observe, Perform, FilterGoto, Backoff;
  }

  lemma DispatchIdle(n: Node, ms: seq<Message>, recheck: bool)
    requires n.current.None?
    ensures var s := Dispatch(n, ms, recheck); IdleMain(s.node.idle, s.node.current, s.main) && s.node.slot == n.slot
  {
  }

  lemma WaitIdle(s: Sys, a: Answer)
    requires IdleInv(s) && (s.main.Loop? || s.main.AwaitSlot?)
    ensures IdleInv(Next(s, MainStep(a)))
  {
    if s.main.Loop? { LoopIdle(s, a); } else { AwaitIdle(s, a); }
    hide Next, IdleInv;
  }

  lemma LoopIdle(s: Sys, a: Answer)
    requires IdleInv(s) && s.main.Loop?
    ensures IdleInv(Next(s, MainStep(a)))
  {
    hide Dispatch, Deliver, Fresh, TaskOver, Backoff;
    if a.Read? {
      DispatchIdle(s.node.(world := Deliver(s.node.world, a.ms), healthy := true, failures := 0), a.ms, a.recheck);
    }
  }

  lemma AwaitIdle(s: Sys, a: Answer)
    requires IdleInv(s) && s.main.AwaitSlot?
    ensures IdleInv(Next(s, MainStep(a)))
  {
    if s.node.slot.Delivering? { assert TaskOver(KillAll(s.node.slot)); }
    hide Dispatch, KillAll, TaskOver, Backoff;
    DispatchIdle(s.node.(slot := Empty), s.main.ms, s.main.recheck);
  }

  lemma BatchIdle(s: Sys, a: Answer)
    requires IdleInv(s) && (s.main.Batch? || s.main.MarkAll?) && s.node.slot.Empty?
    ensures IdleInv(Next(s, MainStep(a)))
  {
    hide Backoff, Perform, Observe, Executions, Children;
  }

  /** One step keeps the invariant if and only if it is not one of the two leaks. */
  lemma IdleExact(s: Sys, act: Action)
    requires IdleInv(s) && Serial(s)
    ensures IdleInv(Next(s, act)) <==> !Leak(s, act)
  {
    hide Backoff, LoopStep, AwaitSlotStep, HandleStep, FilterStep, BatchStep, MarkAllStep, ChildNext, TaskOver;
    match act
    case MainStep(a) =>
      if s.main.Loop? || s.main.AwaitSlot? { WaitIdle(s, a); }
      else if s.main.Handle? { HandleIdle(s, a); }
      else if s.main.Filter? { FilterIdle(s, a); }
      else if s.main.Batch? || s.main.MarkAll? { BatchIdle(s, a); }
    case ChildStep(i, a) => if Background(s.node, act) != s.node { ChildIdle(s, i, a); }
    case _ =>
  }

  lemma ChildIdle(s: Sys, i: nat, a: Answer)
    requires IdleInv(s) && Serial(s) && s.node.slot.Delivering? && i < |s.node.slot.children|
    requires !Over(s.node.slot.children[i].pc)
    ensures IdleInv(Sys(ChildNext(s.node, i, a), s.main))
  {
    var n := s.node;
    var n1 := ChildNext(n, i, a);
    assert n1.current == n.current && n1.idle == (n.idle || (TaskOver(n1.slot) && !TaskOver(n.slot)));
    OverStays(n, i, a);
    hide ChildNext, TaskOver;
  }

  lemma OverStays(n: Node, i: nat, a: Answer)
    requires n.slot.Delivering? && i < |n.slot.children| && !Over(n.slot.children[i].pc)
    ensures TaskOver(n.slot) ==> TaskOver(ChildNext(n, i, a).slot)
  {
    hide Perform, Observe;
  }

  ghost predicate NoLeak(s: Sys, acts: seq<Action>)
    decreases |acts|
  {
    acts == [] || (!Leak(s, acts[0]) && NoLeak(Next(s, acts[0]), acts[1..]))
  }

  lemma {:induction false} RunIdle(s: Sys, acts: seq<Action>)
    requires IdleInv(s) && Serial(s) && NoLeak(s, acts)
    ensures IdleInv(Run(s, acts))
    decreases |acts|
  {
    if acts != [] {
      IdleExact(s, acts[0]);
      NextSerial(s, acts[0]);
      RunIdle(Next(s, acts[0]), acts[1..]);
    }
  }

  /** In every state of every run without a leak, a set `current_job_id` names the
      job being handled and the idle event is clear; likewise while a batch runs or
      its delivery task is unfinished. */
  lemma IdleInRuns(canBatch: bool, status: map<JobId, State>, cancels: set<JobId>, acts: seq<Action>)
    requires NoLeak(Initial(canBatch, status, cancels), acts)
    ensures IdleInv(Run(Initial(canBatch, status, cancels), acts))
  {
    RunIdle(Initial(canBatch, status, cancels), acts);
  }

  // ---- the event is set exactly when nothing is under way ----

  /** A job, a batch or a delivery is under way. */
  ghost predicate Busy(s: Sys) {
    || (s.main.Handle? && Started(s.main.pc))
    || s.main.MarkAll? || s.main.Batch?
    || (s.node.slot.Delivering? && !TaskOver(s.node.slot))
  }

  /** The event and `current_job_id` say exactly what is under way. */
  ghost predicate Accounted(s: Sys) {
    && (s.node.idle <==> !Busy(s))
    && (s.node.current.Some? <==> s.main.Handle? && Started(s.main.pc))
    && (s.node.current.Some? ==> s.node.current == Some(s.main.m.Job()))
    && (s.main.Handle? ==> !s.main.pc.Finished?)
    && (s.main.Filter? ==> !Started(s.main.pc))
    && (s.main.MarkAll? ==> s.main.k < |s.main.parsed|)
    && (s.main.Batch? ==> s.main.parsed != [])
  }

  /** An `executing` write of a batch raises through. */
  ghost predicate MarkRaised(s: Sys, act: Action) {
    && act.MainStep? && s.main.MarkAll? && s.main.k < |s.main.parsed|
    && Hard(Observe(s.node.world, Write(s.main.parsed[s.main.k].Job(), Executing), act.a))
  }

  /** `batch_run` raises. */
  ghost predicate BatchRaised(s: Sys, act: Action) { act.MainStep? && s.main.Batch? && !act.a.BatchReturned? }

  /** The four failures that leave the event clear with nothing under way. */
  ghost predicate LeavesClear(s: Sys, act: Action) { Leak(s, act) || MarkRaised(s, act) || BatchRaised(s, act) }

  lemma GotoAccounted(n: Node, m: Message, next: Pc, hist: seq<Entry>, t: Then)
    requires n.slot.Empty? && (n.idle <==> !Started(next)) && (n.current.Some? <==> Started(next))
    requires Started(next) ==> n.current == Some(m.Job())
    ensures Accounted(HandleGoto(n, m, next, hist, t))
  {
    hide Backoff;
  }

  lemma HandleAccounted(s: Sys, a: Answer)
    requires Accounted(s) && s.main.Handle? && s.node.slot.Empty?
    ensures Accounted(Next(s, MainStep(a))) <==> !Leak(s, MainStep(a))
  {
    var (n, m, pc, t) := (s.node, s.main.m, s.main.pc, s.main.then_);
    var g := Seen(n, m, pc, a);
    var next := Advance(m, pc, g);
    var n1 := AfterReply(n, m, pc, a);
    var hist1 := s.main.hist + [Entry(m.id, CallAt(m, pc), g)];
    AdvanceStarted(m, pc, g);
    if Leak(s, MainStep(a)) { LeakEscapes(n1, m, next, hist1, t); }
    else { GotoAccounted(n1, m, next, hist1, t); }
    hide Advance, CallAt, Observe, Perform, HandleGoto, Backoff;
  }

  lemma FilterGotoAccounted(n: Node, ms: seq<Message>, i: nat, next: Pc, hist: seq<Entry>, parsed: seq<Message>)
    requires i < |ms| && n.slot.Empty? && n.idle && n.current.None? && (!Started(next) || next.MarkExecuting?)
    ensures Accounted(FilterGoto(n, ms, i, next, hist, parsed))
  {
    hide Backoff;
  }

  lemma FilterAccounted(s: Sys, a: Answer)
    requires Accounted(s) && s.main.Filter? && s.node.slot.Empty?
    ensures Accounted(Next(s, MainStep(a)))
  {
    var (n, ms, i, pc) := (s.node, s.main.ms, s.main.i, s.main.pc);
    if i < |ms| {
      var g := Seen(n, ms[i], pc, a);
      if !pc.Finished? { AdvanceStarted(ms[i], pc, g); }
      FilterGotoAccounted(CallEffect(n, ms[i].id, CallAt(ms[i], pc), a), ms, i, Advance(ms[i], pc, g),
                          s.main.hist + [Entry(ms[i].id, CallAt(ms[i], pc), g)], s.main.parsed);
    }
    hide Advance, CallAt, Observe, Perform, FilterGoto, Backoff;
  }

  lemma DispatchAccounted(n: Node, ms: seq<Message>, recheck: bool)
    requires n.slot.Empty? && n.idle && n.current.None?
    ensures Accounted(Dispatch(n, ms, recheck))
  {
  }

  lemma LoopAccounted(s: Sys, a: Answer)
    requires Accounted(s) && s.main.Loop?
    ensures Accounted(Next(s, MainStep(a)))
  {
    var n := s.node;
    hide Dispatch, Deliver, Fresh, TaskOver, Backoff;
    if a.Read? && n.slot.Empty? {
      DispatchAccounted(n.(world := Deliver(n.world, a.ms), healthy := true, failures := 0), a.ms, a.recheck);
    }
  }

  lemma AwaitAccounted(s: Sys, a: Answer)
    requires Accounted(s) && s.main.AwaitSlot?
    ensures Accounted(Next(s, MainStep(a)))
  {
    var n := s.node;
    TaskOverDelivering(n.slot);
    if n.slot.Delivering? { assert TaskOver(KillAll(n.slot)); }
    hide Dispatch, KillAll, TaskOver, Backoff;
    if TaskOver(n.slot) { DispatchAccounted(n.(slot := Empty), s.main.ms, s.main.recheck); }
  }

  lemma MarkAccounted(s: Sys, a: Answer)
    requires Accounted(s) && s.main.MarkAll? && s.node.slot.Empty?
    ensures Accounted(Next(s, MainStep(a))) <==> !MarkRaised(s, MainStep(a))
  {
    hide Backoff, Perform, Observe;
  }

  lemma BatchAccounted(s: Sys, a: Answer)
    requires Accounted(s) && s.main.Batch? && s.node.slot.Empty?
    ensures Accounted(Next(s, MainStep(a))) <==> a.BatchReturned?
  {
    if a.BatchReturned? && |a.all| == |s.main.parsed| { LaunchBusy(s.main.parsed, a.all); }
    hide Observe, Executions, Children, TaskOver;
    assert TaskOver(Delivering([], Some(OtherError))) by { WrongLengthOver(); }
  }

  lemma WrongLengthOver()
    ensures TaskOver(Delivering([], Some(OtherError)))
  {
  }

  lemma ChildAccounted(s: Sys, i: nat, a: Answer)
    requires Accounted(s) && Serial(s) && s.node.slot.Delivering? && i < |s.node.slot.children|
    requires !Over(s.node.slot.children[i].pc)
    ensures Accounted(Sys(ChildNext(s.node, i, a), s.main))
  {
    var n := s.node;
    var n1 := ChildNext(n, i, a);
    assert n1.current == n.current && n1.slot.Delivering?;
    assert n1.idle == (n.idle || (TaskOver(n1.slot) && !TaskOver(n.slot)));
    OverStays(n, i, a);
    hide ChildNext, TaskOver;
  }

  /** Idle accounting: a step keeps the equivalence if and only if it is none of four failures: the
      `executing` write of a single job or of a batch raises through, `batch_run` raises, or the final
      acknowledgement raises through. */
  lemma AccountingExact(s: Sys, act: Action)
    requires Accounted(s) && Serial(s)
    ensures Accounted(Next(s, act)) <==> !LeavesClear(s, act)
  {
    hide Backoff, LoopStep, AwaitSlotStep, HandleStep, FilterStep, BatchStep, MarkAllStep, ChildNext, TaskOver;
    match act
    case MainStep(a) =>
      if s.main.Loop? { LoopAccounted(s, a); }
      else if s.main.AwaitSlot? { AwaitAccounted(s, a); }
      else if s.main.Handle? { HandleAccounted(s, a); }
      else if s.main.Filter? { FilterAccounted(s, a); }
      else if s.main.MarkAll? { MarkAccounted(s, a); }
      else if s.main.Batch? { BatchAccounted(s, a); }
    case ChildStep(i, a) => if Background(s.node, act) != s.node { ChildAccounted(s, i, a); }
    case _ =>
  }

  ghost predicate NothingLost(s: Sys, acts: seq<Action>)
    decreases |acts|
  {
    acts == [] || (!LeavesClear(s, acts[0]) && NothingLost(Next(s, acts[0]), acts[1..]))
  }

  lemma {:induction false} RunAccounted(s: Sys, acts: seq<Action>)
    requires Accounted(s) && Serial(s) && NothingLost(s, acts)
    ensures Accounted(Run(s, acts))
    decreases |acts|
  {
    if acts != [] {
      AccountingExact(s, acts[0]);
      NextSerial(s, acts[0]);
      hide Accounted, Next, LeavesClear;
      RunAccounted(Next(s, acts[0]), acts[1..]);
    }
  }

  /** In every state of every run without those failures the event is set if and only if nothing is
      under way, and `current_job_id` is set if and only if a job is executing, and names it. */
  lemma AccountingInRuns(canBatch: bool, status: map<JobId, State>, cancels: set<JobId>, acts: seq<Action>)
    requires NothingLost(Initial(canBatch, status, cancels), acts)
    ensures Accounted(Run(Initial(canBatch, status, cancels), acts))
  {
    RunAccounted(Initial(canBatch, status, cancels), acts);
  }

  /** `m` is being executed, whatever the fields say. */
  ghost predicate Occupied(s: Sys, m: Message) { s.main.Handle? && s.main.m == m && Started(s.main.pc) }

  /** A handling that starts a job ends idle: the step that ends it, in any state at all, sets the event
      and clears `current_job_id`, if and only if it is not one of the two leaks. */
  lemma HandlingEndsIdle(s: Sys, act: Action, m: Message)
    requires Occupied(s, m) && !s.node.idle && s.node.current.Some? && s.node.slot.Empty? && !Occupied(Next(s, act), m)
    ensures var n1 := Next(s, act).node; (n1.idle && n1.current.None?) <==> !Leak(s, act)
    ensures var n1 := Next(s, act).node; Leak(s, act) ==> !n1.idle && n1.current == s.node.current
  {
    if act.MainStep? {
      var (n, pc, t) := (s.node, s.main.pc, s.main.then_);
      var g := Seen(n, m, pc, act.a);
      var next := Advance(m, pc, g);
      AdvanceStarted(m, pc, g);
      GotoFields(AfterReply(n, m, pc, act.a), m, next, s.main.hist + [Entry(m.id, CallAt(m, pc), g)], t);
    }
    hide Advance, CallAt, Observe, Perform, HandleGoto;
  }

  lemma GotoFields(n: Node, m: Message, next: Pc, hist: seq<Entry>, t: Then)
    ensures var s := HandleGoto(n, m, next, hist, t); s.node.idle == n.idle && s.node.current == n.current
    ensures !next.Finished? ==> HandleGoto(n, m, next, hist, t).main == Handle(m, next, hist, t)
  {
    hide Backoff;
  }

  lemma LaunchBusy(parsed: seq<Message>, all: seq<string>)
    requires |parsed| == |all|
    ensures TaskOver(Delivering(Children(parsed, all), None)) <==> parsed == []
  {
    if parsed != [] { assert !Children(parsed, all)[0].pc.DDone?; }
  }

  // ---- after a failed batch ----

  ghost predicate WroteExecuting(log: seq<Entry>, k: nat) {
    exists i :: k <= i < |log| && log[i].call.Write? && log[i].call.state == Executing
  }

  /** During the fallback the event is set again exactly by the handlings that got
      as far as the `executing` write. */
  ghost predicate FallbackInv(k: nat, s: Sys) {
    && k <= |s.node.log|
    && (!s.main.Handle? ==> (s.node.idle <==> WroteExecuting(s.node.log, k)))
    && (s.main.Handle? ==> s.main.then_.ThenHandle? && !s.main.pc.Finished?)
    && (s.main.Handle? && !Started(s.main.pc) ==> (s.node.idle <==> WroteExecuting(s.node.log, k)))
    && (s.main.Handle? && Started(s.main.pc) && !s.main.pc.MarkExecuting? ==> WroteExecuting(s.node.log, k))
  }

  lemma WroteGrow(log: seq<Entry>, e: Entry, k: nat)
    requires k <= |log|
    ensures WroteExecuting(log + [e], k) <==> WroteExecuting(log, k) || (e.call.Write? && e.call.state == Executing)
  {
    if i :| k <= i < |log| && log[i].call.Write? && log[i].call.state == Executing { assert (log + [e])[i] == log[i]; }
    assert (log + [e])[|log|] == e;
  }

  lemma ExecutingWrite(m: Message, pc: Pc)
    requires CallAt(m, pc).Write? && CallAt(m, pc).state == Executing
    ensures pc.MarkExecuting?
  {
  }

  lemma FallbackGoto(k: nat, n: Node, m: Message, next: Pc, hist: seq<Entry>, ms: seq<Message>)
    requires k <= |n.log| && (!Started(next) ==> (n.idle <==> WroteExecuting(n.log, k)))
    requires Started(next) && !next.MarkExecuting? ==> WroteExecuting(n.log, k)
    ensures FallbackInv(k, HandleGoto(n, m, next, hist, ThenHandle(ms)))
  {
    hide Backoff, WroteExecuting;
  }

  lemma FallbackStep(k: nat, s: Sys, a: Answer)
    requires FallbackInv(k, s) && s.main.Handle? && !Leak(s, MainStep(a))
    ensures FallbackInv(k, Next(s, MainStep(a)))
  {
    var (n, m, pc) := (s.node, s.main.m, s.main.pc);
    var g := Seen(n, m, pc, a);
    var e := Entry(m.id, CallAt(m, pc), g);
    AdvanceStarted(m, pc, g);
    WroteGrow(n.log, e, k);
    if e.call.Write? && e.call.state == Executing { ExecutingWrite(m, pc); }
    assert pc.MarkExecuting? ==> e.call == Write(m.Job(), Executing);
    hide Advance, CallAt, Observe, Perform, HandleGoto, WroteExecuting;
    FallbackGoto(k, AfterReply(n, m, pc, a), m, Advance(m, pc, g), s.main.hist + [e], s.main.then_.rest);
  }

  /** A run of the fallback's handlings without a leak or a restart. */
  ghost predicate FallbackRun(s: Sys, acts: seq<Action>)
    decreases |acts|
  {
    acts == [] || (s.main.Handle? && !acts[0].Restart? && !Leak(s, acts[0]) && FallbackRun(Next(s, acts[0]), acts[1..]))
  }

  lemma {:induction false} FallbackRuns(k: nat, s: Sys, acts: seq<Action>)
    requires FallbackInv(k, s) && s.node.slot.Empty? && FallbackRun(s, acts)
    ensures FallbackInv(k, Run(s, acts))
    decreases |acts|
  {
    if acts != [] {
      if acts[0].MainStep? {
        FallbackStep(k, s, acts[0].a);
        StepSlot(s.node, s.main, acts[0].a);
      }
      FallbackRuns(k, Next(s, acts[0]), acts[1..]);
    }
  }

  /** After a batch whose execution raised, once the fallback is through (or an
      exception cut it short) the idle event is set if and only if at least one
      re-handled message wrote `executing`. */
  lemma FallbackIdle(n: Node, ms: seq<Message>, parsed: seq<Message>, f: Fault, acts: seq<Action>)
    requires f != ForcedCancel && n.slot.Empty? && !n.idle
    requires var s := BatchStep(n, ms, parsed, Raise(f, false)); FallbackRun(s, acts) && !Run(s, acts).main.Handle?
    ensures var s := BatchStep(n, ms, parsed, Raise(f, false));
      Run(s, acts).node.idle <==> WroteExecuting(Run(s, acts).node.log, |s.node.log|)
  {
    var s := BatchStep(n, ms, parsed, Raise(f, false));
    FallbackRuns(|s.node.log|, s, acts);
  }
}
