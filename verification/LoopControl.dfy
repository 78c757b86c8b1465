/** Failure handling of the consume loop: the stalled slot, the health flag with
    its backoff, and `stop`. */
module LoopControl {
  import opened Options
  import opened Wire
  import opened Handling
  import opened Powers
  import opened Consumer
  import opened CrashSafety
  import opened LoopSafety

  // ---- a delivery task that ended with an exception ----

  ghost predicate SameChildren(a: Slot, b: Slot) {
    && a.Delivering? && b.Delivering? && |a.children| == |b.children| && b.aborted == a.aborted
    && (forall i :: 0 <= i < |a.children| ==> a.children[i].m == b.children[i].m)
  }

  ghost predicate ChildId(s: Slot, id: nat) {
    s.Delivering? && exists i :: 0 <= i < |s.children| && s.children[i].m.id == id
  }

  /** `s` was reached from the stalled `s0`: the loop only reads and sleeps, the
      only calls are those of the leftover deliveries, and whatever was read since
      is still pending. */
  ghost predicate StalledSince(s0: Sys, s: Sys) {
    && SameChildren(s0.node.slot, s.node.slot)
    && s0.node.slot.aborted.Some?
    && !Working(s.main)
    && s0.node.log <= s.node.log
    && (forall k :: |s0.node.log| <= k < |s.node.log| ==> ChildId(s0.node.slot, s.node.log[k].id))
    && NewPending(s0.node.world, s.node.world)
  }

  lemma StalledChild(s0: Sys, s: Sys, i: nat, a: Answer)
    requires StalledSince(s0, s) && Safe(s0) && Safe(s)
    requires i < |s.node.slot.children| && !Over(s.node.slot.children[i].pc)
    ensures StalledSince(s0, Sys(ChildNext(s.node, i, a), s.main))
  {
    var n := s.node;
    var c := n.slot.children[i];
    var call := DCallAt(c.m, c.counts, c.pc);
    var n1 := ChildNext(n, i, a);
    assert s0.node.slot.children[i].m == c.m;
    assert c.m.id in s0.node.world.entries;
    assert ChildId(s0.node.slot, c.m.id);
    forall id | id in n1.world.entries && id !in s0.node.world.entries ensures id in n1.world.pel {
      KeepIn(n.world.pel, {c.m.id}, id);
    }
  }

  ghost predicate NewPending(w0: World, w: World) {
    forall id :: id in w.entries && id !in w0.entries ==> id in w.pel
  }

  lemma ReadPending(w0: World, w: World, ms: seq<Message>)
    requires WorldOk(w) && Fresh(w, ms) && NewPending(w0, w)
    ensures NewPending(w0, Deliver(w, ms))
  {
    DeliverOk(w, ms);
    hide Deliver;
  }

  lemma StillDelivering(s0: Sys, s: Sys)
    requires SameChildren(s0.node.slot, s.node.slot)
    ensures s.node.slot.Delivering?
  {
  }

  lemma StalledLoop(s0: Sys, s: Sys, a: Answer)
    requires StalledSince(s0, s) && Safe(s) && s.main.Loop?
    ensures StalledSince(s0, LoopStep(s.node, a))
  {
    assert WorldOk(s.node.world);
    hide WorldOk, Deliver, Fresh, Backoff, ChildId, NewPending, Safe, SameChildren;
    if (a.Read? || a.LostRead?) && Fresh(s.node.world, a.ms) { ReadPending(s0.node.world, s.node.world, a.ms); }
    assert s.node.slot.Delivering? by { StillDelivering(s0, s); }
  }

  lemma StalledAwait(s0: Sys, s: Sys, a: Answer)
    requires StalledSince(s0, s) && s.main.AwaitSlot?
    ensures StalledSince(s0, MainNext(s.node, s.main, a))
  {
    assert TaskOver(s.node.slot);
    hide TaskOver, KillAll, Dispatch, Backoff, ChildId;
  }

  lemma StalledNext(s0: Sys, s: Sys, act: Action)
    requires StalledSince(s0, s) && Safe(s0) && Safe(s) && !act.Restart?
    ensures StalledSince(s0, Next(s, act))
  {
    match act
    case MainStep(a) =>
      if s.main.Loop? { StalledLoop(s0, s, a); }
      else if s.main.AwaitSlot? { StalledAwait(s0, s, a); }
    case ChildStep(i, a) =>
      if i < |s.node.slot.children| && !Over(s.node.slot.children[i].pc) { StalledChild(s0, s, i, a); }
    case _ =>
  }

  lemma {:induction false} StalledRun(s0: Sys, s: Sys, acts: seq<Action>)
    requires StalledSince(s0, s) && Safe(s0) && Safe(s)
    requires forall i :: 0 <= i < |acts| ==> !acts[i].Restart?
    ensures StalledSince(s0, Run(s, acts))
    decreases |acts|
  {
    if acts != [] {
      StalledNext(s0, s, acts[0]);
      NextSafe(s, acts[0]);
      StalledRun(s0, Next(s, acts[0]), acts[1..]);
    }
  }

  /** Stalled slot: once the delivery task has failed in a reachable state, then
      for the rest of the process the loop handles, executes and recovers nothing,
      every call made belongs to a leftover delivery, and every message read from
      then on stays pending. */
  lemma StalledSlot(canBatch: bool, status: map<JobId, State>, cancels: set<JobId>, before: seq<Action>,
    acts: seq<Action>)
    requires var s := Run(Initial(canBatch, status, cancels), before);
      s.node.slot.Delivering? && s.node.slot.aborted.Some?
    requires forall i :: 0 <= i < |acts| ==> !acts[i].Restart?
    ensures var s := Run(Initial(canBatch, status, cancels), before); StalledSince(s, Run(s, acts))
  {
    var s := Run(Initial(canBatch, status, cancels), before);
    RunSerial(Initial(canBatch, status, cancels), before);
    RunSafe(Initial(canBatch, status, cancels), before);
    StalledRun(s, s, acts);
  }

  // ---- health flag and backoff ----

  ghost predicate Health(s: Sys) {
    && (s.node.healthy <==> s.node.failures == 0)
    && (s.main.Sleep? ==> s.main.secs == 1 || (s.node.failures >= 1 && s.main.secs == Backoff(s.node.failures)))
    && s.node.failures <= 1025
    && (s.node.failures == 1025 ==> s.main.Ended?)
  }

  lemma InterruptHealth(n: Node, f: Fault)
    requires (n.healthy <==> n.failures == 0) && n.failures <= MAX_FAILURES
    ensures Health(Interrupt(n, f))
  {
  }

  lemma GotoHealth(n: Node, m: Message, next: Pc, hist: seq<Entry>, t: Then)
    requires (n.healthy <==> n.failures == 0) && n.failures <= MAX_FAILURES
    ensures Health(HandleGoto(n, m, next, hist, t))
  {
    if next.Finished? && next.exit.Escape? { InterruptHealth(n, next.exit.fault); }
    hide Interrupt;
  }

  lemma FilterHealth(n: Node, ms: seq<Message>, i: nat, next: Pc, hist: seq<Entry>, parsed: seq<Message>)
    requires i < |ms| && (n.healthy <==> n.failures == 0) && n.failures <= MAX_FAILURES
    ensures Health(FilterGoto(n, ms, i, next, hist, parsed))
  {
    if next.Finished? && next.exit.Escape? { InterruptHealth(n, next.exit.fault); }
    hide Interrupt;
  }

  lemma StepHealth(n: Node, main: Main, a: Answer)
    requires Health(Sys(n, main)) && (main.Handle? || (main.Filter? && main.i < |main.ms|))
    ensures Health(MainNext(n, main, a))
  {
    hide HandleGoto, FilterGoto, Advance, CallAt, Observe, Perform, Hard;
    if main.Handle? {
      var g := Seen(n, main.m, main.pc, a);
      GotoHealth(AfterReply(n, main.m, main.pc, a), main.m, Advance(main.m, main.pc, g),
                 main.hist + [Entry(main.m.id, CallAt(main.m, main.pc), g)], main.then_);
    } else {
      var m := main.ms[main.i];
      var g := Seen(n, m, main.pc, a);
      FilterHealth(CallEffect(n, m.id, CallAt(m, main.pc), a), main.ms, main.i, Advance(m, main.pc, g),
                   main.hist + [Entry(m.id, CallAt(m, main.pc), g)], main.parsed);
    }
  }

  lemma DispatchHealth(n: Node, ms: seq<Message>, recheck: bool)
    requires (n.healthy <==> n.failures == 0) && n.failures <= MAX_FAILURES
    ensures Health(Dispatch(n, ms, recheck))
  {
  }

  lemma WaitHealth(n: Node, main: Main, a: Answer)
    requires Health(Sys(n, main)) && (main.Loop? || main.AwaitSlot?)
    ensures Health(MainNext(n, main, a))
  {
    hide Interrupt, Dispatch, Deliver, Fresh, TaskOver, KillAll;
    TaskOverDelivering(n.slot);
    if main.Loop? {
      if a.Read? {
        DispatchHealth(n.(world := Deliver(n.world, a.ms), healthy := true, failures := 0), a.ms, a.recheck);
      }
      if a.LostRead? { InterruptHealth(n.(world := Deliver(n.world, a.ms)), a.fault); }
      if a.Raise? { InterruptHealth(n, a.fault); }
    } else {
      DispatchHealth(n.(slot := Empty), main.ms, main.recheck);
      if n.slot.Delivering? && n.slot.aborted.Some? { InterruptHealth(n, n.slot.aborted.value); }
    }
  }

  lemma NextHealth(s: Sys, act: Action)
    requires Health(s)
    ensures Health(Next(s, act))
  {
    var n := s.node;
    hide Interrupt, Perform, Observe, LoopStep, AwaitSlotStep, HandleStep, FilterStep, Executions, Children, ChildNext;
    if act.MainStep? {
      if s.main.Loop? || s.main.AwaitSlot? { WaitHealth(n, s.main, act.a); }
      else if s.main.Handle? || (s.main.Filter? && s.main.i < |s.main.ms|) { StepHealth(n, s.main, act.a); }
      else if act.a.Raise? && !s.main.Ended? { InterruptHealth(n, act.a.fault); }
      if s.main.MarkAll? && s.main.k < |s.main.parsed| { MarkHealth(n, s.main, act.a); }
    } else if act.ChildStep? && Background(n, act) != n { ChildKeeps(n, act.i, act.a); }
  }

  lemma MarkHealth(n: Node, main: Main, a: Answer)
    requires main.MarkAll? && main.k < |main.parsed| && Health(Sys(n, main))
    ensures Health(MarkAllStep(n, main.ms, main.parsed, main.k, a))
  {
    hide Interrupt, Perform;
    var call := Write(main.parsed[main.k].Job(), Executing);
    var g := Observe(n.world, call, a);
    if Hard(g) { InterruptHealth(CallEffect(n, main.parsed[main.k].id, call, a), g.fault); }
  }

  lemma ChildKeeps(n: Node, i: nat, a: Answer)
    requires n.slot.Delivering? && i < |n.slot.children|
    ensures var n1 := ChildNext(n, i, a);
      n1.healthy == n.healthy && n1.failures == n.failures && n1.running == n.running && n1.current == n.current
  {
  }

  lemma {:induction false} RunHealth(s: Sys, acts: seq<Action>)
    requires Health(s)
    ensures Health(Run(s, acts))
    decreases |acts|
  {
    if acts != [] {
      NextHealth(s, acts[0]);
      RunHealth(Next(s, acts[0]), acts[1..]);
    }
  }

  /** In every state of every run `redis_healthy` holds exactly when the failure
      counter is zero, every pause lasts 1 to 60 seconds, and the loop is dead once
      1025 consecutive connection failures have been counted. */
  lemma HealthInRuns(canBatch: bool, status: map<JobId, State>, cancels: set<JobId>, acts: seq<Action>)
    ensures Health(Run(Initial(canBatch, status, cancels), acts))
  {
    RunHealth(Initial(canBatch, status, cancels), acts);
  }

  /** The time slept over the first `k` consecutive failures. */
  function TotalDelay(k: nat): nat { if k == 0 then 0 else TotalDelay(k - 1) + Backoff(k) }

  /** The k-th delay lies in [1, 60], never decreases, and is 60 exactly from the
      seventh failure on; the delays add up to 2^k - 1 and then grow by 60. */
  lemma {:induction false} BackoffSchedule(k: nat)
    requires k >= 1
    ensures 1 <= Backoff(k) <= 60 && Backoff(k) <= Backoff(k + 1)
    ensures Backoff(k) == 60 <==> k >= 7
    ensures TotalDelay(k) == if k <= 6 then Pow2(k) - 1 else 63 + 60 * (k - 6)
  {
    PowMonotone(k - 1, k);
    assert Pow2(2) == 4 && Pow2(4) == 4 * Pow2(2) && Pow2(5) == 32 && Pow2(6) == 64;
    if k <= 6 { PowMonotone(k - 1, 5); } else { PowMonotone(6, k - 1); }
    if k > 1 { BackoffSchedule(k - 1); }
  }

  // ---- stop ----

  ghost predicate NeverReads(s: Sys) { !s.node.running && !s.main.Loop? }

  lemma NextNeverReads(s: Sys, act: Action)
    requires NeverReads(s) && !act.Restart?
    ensures NeverReads(Next(s, act))
  {
    if act.ChildStep? && Background(s.node, act) != s.node { ChildKeeps(s.node, act.i, act.a); }
    if act.MainStep? { MainNeverReads(s.node, s.main, act.a); }
    hide MainNext, ChildNext;
  }

  lemma MainNeverReads(n: Node, main: Main, a: Answer)
    requires !n.running && !main.Loop?
    ensures NeverReads(MainNext(n, main, a))
  {
    hide Backoff, Perform, Observe, TaskOver, KillAll, Executions, Children, Advance, CallAt, Hard, HandleGoto,
         FilterGoto, Dispatch;
    if main.Handle? {
      var g := Seen(n, main.m, main.pc, a);
      GotoNeverReads(AfterReply(n, main.m, main.pc, a), main.m, Advance(main.m, main.pc, g),
                     main.hist + [Entry(main.m.id, CallAt(main.m, main.pc), g)], main.then_);
    } else if main.Filter? && main.i < |main.ms| {
      var m := main.ms[main.i];
      var g := Seen(n, m, main.pc, a);
      FilterNeverReads(CallEffect(n, m.id, CallAt(m, main.pc), a), main.ms, main.i, Advance(m, main.pc, g),
                       main.hist + [Entry(m.id, CallAt(m, main.pc), g)], main.parsed);
    } else if main.AwaitSlot? {
      DispatchNeverReads(n.(slot := Empty), main.ms, main.recheck);
    }
  }

  lemma GotoNeverReads(n: Node, m: Message, next: Pc, hist: seq<Entry>, t: Then)
    requires !n.running
    ensures NeverReads(HandleGoto(n, m, next, hist, t))
  {
    hide Backoff;
  }

  lemma FilterNeverReads(n: Node, ms: seq<Message>, i: nat, next: Pc, hist: seq<Entry>, parsed: seq<Message>)
    requires i < |ms| && !n.running
    ensures NeverReads(FilterGoto(n, ms, i, next, hist, parsed))
  {
    hide Backoff;
  }

  lemma DispatchNeverReads(n: Node, ms: seq<Message>, recheck: bool)
    requires !n.running
    ensures NeverReads(Dispatch(n, ms, recheck))
  {
  }

  /** After `stop`, a loop that is not already inside a read never issues one. */
  lemma {:induction false} NoReadAfterStop(s: Sys, acts: seq<Action>)
    requires !s.node.running && !s.main.Loop?
    requires forall i :: 0 <= i < |acts| ==> !acts[i].Restart?
    ensures !Run(s, acts).main.Loop?
    decreases |acts|
  {
    if acts != [] {
      NextNeverReads(s, acts[0]);
      NoReadAfterStop(Next(s, acts[0]), acts[1..]);
    }
  }
}
