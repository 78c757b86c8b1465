/** Why the task in the delivery slot ends with an exception: exactly a result list of the wrong
    length, a delivery whose last call failed, or a forced cancellation of the loop. */
module StallCauses {
  import opened Options
  import opened Wire
  import opened Handling
  import opened Consumer
  import opened HandlingSequence
  import opened LoopSafety

  ghost predicate LastFails(h: seq<Entry>) { h != [] && DeliveryFails(h[|h| - 1]) }

  /** Cut off together with the loop that awaited it. */
  ghost predicate Killed(c: Child) { c.pc == DFailed(ForcedCancel) && !LastFails(c.hist) }

  ghost predicate ChildOk(main: Main, c: Child) {
    && (LastFails(c.hist) ==> c.pc.DFailed?)
    && (c.pc.DFailed? && !LastFails(c.hist) ==> main.Ended? && c.pc.fault == ForcedCancel)
  }

  ghost predicate SomeFailed(cs: seq<Child>) { exists i :: 0 <= i < |cs| && cs[i].pc.DFailed? }

  ghost predicate ChildrenOk(main: Main, cs: seq<Child>) { forall i :: 0 <= i < |cs| ==> ChildOk(main, cs[i]) }

  ghost predicate SlotOk(main: Main, s: Slot) {
    s.Delivering? ==> ChildrenOk(main, s.children) && (s.aborted.Some? <==> s.children == [] || SomeFailed(s.children))
  }

  ghost predicate CauseInv(s: Sys) {
    SlotOk(s.main, s.node.slot) && (s.main.MarkAll? || s.main.Batch? ==> s.main.parsed != [])
  }

  lemma StepFails(m: Message, c: string, pc: DPc, g: Got)
    requires !Over(pc)
    ensures DAdvance(pc, g).DFailed? <==> DeliveryFails(Entry(m.id, DCallAt(m, c, pc), g))
  {
  }

  lemma ChildStepOk(s: Sys, i: nat, a: Answer)
    requires CauseInv(s) && s.node.slot.Delivering? && i < |s.node.slot.children| && !Over(s.node.slot.children[i].pc)
    ensures SlotOk(s.main, ChildNext(s.node, i, a).slot)
  {
    var (cs, n1) := (s.node.slot.children, ChildNext(s.node, i, a));
    var c := cs[i];
    var call := DCallAt(c.m, c.counts, c.pc);
    var g := Observe(s.node.world, call, a);
    StepFails(c.m, c.counts, c.pc, g);
    var c1 := Child(c.m, c.counts, DAdvance(c.pc, g), c.hist + [Entry(c.m.id, call, g)]);
    assert c1.hist[|c1.hist| - 1] == Entry(c.m.id, call, g);
    assert n1.slot.children == cs[i := c1] && n1.slot.Delivering?;
    assert n1.slot.aborted.Some? <==> s.node.slot.aborted.Some? || c1.pc.DFailed?;
    hide DAdvance, DCallAt, Observe, Perform, DeliveryFails, ChildNext;
    UpdateOk(s.main, cs, i, c1);
  }

  lemma UpdateOk(main: Main, cs: seq<Child>, i: nat, c1: Child)
    requires i < |cs| && ChildrenOk(main, cs) && ChildOk(main, c1) && !cs[i].pc.DFailed?
    ensures ChildrenOk(main, cs[i := c1]) && (SomeFailed(cs[i := c1]) <==> SomeFailed(cs) || c1.pc.DFailed?)
  {
    var cs1 := cs[i := c1];
    hide ChildOk;
    assert cs1[i] == c1;
    if k :| 0 <= k < |cs| && cs[k].pc.DFailed? { assert cs1[k] == cs[k]; }
  }

  lemma LaunchOk(main: Main, parsed: seq<Message>, all: seq<string>)
    requires |parsed| == |all| && parsed != []
    ensures SlotOk(main, Delivering(Children(parsed, all), None)) && SlotOk(main, Delivering([], Some(OtherError)))
  {
  }

  lemma KillOk(s: Slot)
    requires SlotOk(Loop, s) && s.Delivering? && !TaskOver(s)
    ensures SlotOk(Ended, KillAll(s))
  {
    var i :| 0 <= i < |s.children| && !s.children[i].pc.DDone?;
    assert KillAll(s).children[i] == Kill(s.children[i]);
  }

  /** Ending the loop only adds reasons. */
  lemma WeakerMain(main: Main, main1: Main, s: Slot)
    requires SlotOk(main, s) && (main.Ended? ==> main1.Ended?)
    ensures SlotOk(main1, s)
  {
  }

  lemma AwaitCause(s: Sys, a: Answer)
    requires CauseInv(s) && s.main.AwaitSlot?
    ensures CauseInv(Next(s, MainStep(a)))
  {
    var n := s.node;
    WeakerMain(s.main, Loop, n.slot);
    WeakerMain(s.main, Next(s, MainStep(a)).main, n.slot);
    if n.slot.Delivering? && !TaskOver(n.slot) { KillOk(n.slot); }
    hide SlotOk, TaskOver, KillAll, Dispatch, Backoff;
    DispatchCause(n.(slot := Empty), s.main.ms, s.main.recheck);
    EmptyOk(Next(s, MainStep(a)).main);
  }

  lemma EmptyOk(main: Main)
    ensures SlotOk(main, Empty)
  {
  }

  lemma DispatchCause(n: Node, ms: seq<Message>, recheck: bool)
    ensures var s := Dispatch(n, ms, recheck); s.node.slot == n.slot && !s.main.MarkAll? && !s.main.Batch?
  {
  }

  lemma FilterParsed(n: Node, ms: seq<Message>, i: nat, next: Pc, hist: seq<Entry>, parsed: seq<Message>)
    requires i < |ms|
    ensures var s := FilterGoto(n, ms, i, next, hist, parsed); s.main.MarkAll? || s.main.Batch? ==> s.main.parsed != []
  {
    hide Backoff;
  }

  lemma HandleParsed(n: Node, m: Message, next: Pc, hist: seq<Entry>, t: Then)
    ensures var s := HandleGoto(n, m, next, hist, t); !s.main.MarkAll? && !s.main.Batch?
  {
    hide Backoff;
  }

  lemma BatchCause(s: Sys, a: Answer)
    requires CauseInv(s) && s.main.Batch?
    ensures CauseInv(Next(s, MainStep(a)))
  {
    var s1 := Next(s, MainStep(a));
    WeakerMain(s.main, s1.main, s.node.slot);
    if a.BatchReturned? && |a.all| == |s.main.parsed| { LaunchOk(s1.main, s.main.parsed, a.all); }
    else { LaunchOk(s1.main, s.main.parsed, seq(|s.main.parsed|, _ => "")); }
    hide SlotOk, Executions, Children, Observe;
  }

  /** Steps that do not touch the slot. */
  lemma OtherCause(s: Sys, a: Answer)
    requires CauseInv(s) && !s.main.Batch? && !s.main.AwaitSlot?
    ensures CauseInv(Next(s, MainStep(a)))
  {
    var (n, main) := (s.node, s.main);
    var s1 := Next(s, MainStep(a));
    WeakerMain(main, s1.main, n.slot);
    hide SlotOk, Backoff, Perform, Observe, Dispatch, Deliver, Fresh, HandleGoto, FilterGoto, Advance, CallAt, Oldest;
    match main
    case Loop => if a.Read? {
      DispatchCause(n.(world := Deliver(n.world, a.ms), healthy := true, failures := 0), a.ms, a.recheck);
    }
    case Handle(m, pc, hist, t) =>
      var g := Seen(n, m, pc, a);
      StepSlot(n, main, a);
      HandleParsed(AfterReply(n, m, pc, a), m, Advance(m, pc, g), hist + [Entry(m.id, CallAt(m, pc), g)], t);
    case Filter(ms, i, pc, hist, parsed) => if i < |ms| {
      var g := Seen(n, ms[i], pc, a);
      StepSlot(n, main, a);
      FilterParsed(CallEffect(n, ms[i].id, CallAt(ms[i], pc), a), ms, i, Advance(ms[i], pc, g),
                   hist + [Entry(ms[i].id, CallAt(ms[i], pc), g)], parsed);
    }
    case _ =>
  }

  lemma {:induction false} RunCause(s: Sys, acts: seq<Action>)
    requires CauseInv(s)
    ensures CauseInv(Run(s, acts))
    decreases |acts|
  {
    if acts != [] {
      NextCause(s, acts[0]);
      hide CauseInv, Next;
      RunCause(Next(s, acts[0]), acts[1..]);
    }
  }

  lemma NextCause(s: Sys, act: Action)
    requires CauseInv(s)
    ensures CauseInv(Next(s, act))
  {
    match act
    case MainStep(a) =>
      if s.main.AwaitSlot? { AwaitCause(s, a); } else if s.main.Batch? { BatchCause(s, a); } else { OtherCause(s, a); }
    case ChildStep(i, a) => if Background(s.node, act) != s.node { ChildStepOk(s, i, a); }
    case _ =>
  }

  /** In every state of every run the task in the slot has ended with an exception if and only if the result list
      had the wrong length, the last call of some delivery failed, or a delivery was cut off with the loop, which
      has then ended. */
  lemma StallExact(canBatch: bool, status: map<JobId, State>, cancels: set<JobId>, acts: seq<Action>)
    requires Run(Initial(canBatch, status, cancels), acts).node.slot.Delivering?
    ensures var s := Run(Initial(canBatch, status, cancels), acts);
      var cs := s.node.slot.children;
      && (s.node.slot.aborted.Some? <==>
            cs == [] || exists i :: 0 <= i < |cs| && (LastFails(cs[i].hist) || Killed(cs[i])))
      && (forall i :: 0 <= i < |cs| && Killed(cs[i]) ==> s.main.Ended?)
  {
    RunCause(Initial(canBatch, status, cancels), acts);
    var s := Run(Initial(canBatch, status, cancels), acts);
    hide Run, Initial, LastFails;
    CauseOf(s.main, s.node.slot.children);
  }

  lemma CauseOf(main: Main, cs: seq<Child>)
    requires ChildrenOk(main, cs)
    ensures SomeFailed(cs) <==> exists i :: 0 <= i < |cs| && (LastFails(cs[i].hist) || Killed(cs[i]))
    ensures forall i :: 0 <= i < |cs| && Killed(cs[i]) ==> main.Ended?
  {
    hide LastFails;
  }
}
