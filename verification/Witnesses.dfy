/** The bad ends of the consume loop are reachable: a run that fills the slot with a failed
    delivery task, and a run of 1025 connection failures. */
module Witnesses {
  import opened Options
  import opened Wire
  import opened Handling
  import opened Consumer
  import opened Recovery
  import TerminalStates

  const FINE := MainStep(Fine)

  /** A fresh process with nothing pending goes straight to its loop. */
  lemma BootReachesLoop(canBatch: bool, status: map<JobId, State>, cancels: set<JobId>)
    ensures var s0 := Initial(canBatch, status, cancels); Next(s0, FINE) == Sys(s0.node, Loop)
  {
  }

  // ---- 1025 failures ----

  const FAIL := MainStep(Raise(Connection, false))

  /** One failed read and the sleep after it. */
  lemma OneFailure(s: Sys)
    requires s.main.Loop? && s.node.running && s.node.failures < MAX_FAILURES
    ensures var s1 := Run(s, [FAIL, FINE]);
      s1.main.Loop? && s1.node.running && s1.node.failures == s.node.failures + 1
  {
    hide Backoff;
    TwoSteps(s, FAIL, FINE);
  }

  lemma TwoSteps(s: Sys, a: Action, b: Action)
    ensures Run(s, [a, b]) == Next(Next(s, a), b)
  {
    hide Next;
    NoSteps(s);
    LastStep(s, [], a);
    LastStep(s, [a], b);
    assert [] + [a] == [a] && [a] + [b] == [a, b];
  }

  lemma {:induction false} ManyFailures(s: Sys, k: nat) returns (acts: seq<Action>)
    requires s.main.Loop? && s.node.running && s.node.failures + k <= MAX_FAILURES
    ensures var s1 := Run(s, acts); s1.main.Loop? && s1.node.running && s1.node.failures == s.node.failures + k
    decreases k
  {
    acts := [];
    if k > 0 {
      OneFailure(s);
      hide Run;
      var rest := ManyFailures(Run(s, [FAIL, FINE]), k - 1);
      RunConcat(s, [FAIL, FINE], rest);
      acts := [FAIL, FINE] + rest;
    }
  }

  /** 1025 consecutive connection failures end the loop although nobody stopped it. */
  lemma FailuresEndTheLoop(canBatch: bool, status: map<JobId, State>, cancels: set<JobId>) returns (acts: seq<Action>)
    ensures var s := Run(Initial(canBatch, status, cancels), acts);
      s.main.Ended? && s.node.running && s.node.failures == 1025
  {
    var s0 := Initial(canBatch, status, cancels);
    BootReachesLoop(canBatch, status, cancels);
    var s1 := Next(s0, FINE);
    assert s1.node.running && s1.node.failures == 0;
    hide Initial;
    var mid := ManyFailures(s1, MAX_FAILURES);
    var s2 := Run(s1, mid);
    assert Next(s2, FAIL).main.Ended? && Next(s2, FAIL).node.failures == MAX_FAILURES + 1 by { hide Run; }
    LastStep(s1, mid, FAIL);
    LastStep(s0, [], FINE);
    RunConcat(s0, [FINE], mid + [FAIL]);
    assert [] + [FINE] == [FINE] && Run(s0, []) == s0;
    acts := [FINE] + (mid + [FAIL]);
    hide Run, Next;
  }

  lemma LastStep(s: Sys, acts: seq<Action>, act: Action)
    ensures Run(s, acts + [act]) == Next(Run(s, acts), act)
  {
    RunConcat(s, acts, [act]);
    assert [act][1..] == [];
  }

  // ---- a stalled slot ----

  /** A job that passes every test of the batch preamble. */
  ghost predicate Runs(w: World, m: Message) {
    m.WellAddressed() && m.work.Some? && !Settled(w, m.Job()) && !Flagged(w, m.Job())
  }

  /** Everything but the log is the same. */
  ghost predicate SameButLog(n: Node, n1: Node) { n1 == n.(log := n1.log) }

  lemma PassPreamble(n: Node, ms: seq<Message>, i: nat, parsed: seq<Message>)
    requires i < |ms| && Runs(n.world, ms[i])
    ensures var s1 := Next(Next(EnterFilter(n, ms, i, parsed), FINE), FINE);
      SameButLog(n, s1.node.(idle := n.idle))
        && s1 == EnterFilter(s1.node.(idle := n.idle), ms, i + 1, parsed + [ms[i]])
  {
    var m := ms[i];
    var s := EnterFilter(n, ms, i, parsed);
    var e := Entry(m.id, ReadState(m.Job()), No);
    var n1 := n.(log := n.log + [e]);
    assert [] + [e] == [e];
    assert Next(s, FINE) == Sys(n1, Filter(ms, i, AskCancel, [e], parsed));
    var n2 := n1.(log := n1.log + [Entry(m.id, Poll(m.Job()), No)]);
    assert Next(Next(s, FINE), FINE) == EnterFilter(n2, ms, i + 1, parsed + [m]);
  }

  lemma MarkStep(s: Sys)
    requires s.main.MarkAll? && s.main.k < |s.main.parsed| && s.node.slot.Empty?
    ensures var (s1, m) := (Next(s, FINE), s.main);
      && s1.node.slot.Empty? && s1.node.running == s.node.running
      && s1.main == if m.k + 1 < |m.parsed| then MarkAll(m.ms, m.parsed, m.k + 1) else Batch(m.ms, m.parsed)
  {
  }

  /** Two messages go through the preamble and are marked. */
  lemma ReachBatch(n: Node, a: Message, b: Message)
    requires n.slot.Empty? && n.running && Runs(n.world, a) && Runs(n.world, b)
    ensures var s := Run(EnterFilter(n, [a, b], 0, []), [FINE, FINE, FINE, FINE, FINE, FINE]);
      s.main == Batch([a, b], [a, b]) && s.node.slot.Empty? && s.node.running
  {
    var ms := [a, b];
    var s0 := EnterFilter(n, ms, 0, []);
    PassPreamble(n, ms, 0, []);
    var s2 := Next(Next(s0, FINE), FINE);
    PassPreamble(s2.node.(idle := n.idle), ms, 1, [a]);
    var s4 := Next(Next(s2, FINE), FINE);
    assert [] + [a] == [a] && [a] + [b] == ms;
    hide Next, Run;
    assert s4.main == MarkAll(ms, ms, 0) && s4.node.slot.Empty? && s4.node.running;
    MarkStep(s4);
    MarkStep(Next(s4, FINE));
    SixSteps(s0);
  }

  lemma SixSteps(s: Sys)
    ensures Run(s, [FINE, FINE, FINE, FINE, FINE, FINE])
      == Next(Next(Next(Next(Next(Next(s, FINE), FINE), FINE), FINE), FINE), FINE)
  {
    hide Next;
    LastStep(s, [], FINE);
    LastStep(s, [FINE], FINE);
    LastStep(s, [FINE, FINE], FINE);
    LastStep(s, [FINE, FINE, FINE], FINE);
    LastStep(s, [FINE, FINE, FINE, FINE], FINE);
    LastStep(s, [FINE, FINE, FINE, FINE, FINE], FINE);
    assert [] + [FINE] == [FINE] && [FINE] + [FINE] == [FINE, FINE] && [FINE, FINE] + [FINE] == [FINE, FINE, FINE];
    assert [FINE, FINE, FINE] + [FINE] == [FINE, FINE, FINE, FINE];
    assert [FINE, FINE, FINE, FINE] + [FINE] == [FINE, FINE, FINE, FINE, FINE];
    assert [FINE, FINE, FINE, FINE, FINE] + [FINE] == [FINE, FINE, FINE, FINE, FINE, FINE];
  }

  /** A result list of the wrong length leaves a failed task in the slot. */
  lemma WrongLengthStalls(s: Sys)
    requires s.main.Batch? && s.main.parsed != [] && s.node.running
    ensures var s1 := Next(s, MainStep(BatchReturned([])));
      s1.main.Loop? && s1.node.slot == Delivering([], Some(OtherError))
  {
    hide Executions;
  }

  lemma ReadTwo(s: Sys, a: Message, b: Message)
    requires s.main.Loop? && s.node.slot.Empty? && s.node.canBatch && s.node.world.last < a.id < b.id
    ensures var s1 := Next(s, MainStep(Read([a, b], false)));
      var n1 := s.node.(world := Deliver(s.node.world, [a, b]), healthy := true, failures := 0);
      s1 == EnterFilter(n1, [a, b], 0, []) && n1.world.status == s.node.world.status
        && n1.world.cancels == s.node.world.cancels
  {
    hide EnterFilter, Deliver;
    TerminalStates.DeliverStatus(s.node.world, [a, b]);
  }

  /** From any initial state that does not rule them out, two jobs and an executor that answers a batch
      with no results stall the slot. */
  lemma SlotStalls(status: map<JobId, State>, cancels: set<JobId>, a: Message, b: Message) returns (acts: seq<Action>)
    requires 0 < a.id < b.id
    requires var w := Initial(true, status, cancels).node.world; Runs(w, a) && Runs(w, b)
    ensures var s := Run(Initial(true, status, cancels), acts); s.node.slot.Delivering? && s.node.slot.aborted.Some?
  {
    var s0 := Initial(true, status, cancels);
    BootReachesLoop(true, status, cancels);
    var s1 := Next(s0, FINE);
    assert s1.node == s0.node && s1.node.slot.Empty? && s1.node.canBatch && s1.node.running && s1.node.world.last == 0;
    var read := MainStep(Read([a, b], false));
    ReadTwo(s1, a, b);
    var n1 := s1.node.(world := Deliver(s1.node.world, [a, b]), healthy := true, failures := 0);
    var s2 := Next(s1, read);
    assert Runs(n1.world, a) && Runs(n1.world, b);
    hide Initial, Next, Run, Deliver, EnterFilter, Runs;
    ReachBatch(n1, a, b);
    var six := [FINE, FINE, FINE, FINE, FINE, FINE];
    var s3 := Run(s2, six);
    var last := MainStep(BatchReturned([]));
    WrongLengthStalls(s3);
    LastStep(s2, six, last);
    LastStep(s0, [FINE], read);
    LastStep(s0, [], FINE);
    NoSteps(s0);
    assert [] + [FINE] == [FINE];
    RunConcat(s0, [FINE] + [read], six + [last]);
    acts := [FINE] + [read] + (six + [last]);
  }

  lemma NoSteps(s: Sys)
    ensures Run(s, []) == s
  {
  }
}
