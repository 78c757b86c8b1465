/** Choices of the consume loop, stated in the numbers and states of the source: what a read leads to, which
    redelivered jobs run again, what follows an exception, and what a failed batch leaves behind. */
module LoopLaws {
  import opened Options
  import opened Wire
  import opened Handling
  import opened Powers
  import opened Consumer
  import opened LoopSafety
  import opened BatchRefinement

  // ---- redelivery ----

  /** A redelivered job runs again, unless it is flagged, if and only if its stored state is missing, `executing`
      or `failed`. */
  lemma RedeliveryExact(n: Node, m: Message, hist: seq<Entry>, t: Then)
    requires m.WellAddressed()
    ensures var s := Next(Next(Sys(n, Handle(m, AskStatus, hist, t)), MainStep(Fine)), MainStep(Fine));
      (s.main.Handle? && s.main.m == m && s.main.pc.MarkExecuting?)
      <==> m.Job() !in n.world.cancels
           && (m.Job() !in n.world.status || n.world.status[m.Job()] in {Executing, Failed})
  {
    var s1 := Next(Sys(n, Handle(m, AskStatus, hist, t)), MainStep(Fine));
    assert s1.node.world == n.world && s1.main.Handle? && s1.main.m == m;
    assert s1.main.pc.AckEarly? || s1.main.pc.AskCancel?;
    SecondReply(s1);
  }

  lemma SecondReply(s: Sys)
    requires s.main.Handle? && (s.main.pc.AckEarly? || s.main.pc.AskCancel?)
    ensures var s1 := Next(s, MainStep(Fine));
      s1.main.Handle? && s1.main.pc.MarkExecuting? <==> s.main.pc.AskCancel? && s.main.m.Job() !in s.node.world.cancels
    ensures var s1 := Next(s, MainStep(Fine)); s.main.pc.AskCancel? ==> s1.main.Handle? && s1.main.m == s.main.m
  {
    hide Backoff;
  }

  // ---- what a read leads to ----

  /** A read of fresh messages with the slot empty: two or more go to the batch path if the executor can batch,
      the others are handled one by one, and an empty one rechecks the pending list when that is due. */
  lemma ReadExact(s: Sys, ms: seq<Message>, recheck: bool)
    requires s.main.Loop? && s.node.slot.Empty? && s.node.running && Fresh(s.node.world, ms)
    requires |ms| <= (if s.node.canBatch then 100 else 1)
    ensures var s1 := Next(s, MainStep(Read(ms, recheck)));
      && s1.node.healthy && s1.node.failures == 0 && s1.node.world == Deliver(s.node.world, ms)
      && (s1.main.Filter? <==> s.node.canBatch && |ms| >= 2)
      && (s1.main.Filter? ==> s1.main.ms == ms && s1.main.i == 0 && s1.main.parsed == [])
      && (s1.main.Handle? <==> |ms| == 1 || (!s.node.canBatch && |ms| >= 2))
      && (s1.main.Handle? ==> s1.main.m == ms[0] && s1.main.then_ == ThenHandle(ms[1..]))
      && (s1.main.ListPending? <==> ms == [] && recheck)
      && (s1.main.Loop? <==> ms == [] && !recheck)
  {
    hide Deliver, Fresh;
  }

  /** Only reads of two to a hundred messages are batched, and only if the executor can. */
  ghost predicate Several(s: Sys) {
    && (s.main.Filter? || s.main.MarkAll? || s.main.Batch? ==> s.node.canBatch && 2 <= |s.main.ms| <= 100)
    && (s.main.AwaitSlot? ==> |s.main.ms| <= if s.node.canBatch then 100 else 1)
  }

  lemma FilterSeveral(n: Node, ms: seq<Message>, i: nat, next: Pc, hist: seq<Entry>, parsed: seq<Message>)
    requires i < |ms| && n.canBatch && 2 <= |ms| <= 100
    ensures Several(FilterGoto(n, ms, i, next, hist, parsed)) && FilterGoto(n, ms, i, next, hist, parsed).node.canBatch
  {
    hide Backoff;
  }

  lemma GotoSeveral(n: Node, m: Message, next: Pc, hist: seq<Entry>, t: Then)
    ensures Several(HandleGoto(n, m, next, hist, t))
  {
    hide Backoff;
  }

  lemma DispatchSeveral(n: Node, ms: seq<Message>, recheck: bool)
    requires |ms| <= if n.canBatch then 100 else 1
    ensures Several(Dispatch(n, ms, recheck))
  {
  }

  lemma MainSeveral(s: Sys, a: Answer)
    requires Several(s)
    ensures Several(Next(s, MainStep(a)))
  {
    hide Backoff, Perform, Observe, Dispatch, Deliver, Fresh, HandleGoto, FilterGoto, Advance, CallAt, Oldest, TaskOver,
         KillAll, Executions, Children;
    var (n, main) := (s.node, s.main);
    match main
    case Loop => if a.Read? && |a.ms| <= (if n.canBatch then 100 else 1) {
      DispatchSeveral(n.(world := Deliver(n.world, a.ms), healthy := true, failures := 0), a.ms, a.recheck);
    }
    case AwaitSlot(ms, recheck) => DispatchSeveral(n.(slot := Empty), ms, recheck);
    case Handle(m, pc, hist, t) =>
      var g := Seen(n, m, pc, a);
      GotoSeveral(AfterReply(n, m, pc, a), m, Advance(m, pc, g), hist + [Entry(m.id, CallAt(m, pc), g)], t);
    case Filter(ms, i, pc, hist, parsed) => if i < |ms| {
      var g := Seen(n, ms[i], pc, a);
      FilterSeveral(CallEffect(n, ms[i].id, CallAt(ms[i], pc), a), ms, i, Advance(ms[i], pc, g),
                    hist + [Entry(ms[i].id, CallAt(ms[i], pc), g)], parsed);
    }
    case _ =>
  }

  lemma {:induction false} RunSeveral(s: Sys, acts: seq<Action>)
    requires Several(s)
    ensures Several(Run(s, acts))
    decreases |acts|
  {
    if acts != [] {
      NextSeveral(s, acts[0]);
      hide Several, Next;
      RunSeveral(Next(s, acts[0]), acts[1..]);
    }
  }

  lemma NextSeveral(s: Sys, act: Action)
    requires Several(s)
    ensures Several(Next(s, act))
  {
    if act.MainStep? { MainSeveral(s, act.a); }
    hide MainNext, ChildNext;
  }

  /** In every state of every run. */
  lemma BatchesAreSeveral(canBatch: bool, status: map<JobId, State>, cancels: set<JobId>, acts: seq<Action>)
    ensures Several(Run(Initial(canBatch, status, cancels), acts))
  {
    RunSeveral(Initial(canBatch, status, cancels), acts);
  }

  // ---- exceptions ----

  /** After the k-th consecutive connection failure the loop sleeps min(60, 2^(k-1)) seconds and the 1025th ends
      it; any other exception costs one second; a forced cancellation ends the loop. */
  lemma ReadRaises(s: Sys, f: Fault, applied: bool)
    requires s.main.Loop?
    ensures var s1 := Next(s, MainStep(Raise(f, applied)));
      match f
      case OtherError => s1 == Sys(s.node, Sleep(1))
      case ForcedCancel => s1 == Sys(s.node, Ended)
      case Connection =>
        && s1.node == s.node.(healthy := false, failures := s.node.failures + 1)
        && s1.main == (if s.node.failures >= 1024 then Ended
                       else Sleep(if s.node.failures >= 6 then 60 else Pow2(s.node.failures)))
  {
    if s.node.failures >= 6 { PowMonotone(6, s.node.failures); } else { PowMonotone(s.node.failures, 5); }
    assert Pow2(2) == 4 && Pow2(4) == 16 && Pow2(5) == 32 && Pow2(6) == 64;
    hide Pow2;
  }

  /** The recovery at the start of a process. */
  ghost predicate Starting(main: Main) {
    || (main.ListPending? && !main.inLoop)
    || (main.Fetch? && !main.inLoop)
    || (main.Handle? && main.then_.ThenFetch? && !main.then_.inLoop)
  }

  /** An exception that leaves it ends the process: it never reaches the handlers of the loop. */
  lemma StartupRaises(s: Sys, act: Action)
    requires Starting(s.main) && !act.Restart?
    ensures var main1 := Next(s, act).main; Starting(main1) || main1.Loop? || main1.Ended?
    ensures act.MainStep? && act.a.Raise? && !s.main.Handle? && !(s.main.Fetch? && s.main.todo == []) ==>
      Next(s, act).main.Ended?
  {
    hide Backoff, Perform, Observe, CallAt, Advance, Oldest, ChildNext;
  }

  // ---- a batch that cannot be executed ----

  /** After `batch_run` raised, and with no other failure, every message of the read, and not only those of the
      batch, is settled as by single handling from the state the batch left. */
  lemma FallbackSettles(n: Node, ms: seq<Message>, parsed: seq<Message>, f: Fault, run: Runner, acts: seq<Action>)
    requires f != ForcedCancel && n.slot.Empty?
    requires var s := Next(Sys(n, Batch(ms, parsed)), MainStep(Raise(f, false)));
      SingleRun(s, acts, run) && !Run(s, acts).main.Handle?
    ensures var s := Next(Sys(n, Batch(ms, parsed)), MainStep(Raise(f, false)));
      ViewOf(Run(s, acts).node.world) == SettleAll(ViewOf(n.world), n.world.cancels, ms, run)
  {
    var s := Next(Sys(n, Batch(ms, parsed)), MainStep(Raise(f, false)));
    var n1 := n.(log := n.log + Executions(parsed, Observe(n.world, Ack(0), Raise(f, false))));
    assert s == HandleNext(n1, ThenHandle(ms)) by { hide Executions, HandleNext; }
    hide Run, Next, HandleNext, SettleAll, Executions;
    SingleNext(n1, ms, run);
    SingleRuns(s, acts, run);
  }
}
