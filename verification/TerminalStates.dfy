/** Terminal states absorb: a job stored as `completed` or `cancelled` with
    nothing in flight for it is never executed, reported or rewritten again, over
    any number of redeliveries, recoveries and restarts. */
module TerminalStates {
  import opened Options
  import opened Wire
  import opened Handling
  import opened Consumer

  /** The call executes the job, reports it, or writes its state. */
  ghost predicate Touches(e: Entry, j: JobId) {
    || (e.call.Write? && e.call.job == j)
    || (e.call.Execute? && e.call.job == j)
    || (e.call.Send? && e.call.post.job == j)
  }

  ghost predicate Untouched(log: seq<Entry>, log1: seq<Entry>, j: JobId) {
    log <= log1 && forall k :: |log| <= k < |log1| ==> !Touches(log1[k], j)
  }

  ghost predicate NoJob(ms: seq<Message>, j: JobId) { forall i :: 0 <= i < |ms| ==> ms[i].Job() != j }

  /** Nothing in flight has got past asking for the state of `j`. */
  ghost predicate OnlyAsking(main: Main, j: JobId) {
    match main
    case Handle(m, pc, _, _) => m.Job() == j ==> pc.AskStatus? || pc.AckEarly?
    case Filter(ms, i, pc, _, parsed) =>
      i < |ms| && (ms[i].Job() == j ==> pc.AskStatus? || pc.AckEarly?) && InGate(pc) && NoJob(parsed, j)
    case MarkAll(_, parsed, _) => NoJob(parsed, j)
    case Batch(_, parsed) => NoJob(parsed, j)
    case _ => true
  }

  ghost predicate NotDelivering(s: Slot, j: JobId) {
    s.Delivering? ==> forall i :: 0 <= i < |s.children| && s.children[i].m.Job() == j ==> Over(s.children[i].pc)
  }

  ghost predicate Absorbed(s: Sys, j: JobId) {
    Settled(s.node.world, j) && OnlyAsking(s.main, j) && NotDelivering(s.node.slot, j)
  }

  /** `n1` extends `n` without touching `j`. */
  ghost predicate Spared(n: Node, n1: Node, j: JobId) {
    && Settled(n1.world, j) && j in n.world.status && n1.world.status[j] == n.world.status[j]
    && Untouched(n.log, n1.log, j)
  }

  lemma CallSpares(n: Node, id: nat, call: Call, a: Answer, j: JobId)
    requires Settled(n.world, j) && !Touches(Entry(id, call, Done), j)
    ensures Spared(n, CallEffect(n, id, call, a), j)
  {
  }

  lemma GotoAsking(n: Node, m: Message, next: Pc, hist: seq<Entry>, t: Then, j: JobId)
    requires m.Job() == j ==> next.AckEarly? || next.Finished?
    ensures OnlyAsking(HandleGoto(n, m, next, hist, t).main, j)
    ensures HandleGoto(n, m, next, hist, t).node.slot == n.slot
    ensures HandleGoto(n, m, next, hist, t).node.world == n.world && HandleGoto(n, m, next, hist, t).node.log == n.log
  {
    hide Backoff;
  }

  lemma FilterGotoAsking(n: Node, ms: seq<Message>, i: nat, next: Pc, hist: seq<Entry>, parsed: seq<Message>, j: JobId)
    requires i < |ms| && NoJob(parsed, j) && (InGate(next) || next.MarkExecuting? || next.Finished?)
    requires ms[i].Job() == j ==> next.AckEarly? || next.Finished?
    ensures OnlyAsking(FilterGoto(n, ms, i, next, hist, parsed).main, j)
    ensures FilterGoto(n, ms, i, next, hist, parsed).node.slot == n.slot
    ensures FilterGoto(n, ms, i, next, hist, parsed).node.world == n.world
    ensures FilterGoto(n, ms, i, next, hist, parsed).node.log == n.log
  {
    hide Backoff;
  }

  /** A settled job's handling can only acknowledge or fail to ask. */
  lemma AskingAdvances(n: Node, m: Message, pc: Pc, a: Answer, j: JobId)
    requires Settled(n.world, j) && (m.Job() == j ==> pc.AskStatus? || pc.AckEarly?)
    ensures !Touches(Entry(m.id, CallAt(m, pc), Done), j)
    ensures m.Job() == j ==> Advance(m, pc, Seen(n, m, pc, a)).AckEarly? || Advance(m, pc, Seen(n, m, pc, a)).Finished?
    ensures InGate(pc) ==>
              var next := Advance(m, pc, Seen(n, m, pc, a)); InGate(next) || next.MarkExecuting? || next.Finished?
  {
  }

  lemma HandleSpares(n: Node, m: Message, pc: Pc, hist: seq<Entry>, t: Then, a: Answer, j: JobId)
    requires Absorbed(Sys(n, Handle(m, pc, hist, t)), j)
    ensures Absorbed(HandleStep(n, m, pc, hist, t, a), j) && Spared(n, HandleStep(n, m, pc, hist, t, a).node, j)
  {
    AskingAdvances(n, m, pc, a, j);
    CallSpares(n, m.id, CallAt(m, pc), a, j);
    hide CallAt, Observe, Advance, Perform, HandleGoto, Touches, Hard, NotDelivering;
    var g := Seen(n, m, pc, a);
    GotoAsking(AfterReply(n, m, pc, a), m, Advance(m, pc, g), hist + [Entry(m.id, CallAt(m, pc), g)], t, j);
  }

  lemma FilterSpares(n: Node, main: Main, a: Answer, j: JobId)
    requires main.Filter? && Absorbed(Sys(n, main), j)
    ensures Absorbed(MainNext(n, main, a), j) && Spared(n, MainNext(n, main, a).node, j)
  {
    var m := main.ms[main.i];
    AskingAdvances(n, m, main.pc, a, j);
    CallSpares(n, m.id, CallAt(m, main.pc), a, j);
    hide CallAt, Observe, Advance, Perform, FilterGoto, Touches, NotDelivering;
    var g := Seen(n, m, main.pc, a);
    FilterGotoAsking(CallEffect(n, m.id, CallAt(m, main.pc), a), main.ms, main.i, Advance(m, main.pc, g),
                     main.hist + [Entry(m.id, CallAt(m, main.pc), g)], main.parsed, j);
  }

  lemma BatchSpares(n: Node, ms: seq<Message>, parsed: seq<Message>, a: Answer, j: JobId)
    requires Absorbed(Sys(n, Batch(ms, parsed)), j)
    ensures Absorbed(BatchStep(n, ms, parsed, a), j) && Spared(n, BatchStep(n, ms, parsed, a).node, j)
  {
    var es := Executions(parsed, Observe(n.world, Ack(0), a));
    assert Untouched(n.log, n.log + es, j);
    if a.BatchReturned? && |a.all| == |parsed| { assert NotDelivering(Delivering(Children(parsed, a.all), None), j); }
    hide Executions, Observe, Children, Untouched;
  }

  lemma MarkSpares(n: Node, ms: seq<Message>, parsed: seq<Message>, k: nat, a: Answer, j: JobId)
    requires k < |parsed| && Absorbed(Sys(n, MarkAll(ms, parsed, k)), j)
    ensures Absorbed(MarkAllStep(n, ms, parsed, k, a), j) && Spared(n, MarkAllStep(n, ms, parsed, k, a).node, j)
  {
    CallSpares(n, parsed[k].id, Write(parsed[k].Job(), Executing), a, j);
    hide Backoff, Perform, Observe;
  }

  lemma {:induction false} DeliverStatus(w: World, ms: seq<Message>)
    ensures Deliver(w, ms).status == w.status && Deliver(w, ms).cancels == w.cancels
    decreases |ms|
  {
    if ms != [] {
      DeliverStatus(w.(entries := w.entries[ms[0].id := ms[0]], last := if ms[0].id > w.last then ms[0].id else w.last,
                       pel := w.pel + [ms[0].id]), ms[1..]);
    }
  }

  lemma DispatchAsking(n: Node, ms: seq<Message>, recheck: bool, j: JobId)
    ensures OnlyAsking(Dispatch(n, ms, recheck).main, j)
    ensures Dispatch(n, ms, recheck).node.(idle := n.idle) == n
  {
  }

  lemma LoopSpares(n: Node, a: Answer, j: JobId)
    requires Absorbed(Sys(n, Loop), j)
    ensures Absorbed(LoopStep(n, a), j) && Spared(n, LoopStep(n, a).node, j)
  {
    hide Backoff, Deliver, Fresh, Dispatch, NotDelivering;
    if a.Read? || a.LostRead? { DeliverStatus(n.world, a.ms); }
    if a.Read? {
      DispatchAsking(n.(world := Deliver(n.world, a.ms), healthy := true, failures := 0), a.ms, a.recheck, j);
    }
  }

  lemma AwaitSpares(n: Node, ms: seq<Message>, recheck: bool, a: Answer, j: JobId)
    requires Absorbed(Sys(n, AwaitSlot(ms, recheck)), j)
    ensures Absorbed(AwaitSlotStep(n, ms, recheck, a), j) && Spared(n, AwaitSlotStep(n, ms, recheck, a).node, j)
  {
    hide Backoff, Dispatch, TaskOver, KillAll, NotDelivering, Untouched, Interrupt, OnlyAsking;
    if n.slot.Delivering? { KillSpares(n.slot, j); }
    EmptySlot(j);
    SparedSelf(n, j);
    DispatchAsking(n.(slot := Empty), ms, recheck, j);
    if n.slot.Delivering? && n.slot.aborted.Some? { InterruptAsking(n, n.slot.aborted.value, j); }
    TaskOverDelivering(n.slot);
    NothingAsked(ms, recheck, j);
  }

  lemma InterruptAsking(n: Node, f: Fault, j: JobId)
    ensures var s := Interrupt(n, f);
      OnlyAsking(s.main, j) && s.node.world == n.world && s.node.log == n.log && s.node.slot == n.slot
  {
    hide Backoff;
  }

  lemma NothingAsked(ms: seq<Message>, recheck: bool, j: JobId)
    ensures OnlyAsking(Ended, j) && OnlyAsking(AwaitSlot(ms, recheck), j)
  {
  }

  lemma KillSpares(s: Slot, j: JobId)
    requires s.Delivering? && NotDelivering(s, j)
    ensures NotDelivering(KillAll(s), j)
  {
  }

  lemma SparedSelf(n: Node, j: JobId)
    requires Settled(n.world, j)
    ensures Untouched(n.log, n.log, j)
  {
  }

  lemma ChildSpares(n: Node, i: nat, a: Answer, j: JobId)
    requires Settled(n.world, j) && NotDelivering(n.slot, j)
    requires n.slot.Delivering? && i < |n.slot.children| && !Over(n.slot.children[i].pc)
    ensures NotDelivering(ChildNext(n, i, a).slot, j) && Spared(n, ChildNext(n, i, a), j)
  {
    var c := n.slot.children[i];
    CallSpares(n, c.m.id, DCallAt(c.m, c.counts, c.pc), a, j);
    hide Perform, Observe, TaskOver, DAdvance;
  }

  lemma NextSpares(s: Sys, act: Action, j: JobId)
    requires Absorbed(s, j)
    ensures Absorbed(Next(s, act), j) && Spared(s.node, Next(s, act).node, j)
  {
    var n := s.node;
    hide Backoff, LoopStep, AwaitSlotStep, HandleStep, FilterStep, BatchStep, MarkAllStep, ChildNext, Touches,
         NotDelivering;
    match act
    case MainStep(a) =>
      match s.main {
        case Loop => LoopSpares(n, a, j);
        case AwaitSlot(ms, recheck) => AwaitSpares(n, ms, recheck, a, j);
        case Handle(m, pc, hist, t) => HandleSpares(n, m, pc, hist, t, a, j);
        case Filter(ms, i, pc, hist, parsed) => FilterSpares(n, s.main, a, j);
        case MarkAll(ms, parsed, k) => if k < |parsed| { MarkSpares(n, ms, parsed, k, a, j); }
        case Batch(ms, parsed) => BatchSpares(n, ms, parsed, a, j);
        case _ =>
      }
    case ChildStep(i, a) => if Background(n, act) != n { ChildSpares(n, i, a, j); }
    case Restart => assert NotDelivering(Empty, j) by { EmptySlot(j); }
    case _ =>
  }

  lemma EmptySlot(j: JobId)
    ensures NotDelivering(Empty, j)
  {
  }

  lemma UntouchedTrans(a: seq<Entry>, b: seq<Entry>, c: seq<Entry>, j: JobId)
    requires Untouched(a, b, j) && Untouched(b, c, j)
    ensures Untouched(a, c, j)
  {
    forall k | |a| <= k < |c| ensures !Touches(c[k], j) {
      if k < |b| { assert b[k] == c[k]; }
    }
  }

  /** No later step of any run executes the job, posts a webhook for it or changes
      its state. */
  lemma {:induction false} TerminalAbsorbs(s: Sys, acts: seq<Action>, j: JobId)
    requires Absorbed(s, j)
    ensures var s1 := Run(s, acts);
      && Absorbed(s1, j)
      && s1.node.world.status[j] == s.node.world.status[j]
      && Untouched(s.node.log, s1.node.log, j)
    decreases |acts|
  {
    if acts != [] {
      var s1 := Next(s, acts[0]);
      NextSpares(s, acts[0], j);
      TerminalAbsorbs(s1, acts[1..], j);
      UntouchedTrans(s.node.log, s1.node.log, Run(s1, acts[1..]).node.log, j);
    }
  }

  /** In particular: stored as `completed` or `cancelled` with nothing in flight. */
  lemma TerminalStaysTerminal(s: Sys, acts: seq<Action>, j: JobId)
    requires Settled(s.node.world, j)
    requires !s.main.Handle? && !s.main.Filter? && !s.main.MarkAll? && !s.main.Batch?
    requires s.node.slot.Empty? || (forall i :: 0 <= i < |s.node.slot.children| ==> Over(s.node.slot.children[i].pc))
    ensures var s1 := Run(s, acts);
      j in s1.node.world.status && s1.node.world.status[j] == s.node.world.status[j]
        && Untouched(s.node.log, s1.node.log, j)
  {
    TerminalAbsorbs(s, acts, j);
  }
}
