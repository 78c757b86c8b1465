/** The batch path refines the single path: without failures, every interleaving
    of the parallel deliveries ends with the job states, webhooks and
    acknowledgements of handling the messages one by one, except that the batch
    path reports nothing for work that does not parse. */
module BatchRefinement {
  import opened Options
  import opened Wire
  import opened Handling
  import opened Consumer

  /** What the cloud can observe; also used for the difference a step makes. */
  datatype View = View(status: map<JobId, State>, inbox: multiset<Post>, acked: set<nat>)

  const ZERO := View(map[], multiset{}, {})

  function ViewOf(w: World): View { View(w.status, w.inbox, w.acked) }

  function Add(v: View, d: View): View { View(v.status + d.status, v.inbox + d.inbox, v.acked + d.acked) }

  function Put(j: JobId, s: State): View { View(map[j := s], multiset{}, {}) }

  function Sent(p: Post): View { View(map[], multiset{p}, {}) }

  function Acked(m: Message): View { View(map[], multiset{}, {m.id}) }

  predicate IsSettled(v: View, j: JobId) { j in v.status && Terminal(v.status[j]) }

  type Runner = Work -> string

  // ---- the reference: one message after the other ----

  function Cancel(m: Message): View { Add(Put(m.Job(), Cancelled), Acked(m)) }

  function Complete(m: Message, c: string): View {
    Add(Put(m.Job(), Completed), Add(Sent(Result(m.Job(), m.Url(), c)), Acked(m)))
  }

  function Fail(m: Message): View { Add(Put(m.Job(), Failed), Add(Sent(Error(m.Job(), m.Url())), Acked(m))) }

  /** The effect of one message on its own. */
  function Effect(v: View, flags: set<JobId>, m: Message, run: Runner): View {
    if !m.WellAddressed() || IsSettled(v, m.Job()) then Acked(m)
    else if m.Job() in flags then Cancel(m)
    else if m.work.None? then Fail(m)
    else Complete(m, run(m.Task()))
  }

  function SettleAll(v: View, flags: set<JobId>, ms: seq<Message>, run: Runner): View
    decreases |ms|
  {
    if ms == [] then v else SettleAll(Add(v, Effect(v, flags, ms[0], run)), flags, ms[1..], run)
  }

  // ---- the single path ----

  /** What a handling standing at `pc` still has to do. */
  function Rest(v: View, flags: set<JobId>, m: Message, pc: Pc, run: Runner): View {
    match pc
    case AskStatus => Effect(v, flags, m, run)
    case AckEarly => Acked(m)
    case FinalAck(_) => Acked(m)
    case SendResult(c) => Add(Sent(Result(m.Job(), m.Url(), c)), Acked(m))
    case SendError => Add(Sent(Error(m.Job(), m.Url())), Acked(m))
    case MarkFailed => Fail(m)
    case MarkBefore => Cancel(m)
    case StopRunner => Cancel(m)
    case ReapRunner => Cancel(m)
    case MarkCancelled => Cancel(m)
    case Finished(_) => ZERO
    case _ =>
      if m.Job() in flags then Cancel(m)
      else match pc
        case AskReturned(c) => Complete(m, c)
        case AskAfterRun(c) => Complete(m, c)
        case MarkCompleted(c) => Complete(m, c)
        case AskBeforeSend(c) => Add(Sent(Result(m.Job(), m.Url(), c)), Acked(m))
        case AskInHandler => Fail(m)
        case _ => if m.work.None? then Fail(m) else Complete(m, run(m.Task()))
  }

  /** No call fails and the runner's answer is `run`. */
  predicate CleanAnswer(main: Main, a: Answer, run: Runner) {
    && !a.Raise? && !a.LostRead?
    && (main.Batch? ==> a == BatchReturned(Results(main.parsed, run)))
    && (main.Handle? && main.pc.Waiting? ==> a.StillRunning? || a == Returned(run(main.m.Task())))
  }

  function Results(parsed: seq<Message>, run: Runner): seq<string> {
    seq(|parsed|, i requires 0 <= i < |parsed| => run(parsed[i].Task()))
  }

  predicate CleanAction(s: Sys, act: Action, run: Runner) {
    match act
    case MainStep(a) => CleanAnswer(s.main, a, run)
    case ChildStep(_, a) => !a.Raise? && !a.LostRead?
    case CancelFlags(_) => false
    case Restart => false
    case _ => true
  }

  lemma AddAssoc(a: View, b: View, c: View)
    ensures Add(Add(a, b), c) == Add(a, Add(b, c))
  {
  }

  lemma AddZero(v: View)
    ensures Add(v, ZERO) == v && Add(ZERO, v) == v
  {
  }

  lemma AddSwap(a: View, b: View)
    requires a.status.Keys !! b.status.Keys
    ensures Add(a, b) == Add(b, a)
  {
    assert a.status + b.status == b.status + a.status;
  }

  /** The difference one fault-free call makes. */
  function Delta(call: Call): View {
    match call
    case Write(j, s) => Put(j, s)
    case Ack(id) => View(map[], multiset{}, {id})
    case Send(p) => Sent(p)
    case _ => ZERO
  }

  lemma CleanCall(w: World, call: Call, a: Answer)
    requires !a.Raise? && !a.LostRead?
    ensures ViewOf(Perform(w, call, a)) == Add(ViewOf(w), Delta(call))
    ensures Perform(w, call, a).cancels == w.cancels
  {
    AddZero(ViewOf(w));
  }

  /** Control in a fault-free handling: no exception is under way, and the error
      handler is entered only for work that does not parse. */
  predicate CleanPc(m: Message, pc: Pc) {
    && (m.WellAddressed() || pc.AckEarly? || pc.Finished?)
    && (pc.FinalAck? || pc.Finished? ==> pc.exit.Return?)
    && (pc.Waiting? || pc.AskWhileRunning? ==> m.work.Some?)
    && (pc.AskInHandler? ==> m.work.None?)
  }

  lemma CleanAdvance(w: World, m: Message, pc: Pc, a: Answer, run: Runner)
    requires CleanPc(m, pc) && !pc.Finished? && !a.Raise? && !a.LostRead?
    requires pc.Waiting? ==> a.StillRunning? || a == Returned(run(m.Task()))
    ensures CleanPc(m, Advance(m, pc, Observe(w, CallAt(m, pc), a)))
  {
  }

  lemma PutTwice(j: JobId, s: State, t: State, d: View)
    ensures Add(Put(j, s), Add(Put(j, t), d)) == Add(Put(j, t), d)
  {
    assert map[j := s] + (map[j := t] + d.status) == map[j := t] + d.status;
  }

  predicate Writing(pc: Pc) { pc.MarkExecuting? || pc.MarkCompleted? }

  predicate Polling(pc: Pc) { pc.AskReturned? || pc.AskAfterRun? || pc.AskBeforeSend? || pc.AskInHandler? }

  predicate Before(pc: Pc) {
    pc.AskStatus? || pc.AskCancel? || pc.MarkBefore? || pc.AckEarly? || pc.Waiting? || pc.AskWhileRunning?
      || pc.StopRunner? || pc.ReapRunner?
  }

  lemma RestBefore(w: World, m: Message, pc: Pc, a: Answer, run: Runner)
    requires CleanPc(m, pc) && !pc.Finished? && !a.Raise? && !a.LostRead? && Before(pc)
    requires pc.Waiting? ==> a.StillRunning? || a == Returned(run(m.Task()))
    ensures var next := Advance(m, pc, Observe(w, CallAt(m, pc), a));
      Rest(ViewOf(w), w.cancels, m, pc, run)
      == Add(Delta(CallAt(m, pc)), Rest(ViewOf(Perform(w, CallAt(m, pc), a)), w.cancels, m, next, run))
  {
    var next := Advance(m, pc, Observe(w, CallAt(m, pc), a));
    AddZero(Rest(ViewOf(Perform(w, CallAt(m, pc), a)), w.cancels, m, next, run));
    AddZeroAck(m);
    hide Add, Put, Sent;
  }

  lemma RestPolling(w: World, m: Message, pc: Pc, a: Answer, run: Runner)
    requires CleanPc(m, pc) && !pc.Finished? && !a.Raise? && !a.LostRead? && Polling(pc)
    requires pc.Waiting? ==> a.StillRunning? || a == Returned(run(m.Task()))
    ensures var next := Advance(m, pc, Observe(w, CallAt(m, pc), a));
      Rest(ViewOf(w), w.cancels, m, pc, run)
      == Add(Delta(CallAt(m, pc)), Rest(ViewOf(Perform(w, CallAt(m, pc), a)), w.cancels, m, next, run))
  {
    var next := Advance(m, pc, Observe(w, CallAt(m, pc), a));
    AddZero(Rest(ViewOf(Perform(w, CallAt(m, pc), a)), w.cancels, m, next, run));
    AddZeroAck(m);
    hide Add, Put, Sent;
  }

  lemma RestAfter(w: World, m: Message, pc: Pc, a: Answer, run: Runner)
    requires CleanPc(m, pc) && !pc.Finished? && !a.Raise? && !a.LostRead? && !Before(pc) && !Writing(pc) && !Polling(pc)
    requires pc.Waiting? ==> a.StillRunning? || a == Returned(run(m.Task()))
    ensures var next := Advance(m, pc, Observe(w, CallAt(m, pc), a));
      Rest(ViewOf(w), w.cancels, m, pc, run)
      == Add(Delta(CallAt(m, pc)), Rest(ViewOf(Perform(w, CallAt(m, pc), a)), w.cancels, m, next, run))
  {
    var next := Advance(m, pc, Observe(w, CallAt(m, pc), a));
    AddZero(Rest(ViewOf(Perform(w, CallAt(m, pc), a)), w.cancels, m, next, run));
    AddZeroAck(m);
    hide Add, Put, Sent;
  }

  lemma RestWriting(w: World, m: Message, pc: Pc, a: Answer, run: Runner)
    requires CleanPc(m, pc) && !pc.Finished? && !a.Raise? && !a.LostRead? && Writing(pc)
    requires pc.Waiting? ==> a.StillRunning? || a == Returned(run(m.Task()))
    ensures var next := Advance(m, pc, Observe(w, CallAt(m, pc), a));
      Rest(ViewOf(w), w.cancels, m, pc, run)
      == Add(Delta(CallAt(m, pc)), Rest(ViewOf(Perform(w, CallAt(m, pc), a)), w.cancels, m, next, run))
  {
    var next := Advance(m, pc, Observe(w, CallAt(m, pc), a));
    AddZero(Rest(ViewOf(Perform(w, CallAt(m, pc), a)), w.cancels, m, next, run));
    AddZeroAck(m);
    var s := if pc.MarkExecuting? then Executing else Completed;
    PutTwice(m.Job(), s, Cancelled, Acked(m));
    PutTwice(m.Job(), s, Failed, Add(Sent(Error(m.Job(), m.Url())), Acked(m)));
    PutTwice(m.Job(), s, Completed, Add(Sent(Result(m.Job(), m.Url(), run(m.Task()))), Acked(m)));
    hide Add, Put, Sent;
  }

  /** One fault-free reply turns part of the rest into an effect. */
  lemma RestStep(w: World, m: Message, pc: Pc, a: Answer, run: Runner)
    requires CleanPc(m, pc) && !pc.Finished? && !a.Raise? && !a.LostRead?
    requires pc.Waiting? ==> a.StillRunning? || a == Returned(run(m.Task()))
    ensures var next := Advance(m, pc, Observe(w, CallAt(m, pc), a));
      Rest(ViewOf(w), w.cancels, m, pc, run)
      == Add(Delta(CallAt(m, pc)), Rest(ViewOf(Perform(w, CallAt(m, pc), a)), w.cancels, m, next, run))
  {
    if Before(pc) { RestBefore(w, m, pc, a, run); }
    else if Writing(pc) { RestWriting(w, m, pc, a, run); }
    else if Polling(pc) { RestPolling(w, m, pc, a, run); }
    else { RestAfter(w, m, pc, a, run); }
  }

  lemma AddZeroAck(m: Message)
    ensures Add(Delta(Ack(m.id)), ZERO) == Acked(m)
  {
  }

  // ---- every fault-free run of the single path reaches SettleAll ----

  ghost predicate SingleShape(s: Sys) {
    && s.node.slot.Empty?
    && (s.main.Handle? ==> s.main.then_.ThenHandle? && CleanPc(s.main.m, s.main.pc) && !s.main.pc.Finished?)
  }

  /** The view once the handling in progress and the listed rest are through. */
  function SingleEnd(s: Sys, run: Runner): View {
    var v := ViewOf(s.node.world);
    var flags := s.node.world.cancels;
    if s.main.Handle? && s.main.then_.ThenHandle? then
      SettleAll(Add(v, Rest(v, flags, s.main.m, s.main.pc, run)), flags, s.main.then_.rest, run)
    else v
  }

  lemma StartRest(v: View, flags: set<JobId>, m: Message, run: Runner)
    ensures Rest(v, flags, m, Start(m), run) == Effect(v, flags, m, run) && CleanPc(m, Start(m)) && !Start(m).Finished?
  {
  }

  lemma SingleNext(n: Node, ms: seq<Message>, run: Runner)
    requires n.slot.Empty?
    ensures var s := HandleNext(n, ThenHandle(ms));
      SingleShape(s) && s.node == n && SingleEnd(s, run) == SettleAll(ViewOf(n.world), n.world.cancels, ms, run)
  {
    if ms != [] { StartRest(ViewOf(n.world), n.world.cancels, ms[0], run); }
  }

  lemma SingleGoto(n: Node, m: Message, next: Pc, hist: seq<Entry>, ms: seq<Message>, run: Runner)
    requires n.slot.Empty? && CleanPc(m, next)
    ensures var s := HandleGoto(n, m, next, hist, ThenHandle(ms));
      && SingleShape(s) && s.node == n
      && SingleEnd(s, run)
         == SettleAll(Add(ViewOf(n.world), Rest(ViewOf(n.world), n.world.cancels, m, next, run)), n.world.cancels, ms,
           run)
  {
    if next.Finished? {
      RestDone(ViewOf(n.world), n.world.cancels, m, next, run);
      AddZero(ViewOf(n.world));
      SingleNext(n, ms, run);
    }
    hide Rest, Add, SettleAll, HandleNext;
  }

  lemma SingleReply(n: Node, m: Message, pc: Pc, a: Answer, run: Runner)
    requires CleanPc(m, pc) && !pc.Finished? && !a.Raise? && !a.LostRead?
    requires pc.Waiting? ==> a.StillRunning? || a == Returned(run(m.Task()))
    ensures var n1 := AfterReply(n, m, pc, a); var next := Advance(m, pc, Seen(n, m, pc, a));
      && CleanPc(m, next) && n1.slot == n.slot && n1.world.cancels == n.world.cancels
      && Add(ViewOf(n1.world), Rest(ViewOf(n1.world), n.world.cancels, m, next, run))
         == Add(ViewOf(n.world), Rest(ViewOf(n.world), n.world.cancels, m, pc, run))
  {
    hide Rest, Add, Delta, Advance, Observe, Perform, Hard, CleanPc, CallAt;
    CleanAdvance(n.world, m, pc, a, run);
    CleanCall(n.world, CallAt(m, pc), a);
    RestStep(n.world, m, pc, a, run);
    var w1 := Perform(n.world, CallAt(m, pc), a);
    AddAssoc(ViewOf(n.world), Delta(CallAt(m, pc)),
             Rest(ViewOf(w1), n.world.cancels, m, Advance(m, pc, Seen(n, m, pc, a)), run));
  }

  lemma SingleStep(s: Sys, a: Answer, run: Runner)
    requires SingleShape(s) && s.main.Handle? && CleanAnswer(s.main, a, run)
    ensures var s1 := Next(s, MainStep(a));
      SingleShape(s1) && SingleEnd(s1, run) == SingleEnd(s, run) && s1.node.world.cancels == s.node.world.cancels
  {
    hide Rest, Add, Delta, Advance, CallAt, Observe, Perform, SettleAll, HandleGoto, Hard, CleanPc, AfterReply, Seen;
    SingleReply(s.node, s.main.m, s.main.pc, a, run);
    var g := Seen(s.node, s.main.m, s.main.pc, a);
    SingleGoto(AfterReply(s.node, s.main.m, s.main.pc, a), s.main.m, Advance(s.main.m, s.main.pc, g),
               s.main.hist + [Entry(s.main.m.id, CallAt(s.main.m, s.main.pc), g)], s.main.then_.rest, run);
  }

  lemma RestDone(v: View, flags: set<JobId>, m: Message, pc: Pc, run: Runner)
    requires pc.Finished?
    ensures Rest(v, flags, m, pc, run) == ZERO
  {
  }

  /** A fault-free run during which the handlings are still going on. */
  ghost predicate SingleRun(s: Sys, acts: seq<Action>, run: Runner)
    decreases |acts|
  {
    acts == [] || (s.main.Handle? && CleanAction(s, acts[0], run) && SingleRun(Next(s, acts[0]), acts[1..], run))
  }

  lemma {:induction false} SingleRuns(s: Sys, acts: seq<Action>, run: Runner)
    requires SingleShape(s) && SingleRun(s, acts, run)
    ensures SingleEnd(Run(s, acts), run) == SingleEnd(s, run)
    decreases |acts|
  {
    if acts != [] {
      if acts[0].MainStep? { SingleStep(s, acts[0].a, run); }
      SingleRuns(Next(s, acts[0]), acts[1..], run);
    }
  }

  // ---- the batch path ----

  /** What one message contributes in the batch path. */
  function BatchEffect(v: View, flags: set<JobId>, m: Message, run: Runner): View {
    if !m.WellAddressed() || IsSettled(v, m.Job()) then Acked(m)
    else if m.Job() in flags then Cancel(m)
    else if m.work.None? then Acked(m)
    else Complete(m, run(m.Task()))
  }

  function FilterRest(v: View, flags: set<JobId>, m: Message, pc: Pc, run: Runner): View {
    match pc
    case AskStatus => BatchEffect(v, flags, m, run)
    case AskCancel =>
      if m.Job() in flags then Cancel(m) else if m.work.None? then Acked(m) else Complete(m, run(m.Task()))
    case MarkBefore => Cancel(m)
    case _ => Acked(m)
  }

  function ChildRest(flags: set<JobId>, c: Child): View {
    var m := c.m;
    match c.pc
    case DAsk => if m.Job() in flags then Cancel(m) else Complete(m, c.counts)
    case DMarkCompleted => if m.Job() in flags then Cancel(m) else Complete(m, c.counts)
    case DAskAgain =>
      if m.Job() in flags then Cancel(m) else Add(Sent(Result(m.Job(), m.Url(), c.counts)), Acked(m))
    case DMarkCancelled => Cancel(m)
    case DSend => Add(Sent(Result(m.Job(), m.Url(), c.counts)), Acked(m))
    case DAck => Acked(m)
    case _ => ZERO
  }

  function SumFilter(v: View, flags: set<JobId>, ms: seq<Message>, run: Runner): View {
    if ms == [] then ZERO else Add(BatchEffect(v, flags, ms[0], run), SumFilter(v, flags, ms[1..], run))
  }

  function SumChildren(flags: set<JobId>, cs: seq<Child>): View {
    if cs == [] then ZERO else Add(ChildRest(flags, cs[0]), SumChildren(flags, cs[1..]))
  }

  function SumParsed(flags: set<JobId>, parsed: seq<Message>, run: Runner): View {
    SumChildren(flags, Children(parsed, Results(parsed, run)))
  }

  ghost predicate DistinctJobs(ms: seq<Message>) {
    forall i, k :: 0 <= i < k < |ms| && ms[i].WellAddressed() && ms[k].WellAddressed() ==> ms[i].Job() != ms[k].Job()
  }

  ghost predicate Runnable(flags: set<JobId>, parsed: seq<Message>) {
    forall i :: 0 <= i < |parsed| ==> parsed[i].WellAddressed() && parsed[i].work.Some? && parsed[i].Job() !in flags
  }

  ghost predicate CleanChildren(cs: seq<Child>) {
    && (forall i :: 0 <= i < |cs| ==> cs[i].m.WellAddressed() && !cs[i].pc.DFailed?)
    && (forall i, k :: 0 <= i < k < |cs| ==> cs[i].m.Job() != cs[k].m.Job())
  }

  /** A batch is being filtered, marked, executed or delivered. */
  ghost predicate Batching(s: Sys) {
    || s.main.Filter? || s.main.MarkAll? || s.main.Batch?
    || (s.node.slot.Delivering? && !TaskOver(s.node.slot))
  }

  ghost predicate BatchShape(s: Sys) {
    match s.main
    case Filter(ms, i, pc, _, parsed) =>
      && s.node.slot.Empty? && i < |ms| && DistinctJobs(parsed + ms[i..]) && Runnable(s.node.world.cancels, parsed)
      && (pc.AskStatus? || pc.AskCancel? || pc.MarkBefore? || pc.AckEarly?)
      && (ms[i].WellAddressed() || pc.AckEarly?)
    case MarkAll(_, parsed, k) =>
      s.node.slot.Empty? && k < |parsed| && DistinctJobs(parsed) && Runnable(s.node.world.cancels, parsed)
    case Batch(_, parsed) => s.node.slot.Empty? && DistinctJobs(parsed) && Runnable(s.node.world.cancels, parsed)
    case Loop => DeliveryShape(s.node.slot)
    case AwaitSlot(_, _) => DeliveryShape(s.node.slot)
    case Ended => DeliveryShape(s.node.slot)
    case _ => false
  }

  ghost predicate DeliveryShape(s: Slot) { s.Delivering? ==> s.aborted.None? && CleanChildren(s.children) }

  /** What the batch still has to do. */
  function BatchRest(s: Sys, run: Runner): View {
    var v := ViewOf(s.node.world);
    var flags := s.node.world.cancels;
    match s.main
    case Filter(ms, i, pc, _, parsed) =>
      if i < |ms| then
        Add(SumParsed(flags, parsed, run),
          Add(FilterRest(v, flags, ms[i], pc, run), SumFilter(v, flags, ms[i + 1..], run)))
      else ZERO
    case MarkAll(_, parsed, _) => SumParsed(flags, parsed, run)
    case Batch(_, parsed) => SumParsed(flags, parsed, run)
    case _ => if s.node.slot.Delivering? then SumChildren(flags, s.node.slot.children) else ZERO
  }

  function BatchEnd(s: Sys, run: Runner): View { Add(ViewOf(s.node.world), BatchRest(s, run)) }

  // ---- algebra ----

  /** An effect already made slides past the contributions of other jobs. */
  lemma Slide(v: View, e: View, others: View, f: View, b: View)
    requires e.status.Keys !! others.status.Keys
    ensures Add(Add(v, e), Add(others, Add(f, b))) == Add(v, Add(others, Add(Add(e, f), b)))
  {
    calc {
      Add(Add(v, e), Add(others, Add(f, b)));
      { AddAssoc(v, e, Add(others, Add(f, b))); }
      Add(v, Add(e, Add(others, Add(f, b))));
      { AddAssoc(e, others, Add(f, b)); AddSwap(e, others); AddAssoc(others, e, Add(f, b)); }
      Add(v, Add(others, Add(e, Add(f, b))));
      { AddAssoc(e, f, b); }
      Add(v, Add(others, Add(Add(e, f), b)));
    }
  }

  lemma Override(v: View, j: JobId, s: State, d: View)
    requires j in d.status
    ensures Add(Add(v, Put(j, s)), d) == Add(v, d)
  {
    assert v.status + map[j := s] + d.status == v.status + d.status;
  }

  lemma ChildKeys(flags: set<JobId>, c: Child, j: JobId)
    requires c.m.Job() != j
    ensures j !in ChildRest(flags, c).status
  {
  }

  lemma {:induction false} SumKeys(flags: set<JobId>, cs: seq<Child>, j: JobId)
    requires forall i :: 0 <= i < |cs| ==> cs[i].m.Job() != j
    ensures j !in SumChildren(flags, cs).status
  {
    if cs != [] {
      ChildKeys(flags, cs[0], j);
      SumKeys(flags, cs[1..], j);
      hide ChildRest;
    }
  }

  lemma {:induction false} SumSplit(flags: set<JobId>, cs: seq<Child>, i: nat)
    requires i < |cs|
    ensures SumChildren(flags, cs)
         == Add(SumChildren(flags, cs[..i]), Add(ChildRest(flags, cs[i]), SumChildren(flags, cs[i + 1..])))
  {
    hide Add, ChildRest;
    if i == 0 {
      AddZero(SumChildren(flags, cs));
    } else {
      SumSplit(flags, cs[1..], i - 1);
      assert cs[1..][..i - 1] == cs[..i][1..] && cs[1..][i..] == cs[i + 1..];
      AddAssoc(ChildRest(flags, cs[0]), SumChildren(flags, cs[..i][1..]),
               Add(ChildRest(flags, cs[i]), SumChildren(flags, cs[i + 1..])));
    }
  }

  /** Waiting messages are judged by their own job only. */
  lemma {:induction false} SumFilterSame(v: View, e: View, flags: set<JobId>, ms: seq<Message>, run: Runner)
    requires forall i :: 0 <= i < |ms| && ms[i].WellAddressed() ==> ms[i].Job() !in e.status
    ensures SumFilter(Add(v, e), flags, ms, run) == SumFilter(v, flags, ms, run)
  {
    if ms != [] { SumFilterSame(v, e, flags, ms[1..], run); }
  }
}
