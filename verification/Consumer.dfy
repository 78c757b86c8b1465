/** The whole consumer as a step relation: the consume loop, recovery, the batch
    path and the background delivery task, interleaved with the environment. */
module Consumer {
  import opened Options
  import opened Wire
  import opened Handling
  import opened Powers

  const READ_COUNT: nat := 100
  const RECOVER_COUNT: nat := 100

  /** One coroutine of the `asyncio.gather` in the delivery task. */
  datatype Child = Child(m: Message, counts: string, pc: DPc, hist: seq<Entry>)

  /** `_pending_batch_delivery`.  `aborted` is the exception the delivery task
      ended with: the first one raised by a child, or the length mismatch. */
  datatype Slot = Empty | Delivering(children: seq<Child>, aborted: Option<Fault>)

  predicate AllDone(cs: seq<Child>) { forall i :: 0 <= i < |cs| ==> cs[i].pc.DDone? }

  predicate TaskOver(s: Slot) { s.Delivering? && (s.aborted.Some? || AllDone(s.children)) }

  lemma TaskOverDelivering(s: Slot)
    ensures TaskOver(s) ==> s.Delivering?
  {
  }

  /** The consumer's fields, the world, and the history of calls. */
  datatype Node = Node(
    world: World,
    log: seq<Entry>,
    idle: bool,
    current: Option<JobId>,
    healthy: bool,
    failures: nat,
    slot: Slot,
    running: bool,
    canBatch: bool)

  /** What the caller of `_process_message` does next. */
  datatype Then = ThenFetch(todo: seq<nat>, inLoop: bool) | ThenHandle(rest: seq<Message>)

  /** Where `consume_loop` stands. */
  datatype Main =
    | Loop
    | AwaitSlot(ms: seq<Message>, recheck: bool)
    | ListPending(inLoop: bool)
    | Fetch(todo: seq<nat>, inLoop: bool)
    | Handle(m: Message, pc: Pc, hist: seq<Entry>, then_: Then)
    | Filter(ms: seq<Message>, i: nat, pc: Pc, hist: seq<Entry>, parsed: seq<Message>)
    | MarkAll(ms: seq<Message>, parsed: seq<Message>, k: nat)
    | Batch(ms: seq<Message>, parsed: seq<Message>)
    | Sleep(secs: nat)
    | Ended

  datatype Sys = Sys(node: Node, main: Main)

  datatype Action =
    | MainStep(a: Answer)
    | ChildStep(i: nat, a: Answer)
    | CancelFlags(jobs: set<JobId>)
    | Trim(id: nat)
    | StopCalled
    | Restart

  /** The k-th consecutive connection failure sleeps this long. */
  function Backoff(k: nat): nat
    requires k >= 1
  {
    if Pow2(k - 1) < 60 then Pow2(k - 1) else 60
  }

  /** `2.0 ** 1024` is not a float: computing the 1025th delay raises. */
  const MAX_FAILURES: nat := 1024

  /** Control returns to the head of `while self._running`. */
  function ToHead(n: Node): Sys { Sys(n, if n.running then Loop else Ended) }

  /** An exception reaches the `except` clauses of the loop. */
  function Interrupt(n: Node, f: Fault): Sys {
    match f
    case Connection =>
      var n1 := n.(healthy := false, failures := n.failures + 1);
      Sys(n1, if n1.failures <= MAX_FAILURES then Sleep(Backoff(n1.failures)) else Ended)
    case OtherError => Sys(n, Sleep(1))
    case ForcedCancel => Sys(n, Ended)
  }

  function Throw(n: Node, inLoop: bool, f: Fault): Sys {
    if inLoop then Interrupt(n, f) else Sys(n, Ended)
  }

  /** Outside the loop only the recovery of `consume_loop`'s start. */
  predicate InLoop(t: Then) { t.ThenFetch? ==> t.inLoop }

  function HandleNext(n: Node, t: Then): Sys {
    match t
    case ThenFetch(todo, inLoop) => if todo == [] then ToHead(n) else Sys(n, Fetch(todo, inLoop))
    case ThenHandle(rest) =>
      if rest == [] then ToHead(n)
      else Sys(n, Handle(rest[0], Start(rest[0]), [], ThenHandle(rest[1..])))
  }

  function EnterFilter(n: Node, ms: seq<Message>, i: nat, parsed: seq<Message>): Sys {
    if i < |ms| then Sys(n, Filter(ms, i, Start(ms[i]), [], parsed))
    else if parsed == [] then ToHead(n)
    else Sys(n.(idle := false), MarkAll(ms, parsed, 0))
  }

  function Dispatch(n: Node, ms: seq<Message>, recheck: bool): Sys {
    if ms == [] then if recheck then Sys(n, ListPending(true)) else ToHead(n)
    else if n.canBatch && |ms| > 1 then EnterFilter(n, ms, 0, [])
    else HandleNext(n, ThenHandle(ms))
  }

  /** One awaited call: its effect on the world and its history entry. */
  function CallEffect(n: Node, id: nat, call: Call, a: Answer): Node {
    n.(world := Perform(n.world, call, a), log := n.log + [Entry(id, call, Observe(n.world, call, a))])
  }

  /** `_idle_event` and `current_job_id` around one reply. */
  function Flags(n: Node, m: Message, pc: Pc, g: Got): Node {
    if pc.AskCancel? && Advance(m, pc, g).MarkExecuting? then n.(idle := false, current := Some(m.Job()))
    else if pc.FinalAck? && !Hard(g) then n.(idle := true, current := None)
    else n
  }

  /** What a handling standing at `pc` sees, and the node after that reply. */
  function Seen(n: Node, m: Message, pc: Pc, a: Answer): Got { Observe(n.world, CallAt(m, pc), a) }

  function AfterReply(n: Node, m: Message, pc: Pc, a: Answer): Node {
    Flags(CallEffect(n, m.id, CallAt(m, pc), a), m, pc, Seen(n, m, pc, a))
  }

  /** Control after a handling's reply moved it to `next`. */
  function HandleGoto(n: Node, m: Message, next: Pc, hist: seq<Entry>, t: Then): Sys {
    if next == Finished(Return) then HandleNext(n, t)
    else if next.Finished? then Throw(n, InLoop(t), next.exit.fault)
    else Sys(n, Handle(m, next, hist, t))
  }

  function HandleStep(n: Node, m: Message, pc: Pc, hist: seq<Entry>, t: Then, a: Answer): Sys {
    var g := Seen(n, m, pc, a);
    HandleGoto(AfterReply(n, m, pc, a), m, Advance(m, pc, g), hist + [Entry(m.id, CallAt(m, pc), g)], t)
  }

  /** The batch path's own continuation: what would start executing is either
      set aside for the batch or, if its work did not parse, acknowledged. */
  function FilterGoto(n: Node, ms: seq<Message>, i: nat, next: Pc, hist: seq<Entry>, parsed: seq<Message>): Sys
    requires i < |ms|
  {
    if next.MarkExecuting? then
      if ms[i].work.None? then Sys(n, Filter(ms, i, AckEarly, hist, parsed))
      else EnterFilter(n, ms, i + 1, parsed + [ms[i]])
    else if next == Finished(Return) then EnterFilter(n, ms, i + 1, parsed)
    else if next.Finished? then Interrupt(n, next.exit.fault)
    else Sys(n, Filter(ms, i, next, hist, parsed))
  }

  function FilterStep(n: Node, ms: seq<Message>, i: nat, pc: Pc, hist: seq<Entry>, parsed: seq<Message>, a: Answer): Sys
    requires i < |ms|
  {
    var m := ms[i];
    var g := Seen(n, m, pc, a);
    FilterGoto(CallEffect(n, m.id, CallAt(m, pc), a), ms, i, Advance(m, pc, g),
               hist + [Entry(m.id, CallAt(m, pc), g)], parsed)
  }

  function MarkAllStep(n: Node, ms: seq<Message>, parsed: seq<Message>, k: nat, a: Answer): Sys
    requires k < |parsed|
  {
    var call := Write(parsed[k].Job(), Executing);
    var g := Observe(n.world, call, a);
    var n1 := CallEffect(n, parsed[k].id, call, a);
    if Hard(g) then Interrupt(n1, g.fault)
    else if k + 1 < |parsed| then Sys(n1, MarkAll(ms, parsed, k + 1))
    else Sys(n1, Batch(ms, parsed))
  }

  function Executions(parsed: seq<Message>, g: Got): seq<Entry> {
    seq(|parsed|, i requires 0 <= i < |parsed| => Entry(parsed[i].id, Execute(parsed[i].Job(), parsed[i].Task()), g))
  }

  function Children(parsed: seq<Message>, all: seq<string>): seq<Child>
    requires |parsed| == |all|
  {
    seq(|parsed|, i requires 0 <= i < |parsed| => Child(parsed[i], all[i], DAsk, []))
  }

  /** A result list of the wrong length makes the delivery task fail before any
      child exists. */
  function BatchStep(n: Node, ms: seq<Message>, parsed: seq<Message>, a: Answer): Sys {
    var n1 := n.(log := n.log + Executions(parsed, Observe(n.world, Ack(0), a)));
    if a.BatchReturned? then
      if |a.all| == |parsed| then ToHead(n1.(slot := Delivering(Children(parsed, a.all), None)))
      else ToHead(n1.(slot := Delivering([], Some(OtherError)), idle := true))
    else if a.Raise? && a.fault == ForcedCancel then Sys(n1, Ended)
    else HandleNext(n1, ThenHandle(ms))
  }

  function Kill(c: Child): Child { if Over(c.pc) then c else c.(pc := DFailed(ForcedCancel)) }

  /** Cancelling the loop while it awaits the delivery task cancels that task. */
  function KillAll(s: Slot): Slot
    requires s.Delivering?
  {
    Delivering(seq(|s.children|, i requires 0 <= i < |s.children| => Kill(s.children[i])),
               if s.aborted.Some? then s.aborted else Some(ForcedCancel))
  }

  function AwaitSlotStep(n: Node, ms: seq<Message>, recheck: bool, a: Answer): Sys {
    if a.Raise? && a.fault == ForcedCancel then
      if n.slot.Delivering? && !TaskOver(n.slot) then Sys(n.(slot := KillAll(n.slot), idle := true), Ended)
      else Sys(n, Ended)
    else if !TaskOver(n.slot) then Sys(n, AwaitSlot(ms, recheck))
    else if n.slot.aborted.Some? then Interrupt(n, n.slot.aborted.value)
    else Dispatch(n.(slot := Empty), ms, recheck)
  }

  function LoopStep(n: Node, a: Answer): Sys {
    match a
    case Read(ms, recheck) =>
      if !Fresh(n.world, ms) || |ms| > (if n.canBatch then READ_COUNT else 1) then Sys(n, Loop)
      else
        var n1 := n.(world := Deliver(n.world, ms), healthy := true, failures := 0);
        if n1.slot.Empty? then Dispatch(n1, ms, recheck) else Sys(n1, AwaitSlot(ms, recheck))
    case LostRead(f, ms) =>
      if !Fresh(n.world, ms) then Sys(n, Loop) else Interrupt(n.(world := Deliver(n.world, ms)), f)
    case Raise(f, _) => Interrupt(n, f)
    case _ => Sys(n, Loop)
  }

  function Oldest(pel: seq<nat>): seq<nat> { if |pel| <= RECOVER_COUNT then pel else pel[..RECOVER_COUNT] }

  function FetchStep(n: Node, todo: seq<nat>, inLoop: bool, a: Answer): Sys
    requires todo != []
  {
    if a.Raise? then Throw(n, inLoop, a.fault)
    else if todo[0] in n.world.entries && todo[0] !in n.world.trimmed then
      var m := n.world.entries[todo[0]];
      Sys(n, Handle(m, Start(m), [], ThenFetch(todo[1..], inLoop)))
    else HandleNext(n, ThenFetch(todo[1..], inLoop))
  }

  function MainNext(n: Node, main: Main, a: Answer): Sys {
    match main
    case Loop => LoopStep(n, a)
    case AwaitSlot(ms, recheck) => AwaitSlotStep(n, ms, recheck, a)
    case ListPending(inLoop) =>
      if a.Raise? then Throw(n, inLoop, a.fault) else HandleNext(n, ThenFetch(Oldest(n.world.pel), inLoop))
    case Fetch(todo, inLoop) => if todo == [] then ToHead(n) else FetchStep(n, todo, inLoop, a)
    case Handle(m, pc, hist, t) => HandleStep(n, m, pc, hist, t, a)
    case Filter(ms, i, pc, hist, parsed) =>
      if i < |ms| then FilterStep(n, ms, i, pc, hist, parsed, a) else ToHead(n)
    case MarkAll(ms, parsed, k) => if k < |parsed| then MarkAllStep(n, ms, parsed, k, a) else ToHead(n)
    case Batch(ms, parsed) => BatchStep(n, ms, parsed, a)
    case Sleep(_) => if a.Raise? && a.fault == ForcedCancel then Sys(n, Ended) else ToHead(n)
    case Ended => Sys(n, Ended)
  }

  function ChildNext(n: Node, i: nat, a: Answer): Node
    requires n.slot.Delivering? && i < |n.slot.children|
  {
    var c := n.slot.children[i];
    var call := DCallAt(c.m, c.counts, c.pc);
    var g := Observe(n.world, call, a);
    var pc1 := DAdvance(c.pc, g);
    var slot1 := Delivering(n.slot.children[i := Child(c.m, c.counts, pc1, c.hist + [Entry(c.m.id, call, g)])],
                            if n.slot.aborted.None? && pc1.DFailed? then Some(pc1.fault) else n.slot.aborted);
    CallEffect(n, c.m.id, call, a).(slot := slot1, idle := n.idle || (TaskOver(slot1) && !TaskOver(n.slot)))
  }

  /** Everything that happens beside the consume loop within one process. */
  function Background(n: Node, act: Action): Node {
    match act
    case ChildStep(i, a) =>
      if n.slot.Delivering? && i < |n.slot.children| && !Over(n.slot.children[i].pc) then ChildNext(n, i, a) else n
    case CancelFlags(jobs) => n.(world := n.world.(cancels := jobs))
    case Trim(id) => n.(world := n.world.(trimmed := n.world.trimmed + {id}))
    case StopCalled => n.(running := false)
    case _ => n
  }

  /** A fresh process on the same Redis: recovery first, then the loop. */
  function Boot(n: Node): Sys {
    Sys(n.(idle := true, current := None, healthy := true, failures := 0, slot := Empty, running := true),
        ListPending(false))
  }

  function Next(s: Sys, act: Action): Sys {
    match act
    case MainStep(a) => MainNext(s.node, s.main, a)
    case Restart => Boot(s.node)
    case _ => Sys(Background(s.node, act), s.main)
  }

  /** The state after a run; a crash anywhere is simply a shorter run. */
  function Run(s: Sys, acts: seq<Action>): Sys
    decreases |acts|
  {
    if acts == [] then s else Run(Next(s, acts[0]), acts[1..])
  }

  /** Nothing delivered yet; status hashes and cancel flags may already exist. */
  function Initial(canBatch: bool, status: map<JobId, State>, cancels: set<JobId>): Sys {
    Boot(Node(World(map[], {}, 0, [], {}, status, cancels, multiset{}), [], true, None, true, 0, Empty, true, canBatch))
  }
}
