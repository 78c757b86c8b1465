/** Crash safety: at every prefix of every run each delivered message is either
    pending or acknowledged, and an acknowledged one has a recorded reason. */
module CrashSafety {
  import opened Options
  import opened Wire
  import opened Handling
  import opened Consumer

  /** The pending list and the acknowledged set split the delivered entries. */
  ghost predicate WorldOk(w: World) {
    && (forall i, j :: 0 <= i < j < |w.pel| ==> w.pel[i] < w.pel[j])
    && (forall id :: id in w.pel ==> id in w.entries)
    && (forall id :: id in w.acked ==> id in w.entries)
    && (forall id :: id in w.entries ==> id <= w.last && w.entries[id].id == id && (id in w.pel <==> id !in w.acked))
  }

  /** Why a message may be acknowledged; the last three are the reasons that
      leave no trace for the submitter. */
  datatype Reason =
    | MissingField
    | AlreadyTerminal
    | CancelWritten
    | BadWorkInBatch
    | WebhookTried
    | PollRaisedInHandler
    | FailedWriteRaised
    | Forced

  /** A call made for message `id` at position `i` of the history. */
  ghost predicate For(log: seq<Entry>, i: int, id: nat) { 0 <= i < |log| && log[i].id == id }

  ghost predicate Explains(log: seq<Entry>, m: Message, r: Reason) {
    match r
    case MissingField => !m.WellAddressed()
    case AlreadyTerminal => exists i :: For(log, i, m.id) && log[i].call.ReadState? && log[i].got.Yes?
    case CancelWritten => exists i :: For(log, i, m.id) && log[i].call == Write(m.Job(), Cancelled)
    case BadWorkInBatch =>
      m.work.None? && exists i :: For(log, i, m.id) && log[i].call.Poll? && !log[i].got.Yes? && !log[i].got.Err?
    case WebhookTried => exists i :: For(log, i, m.id) && log[i].call.Send?
    case PollRaisedInHandler =>
      exists k :: For(log, k, m.id) && log[k].call.Poll? && log[k].got.Err? && (m.work.None? || Erred(log[..k], m.id))
    case FailedWriteRaised => exists i :: For(log, i, m.id) && log[i].call == Write(m.Job(), Failed) && Hard(log[i].got)
    case Forced => exists i :: For(log, i, m.id) && log[i].got == Err(ForcedCancel)
  }

  ghost predicate Erred(log: seq<Entry>, id: nat) { exists i :: For(log, i, id) && log[i].got.Err? }

  ghost predicate Explained(log: seq<Entry>, m: Message) { exists r :: Explains(log, m, r) }

  ghost predicate Knows(w: World, m: Message) { m.id in w.entries && w.entries[m.id] == m }

  ghost predicate KnowsAll(w: World, ms: seq<Message>) { forall i :: 0 <= i < |ms| ==> Knows(w, ms[i]) }

  /** An acknowledgement that is about to be sent is already explained. */
  ghost predicate Due(log: seq<Entry>, m: Message, pc: Pc) {
    && (pc.AckEarly? || pc.FinalAck? ==> Explained(log, m))
    && (pc.AskInHandler? ==> m.work.None? || Erred(log, m.id))
  }

  ghost predicate SafeMain(w: World, log: seq<Entry>, main: Main) {
    match main
    case AwaitSlot(ms, _) => KnowsAll(w, ms)
    case Handle(m, pc, _, t) =>
      Knows(w, m) && !pc.Finished? && Due(log, m, pc) && (t.ThenHandle? ==> KnowsAll(w, t.rest))
    case Filter(ms, i, pc, _, parsed) =>
      KnowsAll(w, ms) && KnowsAll(w, parsed) && i < |ms| && InGate(pc) && Due(log, ms[i], pc)
    case MarkAll(ms, parsed, k) => KnowsAll(w, ms) && KnowsAll(w, parsed) && k < |parsed|
    case Batch(ms, parsed) => KnowsAll(w, ms) && KnowsAll(w, parsed)
    case _ => true
  }

  ghost predicate SafeSlot(w: World, log: seq<Entry>, s: Slot) {
    s.Delivering? ==> forall i :: 0 <= i < |s.children| ==>
      Knows(w, s.children[i].m) && (s.children[i].pc.DAck? ==> Explained(log, s.children[i].m))
  }

  ghost predicate AckedExplained(w: World, log: seq<Entry>) {
    forall id :: id in w.acked && id in w.entries ==> Explained(log, w.entries[id])
  }

  ghost predicate SafeNode(n: Node) {
    WorldOk(n.world) && AckedExplained(n.world, n.log) && SafeSlot(n.world, n.log, n.slot)
  }

  ghost predicate Safe(s: Sys) { SafeNode(s.node) && SafeMain(s.node.world, s.node.log, s.main) }

  // ---- the pending list ----

  lemma {:induction false} KeepIn(pel: seq<nat>, gone: set<nat>, id: nat)
    ensures id in Keep(pel, gone) <==> id in pel && id !in gone
  {
    if pel != [] { KeepIn(pel[1..], gone, id); }
  }

  lemma {:induction false} KeepSorted(pel: seq<nat>, gone: set<nat>)
    requires forall i, j :: 0 <= i < j < |pel| ==> pel[i] < pel[j]
    ensures forall i, j :: 0 <= i < j < |Keep(pel, gone)| ==> Keep(pel, gone)[i] < Keep(pel, gone)[j]
  {
    if pel != [] {
      var rest := Keep(pel[1..], gone);
      KeepSorted(pel[1..], gone);
      forall k | 0 <= k < |rest| ensures pel[0] < rest[k] {
        KeepIn(pel[1..], gone, rest[k]);
        assert rest[k] in rest;
        var i :| 0 <= i < |pel[1..]| && pel[1..][i] == rest[k];
        assert pel[0] < pel[i + 1];
      }
    }
  }

  lemma PerformOk(w: World, call: Call, a: Answer)
    requires WorldOk(w) && (call.Ack? ==> call.id in w.entries)
    ensures WorldOk(Perform(w, call, a)) && Perform(w, call, a).entries == w.entries
  {
    if call.Ack? {
      KeepSorted(w.pel, {call.id});
      forall id ensures id in Keep(w.pel, {call.id}) <==> id in w.pel && id != call.id {
        KeepIn(w.pel, {call.id}, id);
      }
    }
  }

  /** Reading new entries only extends the world. */
  ghost predicate Extends(w: World, w1: World) {
    && (forall id :: id in w.entries ==> id in w1.entries && w1.entries[id] == w.entries[id])
    && w1.acked == w.acked && w1.status == w.status && w1.cancels == w.cancels && w1.inbox == w.inbox
    && w1.trimmed == w.trimmed
  }

  lemma {:induction false} DeliverOk(w: World, ms: seq<Message>)
    requires WorldOk(w) && Fresh(w, ms)
    ensures WorldOk(Deliver(w, ms)) && Extends(w, Deliver(w, ms)) && KnowsAll(Deliver(w, ms), ms)
    ensures forall id :: id in w.pel ==> id in Deliver(w, ms).pel
    ensures forall i :: 0 <= i < |ms| ==> ms[i].id in Deliver(w, ms).pel
    decreases |ms|
  {
    if ms != [] {
      var w1 := w.(entries := w.entries[ms[0].id := ms[0]], last := ms[0].id, pel := w.pel + [ms[0].id]);
      forall i, j | 0 <= i < j < |w1.pel| ensures w1.pel[i] < w1.pel[j] {
        if j == |w.pel| { assert w.pel[i] in w.pel; }
      }
      assert WorldOk(w1);
      assert w1.pel[|w.pel|] == ms[0].id;
      DeliverOk(w1, ms[1..]);
      assert Knows(w1, ms[0]);
      forall i | 0 <= i < |ms| ensures Knows(Deliver(w, ms), ms[i]) && ms[i].id in Deliver(w, ms).pel {
        if i > 0 { assert ms[i] == ms[1..][i - 1]; }
      }
    }
  }

  // ---- explanations only accumulate ----

  lemma ExplainedMore(log: seq<Entry>, es: seq<Entry>, m: Message)
    requires Explained(log, m)
    ensures Explained(log + es, m)
  {
    var r :| Explains(log, m, r);
    forall i | For(log, i, m.id)
      ensures For(log + es, i, m.id) && (log + es)[i] == log[i] && (log + es)[..i] == log[..i] {}
    assert Explains(log + es, m, r);
  }

  lemma DueMore(log: seq<Entry>, es: seq<Entry>, m: Message, pc: Pc)
    requires Due(log, m, pc)
    ensures Due(log + es, m, pc)
  {
    if pc.AckEarly? || pc.FinalAck? { ExplainedMore(log, es, m); }
    if i :| For(log, i, m.id) && log[i].got.Err? { assert For(log + es, i, m.id); }
  }

  lemma SlotMore(w: World, w1: World, log: seq<Entry>, es: seq<Entry>, s: Slot)
    requires SafeSlot(w, log, s)
    requires forall id :: id in w.entries ==> id in w1.entries && w1.entries[id] == w.entries[id]
    ensures SafeSlot(w1, log + es, s)
  {
    if s.Delivering? {
      forall i | 0 <= i < |s.children| && s.children[i].pc.DAck? ensures Explained(log + es, s.children[i].m) {
        ExplainedMore(log, es, s.children[i].m);
      }
    }
  }

  lemma MainMore(w: World, w1: World, log: seq<Entry>, es: seq<Entry>, main: Main)
    requires SafeMain(w, log, main)
    requires forall id :: id in w.entries ==> id in w1.entries && w1.entries[id] == w.entries[id]
    ensures SafeMain(w1, log + es, main)
  {
    if main.Handle? { DueMore(log, es, main.m, main.pc); }
    if main.Filter? { DueMore(log, es, main.ms[main.i], main.pc); }
  }

  lemma AckedMore(w: World, log: seq<Entry>, es: seq<Entry>)
    requires AckedExplained(w, log)
    ensures AckedExplained(w, log + es)
  {
    forall id | id in w.acked && id in w.entries ensures Explained(log + es, w.entries[id]) {
      ExplainedMore(log, es, w.entries[id]);
    }
  }

  lemma AckedExtends(w: World, w1: World, log: seq<Entry>)
    requires AckedExplained(w, log) && WorldOk(w) && Extends(w, w1)
    ensures AckedExplained(w1, log)
  {
    forall id | id in w1.acked && id in w1.entries ensures Explained(log, w1.entries[id]) {
      assert id in w.entries;
    }
  }

  /** Any call keeps a node safe if an acknowledgement is explained. */
  lemma CallEffectSafe(n: Node, m: Message, call: Call, a: Answer)
    requires SafeNode(n) && Knows(n.world, m)
    requires call.Ack? ==> call.id == m.id && Explained(n.log, m)
    ensures SafeNode(CallEffect(n, m.id, call, a)) && CallEffect(n, m.id, call, a).world.entries == n.world.entries
  {
    var es := [Entry(m.id, call, Observe(n.world, call, a))];
    PerformOk(n.world, call, a);
    SlotMore(n.world, Perform(n.world, call, a), n.log, es, n.slot);
    AckedMore(n.world, n.log, es);
    ExplainedIf(n.log, es, m);
  }

  lemma ExplainedIf(log: seq<Entry>, es: seq<Entry>, m: Message)
    ensures Explained(log, m) ==> Explained(log + es, m)
  {
    if Explained(log, m) { ExplainedMore(log, es, m); }
  }

  /** The reply that leads to an acknowledgement is its reason. */
  lemma DueAfter(log: seq<Entry>, m: Message, pc: Pc, g: Got)
    requires Due(log, m, pc) && !pc.Finished?
    ensures Due(log + [Entry(m.id, CallAt(m, pc), g)], m, Advance(m, pc, g))
  {
    var e := Entry(m.id, CallAt(m, pc), g);
    var log1 := log + [e];
    var k := |log|;
    assert For(log1, k, m.id) && log1[k] == e && log1[..k] == log;
    var next := Advance(m, pc, g);
    if next.AckEarly? {
      if pc.AskStatus? { assert Explains(log1, m, AlreadyTerminal); }
      else { assert Explains(log1, m, CancelWritten); }
    } else if next.FinalAck? {
      if g == Err(ForcedCancel) { assert Explains(log1, m, Forced); }
      else if pc.AskInHandler? { assert Explains(log1, m, PollRaisedInHandler); }
      else if pc.MarkCancelled? { assert Explains(log1, m, CancelWritten); }
      else if pc.MarkFailed? { assert Explains(log1, m, FailedWriteRaised); }
      else { assert Explains(log1, m, WebhookTried); }
    }
  }

  // ---- one step ----

  lemma StartDue(log: seq<Entry>, m: Message)
    ensures Due(log, m, Start(m)) && InGate(Start(m))
  {
    if !m.WellAddressed() { assert Explains(log, m, MissingField); }
  }

  lemma HandleNextSafe(n: Node, t: Then)
    requires SafeNode(n) && (t.ThenHandle? ==> KnowsAll(n.world, t.rest))
    ensures Safe(HandleNext(n, t))
  {
    if t.ThenHandle? && t.rest != [] {
      StartDue(n.log, t.rest[0]);
      assert Knows(n.world, t.rest[0]);
    }
  }

  lemma EnterFilterSafe(n: Node, ms: seq<Message>, i: nat, parsed: seq<Message>)
    requires SafeNode(n) && KnowsAll(n.world, ms) && KnowsAll(n.world, parsed)
    ensures Safe(EnterFilter(n, ms, i, parsed))
  {
    if i < |ms| { StartDue(n.log, ms[i]); }
  }

  lemma AckIsDue(log: seq<Entry>, m: Message, pc: Pc)
    requires Due(log, m, pc) && !pc.Finished?
    ensures CallAt(m, pc).Ack? ==> CallAt(m, pc).id == m.id && Explained(log, m)
  {
  }

  lemma ThrowSafe(n: Node, inLoop: bool, f: Fault)
    requires SafeNode(n)
    ensures Safe(Throw(n, inLoop, f)) && Safe(Interrupt(n, f))
  {
    hide WorldOk, AckedExplained, SafeSlot, Backoff;
  }

  lemma ReplySafe(n: Node, m: Message, pc: Pc, a: Answer)
    requires SafeNode(n) && Knows(n.world, m) && Due(n.log, m, pc) && !pc.Finished?
    ensures var n1 := CallEffect(n, m.id, CallAt(m, pc), a);
      SafeNode(n1) && n1.world.entries == n.world.entries && Due(n1.log, m, Advance(m, pc, Seen(n, m, pc, a)))
  {
    AckIsDue(n.log, m, pc);
    CallEffectSafe(n, m, CallAt(m, pc), a);
    DueAfter(n.log, m, pc, Seen(n, m, pc, a));
  }

  lemma HandleGotoSafe(n: Node, m: Message, next: Pc, hist: seq<Entry>, t: Then)
    requires SafeNode(n) && Knows(n.world, m) && Due(n.log, m, next)
    requires t.ThenHandle? ==> KnowsAll(n.world, t.rest)
    ensures Safe(HandleGoto(n, m, next, hist, t))
  {
    if next == Finished(Return) { HandleNextSafe(n, t); }
    else if next.Finished? { ThrowSafe(n, InLoop(t), next.exit.fault); }
  }

  lemma HandleStepSafe(n: Node, m: Message, pc: Pc, hist: seq<Entry>, t: Then, a: Answer)
    requires Safe(Sys(n, Handle(m, pc, hist, t)))
    ensures Safe(HandleStep(n, m, pc, hist, t, a))
  {
    ReplySafe(n, m, pc, a);
    hide WorldOk, AckedExplained, SafeSlot, Due, Advance, CallAt, Observe, HandleGoto, Perform;
    var g := Seen(n, m, pc, a);
    HandleGotoSafe(AfterReply(n, m, pc, a), m, Advance(m, pc, g), hist + [Entry(m.id, CallAt(m, pc), g)], t);
  }

  lemma FilterGotoSafe(n: Node, ms: seq<Message>, i: nat, next: Pc, hist: seq<Entry>, parsed: seq<Message>)
    requires SafeNode(n) && KnowsAll(n.world, ms) && KnowsAll(n.world, parsed) && i < |ms| && Due(n.log, ms[i], next)
    requires InGate(next) || next.MarkExecuting? || next.Finished?
    requires next.MarkExecuting? && ms[i].work.None? ==> Explained(n.log, ms[i])
    ensures Safe(FilterGoto(n, ms, i, next, hist, parsed))
  {
    if next.MarkExecuting? && ms[i].work.Some? { EnterFilterSafe(n, ms, i + 1, parsed + [ms[i]]); }
    else if next == Finished(Return) { EnterFilterSafe(n, ms, i + 1, parsed); }
    else if next.Finished? { ThrowSafe(n, true, next.exit.fault); }
  }

  lemma PassedGate(log: seq<Entry>, m: Message, pc: Pc, g: Got)
    requires InGate(pc)
    ensures var next := Advance(m, pc, g);
      && (InGate(next) || next.MarkExecuting? || next.Finished?)
      && (next.MarkExecuting? && m.work.None? ==> Explained(log + [Entry(m.id, CallAt(m, pc), g)], m))
  {
    var log1 := log + [Entry(m.id, CallAt(m, pc), g)];
    assert For(log1, |log|, m.id);
    if Advance(m, pc, g).MarkExecuting? && m.work.None? { assert Explains(log1, m, BadWorkInBatch); }
  }

  lemma FilterStepSafe(n: Node, ms: seq<Message>, i: nat, pc: Pc, hist: seq<Entry>, parsed: seq<Message>, a: Answer)
    requires Safe(Sys(n, Filter(ms, i, pc, hist, parsed)))
    ensures Safe(FilterStep(n, ms, i, pc, hist, parsed, a))
  {
    ReplySafe(n, ms[i], pc, a);
    PassedGate(n.log, ms[i], pc, Seen(n, ms[i], pc, a));
    hide WorldOk, AckedExplained, SafeSlot, Due, Advance, CallAt, Observe, FilterGoto, Explained, Perform;
    var g := Seen(n, ms[i], pc, a);
    FilterGotoSafe(CallEffect(n, ms[i].id, CallAt(ms[i], pc), a), ms, i, Advance(ms[i], pc, g),
                   hist + [Entry(ms[i].id, CallAt(ms[i], pc), g)], parsed);
  }

  lemma ChildrenSafe(w: World, log: seq<Entry>, parsed: seq<Message>, all: seq<string>)
    requires KnowsAll(w, parsed) && |all| == |parsed|
    ensures SafeSlot(w, log, Delivering(Children(parsed, all), None))
  {
  }

  lemma LaunchSafe(n: Node, parsed: seq<Message>, es: seq<Entry>, a: Answer)
    requires SafeNode(n) && KnowsAll(n.world, parsed)
    ensures SafeNode(n.(log := n.log + es))
    ensures SafeNode(n.(log := n.log + es, slot := Delivering([], Some(OtherError)), idle := true))
    ensures a.BatchReturned? && |a.all| == |parsed| ==>
              SafeNode(n.(log := n.log + es, slot := Delivering(Children(parsed, a.all), None)))
  {
    assert SafeSlot(n.world, n.log + es, Delivering([], Some(OtherError)));
    hide WorldOk, AckedExplained, SafeSlot, Children, KnowsAll;
    if a.BatchReturned? && |a.all| == |parsed| { ChildrenSafe(n.world, n.log + es, parsed, a.all); }
    SlotMore(n.world, n.world, n.log, es, n.slot);
    AckedMore(n.world, n.log, es);
  }

  lemma BatchStepSafe(n: Node, ms: seq<Message>, parsed: seq<Message>, a: Answer)
    requires Safe(Sys(n, Batch(ms, parsed)))
    ensures Safe(BatchStep(n, ms, parsed, a))
  {
    var es := Executions(parsed, Observe(n.world, Ack(0), a));
    LaunchSafe(n, parsed, es, a);
    HandleNextSafe(n.(log := n.log + es), ThenHandle(ms));
    hide SafeNode, Executions, Children, Observe, HandleNext, KnowsAll;
  }

  lemma DispatchSafe(n: Node, ms: seq<Message>, recheck: bool)
    requires SafeNode(n) && KnowsAll(n.world, ms)
    ensures Safe(Dispatch(n, ms, recheck))
  {
    HandleNextSafe(n, ThenHandle(ms));
    EnterFilterSafe(n, ms, 0, []);
  }

  lemma LoopStepSafe(n: Node, a: Answer)
    requires SafeNode(n)
    ensures Safe(LoopStep(n, a))
  {
    hide WorldOk, SafeSlot, Backoff, Explains, Deliver;
    if (a.Read? || a.LostRead?) && Fresh(n.world, a.ms) {
      DeliverOk(n.world, a.ms);
      SlotMore(n.world, Deliver(n.world, a.ms), n.log, [], n.slot);
      assert n.log + [] == n.log;
      var n1 := n.(world := Deliver(n.world, a.ms), healthy := true, failures := 0);
      AckedExtends(n.world, n1.world, n.log);
      DispatchSafe(n1, a.ms, a.Read? && a.recheck);
    }
  }

  lemma ChildDue(log: seq<Entry>, c: Child, g: Got)
    requires c.pc.DAck? ==> Explained(log, c.m)
    requires !Over(c.pc)
    ensures DCallAt(c.m, c.counts, c.pc).Ack? ==> DCallAt(c.m, c.counts, c.pc).id == c.m.id && Explained(log, c.m)
    ensures DAdvance(c.pc, g).DAck? ==> Explained(log + [Entry(c.m.id, DCallAt(c.m, c.counts, c.pc), g)], c.m)
  {
    var log1 := log + [Entry(c.m.id, DCallAt(c.m, c.counts, c.pc), g)];
    assert For(log1, |log|, c.m.id);
    if c.pc.DMarkCancelled? { assert Explains(log1, c.m, CancelWritten); }
    if c.pc.DSend? { assert Explains(log1, c.m, WebhookTried); }
  }

  lemma SlotUpdate(w: World, log: seq<Entry>, s: Slot, i: nat, c: Child, ab: Option<Fault>)
    requires SafeSlot(w, log, s) && s.Delivering? && i < |s.children|
    requires Knows(w, c.m) && (c.pc.DAck? ==> Explained(log, c.m))
    ensures SafeSlot(w, log, Delivering(s.children[i := c], ab))
  {
  }

  lemma ChildNextSafe(n: Node, i: nat, a: Answer)
    requires SafeNode(n) && n.slot.Delivering? && i < |n.slot.children| && !Over(n.slot.children[i].pc)
    ensures SafeNode(ChildNext(n, i, a)) && ChildNext(n, i, a).world.entries == n.world.entries
    ensures n.log <= ChildNext(n, i, a).log
  {
    var c := n.slot.children[i];
    var call := DCallAt(c.m, c.counts, c.pc);
    var g := Observe(n.world, call, a);
    ChildDue(n.log, c, g);
    CallEffectSafe(n, c.m, call, a);
    hide WorldOk, AckedExplained, SafeSlot, Explained, TaskOver, DAdvance, DCallAt, Observe, Perform;
    var n1 := CallEffect(n, c.m.id, call, a);
    SlotUpdate(n1.world, n1.log, n.slot, i, Child(c.m, c.counts, DAdvance(c.pc, g), c.hist + [Entry(c.m.id, call, g)]),
               ChildNext(n, i, a).slot.aborted);
  }

  lemma FetchStepSafe(n: Node, todo: seq<nat>, inLoop: bool, a: Answer)
    requires SafeNode(n) && todo != []
    ensures Safe(FetchStep(n, todo, inLoop, a))
  {
    HandleNextSafe(n, ThenFetch(todo[1..], inLoop));
    if todo[0] in n.world.entries { StartDue(n.log, n.world.entries[todo[0]]); }
    if a.Raise? { ThrowSafe(n, inLoop, a.fault); }
  }

  lemma KillSafe(w: World, log: seq<Entry>, s: Slot)
    requires s.Delivering? && SafeSlot(w, log, s)
    ensures SafeSlot(w, log, KillAll(s))
  {
  }

  lemma AwaitSlotSafe(n: Node, ms: seq<Message>, recheck: bool, a: Answer)
    requires SafeNode(n) && KnowsAll(n.world, ms)
    ensures Safe(AwaitSlotStep(n, ms, recheck, a))
  {
    hide WorldOk, AckedExplained, SafeSlot, TaskOver, KillAll, Dispatch, Interrupt, Safe, SafeNode, KnowsAll;
    StandingSafe(n, ms, recheck);
    if n.slot.Delivering? {
      SlotSafe(n, KillAll(n.slot));
      StandingSafe(n.(slot := KillAll(n.slot), idle := true), ms, recheck);
      if n.slot.aborted.Some? { ThrowSafe(n, true, n.slot.aborted.value); }
    }
    SlotSafe(n, Empty);
    DispatchSafe(n.(slot := Empty), ms, recheck);
    TaskOverDelivering(n.slot);
  }

  lemma SlotSafe(n: Node, s: Slot)
    requires SafeNode(n) && (s == Empty || (n.slot.Delivering? && s == KillAll(n.slot)))
    ensures SafeNode(n.(slot := s)) && SafeNode(n.(slot := s, idle := true))
  {
    if n.slot.Delivering? { KillSafe(n.world, n.log, n.slot); }
    assert SafeSlot(n.world, n.log, Empty);
    hide WorldOk, AckedExplained, SafeSlot, KillAll;
  }

  /** Ended, or awaiting the slot. */
  lemma StandingSafe(n: Node, ms: seq<Message>, recheck: bool)
    requires SafeNode(n) && KnowsAll(n.world, ms)
    ensures Safe(Sys(n, Ended)) && Safe(Sys(n, AwaitSlot(ms, recheck)))
  {
    hide SafeNode;
  }

  lemma MainNextSafe(s: Sys, a: Answer)
    requires Safe(s)
    ensures Safe(MainNext(s.node, s.main, a))
  {
    hide WorldOk, AckedExplained, SafeSlot, HandleStep, FilterStep, BatchStep, LoopStep, FetchStep, AwaitSlotStep,
         Explained, Perform;
    var n := s.node;
    match s.main
    case Loop => LoopStepSafe(n, a);
    case AwaitSlot(ms, recheck) => AwaitSlotSafe(n, ms, recheck, a);
    case ListPending(inLoop) => HandleNextSafe(n, ThenFetch(Oldest(n.world.pel), inLoop));
    case Fetch(todo, inLoop) =>
      if todo != [] { FetchStepSafe(n, todo, inLoop, a); }
    case Handle(m, pc, hist, t) => HandleStepSafe(n, m, pc, hist, t, a);
    case Filter(ms, i, pc, hist, parsed) => FilterStepSafe(n, ms, i, pc, hist, parsed, a);
    case MarkAll(ms, parsed, k) => CallEffectSafe(n, parsed[k], Write(parsed[k].Job(), Executing), a);
    case Batch(ms, parsed) => BatchStepSafe(n, ms, parsed, a);
    case Sleep(_) =>
    case Ended =>
  }

  lemma NextSafe(s: Sys, act: Action)
    requires Safe(s)
    ensures Safe(Next(s, act))
  {
    var n := s.node;
    match act
    case MainStep(a) => MainNextSafe(s, a);
    case ChildStep(i, a) =>
      if n.slot.Delivering? && i < |n.slot.children| && !Over(n.slot.children[i].pc) {
        ChildNextSafe(n, i, a);
        var log1 := ChildNext(n, i, a).log;
        MainMore(n.world, ChildNext(n, i, a).world, n.log, log1[|n.log|..], s.main);
        assert n.log + log1[|n.log|..] == log1;
      }
    case CancelFlags(_) => MainMore(n.world, Next(s, act).node.world, n.log, [], s.main); assert n.log + [] == n.log;
    case Trim(_) => MainMore(n.world, Next(s, act).node.world, n.log, [], s.main); assert n.log + [] == n.log;
    case StopCalled =>
    case Restart =>
  }

  lemma {:induction false} RunSafe(s: Sys, acts: seq<Action>)
    requires Safe(s)
    ensures Safe(Run(s, acts))
    decreases |acts|
  {
    if acts != [] {
      NextSafe(s, acts[0]);
      RunSafe(Next(s, acts[0]), acts[1..]);
    }
  }

  /** In every state of every run, crashes and restarts included, a delivered
      message is pending or acknowledged and never both, and an acknowledged one
      has one of the eight reasons in the history of calls. */
  lemma DeliveredIsPendingOrExplained(canBatch: bool, status: map<JobId, State>, cancels: set<JobId>,
    acts: seq<Action>, id: nat)
    requires id in Run(Initial(canBatch, status, cancels), acts).node.world.entries
    ensures var n := Run(Initial(canBatch, status, cancels), acts).node;
      && (id in n.world.pel <==> id !in n.world.acked)
      && (id in n.world.acked ==> exists r :: Explains(n.log, n.world.entries[id], r))
  {
    RunSafe(Initial(canBatch, status, cancels), acts);
  }
}
