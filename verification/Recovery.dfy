/** Progress of `recover_pending`: without Redis failures each call removes exactly
    the oldest hundred pending entries, and an entry trimmed from the stream is
    pending for ever. */
module Recovery {
  import opened Options
  import opened Wire
  import opened Handling
  import opened Consumer
  import opened CrashSafety
  import opened LoopSafety

  function Fewer(n: nat): nat { if n < RECOVER_COUNT then n else RECOVER_COUNT }

  /** No Redis call fails and nobody cancels the task; the runner, its cancel hook
      and the webhook may still raise ordinary exceptions. */
  ghost predicate RedisFine(s: Sys, act: Action) {
    match act
    case MainStep(a) =>
      && !a.LostRead?
      && (a.Raise? ==> a.fault != ForcedCancel && s.main.Handle?
                       && (s.main.pc.Waiting? || s.main.pc.SendResult? || s.main.pc.SendError?
                           || s.main.pc.StopRunner? || s.main.pc.ReapRunner?))
    case Trim(_) => false
    case Restart => false
    case _ => true
  }

  ghost predicate InStream(w: World, ids: seq<nat>) {
    forall i :: 0 <= i < |ids| ==> ids[i] in w.entries && ids[i] !in w.trimmed && w.entries[ids[i]].id == ids[i]
  }

  ghost predicate Increasing(ids: seq<nat>) { forall i, j :: 0 <= i < j < |ids| ==> ids[i] < ids[j] }

  /** `k` of the entries listed by XPENDING are through. */
  ghost predicate Progress(all: seq<nat>, k: nat, s: Sys) {
    && k <= Fewer(|all|)
    && s.node.world.pel == all[k..]
    && InStream(s.node.world, all)
    && s.node.slot.Empty?
    && match s.main
       case Fetch(todo, _) => k < Fewer(|all|) && todo == all[k..Fewer(|all|)]
       case Handle(m, pc, _, t) =>
         && k < Fewer(|all|) && m.id == all[k] && t.ThenFetch? && t.todo == all[k + 1..Fewer(|all|)]
         && !pc.Finished? && (pc.FinalAck? ==> pc.exit.Return?)
       case Loop => k == Fewer(|all|)
       case Ended => k == Fewer(|all|)
       case _ => false
  }

  lemma {:induction false} KeepAll(ids: seq<nat>, x: nat)
    requires x !in ids
    ensures Keep(ids, {x}) == ids
  {
    if ids != [] { KeepAll(ids[1..], x); }
  }

  lemma AckOldest(all: seq<nat>, k: nat)
    requires Increasing(all) && k < |all|
    ensures Keep(all[k..], {all[k]}) == all[k + 1..]
  {
    assert all[k..][0] == all[k] && all[k..][1..] == all[k + 1..];
    var rest := all[k + 1..];
    assert forall i :: 0 <= i < |rest| ==> rest[i] == all[k + 1 + i];
    KeepAll(all[k + 1..], all[k]);
  }

  /** The next entry of the list, or the end of the call. */
  lemma NextProgress(all: seq<nat>, k: nat, n: Node, inLoop: bool)
    requires k <= Fewer(|all|) && n.world.pel == all[k..] && InStream(n.world, all) && n.slot.Empty?
    ensures Progress(all, k, HandleNext(n, ThenFetch(all[k..Fewer(|all|)], inLoop)))
  {
    hide InStream;
  }

  lemma FetchProgress(all: seq<nat>, k: nat, s: Sys, a: Answer)
    requires Progress(all, k, s) && s.main.Fetch? && !a.Raise?
    ensures Progress(all, k, MainNext(s.node, s.main, a))
  {
    assert s.main.todo[0] == all[k] && s.main.todo[1..] == all[k + 1..Fewer(|all|)];
  }

  lemma GotoProgress(all: seq<nat>, k: nat, n: Node, m: Message, next: Pc, hist: seq<Entry>, t: Then)
    requires k < Fewer(|all|) && InStream(n.world, all) && n.slot.Empty?
    requires m.id == all[k] && t.ThenFetch? && t.todo == all[k + 1..Fewer(|all|)]
    requires next.FinalAck? || next.Finished? ==> next.exit.Return?
    requires n.world.pel == if next.Finished? then all[k + 1..] else all[k..]
    ensures Progress(all, if next.Finished? then k + 1 else k, HandleGoto(n, m, next, hist, t))
  {
    hide InStream, HandleNext;
    if next.Finished? { NextProgress(all, k + 1, n, t.inLoop); }
  }

  /** Without Redis failures no exception leaves a handling, and only its last call
      is an acknowledgement. */
  lemma FineAdvance(s: Sys, a: Answer)
    requires s.main.Handle? && RedisFine(s, MainStep(a)) && !s.main.pc.Finished?
    requires s.main.pc.FinalAck? ==> s.main.pc.exit.Return?
    ensures var next := Advance(s.main.m, s.main.pc, Seen(s.node, s.main.m, s.main.pc, a));
      && (next.FinalAck? || next.Finished? ==> next.exit.Return?)
      && (next.Finished? <==> CallAt(s.main.m, s.main.pc).Ack?)
      && (CallAt(s.main.m, s.main.pc).Ack? ==> CallAt(s.main.m, s.main.pc) == Ack(s.main.m.id) && !a.Raise?)
  {
  }

  lemma HandleProgress(all: seq<nat>, k: nat, s: Sys, a: Answer)
    requires Progress(all, k, s) && Increasing(all) && s.main.Handle? && RedisFine(s, MainStep(a))
    ensures var s1 := Next(s, MainStep(a)); Progress(all, k, s1) || Progress(all, k + 1, s1)
  {
    var (n, m, pc) := (s.node, s.main.m, s.main.pc);
    var call := CallAt(m, pc);
    var g := Seen(n, m, pc, a);
    FineAdvance(s, a);
    AckOldest(all, k);
    EntriesStay(n.world, call, a);
    var n1 := AfterReply(n, m, pc, a);
    assert n1.world.pel == if call.Ack? then all[k + 1..] else all[k..];
    InStreamSame(n.world, n1.world, all);
    hide Advance, CallAt, Observe, Perform, HandleGoto, InStream, Increasing;
    GotoProgress(all, k, n1, m, Advance(m, pc, g), s.main.hist + [Entry(m.id, call, g)], s.main.then_);
  }

  lemma EntriesStay(w: World, call: Call, a: Answer)
    ensures var w1 := Perform(w, call, a); w1.entries == w.entries && w1.trimmed == w.trimmed
    ensures !call.Ack? ==> Perform(w, call, a).pel == w.pel
  {
  }

  lemma InStreamSame(w: World, w1: World, ids: seq<nat>)
    requires InStream(w, ids) && w1.entries == w.entries && w1.trimmed == w.trimmed
    ensures InStream(w1, ids)
  {
  }

  lemma StepProgress(all: seq<nat>, k: nat, s: Sys, act: Action)
    requires Progress(all, k, s) && Increasing(all) && RedisFine(s, act) && (s.main.Fetch? || s.main.Handle?)
    ensures Progress(all, k, Next(s, act)) || Progress(all, k + 1, Next(s, act))
  {
    if act.MainStep? {
      if s.main.Fetch? { FetchProgress(all, k, s, act.a); } else { HandleProgress(all, k, s, act.a); }
    } else {
      InStreamSame(s.node.world, Next(s, act).node.world, all);
    }
  }

  /** A run of one `recover_pending` call up to its return. */
  ghost predicate RecoverRun(s: Sys, acts: seq<Action>)
    decreases |acts|
  {
    acts == [] || ((s.main.Fetch? || s.main.Handle?) && RedisFine(s, acts[0])
      && RecoverRun(Next(s, acts[0]), acts[1..]))
  }

  lemma {:induction false} RunProgress(all: seq<nat>, k: nat, s: Sys, acts: seq<Action>) returns (k1: nat)
    requires Progress(all, k, s) && Increasing(all) && RecoverRun(s, acts)
    ensures Progress(all, k1, Run(s, acts))
    decreases |acts|
  {
    k1 := k;
    if acts != [] {
      StepProgress(all, k, s, acts[0]);
      var s1 := Next(s, acts[0]);
      hide Progress, Next, Increasing;
      k1 := RunProgress(all, if Progress(all, k, s1) then k else k + 1, s1, acts[1..]);
    }
  }

  /** A `recover_pending` call that starts with all its pending entries still in the
      stream and returns without a Redis failure has removed exactly the oldest
      min(100, size) entries from the pending list. */
  lemma RecoverRemovesOldest(n: Node, inLoop: bool, acts: seq<Action>)
    requires WorldOk(n.world) && n.slot.Empty? && InStream(n.world, n.world.pel)
    requires var s := MainNext(n, ListPending(inLoop), Fine); RecoverRun(s, acts) && !Working(Run(s, acts).main)
    ensures var w := Run(MainNext(n, ListPending(inLoop), Fine), acts).node.world;
      w.pel == n.world.pel[Fewer(|n.world.pel|)..] && InStream(w, w.pel)
  {
    var all := n.world.pel;
    var s := MainNext(n, ListPending(inLoop), Fine);
    CallStarts(n, inLoop);
    hide MainNext, Progress, Run, RecoverRun, InStream, Increasing;
    var k := RunProgress(all, 0, s, acts);
    CallEnds(all, k, Run(s, acts));
  }

  lemma CallStarts(n: Node, inLoop: bool)
    requires WorldOk(n.world) && n.slot.Empty? && InStream(n.world, n.world.pel)
    ensures Increasing(n.world.pel) && Progress(n.world.pel, 0, MainNext(n, ListPending(inLoop), Fine))
  {
    var all := n.world.pel;
    assert all[0..] == all && Oldest(all) == all[0..Fewer(|all|)];
    NextProgress(all, 0, n, inLoop);
    hide Progress, InStream, HandleNext;
  }

  lemma CallEnds(all: seq<nat>, k: nat, s: Sys)
    requires Progress(all, k, s) && !Working(s.main)
    ensures s.node.world.pel == all[Fewer(|all|)..] && InStream(s.node.world, s.node.world.pel)
  {
    InStreamSuffix(s.node.world, all, k);
    hide InStream;
  }

  lemma InStreamSuffix(w: World, ids: seq<nat>, k: nat)
    requires InStream(w, ids) && k <= |ids|
    ensures InStream(w, ids[k..])
  {
    assert forall i :: 0 <= i < |ids[k..]| ==> ids[k..][i] == ids[k + i];
  }

  /** How far a recovery call still is from returning. */
  function Rank(main: Main): nat {
    match main
    case Fetch(todo, _) => 30 * |todo|
    case Handle(_, pc, _, t) => (if t.ThenFetch? then 30 * |t.todo| else 0) + PcRank(pc)
    case _ => 0
  }

  function PcRank(pc: Pc): nat {
    match pc
    case AskStatus => 20
    case AskCancel => 19
    case MarkBefore => 18
    case AckEarly => 1
    case MarkExecuting => 17
    case Waiting => 16
    case AskWhileRunning => 16
    case AskReturned(_) => 15
    case AskAfterRun(_) => 14
    case MarkCompleted(_) => 13
    case AskBeforeSend(_) => 12
    case SendResult(_) => 11
    case AskInHandler => 10
    case MarkFailed => 9
    case SendError => 8
    case StopRunner => 7
    case ReapRunner => 6
    case MarkCancelled => 5
    case FinalAck(_) => 2
    case Finished(_) => 0
  }

  lemma PcRankDrops(m: Message, pc: Pc, g: Got)
    requires !pc.Finished?
    ensures var next := Advance(m, pc, g);
      PcRank(next) < PcRank(pc) || (pc.Waiting? && next.AskWhileRunning?) || (pc.AskWhileRunning? && next.Waiting?)
  {
  }

  /** Every reply brings the call nearer to its return, except for polling while the
      runner is busy: with a terminating runner each call returns. */
  lemma RecoveryAdvances(all: seq<nat>, k: nat, s: Sys, a: Answer)
    requires Progress(all, k, s) && Increasing(all) && RedisFine(s, MainStep(a)) && (s.main.Fetch? || s.main.Handle?)
    ensures var main1 := Next(s, MainStep(a)).main;
      || Rank(main1) < Rank(s.main)
      || (s.main.Handle? && main1.Handle? && s.main.pc.Waiting? && main1.pc.AskWhileRunning?
           && Rank(main1) == Rank(s.main))
      || (s.main.Handle? && main1.Handle? && s.main.pc.AskWhileRunning? && main1.pc.Waiting?
           && Rank(main1) == Rank(s.main))
  {
    if s.main.Handle? {
      FineAdvance(s, a);
      PcRankDrops(s.main.m, s.main.pc, Seen(s.node, s.main.m, s.main.pc, a));
      hide Advance, CallAt, Observe, Perform, PcRank;
      var next := Advance(s.main.m, s.main.pc, Seen(s.node, s.main.m, s.main.pc, a));
      assert PcRank(s.main.pc) > 0 by { PcRankPositive(s.main.pc); }
    } else {
      assert PcRank(AskStatus) <= 20 && PcRank(AckEarly) <= 20;
    }
  }

  lemma PcRankPositive(pc: Pc)
    requires !pc.Finished?
    ensures PcRank(pc) > 0
  {
  }

  // ---- a whole call returns ----

  function MainSteps(acts: seq<Action>): nat
    decreases |acts|
  {
    if acts == [] then 0 else (if acts[0].MainStep? then 1 else 0) + MainSteps(acts[1..])
  }

  ghost predicate BusyReply(s: Sys, act: Action) {
    act.MainStep? && s.main.Handle? && s.main.pc.Waiting? && Next(s, act).main.Handle?
      && Next(s, act).main.pc.AskWhileRunning?
  }

  /** How often the runner was found still at work. */
  ghost function BusyReplies(s: Sys, acts: seq<Action>): nat
    decreases |acts|
  {
    if acts == [] then 0
    else (if BusyReply(s, acts[0]) then 1 else 0) + BusyReplies(Next(s, acts[0]), acts[1..])
  }

  ghost function Polling(main: Main): nat { if main.Handle? && main.pc.AskWhileRunning? then 1 else 0 }

  /** One reply of the call costs rank, or answers a busy runner. */
  lemma StepCost(all: seq<nat>, k: nat, s: Sys, act: Action)
    requires Progress(all, k, s) && Increasing(all) && RedisFine(s, act) && (s.main.Fetch? || s.main.Handle?)
    ensures (if act.MainStep? then 1 else 0) + Rank(Next(s, act).main) + Polling(Next(s, act).main)
         <= Rank(s.main) + Polling(s.main) + (if BusyReply(s, act) then 2 else 0)
  {
    if act.MainStep? {
      RecoveryAdvances(all, k, s, act.a);
      PollingStep(s, act.a);
    }
    hide Rank, MainNext, Progress;
  }

  lemma PollingStep(s: Sys, a: Answer)
    requires s.main.Fetch? || (s.main.Handle? && !s.main.pc.Finished?)
    ensures var main1 := Next(s, MainStep(a)).main;
      main1.Handle? && main1.pc.AskWhileRunning? ==> s.main.Handle? && s.main.pc.Waiting?
  {
    hide CallAt, Observe, Perform, Backoff;
  }

  lemma {:induction false} RunCost(all: seq<nat>, k: nat, s: Sys, acts: seq<Action>)
    requires Progress(all, k, s) && Increasing(all) && RecoverRun(s, acts)
    ensures MainSteps(acts) <= Rank(s.main) + Polling(s.main) + 2 * BusyReplies(s, acts)
    decreases |acts|
  {
    if acts != [] {
      StepCost(all, k, s, acts[0]);
      StepProgress(all, k, s, acts[0]);
      var s1 := Next(s, acts[0]);
      hide Progress, Next, Increasing, Rank, Polling, BusyReply, RedisFine;
      RunCost(all, if Progress(all, k, s1) then k else k + 1, s1, acts[1..]);
    }
  }

  /** Every call returns: it gets at most 30 replies for each of its entries, and two more each time the
      runner is found still at work. */
  lemma RecoveryReturns(n: Node, inLoop: bool, acts: seq<Action>)
    requires WorldOk(n.world) && n.slot.Empty? && InStream(n.world, n.world.pel)
    requires RecoverRun(MainNext(n, ListPending(inLoop), Fine), acts)
    ensures MainSteps(acts) <= 30 * Fewer(|n.world.pel|) + 2 * BusyReplies(MainNext(n, ListPending(inLoop), Fine), acts)
  {
    var all := n.world.pel;
    var s := MainNext(n, ListPending(inLoop), Fine);
    CallStarts(n, inLoop);
    StartCost(all, s);
    hide RecoverRun, BusyReplies, MainSteps, Progress, MainNext, InStream, Rank, Polling;
    RunCost(all, 0, s, acts);
  }

  lemma StartCost(all: seq<nat>, s: Sys)
    requires Progress(all, 0, s) && !s.main.Handle?
    ensures Rank(s.main) <= 30 * Fewer(|all|) && Polling(s.main) == 0
  {
    hide InStream;
  }

  // ---- several calls ----

  /** `recover_pending` is entered by a fresh process, or by an empty read when a recheck is due. */
  ghost predicate Opens(s: Sys, act: Action) {
    act.Restart? || (act == MainStep(Read([], true)) && s.main.Loop? && s.node.slot.Empty?)
  }

  /** One call from its entry to its return. */
  ghost predicate OneCall(s: Sys, acts: seq<Action>) {
    && |acts| >= 2 && Opens(s, acts[0]) && acts[1] == MainStep(Fine)
    && var s2 := Next(Next(s, acts[0]), acts[1]);
       RecoverRun(s2, acts[2..]) && !Working(Run(s2, acts[2..]).main)
  }

  ghost predicate Calls(s: Sys, calls: seq<seq<Action>>)
    decreases |calls|
  {
    calls == [] || (OneCall(s, calls[0]) && Calls(Run(s, calls[0]), calls[1..]))
  }

  function Flatten(calls: seq<seq<Action>>): seq<Action>
    decreases |calls|
  {
    if calls == [] then [] else calls[0] + Flatten(calls[1..])
  }

  lemma {:induction false} RunConcat(s: Sys, a: seq<Action>, b: seq<Action>)
    ensures Run(s, a + b) == Run(Run(s, a), b)
    decreases |a|
  {
    if a == [] {
      assert a + b == b;
    } else {
      assert (a + b)[0] == a[0] && (a + b)[1..] == a[1..] + b;
      hide Next;
      RunConcat(Next(s, a[0]), a[1..], b);
    }
  }

  lemma OpenedBy(s: Sys, act: Action)
    requires Opens(s, act)
    ensures var s1 := Next(s, act); s1.main.ListPending? && s1.node.world == s.node.world && s1.node.slot.Empty?
  {
  }

  lemma CallEffects(s: Sys, acts: seq<Action>)
    requires Safe(s) && InStream(s.node.world, s.node.world.pel) && OneCall(s, acts)
    ensures var s1 := Run(s, acts); var (old_, new_) := (s.node.world.pel, s1.node.world.pel);
      Safe(s1) && new_ == old_[Fewer(|old_|)..] && InStream(s1.node.world, new_)
  {
    var s1 := Next(s, acts[0]);
    OpenedBy(s, acts[0]);
    RunSafe(s, acts);
    assert acts[1..][0] == acts[1] && acts[1..][1..] == acts[2..];
    assert Run(s, acts) == Run(Next(s1, acts[1]), acts[2..]);
    hide Run, RecoverRun, InStream, Opens;
    RecoverRemovesOldest(s1.node, s1.main.inLoop, acts[2..]);
  }

  /** n calls in a row, with no read of messages in between, remove exactly the oldest min(100 n, size) entries.
      So they empty the list if and only if it had at most 100 n: the number needed is size / 100 rounded up. */
  lemma {:induction false} RecoveryCalls(s: Sys, calls: seq<seq<Action>>)
    requires Safe(s) && InStream(s.node.world, s.node.world.pel) && Calls(s, calls)
    ensures var (old_, new_) := (s.node.world.pel, Run(s, Flatten(calls)).node.world.pel);
      && new_ == old_[if |old_| <= 100 * |calls| then |old_| else 100 * |calls|..]
      && (new_ == [] <==> |old_| <= 100 * |calls|)
    decreases |calls|
  {
    if calls != [] {
      var s1 := Run(s, calls[0]);
      CallEffects(s, calls[0]);
      RunConcat(s, calls[0], Flatten(calls[1..]));
      hide Run, OneCall, InStream, Safe;
      RecoveryCalls(s1, calls[1..]);
      assert Flatten(calls) == calls[0] + Flatten(calls[1..]);
      hide Flatten, Calls;
      DropTwice(s.node.world.pel, |calls|);
    }
  }

  lemma DropTwice(pel: seq<nat>, n: nat)
    requires n >= 1
    ensures var p1 := pel[Fewer(|pel|)..];
      p1[if |p1| <= 100 * (n - 1) then |p1| else 100 * (n - 1)..] == pel[if |pel| <= 100 * n then |pel| else 100 * n..]
  {
  }

  // ---- entries trimmed from the stream ----

  ghost predicate NoId(ms: seq<Message>, id: nat) { forall i :: 0 <= i < |ms| ==> ms[i].id != id }

  ghost predicate NotHeld(main: Main, id: nat) {
    match main
    case AwaitSlot(ms, _) => NoId(ms, id)
    case Handle(m, _, _, t) => m.id != id && (t.ThenHandle? ==> NoId(t.rest, id))
    case Filter(ms, _, _, _, parsed) => NoId(ms, id) && NoId(parsed, id)
    case MarkAll(ms, parsed, _) => NoId(ms, id) && NoId(parsed, id)
    case Batch(ms, parsed) => NoId(ms, id) && NoId(parsed, id)
    case _ => true
  }

  ghost predicate NotDelivered(s: Slot, id: nat) {
    s.Delivering? ==> forall i :: 0 <= i < |s.children| && s.children[i].m.id == id ==> Over(s.children[i].pc)
  }

  /** Pending, no longer in the stream, and not in flight. */
  ghost predicate Lost(s: Sys, id: nat) {
    && id in s.node.world.pel && id in s.node.world.trimmed
    && NotHeld(s.main, id) && NotDelivered(s.node.slot, id)
  }

  lemma CallLeaves(w: World, call: Call, a: Answer, id: nat)
    requires id in w.pel && id in w.trimmed && (call.Ack? ==> call.id != id)
    ensures id in Perform(w, call, a).pel && id in Perform(w, call, a).trimmed
  {
    if call.Ack? { KeepIn(w.pel, {call.id}, id); }
  }

  lemma AckOwn(m: Message, pc: Pc)
    ensures CallAt(m, pc).Ack? ==> CallAt(m, pc).id == m.id
  {
  }

  lemma GotoLost(n: Node, m: Message, next: Pc, hist: seq<Entry>, t: Then, id: nat)
    requires m.id != id && (t.ThenHandle? ==> NoId(t.rest, id))
    ensures var s := HandleGoto(n, m, next, hist, t);
      NotHeld(s.main, id) && s.node.world == n.world && s.node.slot == n.slot
  {
    hide Backoff;
  }

  lemma FilterGotoLost(n: Node, ms: seq<Message>, i: nat, next: Pc, hist: seq<Entry>, parsed: seq<Message>, id: nat)
    requires i < |ms| && NoId(ms, id) && NoId(parsed, id)
    ensures var s := FilterGoto(n, ms, i, next, hist, parsed);
      NotHeld(s.main, id) && s.node.world == n.world && s.node.slot == n.slot
  {
    hide Backoff;
  }

  lemma StepLost(s: Sys, a: Answer, id: nat)
    requires Lost(s, id) && (s.main.Handle? || s.main.Filter?)
    ensures Lost(Next(s, MainStep(a)), id)
  {
    var n := s.node;
    hide CallAt, Advance, Observe, Perform, NotDelivered, Hard, HandleGoto, FilterGoto;
    if s.main.Handle? {
      var (m, pc) := (s.main.m, s.main.pc);
      var g := Seen(n, m, pc, a);
      AckOwn(m, pc);
      CallLeaves(n.world, CallAt(m, pc), a, id);
      GotoLost(AfterReply(n, m, pc, a), m, Advance(m, pc, g), s.main.hist + [Entry(m.id, CallAt(m, pc), g)],
        s.main.then_, id);
    } else if s.main.i < |s.main.ms| {
      var (m, pc) := (s.main.ms[s.main.i], s.main.pc);
      var g := Seen(n, m, pc, a);
      AckOwn(m, pc);
      CallLeaves(n.world, CallAt(m, pc), a, id);
      FilterGotoLost(CallEffect(n, m.id, CallAt(m, pc), a), s.main.ms, s.main.i, Advance(m, pc, g),
                     s.main.hist + [Entry(m.id, CallAt(m, pc), g)], s.main.parsed, id);
    }
  }

  lemma {:induction false} DeliverKeeps(w: World, ms: seq<Message>)
    ensures w.pel <= Deliver(w, ms).pel && Deliver(w, ms).trimmed == w.trimmed
    decreases |ms|
  {
    if ms != [] {
      DeliverKeeps(w.(entries := w.entries[ms[0].id := ms[0]], last := if ms[0].id > w.last then ms[0].id else w.last,
                      pel := w.pel + [ms[0].id]), ms[1..]);
    }
  }

  lemma DispatchLost(n: Node, ms: seq<Message>, recheck: bool, id: nat)
    requires NoId(ms, id)
    ensures NotHeld(Dispatch(n, ms, recheck).main, id) && Dispatch(n, ms, recheck).node.(idle := n.idle) == n
  {
  }

  lemma LoopLost(s: Sys, a: Answer, id: nat)
    requires Lost(s, id) && Safe(s) && s.main.Loop?
    ensures Lost(Next(s, MainStep(a)), id)
  {
    var n := s.node;
    if (a.Read? || a.LostRead?) && Fresh(n.world, a.ms) {
      FreshKeeps(n.world, a.ms, id);
      hide Deliver, Dispatch, WorldOk, NoId, Safe;
      var n1 := n.(world := Deliver(n.world, a.ms), healthy := true, failures := 0);
      if a.Read? { DispatchLost(n1, a.ms, a.recheck, id); }
    }
    hide Backoff, Deliver, Fresh, Dispatch, NotDelivered, Safe, NoId;
  }

  lemma FreshKeeps(w: World, ms: seq<Message>, id: nat)
    requires WorldOk(w) && Fresh(w, ms) && id in w.pel && id in w.trimmed
    ensures NoId(ms, id) && id in Deliver(w, ms).pel && id in Deliver(w, ms).trimmed
  {
    DeliverKeeps(w, ms);
    hide Deliver;
  }

  lemma AwaitLost(s: Sys, a: Answer, id: nat)
    requires Lost(s, id) && s.main.AwaitSlot?
    ensures Lost(Next(s, MainStep(a)), id)
  {
    if s.node.slot.Delivering? { assert NotDelivered(KillAll(s.node.slot), id); }
    assert NotDelivered(Empty, id);
    DispatchLost(s.node.(slot := Empty), s.main.ms, s.main.recheck, id);
    hide Backoff, Dispatch, TaskOver, KillAll, NotDelivered, NoId;
  }

  lemma BatchLost(s: Sys, a: Answer, id: nat)
    requires Lost(s, id) && (s.main.Batch? || s.main.MarkAll?)
    ensures Lost(Next(s, MainStep(a)), id)
  {
    var (n, parsed) := (s.node, s.main.parsed);
    if s.main.Batch? {
      if a.BatchReturned? && |a.all| == |parsed| { LaunchLost(parsed, a.all, id); }
      EmptyDelivers(id);
      hide NotDelivered, NoId;
      BatchStepLost(n, s.main.ms, parsed, a, id);
    } else if s.main.k < |parsed| {
      CallLeaves(n.world, Write(parsed[s.main.k].Job(), Executing), a, id);
    }
    hide Backoff, Perform, Observe, Executions, Children, NotDelivered, NoId, BatchStep;
  }

  lemma LaunchLost(parsed: seq<Message>, all: seq<string>, id: nat)
    requires |parsed| == |all| && NoId(parsed, id)
    ensures NotDelivered(Delivering(Children(parsed, all), None), id)
  {
  }

  lemma BatchStepLost(n: Node, ms: seq<Message>, parsed: seq<Message>, a: Answer, id: nat)
    requires id in n.world.pel && id in n.world.trimmed && NoId(ms, id) && NotDelivered(n.slot, id)
    requires NotDelivered(Delivering([], Some(OtherError)), id)
    requires a.BatchReturned? && |a.all| == |parsed| ==> NotDelivered(Delivering(Children(parsed, a.all), None), id)
    ensures Lost(BatchStep(n, ms, parsed, a), id)
  {
    hide Executions, Children, Observe, NotDelivered;
  }

  lemma ChildLost(s: Sys, i: nat, a: Answer, id: nat)
    requires Lost(s, id) && s.node.slot.Delivering? && i < |s.node.slot.children| && !Over(s.node.slot.children[i].pc)
    ensures Lost(Sys(ChildNext(s.node, i, a), s.main), id)
  {
    var c := s.node.slot.children[i];
    CallLeaves(s.node.world, DCallAt(c.m, c.counts, c.pc), a, id);
    hide Perform, Observe, TaskOver, DAdvance;
  }

  lemma FetchLost(s: Sys, a: Answer, id: nat)
    requires Lost(s, id) && Safe(s) && (s.main.Fetch? || s.main.ListPending?)
    ensures Lost(Next(s, MainStep(a)), id)
  {
    if s.main.Fetch? && s.main.todo != [] { EntryOwnId(s.node.world, s.main.todo[0]); }
    hide Backoff, NotDelivered, Safe, Oldest, NoId;
  }

  lemma EntryOwnId(w: World, id: nat)
    requires WorldOk(w)
    ensures id in w.entries ==> w.entries[id].id == id
  {
  }

  lemma NextLost(s: Sys, act: Action, id: nat)
    requires Lost(s, id) && Safe(s)
    ensures Lost(Next(s, act), id)
  {
    hide Backoff, LoopStep, AwaitSlotStep, HandleStep, FilterStep, BatchStep, MarkAllStep, FetchStep, ChildNext, Safe,
         NotDelivered;
    match act
    case MainStep(a) =>
      if s.main.Loop? { LoopLost(s, a, id); }
      else if s.main.AwaitSlot? { AwaitLost(s, a, id); }
      else if s.main.Handle? || s.main.Filter? { StepLost(s, a, id); }
      else if s.main.Batch? || s.main.MarkAll? { BatchLost(s, a, id); }
      else if s.main.Fetch? || s.main.ListPending? { FetchLost(s, a, id); }
    case ChildStep(i, a) => if Background(s.node, act) != s.node { ChildLost(s, i, a, id); }
    case Restart => assert NotDelivered(Empty, id) by { EmptyDelivers(id); }
    case _ =>
  }

  lemma EmptyDelivers(id: nat)
    ensures NotDelivered(Empty, id)
  {
  }

  /** A pending entry that has been trimmed from the stream while nothing holds it
      is never acknowledged, over any number of recoveries and restarts. */
  lemma {:induction false} TrimmedStaysPending(s: Sys, acts: seq<Action>, id: nat)
    requires Lost(s, id) && Safe(s)
    ensures id in Run(s, acts).node.world.pel
    decreases |acts|
  {
    if acts != [] {
      NextLost(s, acts[0], id);
      NextSafe(s, acts[0]);
      TrimmedStaysPending(Next(s, acts[0]), acts[1..], id);
    }
  }
}
