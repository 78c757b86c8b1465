/** Every fault-free step of the batch path, in any interleaving of the delivery
    coroutines with the loop, preserves the view the batch will end with. */
module BatchInterleaving {
  import opened Options
  import opened Wire
  import opened Handling
  import opened Consumer
  import opened BatchRefinement

  // ---- filtering ----

  /** What is left for a message whose filter reply led to `next`. */
  function AfterFilter(v: View, flags: set<JobId>, m: Message, next: Pc, run: Runner): View {
    if next.MarkExecuting? then if m.work.None? then Acked(m) else Complete(m, run(m.Task()))
    else if next.Finished? then ZERO
    else FilterRest(v, flags, m, next, run)
  }

  lemma FilterReply(n: Node, m: Message, pc: Pc, a: Answer, run: Runner)
    requires InGate(pc) && (m.WellAddressed() || pc.AckEarly?) && !a.Raise? && !a.LostRead?
    ensures var call := CallAt(m, pc); var next := Advance(m, pc, Seen(n, m, pc, a));
      && (InGate(next) || next.MarkExecuting? || next == Finished(Return))
      && (!next.AckEarly? && !next.Finished? ==> m.WellAddressed())
      && (next.MarkExecuting? ==> m.Job() !in n.world.cancels)
      && (forall j :: j in Delta(call).status ==> j == m.Job() && m.WellAddressed())
      && FilterRest(ViewOf(n.world), n.world.cancels, m, pc, run)
         == Add(Delta(call), AfterFilter(ViewOf(Perform(n.world, call, a)), n.world.cancels, m, next, run))
  {
    var call := CallAt(m, pc);
    AddZero(AfterFilter(ViewOf(Perform(n.world, call, a)), n.world.cancels, m, Advance(m, pc, Seen(n, m, pc, a)), run));
    AddZeroAck(m);
    hide Add;
  }

  lemma {:induction false} SumAppend(flags: set<JobId>, cs: seq<Child>, c: Child)
    ensures SumChildren(flags, cs + [c]) == Add(SumChildren(flags, cs), ChildRest(flags, c))
  {
    if cs == [] {
      AddZero(ChildRest(flags, c));
      assert ([] + [c])[1..] == [];
    } else {
      assert (cs + [c])[1..] == cs[1..] + [c];
      SumAppend(flags, cs[1..], c);
      AddAssoc(ChildRest(flags, cs[0]), SumChildren(flags, cs[1..]), ChildRest(flags, c));
    }
  }

  lemma ParsedAppend(flags: set<JobId>, parsed: seq<Message>, m: Message, run: Runner)
    requires m.Job() !in flags
    ensures SumParsed(flags, parsed + [m], run) == Add(SumParsed(flags, parsed, run), Complete(m, run(m.Task())))
  {
    var cs := Children(parsed, Results(parsed, run));
    var c := Child(m, run(m.Task()), DAsk, []);
    assert Children(parsed + [m], Results(parsed + [m], run)) == cs + [c];
    SumAppend(flags, cs, c);
  }

  lemma DistinctDrop(parsed: seq<Message>, m: Message, rest: seq<Message>)
    requires DistinctJobs(parsed + ([m] + rest))
    ensures DistinctJobs(parsed + rest) && DistinctJobs((parsed + [m]) + rest)
    ensures m.WellAddressed() ==> forall i :: 0 <= i < |rest| && rest[i].WellAddressed() ==> rest[i].Job() != m.Job()
    ensures m.WellAddressed() ==> forall i :: 0 <= i < |parsed| && parsed[i].WellAddressed() ==>
      parsed[i].Job() != m.Job()
  {
    var all := parsed + ([m] + rest);
    assert (parsed + [m]) + rest == all;
    assert all[|parsed|] == m;
    assert forall i :: 0 <= i < |parsed| ==> all[i] == parsed[i];
    assert forall i :: 0 <= i < |rest| ==> all[|parsed| + 1 + i] == rest[i];
    forall i, k | 0 <= i < k < |parsed + rest| && (parsed + rest)[i].WellAddressed()
      && (parsed + rest)[k].WellAddressed()
      ensures (parsed + rest)[i].Job() != (parsed + rest)[k].Job()
    {
      var i1 := if i < |parsed| then i else i + 1;
      var k1 := if k < |parsed| then k else k + 1;
      assert all[i1] == (parsed + rest)[i] && all[k1] == (parsed + rest)[k];
    }
  }

  /** What the batch still has to do when message `i` is next. */
  function Ahead(w: World, ms: seq<Message>, i: nat, parsed: seq<Message>, run: Runner): View
    requires i <= |ms|
  {
    Add(SumParsed(w.cancels, parsed, run), SumFilter(ViewOf(w), w.cancels, ms[i..], run))
  }

  /** The control state `s` continues the batch of `n`, or the batch is over. */
  ghost predicate Continues(n: Node, s: Sys) {
    && (Batching(s) ==> BatchShape(s)) && s.node.world == n.world
    && (!Batching(s) ==> s.node.slot.Empty? && (s.main.Loop? || s.main.Ended?))
  }

  lemma StartFilter(v: View, flags: set<JobId>, m: Message, run: Runner)
    ensures FilterRest(v, flags, m, Start(m), run) == BatchEffect(v, flags, m, run)
    ensures InGate(Start(m)) && (m.WellAddressed() || Start(m).AckEarly?)
  {
  }

  lemma EnterMore(n: Node, ms: seq<Message>, i: nat, parsed: seq<Message>, run: Runner)
    requires n.slot.Empty? && i < |ms| && DistinctJobs(parsed + ms[i..]) && Runnable(n.world.cancels, parsed)
    ensures var s := EnterFilter(n, ms, i, parsed);
      Continues(n, s) && BatchRest(s, run) == Ahead(n.world, ms, i, parsed, run)
  {
    assert ms[i..][1..] == ms[i + 1..] && ms[i..][0] == ms[i];
    StartFilter(ViewOf(n.world), n.world.cancels, ms[i], run);
    hide Add, SumParsed, DistinctJobs, Runnable, FilterRest, BatchEffect, Start;
  }

  lemma EnterEnd(n: Node, ms: seq<Message>, parsed: seq<Message>, run: Runner)
    requires n.slot.Empty? && DistinctJobs(parsed) && Runnable(n.world.cancels, parsed)
    ensures var s := EnterFilter(n, ms, |ms|, parsed);
      Continues(n, s) && BatchRest(s, run) == Ahead(n.world, ms, |ms|, parsed, run)
  {
    assert ms[|ms|..] == [];
    AddZero(SumParsed(n.world.cancels, parsed, run));
    if parsed == [] { ParsedNone(n.world.cancels, run); }
    hide Add, SumParsed, DistinctJobs, Runnable;
  }

  lemma EnterRest(n: Node, ms: seq<Message>, i: nat, parsed: seq<Message>, run: Runner)
    requires n.slot.Empty? && i <= |ms| && DistinctJobs(parsed + ms[i..]) && Runnable(n.world.cancels, parsed)
    ensures var s := EnterFilter(n, ms, i, parsed);
      Continues(n, s) && BatchRest(s, run) == Ahead(n.world, ms, i, parsed, run)
  {
    if i < |ms| { EnterMore(n, ms, i, parsed, run); }
    else {
      assert parsed + ms[i..] == parsed;
      EnterEnd(n, ms, parsed, run);
    }
  }

  lemma ParsedNone(flags: set<JobId>, run: Runner)
    ensures SumParsed(flags, [], run) == ZERO
  {
  }

  /** What the batch still has to do after the reply for message `i`. */
  function AheadAfter(w: World, ms: seq<Message>, i: nat, next: Pc, parsed: seq<Message>, run: Runner): View
    requires i < |ms|
  {
    Add(SumParsed(w.cancels, parsed, run),
        Add(AfterFilter(ViewOf(w), w.cancels, ms[i], next, run), SumFilter(ViewOf(w), w.cancels, ms[i + 1..], run)))
  }

  lemma PassRest(n: Node, ms: seq<Message>, i: nat, parsed: seq<Message>, run: Runner)
    requires n.slot.Empty? && i < |ms| && DistinctJobs(parsed + ([ms[i]] + ms[i + 1..]))
      && Runnable(n.world.cancels, parsed)
    requires ms[i].WellAddressed() && ms[i].work.Some? && ms[i].Job() !in n.world.cancels
    ensures var s := EnterFilter(n, ms, i + 1, parsed + [ms[i]]);
      Continues(n, s) && BatchRest(s, run) == AheadAfter(n.world, ms, i, MarkExecuting, parsed, run)
  {
    var flags := n.world.cancels;
    DistinctDrop(parsed, ms[i], ms[i + 1..]);
    EnterRest(n, ms, i + 1, parsed + [ms[i]], run);
    ParsedAppend(flags, parsed, ms[i], run);
    AddAssoc(SumParsed(flags, parsed, run), Complete(ms[i], run(ms[i].Task())),
      SumFilter(ViewOf(n.world), flags, ms[i + 1..], run));
    hide Add, SumParsed, SumFilter, EnterFilter, Continues, BatchRest;
  }

  lemma SkipRest(n: Node, ms: seq<Message>, i: nat, parsed: seq<Message>, run: Runner)
    requires n.slot.Empty? && i < |ms| && DistinctJobs(parsed + ([ms[i]] + ms[i + 1..]))
      && Runnable(n.world.cancels, parsed)
    ensures var s := EnterFilter(n, ms, i + 1, parsed);
      Continues(n, s) && BatchRest(s, run) == AheadAfter(n.world, ms, i, Finished(Return), parsed, run)
  {
    DistinctDrop(parsed, ms[i], ms[i + 1..]);
    EnterRest(n, ms, i + 1, parsed, run);
    AddZero(SumFilter(ViewOf(n.world), n.world.cancels, ms[i + 1..], run));
    hide Add, SumParsed, SumFilter, EnterFilter, Continues, BatchRest;
  }

  lemma StayRest(n: Node, ms: seq<Message>, i: nat, next: Pc, hist: seq<Entry>, parsed: seq<Message>, run: Runner)
    requires n.slot.Empty? && i < |ms| && DistinctJobs(parsed + ([ms[i]] + ms[i + 1..]))
      && Runnable(n.world.cancels, parsed)
    requires InGate(next) && (ms[i].WellAddressed() || next.AckEarly?)
    ensures var s := Sys(n, Filter(ms, i, next, hist, parsed));
      Continues(n, s) && BatchRest(s, run) == AheadAfter(n.world, ms, i, next, parsed, run)
  {
    assert [ms[i]] + ms[i + 1..] == ms[i..];
    hide Add, SumParsed, SumFilter, DistinctJobs, Runnable;
  }

  lemma FilterGotoRest(n: Node, ms: seq<Message>, i: nat, next: Pc, hist: seq<Entry>, parsed: seq<Message>, run: Runner)
    requires n.slot.Empty? && i < |ms| && DistinctJobs(parsed + ([ms[i]] + ms[i + 1..]))
      && Runnable(n.world.cancels, parsed)
    requires InGate(next) || next.MarkExecuting? || next == Finished(Return)
    requires !next.AckEarly? && !next.Finished? ==> ms[i].WellAddressed()
    requires next.MarkExecuting? ==> ms[i].Job() !in n.world.cancels
    ensures var s := FilterGoto(n, ms, i, next, hist, parsed);
      Continues(n, s) && BatchRest(s, run) == AheadAfter(n.world, ms, i, next, parsed, run)
  {
    hide Add, SumParsed, SumFilter, DistinctJobs, Runnable, EnterFilter, Continues, BatchRest;
    if next.MarkExecuting? {
      if ms[i].work.Some? { PassRest(n, ms, i, parsed, run); }
      else { StayRest(n, ms, i, AckEarly, hist, parsed, run); }
    }
    else if next.Finished? { SkipRest(n, ms, i, parsed, run); }
    else { StayRest(n, ms, i, next, hist, parsed, run); }
  }

  lemma FilterAlgebra(n: Node, ms: seq<Message>, i: nat, pc: Pc, parsed: seq<Message>, a: Answer, run: Runner)
    requires i < |ms| && DistinctJobs(parsed + ([ms[i]] + ms[i + 1..])) && Runnable(n.world.cancels, parsed)
    requires InGate(pc) && (ms[i].WellAddressed() || pc.AckEarly?) && !a.Raise? && !a.LostRead?
    ensures var w1 := Perform(n.world, CallAt(ms[i], pc), a); var next := Advance(ms[i], pc, Seen(n, ms[i], pc, a));
      && w1.cancels == n.world.cancels
      && Add(ViewOf(w1), AheadAfter(w1, ms, i, next, parsed, run))
         == Add(ViewOf(n.world), Add(SumParsed(n.world.cancels, parsed, run),
              Add(FilterRest(ViewOf(n.world), n.world.cancels, ms[i], pc, run),
                SumFilter(ViewOf(n.world), n.world.cancels, ms[i + 1..], run))))
  {
    hide Add, SumParsed, SumFilter, FilterRest, AfterFilter, Advance, Observe, Perform, Delta, CallAt;
    var (v, flags, m) := (ViewOf(n.world), n.world.cancels, ms[i]);
    var call := CallAt(m, pc);
    var d := Delta(call);
    FilterReply(n, m, pc, a, run);
    CleanCall(n.world, call, a);
    DistinctDrop(parsed, m, ms[i + 1..]);
    SumFilterSame(v, d, flags, ms[i + 1..], run);
    DisjointParsed(flags, parsed, d, m, run);
    Slide(v, d, SumParsed(flags, parsed, run),
          AfterFilter(ViewOf(Perform(n.world, call, a)), flags, m, Advance(m, pc, Seen(n, m, pc, a)), run),
          SumFilter(v, flags, ms[i + 1..], run));
  }

  lemma FilterKeeps(s: Sys, a: Answer, run: Runner)
    requires BatchShape(s) && s.main.Filter? && CleanAnswer(s.main, a, run)
    ensures Kept(s, Next(s, MainStep(a)), run)
  {
    var (n, ms, i, parsed) := (s.node, s.main.ms, s.main.i, s.main.parsed);
    var (m, pc) := (ms[i], s.main.pc);
    assert ms[i..] == [m] + ms[i + 1..];
    assert BatchRest(s, run) == Add(SumParsed(n.world.cancels, parsed, run),
      Add(FilterRest(ViewOf(n.world), n.world.cancels, m, pc, run),
        SumFilter(ViewOf(n.world), n.world.cancels, ms[i + 1..], run)));
    hide Add, SumParsed, SumFilter, FilterRest, AheadAfter, Advance, CallAt, Observe, Perform, FilterGoto,
         DistinctJobs, Runnable,
      BatchRest, Batching, BatchShape, AllDone;
    FilterReply(n, m, pc, a, run);
    FilterAlgebra(n, ms, i, pc, parsed, a, run);
    var g := Seen(n, m, pc, a);
    var n1 := CallEffect(n, m.id, CallAt(m, pc), a);
    FilterGotoRest(n1, ms, i, Advance(m, pc, g), s.main.hist + [Entry(m.id, CallAt(m, pc), g)], parsed, run);
  }

  lemma DisjointParsed(flags: set<JobId>, parsed: seq<Message>, d: View, m: Message, run: Runner)
    requires forall j :: j in d.status ==> j == m.Job() && m.WellAddressed()
    requires m.WellAddressed() ==> forall i :: 0 <= i < |parsed| && parsed[i].WellAddressed() ==>
      parsed[i].Job() != m.Job()
    requires Runnable(flags, parsed)
    ensures d.status.Keys !! SumParsed(flags, parsed, run).status.Keys
  {
    if m.WellAddressed() { SumKeys(flags, Children(parsed, Results(parsed, run)), m.Job()); }
  }

  /** A step keeps the final view, the flags and the shape of the batch. */
  ghost predicate Kept(s: Sys, s1: Sys, run: Runner) {
    && BatchEnd(s1, run) == BatchEnd(s, run)
    && s1.node.world.cancels == s.node.world.cancels
    && (Batching(s1) ==> BatchShape(s1))
    && (!Batching(s1) ==> s1.node.slot.Empty? || (s1.node.slot.aborted.None? && AllDone(s1.node.slot.children)))
    && (!Batching(s1) ==> s1.main.Loop? || s1.main.AwaitSlot? || s1.main.Ended?)
  }

  // ---- marking and executing ----

  lemma AskHasKey(flags: set<JobId>, c: Child)
    requires c.pc.DAsk?
    ensures c.m.Job() in ChildRest(flags, c).status
  {
  }

  lemma {:induction false} SumHasKey(flags: set<JobId>, cs: seq<Child>, k: nat)
    requires k < |cs| && cs[k].pc.DAsk?
    ensures cs[k].m.Job() in SumChildren(flags, cs).status
  {
    if k > 0 { SumHasKey(flags, cs[1..], k - 1); } else { AskHasKey(flags, cs[0]); }
    hide ChildRest;
  }

  lemma MarkGoes(n: Node, ms: seq<Message>, parsed: seq<Message>, k: nat, a: Answer)
    requires k < |parsed| && !a.Raise? && !a.LostRead?
    ensures MarkAllStep(n, ms, parsed, k, a)
         == Sys(CallEffect(n, parsed[k].id, Write(parsed[k].Job(), Executing), a),
                if k + 1 < |parsed| then MarkAll(ms, parsed, k + 1) else Batch(ms, parsed))
  {
    hide Perform;
  }

  lemma MarkView(w: World, parsed: seq<Message>, k: nat, a: Answer, run: Runner)
    requires k < |parsed| && !a.Raise? && !a.LostRead?
    ensures var w1 := Perform(w, Write(parsed[k].Job(), Executing), a);
      && w1.cancels == w.cancels
      && Add(ViewOf(w1), SumParsed(w.cancels, parsed, run)) == Add(ViewOf(w), SumParsed(w.cancels, parsed, run))
  {
    var j := parsed[k].Job();
    SumHasKey(w.cancels, Children(parsed, Results(parsed, run)), k);
    CleanCall(w, Write(j, Executing), a);
    Override(ViewOf(w), j, Executing, SumParsed(w.cancels, parsed, run));
    hide Add, SumChildren, Perform, Put;
  }

  lemma MarkKeeps(s: Sys, a: Answer, run: Runner)
    requires BatchShape(s) && s.main.MarkAll? && CleanAnswer(s.main, a, run)
    ensures Kept(s, Next(s, MainStep(a)), run)
  {
    hide Add, SumParsed, DistinctJobs, Runnable, Perform, Observe, AllDone, MarkAllStep;
    MarkGoes(s.node, s.main.ms, s.main.parsed, s.main.k, a);
    MarkView(s.node.world, s.main.parsed, s.main.k, a, run);
  }

  lemma LaunchShape(flags: set<JobId>, parsed: seq<Message>, all: seq<string>)
    requires |all| == |parsed| && DistinctJobs(parsed) && Runnable(flags, parsed)
    ensures CleanChildren(Children(parsed, all))
  {
  }

  lemma BatchGoes(n: Node, ms: seq<Message>, parsed: seq<Message>, a: Answer)
    requires a.BatchReturned? && |a.all| == |parsed|
    ensures var s := BatchStep(n, ms, parsed, a);
      && s.node.world == n.world && s.node.slot == Delivering(Children(parsed, a.all), None)
      && (s.main.Loop? || s.main.Ended?)
  {
    hide Children, Executions, Observe;
  }

  lemma Launched(s: Sys, s1: Sys, cs: seq<Child>, run: Runner)
    requires s.main.Batch? && (s1.main.Loop? || s1.main.Ended?)
    requires s1.node.world == s.node.world && s1.node.slot == Delivering(cs, None) && CleanChildren(cs)
    requires SumParsed(s.node.world.cancels, s.main.parsed, run) == SumChildren(s.node.world.cancels, cs)
    ensures Kept(s, s1, run)
  {
    hide Add, SumChildren, SumParsed, CleanChildren, AllDone, ViewOf;
  }

  lemma BatchKeeps(s: Sys, a: Answer, run: Runner)
    requires BatchShape(s) && s.main.Batch? && CleanAnswer(s.main, a, run)
    ensures Kept(s, Next(s, MainStep(a)), run)
  {
    var parsed := s.main.parsed;
    hide Add, SumChildren, DistinctJobs, Runnable, Children, CleanChildren, AllDone, BatchStep, Results, Kept;
    LaunchShape(s.node.world.cancels, parsed, a.all);
    BatchGoes(s.node, s.main.ms, parsed, a);
    Launched(s, BatchStep(s.node, s.main.ms, parsed, a), Children(parsed, a.all), run);
  }

  // ---- delivering ----

  /** `c1` is `c` after the reply to its pending call. */
  ghost predicate Replied(w: World, c: Child, c1: Child, a: Answer) {
    c1.m == c.m && c1.counts == c.counts && c1.pc == DAdvance(c.pc, Observe(w, DCallAt(c.m, c.counts, c.pc), a))
  }

  lemma ChildReply(w: World, c: Child, c1: Child, a: Answer)
    requires !Over(c.pc) && !a.Raise? && !a.LostRead? && Replied(w, c, c1, a)
    ensures !c1.pc.DFailed?
    ensures ChildRest(w.cancels, c) == Add(Delta(DCallAt(c.m, c.counts, c.pc)), ChildRest(w.cancels, c1))
  {
    AddZero(ChildRest(w.cancels, c1));
    AddZeroAck(c.m);
    PutTwice(c.m.Job(), Completed, Cancelled, Acked(c.m));
    hide Add, Put, Sent;
  }

  lemma ChildDelta(c: Child, j: JobId)
    requires j in Delta(DCallAt(c.m, c.counts, c.pc)).status
    ensures j == c.m.Job()
  {
  }

  lemma ChildAlgebra(w: World, cs: seq<Child>, i: nat, c1: Child, a: Answer)
    requires CleanChildren(cs) && i < |cs| && !Over(cs[i].pc) && !a.Raise? && !a.LostRead? && Replied(w, cs[i], c1, a)
    ensures var w1 := Perform(w, DCallAt(cs[i].m, cs[i].counts, cs[i].pc), a);
      && w1.cancels == w.cancels && !c1.pc.DFailed?
      && Add(ViewOf(w1), SumChildren(w.cancels, cs[i := c1])) == Add(ViewOf(w), SumChildren(w.cancels, cs))
  {
    var c := cs[i];
    var call := DCallAt(c.m, c.counts, c.pc);
    hide Add, Delta, ChildRest, SumChildren, Perform, Observe, DAdvance, DCallAt, Replied;
    ChildReply(w, c, c1, a);
    CleanCall(w, call, a);
    SumSplit(w.cancels, cs, i);
    SumSplit(w.cancels, cs[i := c1], i);
    assert cs[i := c1][..i] == cs[..i] && cs[i := c1][i + 1..] == cs[i + 1..];
    SumKeys(w.cancels, cs[..i], c.m.Job());
    forall j | j in Delta(call).status ensures j == c.m.Job() { ChildDelta(c, j); }
    Slide(ViewOf(w), Delta(call), SumChildren(w.cancels, cs[..i]), ChildRest(w.cancels, c1),
      SumChildren(w.cancels, cs[i + 1..]));
  }

  lemma CleanUpdate(cs: seq<Child>, i: nat, c1: Child)
    requires CleanChildren(cs) && i < |cs| && c1.m == cs[i].m && !c1.pc.DFailed?
    ensures CleanChildren(cs[i := c1])
  {
  }

  lemma ChildGoes(n: Node, i: nat, a: Answer)
    requires n.slot.Delivering? && i < |n.slot.children| && n.slot.aborted.None?
    ensures var c := n.slot.children[i]; var n1 := ChildNext(n, i, a);
      && n1.world == Perform(n.world, DCallAt(c.m, c.counts, c.pc), a)
      && n1.slot.Delivering? && |n1.slot.children| == |n.slot.children| && Replied(n.world, c, n1.slot.children[i], a)
      && n1.slot.children == n.slot.children[i := n1.slot.children[i]]
      && (n1.slot.children[i].pc.DFailed? || n1.slot.aborted.None?)
  {
    hide Perform, Observe, DAdvance, DCallAt, TaskOver;
  }

  lemma ChildStepKeeps(s: Sys, i: nat, a: Answer, run: Runner)
    requires BatchShape(s) && s.node.slot.Delivering? && !TaskOver(s.node.slot) && !a.Raise? && !a.LostRead?
    ensures Kept(s, Next(s, ChildStep(i, a)), run)
  {
    var n := s.node;
    hide Add, SumChildren, Perform, Observe, DAdvance, DCallAt, CleanChildren, AllDone, ChildNext, Replied;
    if i < |n.slot.children| && !Over(n.slot.children[i].pc) {
      ChildGoes(n, i, a);
      var c1 := ChildNext(n, i, a).slot.children[i];
      ChildAlgebra(n.world, n.slot.children, i, c1, a);
      RepliedSame(n.world, n.slot.children[i], c1, a);
      CleanUpdate(n.slot.children, i, c1);
    }
  }

  lemma RepliedSame(w: World, c: Child, c1: Child, a: Answer)
    requires Replied(w, c, c1, a)
    ensures c1.m == c.m
  {
  }

  // ---- the loop goes on reading ----

  lemma {:induction false} DeliverView(w: World, ms: seq<Message>)
    ensures ViewOf(Deliver(w, ms)) == ViewOf(w) && Deliver(w, ms).cancels == w.cancels
    decreases |ms|
  {
    if ms != [] {
      DeliverView(w.(entries := w.entries[ms[0].id := ms[0]], last := if ms[0].id > w.last then ms[0].id else w.last,
                     pel := w.pel + [ms[0].id]), ms[1..]);
    }
  }

  lemma ReadGoes(n: Node, main: Main, a: Answer)
    requires n.slot.Delivering? && !TaskOver(n.slot) && (main.Loop? || main.AwaitSlot? || main.Ended?) && !a.Raise?
      && !a.LostRead?
    ensures var s := MainNext(n, main, a);
      && (s.main.Loop? || s.main.AwaitSlot? || s.main.Ended?) && s.node.slot == n.slot
      && ViewOf(s.node.world) == ViewOf(n.world) && s.node.world.cancels == n.world.cancels
  {
    if a.Read? { DeliverView(n.world, a.ms); }
    hide Deliver, Fresh, TaskOver;
  }

  lemma ReadKeeps(s: Sys, a: Answer, run: Runner)
    requires BatchShape(s) && s.node.slot.Delivering? && !TaskOver(s.node.slot) && CleanAnswer(s.main, a, run)
    ensures Kept(s, Next(s, MainStep(a)), run)
  {
    hide Add, SumChildren, CleanChildren, TaskOver, MainNext;
    ReadGoes(s.node, s.main, a);
  }

  lemma BatchStepKeeps(s: Sys, act: Action, run: Runner)
    requires BatchShape(s) && Batching(s) && CleanAction(s, act, run)
    ensures Kept(s, Next(s, act), run)
  {
    match act
    case MainStep(a) =>
      if s.main.Filter? { FilterKeeps(s, a, run); }
      else if s.main.MarkAll? { MarkKeeps(s, a, run); }
      else if s.main.Batch? { BatchKeeps(s, a, run); }
      else { ReadKeeps(s, a, run); }
    case ChildStep(i, a) =>
      if s.node.slot.Delivering? { ChildStepKeeps(s, i, a, run); }
    case _ =>
  }

  /** A fault-free run during which the batch is still going on. */
  ghost predicate BatchRun(s: Sys, acts: seq<Action>, run: Runner)
    decreases |acts|
  {
    acts == [] || (Batching(s) && CleanAction(s, acts[0], run) && BatchRun(Next(s, acts[0]), acts[1..], run))
  }

  lemma {:induction false} SumDone(flags: set<JobId>, cs: seq<Child>)
    requires AllDone(cs)
    ensures SumChildren(flags, cs) == ZERO
  {
    if cs != [] { SumDone(flags, cs[1..]); }
  }

  lemma {:induction false} BatchRuns(s: Sys, acts: seq<Action>, run: Runner)
    requires BatchRun(s, acts, run) && (Batching(s) ==> BatchShape(s))
    requires !Batching(s) ==> BatchRest(s, run) == ZERO
    ensures BatchEnd(Run(s, acts), run) == BatchEnd(s, run)
    ensures !Batching(Run(s, acts)) ==> ViewOf(Run(s, acts).node.world) == BatchEnd(s, run)
    decreases |acts|
  {
    if acts == [] {
      AddZero(ViewOf(s.node.world));
    } else {
      BatchStepKeeps(s, acts[0], run);
      var s1 := Next(s, acts[0]);
      if !Batching(s1) && s1.node.slot.Delivering? { SumDone(s1.node.world.cancels, s1.node.slot.children); }
      BatchRuns(s1, acts[1..], run);
    }
  }

  // ---- comparison with the single path ----

  /** What only the single path does for a message: report bad work. */
  function BadEffect(v: View, flags: set<JobId>, m: Message): View {
    if m.WellAddressed() && !IsSettled(v, m.Job()) && m.Job() !in flags && m.work.None?
    then Add(Put(m.Job(), Failed), Sent(Error(m.Job(), m.Url())))
    else ZERO
  }

  function SumBad(v: View, flags: set<JobId>, ms: seq<Message>): View {
    if ms == [] then ZERO else Add(BadEffect(v, flags, ms[0]), SumBad(v, flags, ms[1..]))
  }

  lemma EffectSplits(v: View, flags: set<JobId>, m: Message, run: Runner)
    ensures Effect(v, flags, m, run) == Add(BatchEffect(v, flags, m, run), BadEffect(v, flags, m))
    ensures forall j :: j in Effect(v, flags, m, run).status ==> j == m.Job() && m.WellAddressed()
    ensures forall j :: j in BadEffect(v, flags, m).status ==> j == m.Job() && m.WellAddressed()
  {
    AddZero(BatchEffect(v, flags, m, run));
    if m.WellAddressed() && !IsSettled(v, m.Job()) && m.Job() !in flags && m.work.None? {
      FailSplits(m);
    }
    hide Fail;
  }

  lemma FailSplits(m: Message)
    ensures Fail(m) == Add(Acked(m), Add(Put(m.Job(), Failed), Sent(Error(m.Job(), m.Url()))))
    ensures forall j :: j in Fail(m).status ==> j == m.Job()
  {
  }

  lemma {:induction false} SumBadSame(v: View, e: View, flags: set<JobId>, ms: seq<Message>)
    requires forall i :: 0 <= i < |ms| && ms[i].WellAddressed() ==> ms[i].Job() !in e.status
    ensures SumBad(Add(v, e), flags, ms) == SumBad(v, flags, ms)
  {
    if ms != [] { SumBadSame(v, e, flags, ms[1..]); }
  }

  lemma BatchEffectKeys(v: View, flags: set<JobId>, m: Message, j: JobId, run: Runner)
    requires m.WellAddressed() ==> m.Job() != j
    ensures j !in BatchEffect(v, flags, m, run).status
  {
  }

  lemma {:induction false} SumFilterKeys(v: View, flags: set<JobId>, ms: seq<Message>, j: JobId, run: Runner)
    requires forall i :: 0 <= i < |ms| && ms[i].WellAddressed() ==> ms[i].Job() != j
    ensures j !in SumFilter(v, flags, ms, run).status
  {
    if ms != [] {
      BatchEffectKeys(v, flags, ms[0], j, run);
      SumFilterKeys(v, flags, ms[1..], j, run);
      hide BatchEffect;
    }
  }

  lemma Regroup(v: View, be: View, bad: View, sf: View, sb: View)
    requires bad.status.Keys !! sf.status.Keys
    ensures Add(Add(Add(v, Add(be, bad)), sf), sb) == Add(Add(v, Add(be, sf)), Add(bad, sb))
  {
    calc {
      Add(Add(Add(v, Add(be, bad)), sf), sb);
      { AddAssoc(v, be, bad); AddAssoc(Add(v, be), bad, sf); }
      Add(Add(Add(v, be), Add(bad, sf)), sb);
      { AddSwap(bad, sf); }
      Add(Add(Add(v, be), Add(sf, bad)), sb);
      { AddAssoc(Add(v, be), sf, bad); AddAssoc(v, be, sf); }
      Add(Add(Add(v, Add(be, sf)), bad), sb);
      { AddAssoc(Add(v, Add(be, sf)), bad, sb); }
      Add(Add(v, Add(be, sf)), Add(bad, sb));
    }
  }

  lemma {:induction false} SettleIsSum(v: View, flags: set<JobId>, ms: seq<Message>, run: Runner)
    requires DistinctJobs(ms)
    ensures SettleAll(v, flags, ms, run) == Add(Add(v, SumFilter(v, flags, ms, run)), SumBad(v, flags, ms))
    decreases |ms|
  {
    if ms == [] {
      AddZero(v);
    } else {
      hide Add, BatchEffect, BadEffect, Effect;
      var (m, rest) := (ms[0], ms[1..]);
      var e := Effect(v, flags, m, run);
      EffectSplits(v, flags, m, run);
      assert DistinctJobs(rest) && forall i :: 0 <= i < |rest| && rest[i].WellAddressed() && m.WellAddressed() ==>
        rest[i].Job() != m.Job();
      SettleIsSum(Add(v, e), flags, rest, run);
      SumFilterSame(v, e, flags, rest, run);
      SumBadSame(v, e, flags, rest);
      if m.WellAddressed() { SumFilterKeys(v, flags, rest, m.Job(), run); }
      hide DistinctJobs;
      Regroup(v, BatchEffect(v, flags, m, run), BadEffect(v, flags, m), SumFilter(v, flags, rest, run),
        SumBad(v, flags, rest));
    }
  }

  /** Batch refines single.  Take any node without a delivery task, any messages of
      distinct jobs, any stored states and cancel flags.  However the deliveries
      interleave, a fault-free batch ends in the view of the fault-free single path
      minus the `failed` states and error webhooks of messages whose work does not
      parse; with parsable work the two views are equal. */
  lemma BatchRefinesSingle(n: Node, ms: seq<Message>, run: Runner, batch: seq<Action>, single: seq<Action>)
    requires n.slot.Empty? && DistinctJobs(ms)
    requires BatchRun(EnterFilter(n, ms, 0, []), batch, run) && !Batching(Run(EnterFilter(n, ms, 0, []), batch))
    requires SingleRun(HandleNext(n, ThenHandle(ms)), single, run)
      && !Run(HandleNext(n, ThenHandle(ms)), single).main.Handle?
    ensures var v := ViewOf(n.world);
      var b := ViewOf(Run(EnterFilter(n, ms, 0, []), batch).node.world);
      var s := ViewOf(Run(HandleNext(n, ThenHandle(ms)), single).node.world);
      && s == SettleAll(v, n.world.cancels, ms, run)
      && s == Add(b, SumBad(v, n.world.cancels, ms))
      && ((forall i :: 0 <= i < |ms| ==> ms[i].work.Some?) ==> s == b)
  {
    var (v, flags) := (ViewOf(n.world), n.world.cancels);
    assert [] + ms[0..] == ms;
    hide Run;
    EnterRest(n, ms, 0, [], run);
    ParsedNone(flags, run);
    AddZero(SumFilter(v, flags, ms, run));
    BatchRuns(EnterFilter(n, ms, 0, []), batch, run);
    SingleNext(n, ms, run);
    SingleRuns(HandleNext(n, ThenHandle(ms)), single, run);
    SettleIsSum(v, flags, ms, run);
    if forall i :: 0 <= i < |ms| ==> ms[i].work.Some? {
      SumBadNone(v, flags, ms);
      AddZero(Add(v, SumFilter(v, flags, ms, run)));
    }
    hide Add, SumFilter, SumBad, EnterFilter, HandleNext, SumParsed;
  }

  lemma {:induction false} SumBadNone(v: View, flags: set<JobId>, ms: seq<Message>)
    requires forall i :: 0 <= i < |ms| ==> ms[i].work.Some?
    ensures SumBad(v, flags, ms) == ZERO
  {
    if ms != [] { SumBadNone(v, flags, ms[1..]); }
  }
}
