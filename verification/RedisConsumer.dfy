/** `RedisConsumer` as a class: its coroutines with their fields, loops and
    exceptions, each proved to take exactly the steps of `Consumer`. */
module RedisConsumers {
  import opened Options
  import opened Wire
  import opened Handling
  import opened Consumer
  import opened CrashSafety
  import opened LoopSafety

  /** How an awaited coroutine ends: the process stopped, it returned, or it raised. */
  datatype Reply<+T> = Stopped | Ok(value: T) | Threw(fault: Fault) {
    predicate IsFailure() { !Ok? }
    function PropagateFailure<U>(): Reply<U>
      requires !Ok?
    {
      if Stopped? then Stopped else Threw(fault)
    }
    function Extract(): T
      requires Ok?
    {
      value
    }
  }

  /** How the `try` block of `_process_message` is left. */
  datatype Leaving = Killed | Normally | JobCancelled | Raising(fault: Fault)

  /** The step relation after the reply `g`, from the fields at that moment. */
  ghost function After(main: Main, n: Node, g: Got): Sys {
    match main
    case Handle(m, pc, hist, t) =>
      HandleGoto(Flags(n, m, pc, g), m, Advance(m, pc, g), hist + [Entry(m.id, CallAt(m, pc), g)], t)
    case Filter(ms, i, pc, hist, parsed) =>
      if i < |ms| then
        FilterGoto(n, ms, i, Advance(ms[i], pc, g), hist + [Entry(ms[i].id, CallAt(ms[i], pc), g)], parsed)
      else ToHead(n)
    case MarkAll(ms, parsed, k) =>
      if Hard(g) then Interrupt(n, g.fault)
      else if k + 1 < |parsed| then Sys(n, MarkAll(ms, parsed, k + 1))
      else Sys(n, Batch(ms, parsed))
    case _ => Sys(n, main)
  }

  /** The call the loop is suspended in. */
  ghost predicate Asks(main: Main, id: nat, call: Call) {
    match main
    case Handle(m, pc, _, _) => id == m.id && call == CallAt(m, pc) && !pc.Finished?
    case Filter(ms, i, pc, _, _) => i < |ms| && id == ms[i].id && call == CallAt(ms[i], pc) && !pc.Finished?
    case MarkAll(_, parsed, k) => k < |parsed| && id == parsed[k].id && call == Write(parsed[k].Job(), Executing)
    case _ => false
  }

  ghost predicate Fits(call: Call, g: Got) {
    match call
    case ReadState(_) => g.Yes? || g.No? || g.Err?
    case Poll(_) => g.Yes? || g.No? || g.Err?
    case Execute(_, _) => g.Busy? || g.Value? || g.Err?
    case _ => g.Done? || g.Err?
  }

  lemma AfterIsNext(n: Node, main: Main, id: nat, call: Call, a: Answer)
    requires Asks(main, id, call)
    ensures MainNext(n, main, a) == After(main, CallEffect(n, id, call, a), Observe(n.world, call, a))
  {
    hide HandleGoto, FilterGoto, Advance, CallAt, Observe, Perform, Interrupt;
  }

  lemma EnterMessage(n: Node, ms: seq<Message>, i: nat, parsed: seq<Message>)
    requires i < |ms|
    ensures EnterFilter(n, ms, i, parsed) == Sys(n, Filter(ms, i, Start(ms[i]), [], parsed)) && !Start(ms[i]).Finished?
  {
  }

  lemma FilterEnds(n: Node, ms: seq<Message>, parsed: seq<Message>)
    ensures EnterFilter(n, ms, |ms|, parsed)
         == if parsed == [] then ToHead(n) else Sys(n.(idle := false), MarkAll(ms, parsed, 0))
  {
  }

  lemma ForcedEnds(n: Node)
    ensures Interrupt(n, ForcedCancel) == Sys(n, Ended)
  {
  }

  lemma BackgroundFrame(n: Node, act: Action)
    ensures var b := Background(n, act);
      b == n.(world := b.world, log := b.log, idle := b.idle, slot := b.slot, running := b.running)
  {
    hide Perform, Observe, TaskOver, DAdvance, DCallAt;
  }

  lemma {:induction false} RunSnoc(s: Sys, acts: seq<Action>, act: Action)
    ensures Run(s, acts + [act]) == Next(Run(s, acts), act)
    decreases |acts|
  {
    if acts == [] {
      assert Run(Next(s, act), []) == Next(s, act);
    } else {
      assert (acts + [act])[1..] == acts[1..] + [act];
      RunSnoc(Next(s, acts[0]), acts[1..], act);
    }
  }

  /** What the environment does in this process: everything before its first restart. */
  function Until(oracle: seq<Action>): (acts: seq<Action>)
    ensures acts <= oracle
    decreases |oracle|
  {
    if oracle == [] || oracle[0].Restart? then [] else [oracle[0]] + Until(oracle[1..])
  }

  lemma UntilStep(taken: seq<Action>, oracle: seq<Action>)
    requires oracle != []
    ensures !oracle[0].Restart? ==> taken + Until(oracle) == taken + [oracle[0]] + Until(oracle[1..])
    ensures oracle[0].Restart? ==> Until(oracle) == [] && Until([]) == []
  {
  }

  class RedisConsumer {
    var world: World
    var log: seq<Entry>
    var idle: bool
    var current: Option<JobId>
    var healthy: bool
    var failures: nat
    var slot: Slot
    var running: bool
    const canBatch: bool

    /** What the environment does from now on; the process stops when it is used up. */
    var oracle: seq<Action>

    ghost const origin: Sys
    /** The whole behaviour of the environment in this process. */
    ghost const script: seq<Action>
    ghost var taken: seq<Action>
    ghost var machine: Sys
    /** The last reply. */
    ghost var got: Got

    ghost function Fields(): Node
      reads this
    {
      Node(world, log, idle, current, healthy, failures, slot, running, canBatch)
    }

    /** `machine` is the state the step relation reaches with the actions taken, which
        are the behaviour of the environment up to now. */
    ghost predicate Valid()
      reads this
    {
      machine == Run(origin, taken) && taken + Until(oracle) == script
    }

    ghost predicate InSync()
      reads this
    {
      Valid() && machine.node == Fields()
    }

    /** The process is gone: the environment has nothing more to do. */
    ghost predicate Halted()
      reads this
    {
      InSync() && oracle == [] && taken == script
    }

    lemma HaltedHere()
      requires InSync() && oracle == []
      ensures Halted()
    {
      assert taken + [] == taken;
    }

    /** A fresh process on an existing world. */
    constructor (world: World, log: seq<Entry>, canBatch: bool, oracle: seq<Action>)
      ensures InSync() && machine.main == ListPending(false) && this.world == world && this.oracle == oracle
      ensures origin == Boot(Fields()) && taken == [] && script == Until(oracle)
    {
      this.world, this.log, this.canBatch, this.oracle := world, log, canBatch, oracle;
      idle, current, healthy, failures, slot, running := true, None, true, 0, Empty, true;
      origin := Boot(Node(world, log, true, None, true, 0, Empty, true, canBatch));
      machine := Boot(Node(world, log, true, None, true, 0, Empty, true, canBatch));
      taken := [];
      script := Until(oracle);
    }

    /** The step relation takes the next action of the environment. */
    ghost method Follow()
      requires Valid() && oracle != [] && !oracle[0].Restart?
      modifies this`machine, this`taken
      ensures machine == Next(old(machine), oracle[0]) && machine == Run(origin, taken)
      ensures taken == old(taken) + [oracle[0]] && taken + Until(oracle[1..]) == script
    {
      RunSnoc(origin, taken, oracle[0]);
      UntilStep(taken, oracle);
      taken := taken + [oracle[0]];
      machine := Next(machine, oracle[0]);
    }

    /** `stop()`. */
    method Stop()
      requires InSync() && oracle != [] && oracle[0].StopCalled?
      modifies this
      ensures InSync() && machine == Next(old(machine), StopCalled) && oracle == old(oracle)[1..]
      ensures !running && world == old(world) && slot == old(slot) && idle == old(idle)
    {
      Follow();
      oracle := oracle[1..];
      running := false;
    }

    /** Something happens beside the loop. */
    method Elapse()
      requires InSync() && oracle != [] && !oracle[0].MainStep? && !oracle[0].Restart?
      modifies this
      ensures InSync() && machine == Next(old(machine), old(oracle)[0]) && oracle == old(oracle)[1..]
      ensures machine.main == old(machine.main)
    {
      hide Background, Run, Until;
      var act := oracle[0];
      BackgroundFrame(Fields(), act);
      Follow();
      oracle := oracle[1..];
      var n := Background(Node(world, log, idle, current, healthy, failures, slot, running, canBatch), act);
      world, log, idle, slot, running := n.world, n.log, n.idle, n.slot, n.running;
    }

    /** One await: the environment acts until it ends this await or the process. */
    method Suspend() returns (a: Option<Answer>)
      requires InSync()
      modifies this
      ensures |oracle| <= |old(oracle)|
      ensures Valid()
      ensures a.None? ==> Halted() && machine.main == old(machine.main)
      ensures a.Some? ==> machine == MainNext(Fields(), old(machine.main), a.value) && |oracle| < |old(oracle)|
    {
      hide Background, MainNext, Run, Boot, Until;
      while oracle != []
        invariant InSync() && machine.main == old(machine.main) && |oracle| <= |old(oracle)|
        decreases |oracle|
      {
        var act := oracle[0];
        if act.Restart? {
          UntilStep(taken, oracle);
          oracle := [];
          HaltedHere();
          return None;
        }
        if act.MainStep? {
          Follow();
          oracle := oracle[1..];
          return Some(act.a);
        }
        if act.StopCalled? { Stop(); } else { Elapse(); }
      }
      a := None;
      HaltedHere();
    }

    /** One awaited call on behalf of a message. */
    method Request(id: nat, call: Call) returns (g: Option<Got>)
      requires InSync() && Asks(machine.main, id, call)
      modifies this
      ensures |oracle| <= |old(oracle)|
      ensures Valid()
      ensures g.None? ==> Halted() && machine.main == old(machine.main)
      ensures g.Some? ==> machine == After(old(machine.main), Fields(), g.value) && |oracle| < |old(oracle)|
      ensures g.Some? ==> g.value == got && Fits(call, got)
    {
      var a := Suspend();
      if a.None? {
        return None;
      }
      AfterIsNext(Fields(), old(machine.main), id, call, a.value);
      hide After, Asks, MainNext;
      var reply := Observe(world, call, a.value);
      world, log := Perform(world, call, a.value), log + [Entry(id, call, reply)];
      got := reply;
      g := Some(reply);
    }

    /** The fields and the step relation stand at the await `pc` for `m`. */
    ghost predicate Standing(m: Message, pc: Pc, t: Then)
      reads this
    {
      InSync() && machine.main.Handle? && machine.main.m == m && machine.main.pc == pc && machine.main.then_ == t
        && !pc.Finished?
    }

    /** The call just made moved the step relation by the reply `got`. */
    twostate predicate Moved()
      reads this
    {
      Valid() && machine == After(old(machine.main), Fields(), got) && |oracle| < |old(oracle)|
    }

    /** `_has_cancel_signal`. */
    method HasCancelSignal(id: nat, job: JobId) returns (r: Reply<bool>)
      requires InSync() && Asks(machine.main, id, Poll(job))
      modifies this
      ensures |oracle| <= |old(oracle)|
      ensures r.Stopped? ==> Halted()
      ensures !r.Stopped? ==> Moved() && got == (if r.Threw? then Err(r.fault) else YesNo(r.value))
    {
      var g := Request(id, Poll(job));
      if g.None? { return Stopped; }
      if g.value.Err? { return Threw(g.value.fault); }
      r := Ok(g.value.Yes?);
    }

    /** `_get_job_status`, compared with the terminal states. */
    method IsTerminal(id: nat, job: JobId) returns (r: Reply<bool>)
      requires InSync() && Asks(machine.main, id, ReadState(job))
      modifies this
      ensures |oracle| <= |old(oracle)|
      ensures r.Stopped? ==> Halted()
      ensures !r.Stopped? ==> Moved() && got == (if r.Threw? then Err(r.fault) else YesNo(r.value))
    {
      var g := Request(id, ReadState(job));
      if g.None? { return Stopped; }
      if g.value.Err? { return Threw(g.value.fault); }
      r := Ok(g.value.Yes?);
    }

    /** `_safe_hset` and `_safe_xack`: a connection error is absorbed, anything else
        is raised. */
    method Safely(id: nat, call: Call) returns (r: Reply<bool>)
      requires InSync() && Asks(machine.main, id, call) && (call.Write? || call.Ack?)
      modifies this
      ensures |oracle| <= |old(oracle)|
      ensures r.Stopped? ==> Halted()
      ensures !r.Stopped? ==> Moved()
      ensures r.Threw? ==> got == Err(r.fault) && Hard(got)
      ensures r.Ok? ==> !Hard(got) && (r.value <==> got.Done?)
    {
      var g := Request(id, call);
      if g.None? { return Stopped; }
      if Hard(g.value) { return Threw(g.value.fault); }
      r := Ok(g.value.Done?);
    }

    /** `_run_job_with_cancellation`: wait for the runner, polling the cancel flag. */
    method RunJobWithCancellation(m: Message, ghost t: Then) returns (l: Leaving, counts: string)
      requires Standing(m, Waiting, t) && m.work.Some?
      modifies this
      ensures |oracle| <= |old(oracle)|
      ensures l.Killed? ==> Halted()
      ensures l.Normally? ==> Standing(m, AskAfterRun(counts), t)
      ensures l.JobCancelled? ==> Standing(m, MarkCancelled, t)
      ensures l.Raising? ==> Standing(m, Thrown(l.fault), t)
      ensures !l.Killed? ==> |oracle| < |old(oracle)|
    {
      hide Run, Until, HandleNext, Throw;
      counts := "";
      while true
        invariant Standing(m, Waiting, t) && |oracle| <= |old(oracle)|
        decreases |oracle|
      {
        var g := Request(m.id, Execute(m.Job(), m.Task()));
        if g.None? { return Killed, counts; }
        if g.value.Err? { return Raising(g.value.fault), counts; }
        if g.value.Value? {
          counts := g.value.counts;
          l := Checkpoint(m, AskReturned(counts), t);
          return;
        }
        var flagged := HasCancelSignal(m.id, m.Job());
        if flagged.Stopped? { return Killed, counts; }
        if flagged.Threw? { return Raising(flagged.fault), counts; }
        if flagged.value {
          l := StopRunner(m, t);
          return;
        }
      }
    }

    /** The executor's cancel hook, then the cancelled runner task itself. */
    method StopRunner(m: Message, ghost t: Then) returns (l: Leaving)
      requires Standing(m, Pc.StopRunner, t)
      modifies this
      ensures |oracle| <= |old(oracle)|
      ensures l.Killed? ==> Halted()
      ensures l.JobCancelled? ==> Standing(m, MarkCancelled, t)
      ensures l.Raising? ==> Standing(m, Thrown(l.fault), t)
      ensures !l.Normally? && (!l.Killed? ==> |oracle| < |old(oracle)|)
    {
      hide Run, Until, HandleNext, Throw;
      var g := Request(m.id, CancelHook(m.Job()));
      if g.None? { return Killed; }
      if g.value == Err(ForcedCancel) { return Raising(ForcedCancel); }
      g := Request(m.id, Reap(m.Job()));
      l := if g.None? then Killed else JobCancelled;
    }

    /** The `try` block of `_process_message`. */
    method TryBlock(m: Message, ghost t: Then) returns (l: Leaving)
      requires Standing(m, if m.work.None? then AskInHandler else Waiting, t)
      modifies this
      ensures |oracle| <= |old(oracle)|
      ensures l.Killed? ==> Halted()
      ensures l.Normally? ==> Standing(m, FinalAck(Return), t)
      ensures l.JobCancelled? ==> Standing(m, MarkCancelled, t)
      ensures l.Raising? ==> Standing(m, Thrown(l.fault), t)
    {
      if m.work.None? { return Raising(OtherError); }
      var counts;
      l, counts := RunJobWithCancellation(m, t);
      if !l.Normally? { return; }
      l := Report(m, counts, t);
    }

    /** `if await self._has_cancel_signal(job_id): raise _JobCancelledWhileExecuting`. */
    method Checkpoint(m: Message, ghost pc: Pc, ghost t: Then) returns (l: Leaving)
      requires Standing(m, pc, t) && (pc.AskReturned? || pc.AskAfterRun? || pc.AskBeforeSend?)
      modifies this
      ensures |oracle| <= |old(oracle)|
      ensures l.Killed? ==> Halted()
      ensures l.Normally? ==> Standing(m, Advance(m, pc, No), t)
      ensures l.JobCancelled? ==> Standing(m, MarkCancelled, t)
      ensures l.Raising? ==> Standing(m, Thrown(l.fault), t)
      ensures !l.Killed? ==> |oracle| < |old(oracle)|
    {
      hide Run, Until, HandleNext, Throw;
      var flagged := HasCancelSignal(m.id, m.Job());
      if flagged.Stopped? { return Killed; }
      if flagged.Threw? { return Raising(flagged.fault); }
      l := if flagged.value then JobCancelled else Normally;
    }

    /** The `completed` write and the result webhook. */
    method WriteCompleted(m: Message, counts: string, ghost t: Then) returns (l: Leaving)
      requires Standing(m, MarkCompleted(counts), t)
      modifies this
      ensures |oracle| <= |old(oracle)|
      ensures l.Killed? ==> Halted()
      ensures l.Normally? ==> Standing(m, AskBeforeSend(counts), t)
      ensures l.Raising? ==> Standing(m, Thrown(l.fault), t)
      ensures !l.JobCancelled?
    {
      hide Run, Until, HandleNext, Throw;
      var wrote := Safely(m.id, Write(m.Job(), Completed));
      if wrote.Stopped? { return Killed; }
      l := if wrote.Threw? then Raising(wrote.fault) else Normally;
    }

    method PostResult(m: Message, counts: string, ghost t: Then) returns (l: Leaving)
      requires Standing(m, SendResult(counts), t)
      modifies this
      ensures |oracle| <= |old(oracle)|
      ensures l.Killed? ==> Halted()
      ensures l.Normally? ==> Standing(m, FinalAck(Return), t)
      ensures l.Raising? ==> Standing(m, Thrown(l.fault), t)
      ensures !l.JobCancelled?
    {
      hide Run, Until, HandleNext, Throw;
      var sent := Request(m.id, Send(Result(m.Job(), m.Url(), counts)));
      if sent.None? { return Killed; }
      l := if sent.value.Err? then Raising(sent.value.fault) else Normally;
    }

    /** The rest of the `try` block, once the runner has returned. */
    method Report(m: Message, counts: string, ghost t: Then) returns (l: Leaving)
      requires Standing(m, AskAfterRun(counts), t)
      modifies this
      ensures |oracle| <= |old(oracle)|
      ensures l.Killed? ==> Halted()
      ensures l.Normally? ==> Standing(m, FinalAck(Return), t)
      ensures l.JobCancelled? ==> Standing(m, MarkCancelled, t)
      ensures l.Raising? ==> Standing(m, Thrown(l.fault), t)
    {
      assert Advance(m, AskAfterRun(counts), No) == MarkCompleted(counts);
      assert Advance(m, AskBeforeSend(counts), No) == SendResult(counts);
      hide Run, Until, Advance, Thrown;
      l := Checkpoint(m, AskAfterRun(counts), t);
      if !l.Normally? { return; }
      l := WriteCompleted(m, counts, t);
      if !l.Normally? { return; }
      l := Checkpoint(m, AskBeforeSend(counts), t);
      if !l.Normally? { return; }
      l := PostResult(m, counts, t);
    }

    /** The `cancelled` write of the two `except` clauses. */
    method MarkJobCancelled(m: Message, ghost t: Then) returns (r: Reply<()>)
      requires Standing(m, MarkCancelled, t)
      modifies this
      ensures |oracle| <= |old(oracle)|
      ensures r.Stopped? ==> Halted()
      ensures r.Ok? ==> Standing(m, FinalAck(Return), t)
      ensures r.Threw? ==> Standing(m, FinalAck(Escape(r.fault)), t)
    {
      hide Run, Until, HandleNext, Throw;
      var wrote :- Safely(m.id, Write(m.Job(), Cancelled));
      r := Ok(());
    }

    /** `except Exception`. */
    method HandleFailure(m: Message, ghost t: Then) returns (r: Reply<()>)
      requires Standing(m, AskInHandler, t)
      modifies this
      ensures |oracle| <= |old(oracle)|
      ensures r.Stopped? ==> Halted()
      ensures r.Ok? ==> Standing(m, FinalAck(Return), t)
      ensures r.Threw? ==> Standing(m, FinalAck(Escape(r.fault)), t)
    {
      hide Run, Until, HandleNext, Throw;
      var flagged :- HasCancelSignal(m.id, m.Job());
      if flagged { r := MarkJobCancelled(m, t); } else { r := ReportFailure(m, t); }
    }

    /** The `failed` write and the error webhook. */
    method ReportFailure(m: Message, ghost t: Then) returns (r: Reply<()>)
      requires Standing(m, MarkFailed, t)
      modifies this
      ensures |oracle| <= |old(oracle)|
      ensures r.Stopped? ==> Halted()
      ensures r.Ok? ==> Standing(m, FinalAck(Return), t)
      ensures r.Threw? ==> Standing(m, FinalAck(Escape(r.fault)), t)
    {
      hide Run, Until, HandleNext, Throw;
      var wrote :- Safely(m.id, Write(m.Job(), Failed));
      var sent := Request(m.id, Send(Error(m.Job(), m.Url())));
      if sent.None? { return Stopped; }
      r := if sent.value == Err(ForcedCancel) then Threw(ForcedCancel) else Ok(());
    }

    /** How the step relation stands when `_process_message` is over. */
    ghost predicate HandlingOver(t: Then, r: Reply<()>)
      reads this
    {
      && Valid()
      && (r.Stopped? ==> Halted())
      && (r.Ok? ==> machine == HandleNext(Fields(), t))
      && (r.Threw? ==> machine == Throw(Fields(), InLoop(t), r.fault))
    }

    /** From the `executing` write on: `try`, `except` and `finally`. */
    method ExecuteJob(m: Message, ghost t: Then) returns (r: Reply<()>)
      requires Standing(m, MarkExecuting, t)
      modifies this
      ensures |oracle| <= |old(oracle)|
      ensures HandlingOver(t, r)
    {
      hide Run, Until, HandleNext, Throw;
      var wrote :- Safely(m.id, Write(m.Job(), Executing));
      var l := TryBlock(m, t);
      var e: Reply<()> := Ok(());
      match l {
        case Killed => return Stopped;
        case Normally =>
        case JobCancelled => e := MarkJobCancelled(m, t);
        case Raising(f) =>
          if f == ForcedCancel { e := Threw(f); } else { e := HandleFailure(m, t); }
      }
      if e.Stopped? { return Stopped; }
      r := Finally(m, t, e);
    }

    /** `finally`: acknowledge, then reset the two fields, unless the
        acknowledgement itself raises. */
    method Finally(m: Message, ghost t: Then, e: Reply<()>) returns (r: Reply<()>)
      requires !e.Stopped? && Standing(m, FinalAck(if e.Ok? then Return else Escape(e.fault)), t)
      modifies this
      ensures |oracle| <= |old(oracle)|
      ensures HandlingOver(t, r)
    {
      hide Run, Until, HandleNext, Throw;
      var acked :- Safely(m.id, Ack(m.id));
      current := None;
      idle := true;
      r := e;
    }

    /** The acknowledgement of a message that is not executed. */
    method Skip(m: Message, ghost t: Then) returns (r: Reply<()>)
      requires Standing(m, AckEarly, t)
      modifies this
      ensures |oracle| <= |old(oracle)|
      ensures HandlingOver(t, r)
    {
      hide Run, Until, HandleNext, Throw;
      var acked :- Safely(m.id, Ack(m.id));
      r := Ok(());
    }

    /** A job cancelled before it starts. */
    method SkipCancelled(m: Message, ghost t: Then) returns (r: Reply<()>)
      requires Standing(m, MarkBefore, t)
      modifies this
      ensures |oracle| <= |old(oracle)|
      ensures HandlingOver(t, r)
    {
      hide Run, Until, HandleNext, Throw;
      var wrote :- Safely(m.id, Write(m.Job(), Cancelled));
      r := Skip(m, t);
    }

    /** `_process_message`. */
    method ProcessMessage(m: Message, ghost t: Then) returns (r: Reply<()>)
      requires Standing(m, Start(m), t)
      modifies this
      ensures |oracle| <= |old(oracle)|
      ensures HandlingOver(t, r)
    {
      hide Run, Until, HandleNext, Throw;
      if !m.WellAddressed() {
        r := Skip(m, t);
        return;
      }
      var terminal :- IsTerminal(m.id, m.Job());
      if terminal {
        r := Skip(m, t);
        return;
      }
      r := ProcessUnlessCancelled(m, t);
    }

    /** The same from the cancel poll on. */
    method ProcessUnlessCancelled(m: Message, ghost t: Then) returns (r: Reply<()>)
      requires Standing(m, AskCancel, t)
      modifies this
      ensures |oracle| <= |old(oracle)|
      ensures HandlingOver(t, r)
    {
      hide Run, Until, HandleNext, Throw;
      var flagged :- HasCancelSignal(m.id, m.Job());
      if flagged {
        r := SkipCancelled(m, t);
        return;
      }
      idle := false;
      current := Some(m.Job());
      r := ExecuteJob(m, t);
    }

    /** Handle the listed messages one after the other. */
    method ProcessEach(ms: seq<Message>) returns (r: Reply<()>)
      requires Valid() && machine == HandleNext(Fields(), ThenHandle(ms))
      modifies this
      ensures |oracle| <= |old(oracle)|
      ensures Valid() && (r.Stopped? ==> Halted())
      ensures r.Ok? ==> machine == ToHead(Fields())
      ensures r.Threw? ==> machine == Interrupt(Fields(), r.fault)
    {
      hide Run, Until, Interrupt;
      var rest := ms;
      while rest != []
        invariant Valid() && machine == HandleNext(Fields(), ThenHandle(rest)) && |oracle| <= |old(oracle)|
        decreases |rest|
      {
        var next := rest[0];
        rest := rest[1..];
        assert !Start(next).Finished?;
        var done :- ProcessMessage(next, ThenHandle(rest));
      }
      r := Ok(());
    }

    /** `recover_pending`. */
    method RecoverPending(ghost inLoop: bool) returns (r: Reply<nat>)
      requires InSync() && machine.main == ListPending(inLoop)
      modifies this
      ensures |oracle| <= |old(oracle)|
      ensures Valid() && (r.Stopped? ==> Halted())
      ensures r.Ok? ==> machine == ToHead(Fields())
      ensures r.Threw? ==> machine == Throw(Fields(), inLoop, r.fault)
    {
      hide Run, Until, Throw;
      var a := Suspend();
      if a.None? { return Stopped; }
      if a.value.Raise? { return Threw(a.value.fault); }
      var todo := Oldest(world.pel);
      var recovered := 0;
      while todo != []
        invariant Valid() && machine == HandleNext(Fields(), ThenFetch(todo, inLoop)) && |oracle| <= |old(oracle)|
        decreases |todo|
      {
        a := Suspend();
        if a.None? { return Stopped; }
        if a.value.Raise? { return Threw(a.value.fault); }
        if todo[0] in world.entries && todo[0] !in world.trimmed {
          var m := world.entries[todo[0]];
          assert !Start(m).Finished?;
          var done :- ProcessMessage(m, ThenFetch(todo[1..], inLoop));
          recovered := recovered + 1;
        }
        todo := todo[1..];
      }
      r := Ok(recovered);
    }

    /** The preamble of one message in a batch; true means it joins the batch. */
    method FilterMessage(ms: seq<Message>, i: nat, parsed: seq<Message>) returns (r: Reply<bool>)
      requires i < |ms| && Valid() && machine == EnterFilter(Fields(), ms, i, parsed)
      modifies this
      ensures |oracle| <= |old(oracle)|
      ensures Valid() && (r.Stopped? ==> Halted())
      ensures r.Ok? ==> machine == EnterFilter(Fields(), ms, i + 1, if r.value then parsed + [ms[i]] else parsed)
      ensures r.Ok? && r.value ==> ms[i].work.Some?
      ensures r.Threw? ==> machine == Interrupt(Fields(), r.fault)
    {
      hide Run, Until, Interrupt, EnterFilter;
      var m := ms[i];
      assert InSync() && machine.main == Filter(ms, i, Start(m), [], parsed) by {
        EnterMessage(Fields(), ms, i, parsed);
      }
      if !m.WellAddressed() {
        r := FilterOut(ms, i, parsed);
        return;
      }
      var terminal :- IsTerminal(m.id, m.Job());
      if terminal {
        r := FilterOut(ms, i, parsed);
        return;
      }
      r := FilterUnlessCancelled(ms, i, parsed);
    }

    /** The same from the cancel poll on. */
    method FilterUnlessCancelled(ms: seq<Message>, i: nat, parsed: seq<Message>) returns (r: Reply<bool>)
      requires InSync() && machine.main.Filter? && i < |ms| && ms[i].WellAddressed()
      requires machine.main.ms == ms && machine.main.i == i && machine.main.pc.AskCancel?
        && machine.main.parsed == parsed
      modifies this
      ensures |oracle| <= |old(oracle)|
      ensures Valid() && (r.Stopped? ==> Halted())
      ensures r.Ok? ==> machine == EnterFilter(Fields(), ms, i + 1, if r.value then parsed + [ms[i]] else parsed)
      ensures r.Ok? && r.value ==> ms[i].work.Some?
      ensures r.Threw? ==> machine == Interrupt(Fields(), r.fault)
    {
      hide Run, Until, Interrupt, EnterFilter;
      var m := ms[i];
      var flagged :- HasCancelSignal(m.id, m.Job());
      if flagged {
        var wrote :- Safely(m.id, Write(m.Job(), Cancelled));
        r := FilterOut(ms, i, parsed);
      } else if m.work.None? {
        r := FilterOut(ms, i, parsed);
      } else {
        r := Ok(true);
      }
    }

    /** The acknowledgement of a message left out of the batch. */
    method FilterOut(ms: seq<Message>, i: nat, parsed: seq<Message>) returns (r: Reply<bool>)
      requires InSync() && machine.main.Filter? && i < |ms|
      requires machine.main.ms == ms && machine.main.i == i && machine.main.pc.AckEarly?
        && machine.main.parsed == parsed
      modifies this
      ensures |oracle| <= |old(oracle)|
      ensures Valid() && (r.Stopped? ==> Halted())
      ensures r.Ok? ==> machine == EnterFilter(Fields(), ms, i + 1, parsed) && !r.value
      ensures r.Threw? ==> machine == Interrupt(Fields(), r.fault)
    {
      hide Run, Until, Interrupt, EnterFilter;
      var acked :- Safely(ms[i].id, Ack(ms[i].id));
      r := Ok(false);
    }

    /** Mark every job of the batch as executing. */
    method MarkBatch(ms: seq<Message>, parsed: seq<Message>) returns (r: Reply<()>)
      requires InSync() && parsed != [] && machine.main == MarkAll(ms, parsed, 0)
      modifies this
      ensures |oracle| <= |old(oracle)|
      ensures Valid() && (r.Stopped? ==> Halted())
      ensures r.Ok? ==> InSync() && machine.main == Batch(ms, parsed)
      ensures r.Threw? ==> machine == Interrupt(Fields(), r.fault)
    {
      hide Run, Until, Interrupt;
      var k := 0;
      while k < |parsed|
        invariant k <= |parsed| && InSync() && |oracle| <= |old(oracle)|
        invariant machine.main == if k < |parsed| then MarkAll(ms, parsed, k) else Batch(ms, parsed)
      {
        var wrote :- Safely(parsed[k].id, Write(parsed[k].Job(), Executing));
        k := k + 1;
      }
      r := Ok(());
    }

    /** `batch_run`, with the fall-back to single handling when it raises.  The
        value returned is the delivery task to await later, if any. */
    method ExecuteBatch(ms: seq<Message>, parsed: seq<Message>) returns (r: Reply<Option<Slot>>)
      requires InSync() && machine.main == Batch(ms, parsed)
      modifies this
      ensures |oracle| <= |old(oracle)|
      ensures BatchOver(r)
    {
      hide Run, Until, Interrupt, Executions, Children, HandleNext;
      var a := Suspend();
      if a.None? { return Stopped; }
      log := log + Executions(parsed, Observe(world, Ack(0), a.value));
      if a.value.BatchReturned? {
        if |a.value.all| == |parsed| {
          return Ok(Some(Delivering(Children(parsed, a.value.all), None)));
        }
        idle := true;
        return Ok(Some(Delivering([], Some(OtherError))));
      }
      if a.value.Raise? && a.value.fault == ForcedCancel {
        assert machine == Interrupt(Fields(), ForcedCancel) by { ForcedEnds(Fields()); }
        return Threw(ForcedCancel);
      }
      var done :- ProcessEach(ms);
      r := Ok(None);
    }

    /** How the step relation stands when `_process_batch` is over: the caller has
        yet to store the delivery task. */
    ghost predicate BatchOver(r: Reply<Option<Slot>>)
      reads this
    {
      && Valid() && (r.Stopped? ==> Halted())
      && (r.Ok? ==> machine == ToHead(if r.value.Some? then Fields().(slot := r.value.value) else Fields()))
      && (r.Threw? ==> machine == Interrupt(Fields(), r.fault))
    }

    /** `_process_batch`. */
    method ProcessBatch(ms: seq<Message>) returns (r: Reply<Option<Slot>>)
      requires Valid() && machine == EnterFilter(Fields(), ms, 0, [])
      modifies this
      ensures |oracle| <= |old(oracle)|
      ensures BatchOver(r)
    {
      hide Run, Until, Interrupt, EnterFilter;
      var parsed := [];
      var i := 0;
      while i < |ms|
        invariant i <= |ms| && Valid() && machine == EnterFilter(Fields(), ms, i, parsed) && |oracle| <= |old(oracle)|
      {
        var joins :- FilterMessage(ms, i, parsed);
        if joins { parsed := parsed + [ms[i]]; }
        i := i + 1;
      }
      FilterEnds(Fields(), ms, parsed);
      if parsed == [] { return Ok(None); }
      idle := false;
      var marked :- MarkBatch(ms, parsed);
      r := ExecuteBatch(ms, parsed);
    }

    /** How the step relation stands after the body of the loop's `try`. */
    ghost predicate IterationOver(r: Reply<()>)
      reads this
    {
      && Valid() && (r.Stopped? ==> Halted())
      && (r.Ok? ==> machine == ToHead(Fields()))
      && (r.Threw? ==> machine == Interrupt(Fields(), r.fault))
    }

    /** `xreadgroup`; on success the connection counts as healthy again. */
    method ReadMessages() returns (r: Reply<(seq<Message>, bool)>)
      requires InSync() && machine.main.Loop?
      modifies this
      ensures |oracle| <= |old(oracle)| && (!r.Stopped? ==> |oracle| < |old(oracle)|)
      ensures Valid() && (r.Stopped? ==> Halted())
      ensures r.Threw? ==> machine == Interrupt(Fields(), r.fault)
      ensures r.Ok? ==> healthy && failures == 0
      ensures r.Ok? ==> machine == if slot.Empty? then Dispatch(Fields(), r.value.0, r.value.1)
                                   else Sys(Fields(), AwaitSlot(r.value.0, r.value.1))
    {
      hide Run, Until, Interrupt, Dispatch, Deliver, Fresh;
      while true
        invariant InSync() && machine.main.Loop? && |oracle| <= |old(oracle)|
        decreases |oracle|
      {
        var a := Suspend();
        if a.None? { return Stopped; }
        match a.value {
          case Read(ms, recheck) =>
            if Fresh(world, ms) && |ms| <= (if canBatch then READ_COUNT else 1) {
              world := Deliver(world, ms);
              healthy := true;
              failures := 0;
              return Ok((ms, recheck));
            }
          case LostRead(f, ms) =>
            if Fresh(world, ms) {
              world := Deliver(world, ms);
              return Threw(f);
            }
          case Raise(f, _) => return Threw(f);
          case _ =>
        }
      }
    }

    /** `await self._pending_batch_delivery`, then clear the slot: a task that ended
        with an exception raises it here and stays in the slot. */
    method AwaitDelivery(ms: seq<Message>, recheck: bool) returns (r: Reply<()>)
      requires InSync() && machine.main == AwaitSlot(ms, recheck)
      modifies this
      ensures |oracle| <= |old(oracle)|
      ensures Valid() && (r.Stopped? ==> Halted())
      ensures r.Threw? ==> machine == Interrupt(Fields(), r.fault)
      ensures r.Ok? ==> slot.Empty? && machine == Dispatch(Fields(), ms, recheck)
    {
      hide Run, Until, Interrupt, Dispatch, KillAll, TaskOver;
      while true
        invariant InSync() && machine.main == AwaitSlot(ms, recheck) && |oracle| <= |old(oracle)|
        decreases |oracle|
      {
        var a := Suspend();
        if a.None? { return Stopped; }
        TaskOverDelivering(slot);
        if a.value.Raise? && a.value.fault == ForcedCancel {
          if slot.Delivering? && !TaskOver(slot) {
            slot := KillAll(slot);
            idle := true;
          }
          ForcedEnds(Fields());
          return Threw(ForcedCancel);
        }
        if TaskOver(slot) {
          if slot.aborted.Some? { return Threw(slot.aborted.value); }
          slot := Empty;
          return Ok(());
        }
      }
    }

    /** What the loop does with the messages of one read. */
    method HandleRead(ms: seq<Message>, recheck: bool) returns (r: Reply<()>)
      requires Valid() && machine == Dispatch(Fields(), ms, recheck)
      modifies this
      ensures |oracle| <= |old(oracle)|
      ensures IterationOver(r)
    {
      hide Run, Until, Interrupt, EnterFilter, HandleNext;
      if ms == [] {
        if recheck {
          var recovered :- RecoverPending(true);
        }
      } else if canBatch && |ms| > 1 {
        var delivery :- ProcessBatch(ms);
        if delivery.Some? { slot := delivery.value; }
      } else {
        var done :- ProcessEach(ms);
      }
      r := Ok(());
    }

    /** The body of the loop's `try`. */
    method Iterate() returns (r: Reply<()>)
      requires InSync() && machine.main.Loop?
      modifies this
      ensures |oracle| <= |old(oracle)| && (!r.Stopped? ==> |oracle| < |old(oracle)|)
      ensures IterationOver(r)
    {
      hide Run, Until, Interrupt, Dispatch;
      var got :- ReadMessages();
      var (ms, recheck) := got;
      if slot.Delivering? {
        var awaited :- AwaitDelivery(ms, recheck);
      }
      r := HandleRead(ms, recheck);
    }

    /** The `except` clauses of the loop; the value returned says whether the loop
        goes on. */
    method Recover(f: Fault) returns (r: Reply<bool>)
      requires Valid() && machine == Interrupt(Fields(), f)
      modifies this
      ensures |oracle| <= |old(oracle)|
      ensures Valid() && !r.Threw? && (r.Stopped? ==> Halted())
      ensures r.Ok? && r.value ==> machine == ToHead(Fields())
      ensures r.Ok? && !r.value ==> machine == Sys(Fields(), Ended)
    {
      hide Run, Until, Backoff;
      match f {
        case Connection =>
          healthy := false;
          failures := failures + 1;
          // computing 2.0 ** 1024 raises inside the handler
          if failures > MAX_FAILURES { return Ok(false); }
        case OtherError =>
        case ForcedCancel => return Ok(false);
      }
      var delay := if f.Connection? then Backoff(failures) else 1;
      assert machine.main == Sleep(delay);
      var a := Suspend();
      if a.None? { return Stopped; }
      r := Ok(!(a.value.Raise? && a.value.fault == ForcedCancel));
    }

    /** `consume_loop`: for every behaviour of the environment the loop follows the
        step relation until the process stops or the relation says it has ended, and
        whenever that is, what was delivered is pending or acknowledged for a reason. */
    method ConsumeLoop() returns (ended: bool)
      requires InSync() && machine.main == ListPending(false) && Safe(origin) && Serial(origin)
      modifies this
      ensures InSync() && Safe(machine) && Serial(machine)
      ensures ended ==> machine.main.Ended?
      ensures !ended ==> Halted()
    {
      ended := FollowLoop();
      RunSafe(origin, taken);
      RunSerial(origin, taken);
    }

    method FollowLoop() returns (ended: bool)
      requires InSync() && machine.main == ListPending(false)
      modifies this
      ensures InSync()
      ensures ended ==> machine.main.Ended?
      ensures !ended ==> Halted()
    {
      hide Run, Until, Interrupt;
      var recovered := RecoverPending(false);
      if recovered.Stopped? { return false; }
      if recovered.Threw? { return true; }
      while running
        invariant Valid() && machine == ToHead(Fields())
        decreases |oracle|
      {
        var r := Iterate();
        if r.Stopped? { return false; }
        if r.Threw? {
          var on := Recover(r.fault);
          if on.Stopped? { return false; }
          if !on.value { return true; }
        }
      }
      ended := true;
    }
  }
}
