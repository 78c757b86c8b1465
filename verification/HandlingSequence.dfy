/** The calls of a handling, read off its history alone: which call comes next, when there is
    none, and how the handling ends, without reference to the program that makes the calls. */
module HandlingSequence {
  import opened Options
  import opened Wire
  import opened Handling
  import opened HandlingHistory

  /** Not a connection error, so `_safe_hset` and `_safe_xack` let it through. */
  predicate Raises(g: Got) { g == Err(OtherError) || g == Err(ForcedCancel) }

  /** What a cancel poll is for. */
  datatype Role = First | WhileRunning | AtReturn | AfterRun | BeforeSend | InHandler

  /** What a poll made after this history is for: only the last call and its reply matter. */
  function RoleAfter(h: seq<Entry>): Role
    requires h != []
  {
    var e := h[|h| - 1];
    if |h| == 1 then First
    else match e.call
      case Execute(_, _) => if e.got.Err? then InHandler else if e.got.Value? then AtReturn else WhileRunning
      case Poll(_) => if e.got.Err? then InHandler else AfterRun
      case Write(_, state) => if state == Completed && !Raises(e.got) then BeforeSend else InHandler
      case _ => InHandler
  }

  /** The result of the runner, four calls before the last one. */
  function CountsBefore(h: seq<Entry>): string {
    if |h| >= 5 && h[|h| - 5].got.Value? then h[|h| - 5].got.counts else ""
  }

  /** The call after a poll with that role and reply. */
  function AfterPoll(m: Message, role: Role, g: Got, counts: string): Option<Call> {
    var job := m.Job();
    if g.Err? then
      if role == First then None
      else if role == InHandler || g.fault == ForcedCancel then Some(Ack(m.id))
      else Some(Poll(job))
    else if g.Yes? then
      Some(if role == WhileRunning then CancelHook(job) else Write(job, Cancelled))
    else match role
      case First => Some(Write(job, Executing))
      case WhileRunning => Some(Execute(job, m.Task()))
      case AtReturn => Some(Poll(job))
      case AfterRun => Some(Write(job, Completed))
      case BeforeSend => Some(Send(Result(job, m.Url(), counts)))
      case InHandler => Some(Write(job, Failed))
  }

  /** An exception in the `try` block: the handler polls, unless the task itself is being cancelled. */
  function AfterRaise(m: Message, f: Fault): Call { if f == ForcedCancel then Ack(m.id) else Poll(m.Job()) }

  function AfterWrite(m: Message, state: State, g: Got, early: bool): Option<Call> {
    match state
    case Cancelled => if early && Raises(g) then None else Some(Ack(m.id))
    case Executing =>
      if Raises(g) then None else Some(if m.work.None? then Poll(m.Job()) else Execute(m.Job(), m.Task()))
    case Completed => Some(if Raises(g) then AfterRaise(m, g.fault) else Poll(m.Job()))
    case Failed => Some(if Raises(g) then Ack(m.id) else Send(Error(m.Job(), m.Url())))
  }

  /** The next call of a handling with this history; None when it has ended. */
  function NextCall(m: Message, h: seq<Entry>): Option<Call> {
    if h == [] then Some(if m.WellAddressed() then ReadState(m.Job()) else Ack(m.id))
    else
      var (before, e) := (h[..|h| - 1], h[|h| - 1]);
      match e.call
      case ReadState(_) => if e.got.Err? then None else Some(if e.got.Yes? then Ack(m.id) else Poll(m.Job()))
      case Poll(_) => if before == [] then None else AfterPoll(m, RoleAfter(before), e.got, CountsBefore(h))
      case Write(_, state) => AfterWrite(m, state, e.got, |h| == 3)
      case Execute(_, _) => Some(if e.got.Err? then AfterRaise(m, e.got.fault) else Poll(m.Job()))
      case CancelHook(_) => Some(if e.got == Err(ForcedCancel) then Ack(m.id) else Reap(m.Job()))
      case Reap(_) => Some(Write(m.Job(), Cancelled))
      case Send(Result(_, _, _)) => Some(if e.got.Err? then AfterRaise(m, e.got.fault) else Ack(m.id))
      case Send(Error(_, _)) => Some(Ack(m.id))
      case Ack(_) => None
  }

  // ---- the program makes exactly these calls ----

  ghost predicate At(h: seq<Entry>, back: nat, g: Got) { back <= |h| && back > 0 && h[|h| - back].got == g }

  ghost predicate RoleIs(pc: Pc, h: seq<Entry>) {
    match pc
    case AskCancel => |h| == 1 && RoleAfter(h) == First
    case AskWhileRunning => |h| >= 3 && RoleAfter(h) == WhileRunning
    case AskReturned(c) => |h| >= 3 && RoleAfter(h) == AtReturn && At(h, 1, Value(c))
    case AskAfterRun(c) => |h| >= 3 && RoleAfter(h) == AfterRun && At(h, 2, Value(c))
    case AskBeforeSend(c) => |h| >= 3 && RoleAfter(h) == BeforeSend && At(h, 4, Value(c))
    case AskInHandler => |h| >= 3 && RoleAfter(h) == InHandler
    case AskStatus => h == []
    case AckEarly => true
    case MarkBefore => |h| == 2
    case MarkExecuting => |h| == 2
    case MarkCompleted(c) => |h| >= 3 && At(h, 3, Value(c))
    case _ => |h| >= 3 || pc.Finished?
  }

  ghost predicate Linked(m: Message, pc: Pc, h: seq<Entry>) {
    RoleIs(pc, h) && NextCall(m, h) == if pc.Finished? then None else Some(CallAt(m, pc))
  }

  lemma SnocParts(h: seq<Entry>, e: Entry)
    ensures var h1 := h + [e]; h1[..|h1| - 1] == h && h1[|h1| - 1] == e
    ensures forall back: nat, g :: back > 0 ==> (At(h + [e], back + 1, g) <==> At(h, back, g))
    ensures forall g :: At(h + [e], 1, g) <==> e.got == g
  {
  }

  lemma LinkedStep(m: Message, pc: Pc, h: seq<Entry>, g: Got)
    requires Linked(m, pc, h) && !pc.Finished?
    ensures Linked(m, Advance(m, pc, g), h + [Entry(m.id, CallAt(m, pc), g)])
  {
    SnocParts(h, Entry(m.id, CallAt(m, pc), g));
  }

  /** Every call of the history is the one due at its place. */
  ghost predicate InSequence(m: Message, t: seq<Entry>) {
    forall i :: 0 <= i < |t| ==> t[i].id == m.id && NextCall(m, t[..i]) == Some(t[i].call)
  }

  lemma SequenceGrow(m: Message, h: seq<Entry>, e: Entry)
    requires InSequence(m, h) && e.id == m.id && NextCall(m, h) == Some(e.call)
    ensures InSequence(m, h + [e])
  {
    hide NextCall;
    var h1 := h + [e];
    assert forall i :: 0 <= i < |h| ==> h1[..i] == h[..i] && h1[i] == h[i];
    assert h1[..|h|] == h;
  }

  lemma {:induction false} LinkedTrace(m: Message, gs: seq<Got>)
    ensures var (p, t) := Trace(m, gs); Linked(m, p, t) && InSequence(m, t)
  {
    if gs != [] {
      LinkedTrace(m, gs[..|gs| - 1]);
      var (pc, h) := Trace(m, gs[..|gs| - 1]);
      var g := gs[|gs| - 1];
      if !pc.Finished? {
        LinkedStep(m, pc, h, g);
        hide RoleIs, Advance, NextCall, CallAt;
        SequenceGrow(m, h, Entry(m.id, CallAt(m, pc), g));
      }
      hide Linked, InSequence, Advance;
    }
  }

  /** The whole sequence: for all replies, every call a handling makes is the one its history calls for, and it
      has ended exactly when its history calls for none. */
  lemma SequenceExact(m: Message, gs: seq<Got>)
    ensures var (p, t) := Trace(m, gs);
      && InSequence(m, t)
      && NextCall(m, t) == (if p.Finished? then None else Some(CallAt(m, p)))
  {
    LinkedTrace(m, gs);
  }

  /** What follows a result webhook that fails. */
  ghost predicate Reported(m: Message, t: seq<Entry>, i: nat) {
    && (i + 1 < |t| ==> t[i + 1].call == Poll(m.Job()))
    && (i + 2 < |t| && !t[i + 1].got.Err? && !t[i + 1].got.Yes? ==> t[i + 2].call == Write(m.Job(), Failed))
    && (i + 3 < |t| && !t[i + 1].got.Err? && !t[i + 1].got.Yes? && !Raises(t[i + 2].got) ==>
          t[i + 3].call == Send(Error(m.Job(), m.Url())))
  }

  /** The result webhook raised an ordinary exception. */
  ghost predicate ResultFailed(e: Entry) {
    e.call.Send? && e.call.post.Result? && (e.got == Err(Connection) || e.got == Err(OtherError))
  }

  lemma ReportedInSequence(m: Message, t: seq<Entry>, i: nat)
    requires InSequence(m, t) && i < |t| && ResultFailed(t[i])
    ensures Reported(m, t, i)
  {
    FirstIsNotSend(m, t, i);
    hide NextCall;
    if i + 1 < |t| {
      LastOf(t, i);
      AfterFailure(m, t[..i + 1]);
    }
    if i + 2 < |t| {
      LastOf(t, i + 1);
      AfterHandlerNo(m, t[..i + 2]);
    }
    if i + 3 < |t| {
      LastOf(t, i + 2);
      AfterFailedWrite(m, t[..i + 3]);
    }
  }

  lemma AfterFailure(m: Message, h: seq<Entry>)
    requires |h| >= 2 && ResultFailed(h[|h| - 1])
    ensures NextCall(m, h) == Some(Poll(m.Job())) && RoleAfter(h) == InHandler
  {
  }

  lemma AfterHandlerNo(m: Message, h: seq<Entry>)
    requires |h| >= 2
    ensures var (before, e) := (h[..|h| - 1], h[|h| - 1]);
      e.call.Poll? && RoleAfter(before) == InHandler && !e.got.Err? && !e.got.Yes? ==>
        NextCall(m, h) == Some(Write(m.Job(), Failed))
  {
  }

  lemma AfterFailedWrite(m: Message, h: seq<Entry>)
    requires h != []
    ensures var e := h[|h| - 1];
      e.call.Write? && e.call.state == Failed && !Raises(e.got) ==>
        NextCall(m, h) == Some(Send(Error(m.Job(), m.Url())))
  {
  }

  lemma LastOf(t: seq<Entry>, i: nat)
    requires i < |t|
    ensures var h := t[..i + 1]; h[|h| - 1] == t[i] && h[..|h| - 1] == t[..i]
  {
  }

  /** A result webhook that fails is followed by the poll of the handler; if that says no, by the `failed` write;
      and if that does not raise through, by the error webhook. */
  lemma FailedWebhook(m: Message, gs: seq<Got>, i: nat)
    requires i < |Trace(m, gs).1| && ResultFailed(Trace(m, gs).1[i])
    ensures Reported(m, Trace(m, gs).1, i)
  {
    hide Reported, ResultFailed, InSequence, NextCall;
    SequenceExact(m, gs);
    ReportedInSequence(m, Trace(m, gs).1, i);
  }

  lemma FirstIsNotSend(m: Message, t: seq<Entry>, i: nat)
    requires InSequence(m, t) && i < |t| && t[i].call.Send?
    ensures i >= 1
  {
    assert t[..0] == [];
  }

  // ---- how it ends ----

  /** How the call before the acknowledgement lets the handling end. */
  function Out(h: seq<Entry>): Exit {
    if h == [] then Return
    else
      var e := h[|h| - 1];
      if !e.got.Err? then Return
      else if e.call.Poll? then Escape(e.got.fault)
      else if e.call.Write? && (e.call.state == Failed || e.call.state == Cancelled) && Raises(e.got) then
        Escape(e.got.fault)
      else if e.got.fault == ForcedCancel && !e.call.Reap? then Escape(ForcedCancel)
      else Return
  }

  /** The end of a handling with this history: the last call raised through, or the one before let it end so. */
  function ExitOf(t: seq<Entry>): Exit
    requires t != []
  {
    var e := t[|t| - 1];
    if Raises(e.got) || (e.got.Err? && !e.call.Ack?) then Escape(e.got.fault) else Out(t[..|t| - 1])
  }

  ghost predicate ExitInv(pc: Pc, h: seq<Entry>) {
    && (pc.AckEarly? ==> Out(h) == Return)
    && (pc.FinalAck? ==> Out(h) == pc.exit)
    && (pc.Finished? ==> h != [] && ExitOf(h) == pc.exit)
  }

  lemma ExitStep(m: Message, pc: Pc, h: seq<Entry>, g: Got)
    requires ExitInv(pc, h) && !pc.Finished?
    ensures ExitInv(Advance(m, pc, g), h + [Entry(m.id, CallAt(m, pc), g)])
  {
    SnocParts(h, Entry(m.id, CallAt(m, pc), g));
  }

  lemma {:induction false} ExitTrace(m: Message, gs: seq<Got>)
    ensures var (p, t) := Trace(m, gs); ExitInv(p, t)
  {
    if gs != [] {
      ExitTrace(m, gs[..|gs| - 1]);
      var (pc, h) := Trace(m, gs[..|gs| - 1]);
      if !pc.Finished? { ExitStep(m, pc, h, gs[|gs| - 1]); }
      hide ExitInv, Advance;
    }
  }

  /** The exit is exact: an ended handling returns or raises as its last two replies say. */
  lemma ExitExact(m: Message, gs: seq<Got>)
    requires Trace(m, gs).0.Finished?
    ensures var (p, t) := Trace(m, gs); t != [] && p == Finished(ExitOf(t))
  {
    ExitTrace(m, gs);
  }

  // ---- completed or failed ----

  ghost predicate LastIs(h: seq<Entry>, call: Call) { h != [] && h[|h| - 1].call == call }

  /** The result webhook was the last call and returned normally. */
  ghost predicate ResultSent(h: seq<Entry>) {
    h != [] && h[|h| - 1].call.Send? && h[|h| - 1].call.post.Result? && !h[|h| - 1].got.Err?
  }

  ghost predicate EndsFailed(w: seq<State>) { |w| >= 2 && w[|w| - 1] == Failed }

  ghost predicate OutcomeInv(m: Message, pc: Pc, h: seq<Entry>) {
    && (pc.StopRunner? || pc.ReapRunner? || pc.MarkCancelled? ==> SawYes(h))
    && (pc == FinalAck(Return) && !SawYes(h) ==>
          if ResultSent(h) then Writes(h) == [Executing, Completed]
          else LastIs(h, Send(Error(m.Job(), m.Url()))) && EndsFailed(Writes(h)))
  }

  lemma OutcomeStep(m: Message, pc: Pc, h: seq<Entry>, g: Got)
    requires OutcomeInv(m, pc, h) && !pc.Finished?
    requires pc.SendResult? ==> Writes(h) == [Executing, Completed]
    requires pc.SendError? ==> EndsFailed(Writes(h))
    ensures OutcomeInv(m, Advance(m, pc, g), h + [Entry(m.id, CallAt(m, pc), g)])
  {
    hide Advance, CallAt, Writes, SawYes, Delivered, EndsFailed;
    var e := Entry(m.id, CallAt(m, pc), g);
    var h1 := h + [e];
    assert h1[|h|] == e;
    SawYesGrow(h, e);
    StoppedBy(m, pc, g);
    if Advance(m, pc, g) == FinalAck(Return) && !SawYes(h1) {
      ReturnFrom(m, pc, g);
      SameWrites(h, e);
    }
  }

  lemma SameWrites(h: seq<Entry>, e: Entry)
    requires !e.call.Write?
    ensures Writes(h + [e]) == Writes(h)
  {
    Grow(h, e);
    assert Writes(h) + [] == Writes(h);
  }

  /** A handling is on its way to the `cancelled` write only after a positive poll. */
  lemma StoppedBy(m: Message, pc: Pc, g: Got)
    ensures var next := Advance(m, pc, g);
      next.StopRunner? || next.ReapRunner? || next.MarkCancelled? ==>
        pc.StopRunner? || pc.ReapRunner? || IsYes(Entry(m.id, CallAt(m, pc), g))
  {
  }

  lemma ReturnFrom(m: Message, pc: Pc, g: Got)
    requires Advance(m, pc, g) == FinalAck(Return) && !pc.Finished?
    ensures (pc.SendResult? && !g.Err? && CallAt(m, pc).Send? && CallAt(m, pc).post.Result?)
      || (pc.SendError? && CallAt(m, pc) == Send(Error(m.Job(), m.Url())))
      || pc.MarkCancelled?
  {
  }

  lemma PathFacts(pc: Pc, h: seq<Entry>)
    requires PathInv(pc, h)
    ensures pc.SendResult? ==> Writes(h) == [Executing, Completed]
    ensures pc.SendError? ==> EndsFailed(Writes(h))
  {
    hide Writes, Delivered;
  }

  lemma {:induction false} OutcomeTrace(m: Message, gs: seq<Got>)
    ensures var (p, t) := Trace(m, gs); OutcomeInv(m, p, t)
  {
    if gs != [] {
      OutcomeTrace(m, gs[..|gs| - 1]);
      TraceInv(m, gs[..|gs| - 1]);
      var (pc, h) := Trace(m, gs[..|gs| - 1]);
      if !pc.Finished? {
        PathFacts(pc, h);
        hide PathInv, CancelInv, EndsFailed;
        OutcomeStep(m, pc, h, gs[|gs| - 1]);
      }
      hide OutcomeInv, Advance, PathInv, CancelInv;
    }
  }

  /** A job that ran to a normal end without being cancelled: `completed` is its last state if and only if the
      result webhook returned normally; otherwise the last state is `failed` and the error webhook was attempted. */
  lemma OutcomeExact(m: Message, gs: seq<Got>)
    requires var (p, t) := Trace(m, gs); p == FinalAck(Return) && !SawYes(t)
    ensures var t := Trace(m, gs).1;
      && (Writes(t) == [Executing, Completed] <==> ResultSent(t))
      && (!ResultSent(t) ==> EndsFailed(Writes(t)) && LastIs(t, Send(Error(m.Job(), m.Url()))))
  {
    OutcomeTrace(m, gs);
    hide Trace, Writes, SawYes;
  }

  // ---- the delivery of one batch result ----

  /** The next call of a delivery with this history; None when it is over. */
  function NextDelivery(m: Message, counts: string, h: seq<Entry>): Option<Call> {
    if h == [] then Some(Poll(m.Job()))
    else
      var e := h[|h| - 1];
      if DeliveryFails(e) then None
      else match e.call
        case Poll(_) =>
          Some(if e.got.Yes? then Write(m.Job(), Cancelled)
               else if |h| == 1 then Write(m.Job(), Completed)
               else Send(Result(m.Job(), m.Url(), counts)))
        case Write(_, state) => Some(if state == Completed then Poll(m.Job()) else Ack(m.id))
        case Send(_) => Some(Ack(m.id))
        case _ => None
  }

  /** What makes a delivery fail: a poll that raises, a write or an acknowledgement that raises through, or a
      forced cancellation of the webhook. Other failures of the webhook do not. */
  predicate DeliveryFails(e: Entry) {
    || (e.call.Poll? && e.got.Err?)
    || ((e.call.Write? || e.call.Ack?) && Raises(e.got))
    || (e.call.Send? && e.got == Err(ForcedCancel))
  }

  ghost predicate DLinked(m: Message, c: string, pc: DPc, h: seq<Entry>) {
    && NextDelivery(m, c, h) == (if Over(pc) then None else Some(DCallAt(m, c, pc)))
    && (pc.DAsk? ==> h == []) && (pc.DMarkCompleted? ==> |h| == 1) && (pc.DAskAgain? ==> |h| == 2)
    && (pc.DFailed? <==> h != [] && DeliveryFails(h[|h| - 1]))
    && (pc.DFailed? ==> pc.fault == h[|h| - 1].got.fault)
    && (pc.DDone? ==> h != [] && h[|h| - 1].call == Ack(m.id))
  }

  ghost predicate DInSequence(m: Message, c: string, t: seq<Entry>) {
    forall i :: 0 <= i < |t| ==> t[i].id == m.id && NextDelivery(m, c, t[..i]) == Some(t[i].call)
  }

  lemma DLinkedStep(m: Message, c: string, pc: DPc, h: seq<Entry>, g: Got)
    requires DLinked(m, c, pc, h) && !Over(pc)
    ensures DLinked(m, c, DAdvance(pc, g), h + [Entry(m.id, DCallAt(m, c, pc), g)])
  {
    SnocParts(h, Entry(m.id, DCallAt(m, c, pc), g));
  }

  lemma DSequenceGrow(m: Message, c: string, h: seq<Entry>, e: Entry)
    requires DInSequence(m, c, h) && e.id == m.id && NextDelivery(m, c, h) == Some(e.call)
    ensures DInSequence(m, c, h + [e])
  {
    hide NextDelivery;
    var h1 := h + [e];
    assert forall i :: 0 <= i < |h| ==> h1[..i] == h[..i] && h1[i] == h[i];
    assert h1[..|h|] == h;
  }

  lemma {:induction false} DLinkedTrace(m: Message, c: string, gs: seq<Got>)
    ensures var (p, t) := DTrace(m, c, gs); DLinked(m, c, p, t) && DInSequence(m, c, t)
  {
    if gs != [] {
      DLinkedTrace(m, c, gs[..|gs| - 1]);
      var (pc, h) := DTrace(m, c, gs[..|gs| - 1]);
      var g := gs[|gs| - 1];
      if !Over(pc) {
        DLinkedStep(m, c, pc, h, g);
        hide DAdvance, NextDelivery, DCallAt, DeliveryFails;
        DSequenceGrow(m, c, h, Entry(m.id, DCallAt(m, c, pc), g));
      }
      hide DLinked, DInSequence, DAdvance;
    }
  }

  ghost predicate DeliveryLaw(m: Message, c: string, p: DPc, t: seq<Entry>) {
    && DInSequence(m, c, t)
    && (p.DFailed? <==> t != [] && DeliveryFails(t[|t| - 1]))
    && (p.DFailed? ==> p.fault == t[|t| - 1].got.fault)
    && (p.DDone? ==> t != [] && t[|t| - 1].call == Ack(m.id) && !Raises(t[|t| - 1].got))
  }

  /** For all replies: every call of a delivery is the one its history calls for; it fails if and only if its last
      call is one of those failures, with that fault; and if it does not fail it ends with its acknowledgement. */
  lemma DeliveryExact(m: Message, c: string, gs: seq<Got>)
    ensures DeliveryLaw(m, c, DTrace(m, c, gs).0, DTrace(m, c, gs).1)
  {
    DLinkedTrace(m, c, gs);
    hide DTrace, DInSequence, NextDelivery;
  }

  lemma AckInSequence(m: Message, c: string, t: seq<Entry>, i: nat)
    requires DInSequence(m, c, t) && i + 1 < |t| && t[i].call.Send?
    ensures t[i + 1].call == Ack(m.id)
  {
    LastOf(t, i);
  }

  /** A delivery whose webhook fails acknowledges all the same. */
  lemma DeliveryAcks(m: Message, c: string, gs: seq<Got>, i: nat)
    requires i + 1 < |DTrace(m, c, gs).1| && DTrace(m, c, gs).1[i].call.Send?
    ensures DTrace(m, c, gs).1[i + 1].call == Ack(m.id)
  {
    hide DTrace, DInSequence;
    DeliveryExact(m, c, gs);
    AckInSequence(m, c, DTrace(m, c, gs).1, i);
  }
}
