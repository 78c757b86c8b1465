/** The handling of one message as a program that makes one call at a time and
    is driven by the replies: `_process_message` with
    `_run_job_with_cancellation`, and the delivery of one batch result. */
module Handling {
  import opened Options
  import opened Wire

  datatype Exit = Return | Escape(fault: Fault)

  /** The await at which a `_process_message` call stands. */
  datatype Pc =
    | AskStatus
    | AskCancel
    | MarkBefore
    | AckEarly
    | MarkExecuting
    | Waiting
    | AskWhileRunning
    | StopRunner
    | ReapRunner
    | AskReturned(c: string)
    | AskAfterRun(c: string)
    | MarkCompleted(c: string)
    | AskBeforeSend(c: string)
    | SendResult(c: string)
    | MarkCancelled
    | AskInHandler
    | MarkFailed
    | SendError
    | FinalAck(exit: Exit)
    | Finished(exit: Exit)

  function Start(m: Message): Pc {
    if m.WellAddressed() then AskStatus else AckEarly
  }

  /** The awaits before a job is started, shared by the single and the batch path. */
  predicate InGate(pc: Pc) { pc.AskStatus? || pc.AskCancel? || pc.MarkBefore? || pc.AckEarly? }

  function CallAt(m: Message, pc: Pc): Call {
    match pc
    case AskStatus => ReadState(m.Job())
    case AskCancel => Poll(m.Job())
    case MarkBefore => Write(m.Job(), Cancelled)
    case AckEarly => Ack(m.id)
    case MarkExecuting => Write(m.Job(), Executing)
    case Waiting => Execute(m.Job(), m.Task())
    case AskWhileRunning => Poll(m.Job())
    case StopRunner => CancelHook(m.Job())
    case ReapRunner => Reap(m.Job())
    case AskReturned(_) => Poll(m.Job())
    case AskAfterRun(_) => Poll(m.Job())
    case MarkCompleted(_) => Write(m.Job(), Completed)
    case AskBeforeSend(_) => Poll(m.Job())
    case SendResult(c) => Send(Result(m.Job(), m.Url(), c))
    case MarkCancelled => Write(m.Job(), Cancelled)
    case AskInHandler => Poll(m.Job())
    case MarkFailed => Write(m.Job(), Failed)
    case SendError => Send(Error(m.Job(), m.Url()))
    case FinalAck(_) => Ack(m.id)
    case Finished(_) => Ack(m.id)
  }

  /** `_safe_hset` and `_safe_xack` absorb connection errors only. */
  predicate Hard(g: Got) { g.Err? && g.fault != Connection }

  /** Where an exception raised inside the `try` block goes: `except Exception`
      does not catch a forced cancellation, `finally` runs in both cases. */
  function Thrown(f: Fault): Pc {
    if f == ForcedCancel then FinalAck(Escape(f)) else AskInHandler
  }

  function Advance(m: Message, pc: Pc, g: Got): Pc {
    match pc
    case AskStatus =>
      if g.Err? then Finished(Escape(g.fault)) else if g.Yes? then AckEarly else AskCancel
    case AskCancel =>
      if g.Err? then Finished(Escape(g.fault)) else if g.Yes? then MarkBefore else MarkExecuting
    case MarkBefore => if Hard(g) then Finished(Escape(g.fault)) else AckEarly
    case AckEarly => if Hard(g) then Finished(Escape(g.fault)) else Finished(Return)
    case MarkExecuting =>
      if Hard(g) then Finished(Escape(g.fault))
      else if m.work.None? then AskInHandler else Waiting
    case Waiting =>
      if g.Err? then Thrown(g.fault) else if g.Value? then AskReturned(g.counts) else AskWhileRunning
    case AskWhileRunning =>
      if g.Err? then Thrown(g.fault) else if g.Yes? then StopRunner else Waiting
    case StopRunner => if g == Err(ForcedCancel) then FinalAck(Escape(ForcedCancel)) else ReapRunner
    case ReapRunner => MarkCancelled
    case AskReturned(c) =>
      if g.Err? then Thrown(g.fault) else if g.Yes? then MarkCancelled else AskAfterRun(c)
    case AskAfterRun(c) =>
      if g.Err? then Thrown(g.fault) else if g.Yes? then MarkCancelled else MarkCompleted(c)
    case MarkCompleted(c) => if Hard(g) then Thrown(g.fault) else AskBeforeSend(c)
    case AskBeforeSend(c) =>
      if g.Err? then Thrown(g.fault) else if g.Yes? then MarkCancelled else SendResult(c)
    case SendResult(_) => if g.Err? then Thrown(g.fault) else FinalAck(Return)
    case MarkCancelled => if Hard(g) then FinalAck(Escape(g.fault)) else FinalAck(Return)
    case AskInHandler =>
      if g.Err? then FinalAck(Escape(g.fault)) else if g.Yes? then MarkCancelled else MarkFailed
    case MarkFailed => if Hard(g) then FinalAck(Escape(g.fault)) else SendError
    case SendError => if g == Err(ForcedCancel) then FinalAck(Escape(ForcedCancel)) else FinalAck(Return)
    case FinalAck(e) => if Hard(g) then Finished(Escape(g.fault)) else Finished(e)
    case Finished(_) => pc
  }

  /** The await at which the delivery of one batch result stands. */
  datatype DPc = DAsk | DMarkCompleted | DAskAgain | DMarkCancelled | DSend | DAck | DDone | DFailed(fault: Fault)

  predicate Over(pc: DPc) { pc.DDone? || pc.DFailed? }

  function DCallAt(m: Message, c: string, pc: DPc): Call {
    match pc
    case DAsk => Poll(m.Job())
    case DMarkCompleted => Write(m.Job(), Completed)
    case DAskAgain => Poll(m.Job())
    case DMarkCancelled => Write(m.Job(), Cancelled)
    case DSend => Send(Result(m.Job(), m.Url(), c))
    case _ => Ack(m.id)
  }

  function DAdvance(pc: DPc, g: Got): DPc {
    match pc
    case DAsk => if g.Err? then DFailed(g.fault) else if g.Yes? then DMarkCancelled else DMarkCompleted
    case DMarkCompleted => if Hard(g) then DFailed(g.fault) else DAskAgain
    case DAskAgain => if g.Err? then DFailed(g.fault) else if g.Yes? then DMarkCancelled else DSend
    case DMarkCancelled => if Hard(g) then DFailed(g.fault) else DAck
    case DSend => if g == Err(ForcedCancel) then DFailed(ForcedCancel) else DAck
    case DAck => if Hard(g) then DFailed(g.fault) else DDone
    case _ => pc
  }
}
