/** What the consumer talks to: the Redis side of the job stream and the
    cloud's webhook inbox, together with the calls made on them and the ways
    an awaited call can end. */
module Wire {
  import opened Options

  type JobId = string

  /** A circuit and shot count that deserialised successfully. */
  datatype Work = Work(program: string, shots: int)

  /** A stream entry after field decoding.  An absent `job_id` or
      `callback_url` is None; `work` is None when `ir_json` or `shots` is
      absent or does not parse. */
  datatype Message = Message(id: nat, job: Option<JobId>, url: Option<string>, work: Option<Work>) {
    predicate WellAddressed() { job.Some? && url.Some? }
    function Job(): JobId { if job.Some? then job.value else "" }
    function Url(): string { if url.Some? then url.value else "" }
    function Task(): Work { if work.Some? then work.value else Work("", 0) }
  }

  datatype State = Executing | Completed | Failed | Cancelled

  predicate Terminal(s: State) { s == Completed || s == Cancelled }

  datatype Post =
    | Result(job: JobId, url: string, counts: string)
    | Error(job: JobId, url: string)

  /** `entries` holds every entry ever delivered to this consumer, `trimmed`
      the ones no longer in the stream, `pel` the unacknowledged ids, oldest
      first. */
  datatype World = World(
    entries: map<nat, Message>,
    trimmed: set<nat>,
    last: nat,
    pel: seq<nat>,
    acked: set<nat>,
    status: map<JobId, State>,
    cancels: set<JobId>,
    inbox: multiset<Post>)

  /** A raised `ConnectionError` (or `OSError`), any other `Exception`, and
      `asyncio.CancelledError`, which is not an `Exception`. */
  datatype Fault = Connection | OtherError | ForcedCancel

  /** One awaited call made on behalf of a message. */
  datatype Call =
    | ReadState(job: JobId)
    | Poll(job: JobId)
    | Write(job: JobId, state: State)
    | Ack(id: nat)
    | Execute(job: JobId, work: Work)
    | CancelHook(job: JobId)
    | Reap(job: JobId)
    | Send(post: Post)

  /** How the environment ends an await.  A call that raised may still have
      taken effect on the server before its reply was lost. */
  datatype Answer =
    | Fine
    | Raise(fault: Fault, applied: bool)
    | StillRunning
    | Returned(counts: string)
    | BatchReturned(all: seq<string>)
    | Read(ms: seq<Message>, recheck: bool)
    | LostRead(fault: Fault, ms: seq<Message>)

  /** What the program sees. */
  datatype Got = Yes | No | Done | Busy | Value(counts: string) | Err(fault: Fault)

  /** A history entry: which message, which call, what came back. */
  datatype Entry = Entry(id: nat, call: Call, got: Got)

  predicate Flagged(w: World, j: JobId) { j in w.cancels }

  predicate Settled(w: World, j: JobId) { j in w.status && Terminal(w.status[j]) }

  function YesNo(b: bool): Got { if b then Yes else No }

  /** An answer of the wrong shape counts as an ordinary exception. */
  function Observe(w: World, call: Call, a: Answer): Got {
    if a.Raise? then Err(a.fault)
    else if a.LostRead? then Err(a.fault)
    else match call
      case ReadState(j) => YesNo(Settled(w, j))
      case Poll(j) => YesNo(Flagged(w, j))
      case Execute(_, _) => if a.Returned? then Value(a.counts) else if a.StillRunning? then Busy else Err(OtherError)
      case _ => Done
  }

  predicate TookEffect(a: Answer) {
    match a
    case Raise(_, applied) => applied
    case LostRead(_, _) => false
    case _ => true
  }

  /** The pending list without the ids in `gone`. */
  function Keep(pel: seq<nat>, gone: set<nat>): seq<nat> {
    if pel == [] then []
    else (if pel[0] in gone then [] else [pel[0]]) + Keep(pel[1..], gone)
  }

  function Perform(w: World, call: Call, a: Answer): World {
    if !TookEffect(a) then w
    else match call
      case Write(j, s) => w.(status := w.status[j := s])
      case Ack(id) => w.(pel := Keep(w.pel, {id}), acked := w.acked + {id})
      case Send(p) => w.(inbox := w.inbox + multiset{p})
      case _ => w
  }

  /** New entries carry ids above every delivered one, in stream order. */
  predicate Fresh(w: World, ms: seq<Message>) {
    && (forall i :: 0 <= i < |ms| ==> w.last < ms[i].id)
    && (forall i, j :: 0 <= i < j < |ms| ==> ms[i].id < ms[j].id)
  }

  /** XREADGROUP: the entries become this consumer's pending entries. */
  function Deliver(w: World, ms: seq<Message>): World
    decreases |ms|
  {
    if ms == [] then w
    else Deliver(w.(entries := w.entries[ms[0].id := ms[0]],
                    last := if ms[0].id > w.last then ms[0].id else w.last,
                    pel := w.pel + [ms[0].id]), ms[1..])
  }
}
