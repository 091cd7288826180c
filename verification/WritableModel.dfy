/** The writable half of the stream engine: one promise chain that runs `start`, then the
    writes, then `close`, each as the source's promise callbacks do.

    The chain is the list of operations that are not yet settled.  A link of the chain runs
    in three steps: it begins when the link before it has settled, the sink's promise
    settles, and the reaction to that updates the stream.  Other calls may come between. */
module WritableModel {
  import opened Options
  import opened ReadableModel

  datatype Condition = Writable | Failing(storedError: Reason) | Ended

  datatype Task = Start | Write(id: nat, size: real) | Close
  {
    function Size(): real {
      if Write? then size else 0.0
    }
  }

  /** How far a link of the chain is; `result` is the reason of a rejection. */
  datatype Progress = Pending | Running | Settled(result: Option<Reason>)

  datatype Job = Job(task: Task, progress: Progress)

  datatype SinkCall = SinkWrite(id: nat) | SinkClose

  /** How the promise returned by a call on the writer was settled. */
  datatype Outcome = Outcome(task: Task, result: Option<Reason>)

  datatype Sink = Sink(
    highWaterMark: Mark,
    condition: Condition,
    queueTotalSize: real,
    closeQueued: bool,
    /** `Some(pending)` while a writer is attached; `pending` is its `readyPending`. */
    writer: Option<bool>,
    /** The `closed` promise of the writer. */
    writerClosed: Signal,
    jobs: seq<Job>,
    /** How the last settled link of the chain ended. */
    chainError: Option<Reason>,
    // the history
    calls: seq<SinkCall>,
    outcomes: seq<Outcome>,
    nextId: nat,
    everErrored: bool)

  function Constructed(highWaterMark: Mark): Sink {
    Sink(highWaterMark, Writable, 0.0, false, None, Awaited, [Job(Start, Running)], None, [], [], 0, false)
  }

  /** The desired size is not positive; an errored stream has none, which compares as zero. */
  predicate Backpressure(s: Sink) {
    s.condition.Writable? ==> s.highWaterMark.Finite? && s.highWaterMark.limit - s.queueTotalSize <= 0.0
  }

  function UpdateWriterReady(s: Sink): Sink {
    if s.writer.None? then s else s.(writer := Some(Backpressure(s)))
  }

  /** Settle the `closed` promise of an attached writer; a settled promise stays as it is. */
  function Told(s: Sink, signal: Signal): Signal {
    if s.writer.None? || !s.writerClosed.Awaited? then s.writerClosed else signal
  }

  /** What a new writer's `closed` tells. */
  function Announcement(condition: Condition): Signal {
    match condition
    case Writable => Awaited
    case Failing(reason) => Rejected(reason)
    case Ended => Resolved
  }

  function ErrorWritable(s: Sink, reason: Reason): Sink {
    if !s.condition.Writable? then s
    else s.(condition := Failing(reason),
            queueTotalSize := 0.0,
            writer := if s.writer.Some? then Some(false) else None,
            writerClosed := Told(s, Rejected(reason)),
            everErrored := true)
  }

  /** The total after an operation of this size; never negative. */
  function Reduce(total: real, size: real): real {
    if total - size >= 0.0 then total - size else 0.0
  }

  datatype Attempt = Attempt(sink: Sink, refused: Option<Reason>)

  function WriteWritable(s: Sink, size: Measure): Attempt {
    if s.condition.Failing? then Attempt(s, Some(s.condition.storedError))
    else if !s.condition.Writable? || s.closeQueued then Attempt(s, Some(CannotWrite))
    else if size.Raises? then Attempt(ErrorWritable(s, size.reason), Some(size.reason))
    else if size.NotANumber? || size.amount < 0.0 then Attempt(ErrorWritable(s, BadChunkSize), Some(BadChunkSize))
    else
      Attempt(UpdateWriterReady(s.(queueTotalSize := s.queueTotalSize + size.amount)).(
                jobs := s.jobs + [Job(Write(s.nextId, size.amount), Pending)], nextId := s.nextId + 1), None)
  }

  function CloseWritable(s: Sink): Attempt {
    if s.condition.Failing? then Attempt(s, Some(s.condition.storedError))
    else if !s.condition.Writable? || s.closeQueued then Attempt(s, Some(CannotClose))
    else Attempt(s.(closeQueued := true, jobs := s.jobs + [Job(Close, Pending)]), None)
  }

  /** `abort` calls the sink's abort algorithm and errors the stream. */
  function AbortWritable(s: Sink, reason: Reason): Sink {
    ErrorWritable(s, reason)
  }

  function GetWriter(s: Sink): Attempt {
    if s.writer.Some? then Attempt(s, Some(Locked))
    else Attempt(UpdateWriterReady(s.(writer := Some(false), writerClosed := Announcement(s.condition))), None)
  }

  function ReleaseWriter(s: Sink): Sink {
    s.(writer := None, writerClosed := Told(s, Rejected(LockReleased)))
  }

  // ---- the chain ------------------------------------------------------------

  /** The callback of the next link: skipped after a rejection, refused on an errored stream. */
  function Begin(s: Sink): Sink
    requires s.jobs != [] && s.jobs[0].progress.Pending?
  {
    var task := s.jobs[0].task;
    if s.chainError.Some? then s.(jobs := [Job(task, Settled(s.chainError))] + s.jobs[1..])
    else if s.condition.Failing? then s.(jobs := [Job(task, Settled(Some(s.condition.storedError)))] + s.jobs[1..])
    else s.(jobs := [Job(task, Running)] + s.jobs[1..],
            calls := s.calls + (if task.Write? then [SinkWrite(task.id)] else if task.Close? then [SinkClose] else []))
  }

  /** The promise of the sink's algorithm settles. */
  function SinkSettles(s: Sink, result: Option<Reason>): Sink
    requires s.jobs != [] && s.jobs[0].progress.Running?
  {
    s.(jobs := [Job(s.jobs[0].task, Settled(result))] + s.jobs[1..])
  }

  /** The chain once its head link has settled. */
  function Popped(s: Sink): Sink
    requires s.jobs != [] && s.jobs[0].progress.Settled?
  {
    var task, result := s.jobs[0].task, s.jobs[0].progress.result;
    s.(jobs := s.jobs[1..], chainError := result, outcomes := s.outcomes + [Outcome(task, result)])
  }

  /** The state after a link has settled. */
  function AfterLink(t: Sink, task: Task, result: Option<Reason>): Sink {
    if task.Write? then
      var reduced := t.(queueTotalSize := Reduce(t.queueTotalSize, task.size));
      if result.None? then UpdateWriterReady(reduced) else ErrorWritable(reduced, result.value)
    else if result.Some? then ErrorWritable(t, result.value)
    else if task.Close? then t.(condition := Ended, writerClosed := Told(t, Resolved))
    else t
  }

  /** The reaction to a settled link. */
  function React(s: Sink): Sink
    requires s.jobs != [] && s.jobs[0].progress.Settled?
  {
    AfterLink(Popped(s), s.jobs[0].task, s.jobs[0].progress.result)
  }

  datatype Event =
    | CallWrite(size: Measure)
    | CallClose
    | CallAbort(reason: Reason)
    | ControllerError(reason: Reason)
    | AttachWriter
    | DetachWriter
    | LinkBegins
    | SinkPromise(result: Option<Reason>)
    | LinkReacts

  function Step(s: Sink, e: Event): Sink {
    match e
    case CallWrite(size) => WriteWritable(s, size).sink
    case CallClose => CloseWritable(s).sink
    case CallAbort(reason) => AbortWritable(s, reason)
    case ControllerError(reason) => ErrorWritable(s, reason)
    case AttachWriter => GetWriter(s).sink
    case DetachWriter => ReleaseWriter(s)
    case LinkBegins => if s.jobs != [] && s.jobs[0].progress.Pending? then Begin(s) else s
    case SinkPromise(result) => if s.jobs != [] && s.jobs[0].progress.Running? then SinkSettles(s, result) else s
    case LinkReacts => if s.jobs != [] && s.jobs[0].progress.Settled? then React(s) else s
  }

  function Run(s: Sink, events: seq<Event>): Sink
    decreases |events|
  {
    if events == [] then s else Run(Step(s, events[0]), events[1..])
  }
}
