/** The readable half of the stream engine as a function on states.

    One value of `Stream` is the state object of one ReadableStream together with a
    history: what the source supplied, which promises were settled and how often the
    source's `pull` was called.  Every entry point of the engine is one function from
    state to state; a call to `pull` is recorded here and what the source does inside
    it happens in later steps. */
module ReadableModel {
  import opened Options
  import opened Multiples

  /** A chunk of a default stream, or one byte of a byte stream. */
  type Item(==)

  /** What promises are rejected with and what methods throw. */
  datatype Reason =
    | Given(token: int)
    | EndedBelowMinimum
    | ClosedMidElement
    | BadChunkSize
    | CannotEnqueue
    | CannotWrite
    | NotAByteView
    | EmptyChunk
    | BufferDetached
    | CannotClose
    | RequestInactive
    | BadByteCount
    | StateMismatch
    | NotAByteStream
    | EmptyView
    | BadMinimum
    | Locked
    | LockReleased
    | PendingReads

  datatype Phase = Readable | Closed | Errored(storedError: Reason)

  /** A high-water mark is a non-negative number or infinity. */
  datatype Mark = Finite(limit: real) | Unlimited

  /** A queue entry: a measured chunk of a default stream, or the unread rest of a byte view. */
  datatype Entry = Chunk(item: Item, size: real) | Bytes(value: seq<Item>, offset: nat)
  {
    function Rest(): seq<Item> {
      if Chunk? then [item] else if offset <= |value| then value[offset..] else []
    }

    function Weight(): real {
      if Chunk? then size else (|value| - offset) as real
    }

    predicate Fits(byteStream: bool) {
      if byteStream then Bytes? && offset < |value| else Chunk? && size >= 0.0
    }
  }

  /** A waiting read.  `PullInto` is a read with a buffer: `auto` when the engine allocated
      the buffer, otherwise the reader supplied it.  `filled` are the bytes before the offset;
      the view starts at `byteOffset` of a buffer of `bufferLength` bytes. */
  datatype Request =
    | DefaultRead(id: nat)
    | PullInto(id: nat, auto: bool, filled: seq<Item>, byteLength: nat, minimum: nat, elementSize: nat,
               byteOffset: nat, bufferLength: nat)
  {
    /** The geometry every accepted buffer has: whole elements, and a reachable minimum. */
    predicate Shaped() {
      PullInto? ==>
        && elementSize > 0
        && byteLength % elementSize == 0
        && minimum % elementSize == 0
        && 0 < minimum <= byteLength
        && (auto ==> elementSize == 1 && minimum == 1)
    }

    /** A request that still waits has not reached its minimum. */
    predicate Waiting() {
      Shaped() && (PullInto? ==> |filled| < minimum)
    }

    function Filled(): seq<Item> {
      if PullInto? then filled else []
    }
  }

  predicate AllShaped(requests: seq<Request>) {
    forall i | 0 <= i < |requests| :: requests[i].Shaped()
  }

  predicate AllWaiting(requests: seq<Request>) {
    forall i | 0 <= i < |requests| :: requests[i].Waiting()
  }

  predicate AllFit(queue: seq<Entry>, byteStream: bool) {
    forall i | 0 <= i < |queue| :: queue[i].Fits(byteStream)
  }

  /** How the promise of a read was settled. */
  datatype Settlement =
    | Answered(request: Request, items: seq<Item>, done: bool)
    | Finished(request: Request)
    | Failed(request: Request, reason: Reason)
  {
    function Items(): seq<Item> {
      if Answered? then items else []
    }
  }

  datatype Reader = NoReader | DefaultReader | ByobReader

  /** How a reader's `closed` promise stands. */
  datatype Signal = Awaited | Resolved | Rejected(reason: Reason)

  /** What `closed` tells about a phase. */
  function Announced(phase: Phase): Signal {
    match phase
    case Readable => Awaited
    case Closed => Resolved
    case Errored(reason) => Rejected(reason)
  }

  datatype Stream = Stream(
    // set by the constructor
    byteStream: bool,
    autoAllocate: nat,
    highWaterMark: Mark,
    hasPull: bool,
    // the state object
    phase: Phase,
    started: bool,
    pulling: bool,
    pullAgain: bool,
    closeRequested: bool,
    queue: seq<Entry>,
    queueTotalSize: real,
    requests: seq<Request>,
    byobRequest: Option<nat>,
    reader: Reader,
    closed: Signal,
    // the history
    nextId: nat,
    settled: seq<Settlement>,
    supplied: seq<Item>,
    pullCalls: nat,
    pullEnds: nat,
    cancelled: bool)

  /** The state after a call and what the call threw, if it did. */
  datatype Call = Call(stream: Stream, thrown: Option<Reason>)

  function Initial(byteStream: bool, autoAllocate: nat, highWaterMark: Mark, hasPull: bool): Stream {
    Stream(byteStream, autoAllocate, highWaterMark, hasPull,
           Readable, false, false, false, false, [], 0.0, [], None, NoReader, Awaited,
           0, [], [], 0, 0, false)
  }

  // ---- promises -------------------------------------------------------------

  function Settle(s: Stream, settlement: Settlement): Stream {
    s.(settled := s.settled + [settlement])
  }

  function FinishedAll(requests: seq<Request>): (r: seq<Settlement>)
    ensures |r| == |requests|
  {
    seq(|requests|, i requires 0 <= i < |requests| => Finished(requests[i]))
  }

  function FailedAll(requests: seq<Request>, reason: Reason): (r: seq<Settlement>)
    ensures |r| == |requests|
  {
    seq(|requests|, i requires 0 <= i < |requests| => Failed(requests[i], reason))
  }

  /** Every waiting buffer is returned to its reader with what it holds. */
  function ReturnedAll(requests: seq<Request>): (r: seq<Settlement>)
    ensures |r| == |requests|
  {
    seq(|requests|, i requires 0 <= i < |requests| => Answered(requests[i], requests[i].Filled(), true))
  }

  predicate HasPullInto(s: Stream) {
    s.requests != [] && s.requests[0].PullInto?
  }

  /** Hand the head buffer back; handing it back transfers it, so the source's view of it dies. */
  function FinishPullInto(s: Stream, done: bool): Stream
    requires HasPullInto(s)
  {
    s.(settled := s.settled + [Answered(s.requests[0], s.requests[0].filled, done)],
       requests := s.requests[1..],
       byobRequest := None)
  }

  // ---- closing and erroring -------------------------------------------------

  /** Settle the `closed` promise of an attached reader; a settled promise stays as it is. */
  function Signalled(reader: Reader, closed: Signal, signal: Signal): Signal {
    if reader.NoReader? || !closed.Awaited? then closed else signal
  }

  function ErrorReadable(s: Stream, reason: Reason): Stream {
    if !s.phase.Readable? then s
    else s.(phase := Errored(reason),
            queue := [],
            queueTotalSize := 0.0,
            settled := s.settled + FailedAll(s.requests, reason),
            requests := [],
            byobRequest := None,
            closed := Signalled(s.reader, s.closed, Rejected(reason)))
  }

  predicate WholeElements(request: Request)
    requires request.PullInto? && request.Shaped()
  {
    |request.filled| % request.elementSize == 0
  }

  /** A close finds an element only partly received. */
  predicate MidElement(s: Stream)
    requires AllShaped(s.requests)
  {
    HasPullInto(s) && !WholeElements(s.requests[0])
  }

  /** A close waits for the source to give the reader's own buffer back. */
  predicate HoldsReaderBuffer(s: Stream) {
    HasPullInto(s) && !s.requests[0].auto
  }

  /** The stream ends and every waiting read is told so. */
  function EndReads(s: Stream): Stream {
    s.(phase := Closed,
       settled := s.settled + FinishedAll(s.requests),
       requests := [],
       byobRequest := None,
       closed := Signalled(s.reader, s.closed, Resolved))
  }

  function CloseReadable(s: Stream): Call
    requires AllShaped(s.requests)
  {
    if !s.phase.Readable? then Call(s, None)
    else if MidElement(s) then Call(ErrorReadable(s, ClosedMidElement), Some(ClosedMidElement))
    else if HoldsReaderBuffer(s) then Call(s.(phase := Closed, closed := Signalled(s.reader, s.closed, Resolved)), None)
    else Call(EndReads(s), None)
  }

  // ---- filling reads from the queue -----------------------------------------

  function Min(a: nat, b: nat): nat {
    if a <= b then a else b
  }

  /** How many bytes one copy moves: all that fit, but whole elements once the minimum is met. */
  function FillCount(request: Request, available: nat): (r: nat)
    requires request.PullInto? && request.Waiting()
    ensures r <= available && |request.filled| + r <= request.byteLength
    ensures available > 0 ==> r > 0
    ensures |request.filled| + r < request.minimum ==> r == available
    ensures |request.filled| + r >= request.minimum ==> (|request.filled| + r) % request.elementSize == 0
  {
    var count := Min(available, request.byteLength - |request.filled|);
    if |request.filled| + count >= request.minimum
    then ElementPrefix(request, count)
    else count
  }

  /** The part of `count` further bytes that ends on an element boundary. */
  function ElementPrefix(request: Request, count: nat): (r: nat)
    requires request.PullInto? && request.Waiting() && |request.filled| + count >= request.minimum
    ensures 0 < r <= count
    ensures |request.filled| + r >= request.minimum
    ensures (|request.filled| + r) % request.elementSize == 0
  {
    var total := |request.filled| + count;
    AlignedFloor(total, request.minimum, request.elementSize);
    count - total % request.elementSize
  }

  /** What the loop in `drainByteQueue` needs of the state. */
  predicate Drainable(s: Stream) {
    AllFit(s.queue, true) && AllWaiting(s.requests)
  }

  /** The queue after `used` bytes of its head entry were copied out. */
  function Advance(queue: seq<Entry>, used: nat): seq<Entry>
    requires queue != [] && queue[0].Fits(true) && used <= |queue[0].value| - queue[0].offset
  {
    var offset := queue[0].offset + used;
    if offset == |queue[0].value| then queue[1..] else [queue[0].(offset := offset)] + queue[1..]
  }

  /** The head buffer after one copy from the head entry. */
  function Copied(request: Request, entry: Entry): (r: Request)
    requires request.PullInto? && request.Waiting() && entry.Fits(true)
  {
    var used := FillCount(request, |entry.value| - entry.offset);
    request.(filled := request.filled + entry.value[entry.offset..entry.offset + used])
  }

  function CopyHead(s: Stream): Stream
    requires Drainable(s) && s.queue != [] && HasPullInto(s)
  {
    var grown := Copied(s.requests[0], s.queue[0]);
    var used := |grown.filled| - |s.requests[0].filled|;
    s.(requests := [grown] + s.requests[1..],
       queue := Advance(s.queue, used),
       queueTotalSize := s.queueTotalSize - used as real)
  }

  function FillHead(s: Stream): Stream
    requires Drainable(s) && s.queue != [] && HasPullInto(s)
  {
    var t := CopyHead(s);
    if t.requests[0].Waiting() then t else FinishPullInto(t, false)
  }

  /** A default read takes the whole rest of the head entry. */
  function ServeHead(s: Stream): Stream
    requires s.queue != [] && s.requests != []
  {
    s.(settled := s.settled + [Answered(s.requests[0], s.queue[0].Rest(), false)],
       queue := s.queue[1..],
       queueTotalSize := s.queueTotalSize - s.queue[0].Weight(),
       requests := s.requests[1..])
  }

  /** One turn of the drain loop. */
  function DrainStep(s: Stream): Stream
    requires Drainable(s) && s.queue != [] && s.requests != []
  {
    if HasPullInto(s) then FillHead(s) else ServeHead(s)
  }

  lemma CopyHeadFits(s: Stream)
    requires Drainable(s) && s.queue != [] && HasPullInto(s)
    ensures AllFit(CopyHead(s).queue, true) && |CopyHead(s).queue| <= |s.queue|
    ensures CopyHead(s).requests[0].Waiting() ==> |CopyHead(s).queue| < |s.queue|
  {
    hide FillCount;
  }

  lemma WaitingTail(requests: seq<Request>, head: Request)
    requires requests != [] && AllWaiting(requests)
    ensures AllWaiting(requests[1..])
    ensures head.Waiting() ==> AllWaiting([head] + requests[1..])
  {
  }

  lemma FillHeadWaiting(s: Stream)
    requires Drainable(s) && s.queue != [] && HasPullInto(s)
    ensures AllWaiting(FillHead(s).requests)
  {
    var t := CopyHead(s);
    WaitingTail(s.requests, t.requests[0]);
    assert t.requests == [t.requests[0]] + s.requests[1..];
    hide CopyHead, AllFit, AllWaiting;
  }

  /** A copy that leaves the buffer waiting has used up the entry. */
  lemma FillHeadProgress(s: Stream)
    requires Drainable(s) && s.queue != [] && HasPullInto(s)
    ensures AllFit(FillHead(s).queue, true)
    ensures |FillHead(s).queue| + |FillHead(s).requests| < |s.queue| + |s.requests|
  {
    CopyHeadFits(s);
    var t := CopyHead(s);
    assert |t.requests| == |s.requests| && t.requests[0].PullInto?;
    hide CopyHead, AllFit, AllWaiting;
    if t.requests[0].Waiting() {
    } else {
    }
  }

  /** Every turn consumes a whole entry or answers a whole request: this is why the loop ends. */
  lemma DrainStepProgress(s: Stream)
    requires Drainable(s) && s.queue != [] && s.requests != []
    ensures Drainable(DrainStep(s))
    ensures |DrainStep(s).queue| + |DrainStep(s).requests| < |s.queue| + |s.requests|
  {
    if HasPullInto(s) {
      FillHeadWaiting(s);
      FillHeadProgress(s);
      hide FillHead, AllFit, AllWaiting;
    }
  }

  function DrainLoop(s: Stream): Stream
    requires Drainable(s)
    decreases |s.queue| + |s.requests|
  {
    if s.queue == [] || s.requests == [] then s
    else
      DrainStepProgress(s);
      DrainLoop(DrainStep(s))
  }

  /** The reader asked for a minimum that can no longer be reached. */
  predicate StuckBelowMinimum(s: Stream) {
    HasPullInto(s) && 0 < |s.requests[0].filled| < s.requests[0].minimum
  }

  lemma DrainLoopDrainable(s: Stream)
    requires Drainable(s)
    ensures Drainable(DrainLoop(s))
    ensures DrainLoop(s).queue == [] || DrainLoop(s).requests == []
    decreases |s.queue| + |s.requests|
  {
    if s.queue != [] && s.requests != [] {
      DrainStepProgress(s);
      DrainLoopDrainable(DrainStep(s));
    }
  }

  /** A requested close takes effect once the queue has run dry. */
  function EndDrain(s: Stream): Call
    requires AllShaped(s.requests)
  {
    if !(s.closeRequested && s.queue == []) then Call(s, None)
    else if StuckBelowMinimum(s) then Call(ErrorReadable(s, EndedBelowMinimum), None)
    else CloseReadable(s)
  }

  function DrainByteQueue(s: Stream): Call
    requires Drainable(s)
  {
    DrainLoopDrainable(s);
    EndDrain(DrainLoop(s))
  }

  // ---- pulling --------------------------------------------------------------

  /** The desired size is positive, which it never is once the stream is closed or errored. */
  predicate WantsMore(s: Stream) {
    s.phase.Readable? && (s.highWaterMark.Finite? ==> s.highWaterMark.limit - s.queueTotalSize > 0.0)
  }

  predicate Demand(s: Stream) {
    s.requests != [] || WantsMore(s)
  }

  predicate MayPull(s: Stream) {
    s.phase.Readable? && !s.closeRequested && s.started && s.hasPull
  }

  function CallPull(s: Stream): Stream {
    if !MayPull(s) || s.pulling || !Demand(s) then s
    else s.(pulling := true, pullCalls := s.pullCalls + 1)
  }

  function RequestPull(s: Stream): Stream {
    if s.pulling then s.(pullAgain := true) else CallPull(s)
  }

  /** The promise returned by `pull` was fulfilled. */
  function PullResolved(s: Stream): Stream {
    if s.pullAgain then CallPull(s.(pulling := false, pullEnds := s.pullEnds + 1, pullAgain := false))
    else
      var t := s.(pulling := false, pullEnds := s.pullEnds + 1);
      if Demand(t) then CallPull(t) else t
  }

  function PullRejected(s: Stream, reason: Reason): Stream {
    ErrorReadable(s.(pulling := false, pullEnds := s.pullEnds + 1), reason)
  }

  function StartResolved(s: Stream): Stream {
    RequestPull(s.(started := true))
  }

  // ---- the controller -------------------------------------------------------

  /** What the strategy's `size` gave for a chunk. */
  datatype Measure = Size(amount: real) | NotANumber | Raises(reason: Reason)

  /** A value handed to `enqueue`: itself, its bytes if it is a view, and its size. */
  datatype Incoming = Incoming(item: Item, view: Option<seq<Item>>, size: Measure)

  /** Append an entry with new items from the source. */
  function Push(s: Stream, e: Entry): Stream {
    s.(queue := s.queue + [e], queueTotalSize := s.queueTotalSize + e.Weight(), supplied := s.supplied + e.Rest())
  }

  /** Queue the bytes; a view of the head buffer that the source still holds dies. */
  function ReceiveBytes(s: Stream, bytes: seq<Item>): (t: Stream)
    requires Drainable(s) && bytes != []
    ensures Drainable(t)
  {
    Push(s.(byobRequest := if HasPullInto(s) then None else s.byobRequest), Bytes(bytes, 0))
  }

  function EnqueueBytes(s: Stream, bytes: seq<Item>): Call
    requires Drainable(s) && bytes != []
  {
    var drained := DrainByteQueue(ReceiveBytes(s, bytes));
    if drained.thrown.Some? then drained else Call(RequestPull(drained.stream), None)
  }

  /** The oldest waiting read gets the chunk at once. */
  function AnswerChunk(s: Stream, item: Item): Stream
    requires s.requests != []
  {
    s.(settled := s.settled + [Answered(s.requests[0], [item], false)],
       requests := s.requests[1..],
       supplied := s.supplied + [item])
  }

  function EnqueueChunk(s: Stream, chunk: Incoming): Call {
    if s.requests != [] then Call(RequestPull(AnswerChunk(s, chunk.item)), None)
    else if chunk.size.Raises? then Call(ErrorReadable(s, chunk.size.reason), Some(chunk.size.reason))
    else if chunk.size.NotANumber? || chunk.size.amount < 0.0 then
      Call(ErrorReadable(s, BadChunkSize), Some(BadChunkSize))
    else Call(RequestPull(Push(s, Chunk(chunk.item, chunk.size.amount))), None)
  }

  function Enqueue(s: Stream, chunk: Incoming): Call
    requires s.byteStream ==> Drainable(s)
  {
    if s.closeRequested || !s.phase.Readable? then Call(s, Some(CannotEnqueue))
    else if !s.byteStream then EnqueueChunk(s, chunk)
    else if chunk.view.None? then Call(s, Some(NotAByteView))
    else if chunk.view.value == [] then Call(s, Some(EmptyChunk))
    else EnqueueBytes(s, chunk.view.value)
  }

  function ControllerClose(s: Stream): Call
    requires AllShaped(s.requests)
  {
    if s.closeRequested || !s.phase.Readable? then Call(s, Some(CannotClose))
    else
      var t := s.(closeRequested := true);
      if t.queue == [] then CloseReadable(t) else Call(t, None)
  }

  /** The source asks for its view of the head buffer. */
  function GetByobRequest(s: Stream): Stream {
    if HasPullInto(s) && s.byobRequest.None? then s.(byobRequest := Some(s.requests[0].id)) else s
  }

  /** The source wrote `bytes` at the offset of the head buffer and gave its view back. */
  function Receive(s: Stream, bytes: seq<Item>): Stream
    requires HasPullInto(s)
  {
    s.(requests := [s.requests[0].(filled := s.requests[0].filled + bytes)] + s.requests[1..],
       byobRequest := None,
       supplied := s.supplied + bytes)
  }

  /** Bytes of the head buffer after its last whole element go to the queue. */
  function CarryTail(s: Stream): (r: Stream)
    requires HasPullInto(s) && s.requests[0].Shaped() && AllFit(s.queue, true)
    ensures AllFit(r.queue, true) && HasPullInto(r) && r.requests[1..] == s.requests[1..]
  {
    var request := s.requests[0];
    var remainder := |request.filled| % request.elementSize;
    RemainderBound(|request.filled|, request.elementSize);
    var cut := |request.filled| - remainder;
    if remainder == 0 then s
    else s.(requests := [request.(filled := request.filled[..cut])] + s.requests[1..],
            queue := s.queue + [Bytes(request.filled[cut..], 0)],
            queueTotalSize := s.queueTotalSize + remainder as real)
  }

  function ReturnBuffers(s: Stream): Stream {
    s.(settled := s.settled + ReturnedAll(s.requests), requests := [], byobRequest := None)
  }

  function AfterReceive(s: Stream): Call
    requires HasPullInto(s) && s.requests[0].Shaped() && AllWaiting(s.requests[1..]) && AllFit(s.queue, true)
  {
    if s.phase.Closed? then Call(ReturnBuffers(s), None)
    else if |s.requests[0].filled| < s.requests[0].minimum then Call(RequestPull(s), None)
    else
      var drained := DrainByteQueue(FinishPullInto(CarryTail(s), false));
      if drained.thrown.Some? then drained else Call(RequestPull(drained.stream), None)
  }

  function RespondPullInto(s: Stream, bytes: seq<Item>): Call
    requires HasPullInto(s) && Drainable(s)
  {
    AfterReceive(Receive(s, bytes))
  }

  /** `respond(count)`; `count` is absent when the argument is no integer, `detached` says that the
      source gave the buffer away, and `memory` has the bytes the source left in its view. */
  function Respond(s: Stream, count: Option<int>, detached: bool, memory: nat -> Item): Call
    requires s.byobRequest.Some? ==> HasPullInto(s)
    requires HasPullInto(s) ==> Drainable(s)
  {
    if s.byobRequest.None? then Call(s, Some(RequestInactive))
    else if detached then Call(s, Some(BufferDetached))
    else if count.None? || count.value < 0 || count.value > s.requests[0].byteLength - |s.requests[0].filled| then
      Call(s, Some(BadByteCount))
    else if (if s.phase.Closed? then count.value != 0 else count.value == 0) then Call(s, Some(StateMismatch))
    else RespondPullInto(s, seq(count.value, memory))
  }

  /** The argument of `respondWithNewView`. */
  datatype Replacement = Replacement(byteOffset: nat, byteLength: nat, bufferLength: nat) | NoView

  /** The replacement starts at the pending offset, in a buffer of the same length, and fits. */
  predicate Covers(request: Request, view: Replacement)
    requires request.PullInto? && view.Replacement?
  {
    && view.byteOffset == request.byteOffset + |request.filled|
    && view.bufferLength == request.bufferLength
    && view.byteLength <= request.byteLength - |request.filled|
  }

  function RespondWithNewView(s: Stream, view: Replacement, memory: nat -> Item): Call
    requires s.byobRequest.Some? ==> HasPullInto(s)
    requires HasPullInto(s) ==> Drainable(s)
  {
    if s.byobRequest.None? then Call(s, Some(RequestInactive))
    else if view.NoView? then Call(s, Some(NotAByteView))
    else if view.bufferLength == 0 then Call(s, Some(BufferDetached))
    else if (if s.phase.Closed? then view.byteLength != 0 else view.byteLength == 0) then Call(s, Some(StateMismatch))
    else if !Covers(s.requests[0], view) then Call(s, Some(BadByteCount))
    else RespondPullInto(s, seq(view.byteLength, memory))
  }

  // ---- the readers ----------------------------------------------------------

  function AcquireReader(s: Stream, kind: Reader): Call {
    if kind.ByobReader? && !s.byteStream then Call(s, Some(NotAByteStream))
    else if !s.reader.NoReader? then Call(s, Some(Locked))
    else Call(s.(reader := kind, closed := Announced(s.phase)), None)
  }

  function ReleaseLock(s: Stream): Call {
    if s.reader.NoReader? then Call(s, None)
    else if s.requests != [] then Call(s, Some(PendingReads))
    else Call(s.(reader := NoReader, closed := Signalled(s.reader, s.closed, Rejected(LockReleased))), None)
  }

  /** The request a default reader's `read` would wait with. */
  function NewRead(s: Stream): Request {
    if s.byteStream && s.autoAllocate > 0
    then PullInto(s.nextId, true, [], s.autoAllocate, 1, 1, 0, s.autoAllocate)
    else DefaultRead(s.nextId)
  }

  /** A read takes the whole head entry of the queue. */
  function TakeEntry(s: Stream): Stream
    requires s.queue != []
  {
    s.(settled := s.settled + [Answered(DefaultRead(s.nextId), s.queue[0].Rest(), false)],
       queue := s.queue[1..],
       queueTotalSize := s.queueTotalSize - s.queue[0].Weight(),
       nextId := s.nextId + 1)
  }

  /** `read()` of a default reader. */
  function ReadFrom(s: Stream): Stream
    requires AllShaped(s.requests)
  {
    if s.queue != [] then
      var t := TakeEntry(s);
      if t.closeRequested && t.queue == [] then CloseReadable(t).stream else RequestPull(t)
    else if s.phase.Closed? then
      s.(nextId := s.nextId + 1, settled := s.settled + [Finished(DefaultRead(s.nextId))])
    else if s.phase.Errored? then
      s.(nextId := s.nextId + 1, settled := s.settled + [Failed(DefaultRead(s.nextId), s.phase.storedError)])
    else RequestPull(s.(nextId := s.nextId + 1, requests := s.requests + [NewRead(s)]))
  }

  /** The `min` option of a read with a buffer, counted in elements. */
  datatype Minimum = Unspecified | Whole(elements: int) | NotWhole

  /** A view given to a read: its bytes are `elements` elements of `elementSize`. */
  datatype View = View(elements: nat, elementSize: nat, byteOffset: nat, bufferLength: nat) | NotAView

  function MinimumElements(minimum: Minimum): int {
    if minimum.Whole? then minimum.elements else if minimum.Unspecified? then 1 else 0
  }

  /** Why a read with a buffer is refused before the stream is touched. */
  function Refusal(s: Stream, view: View, minimum: Minimum): Option<Reason> {
    if !s.byteStream then Some(NotAByteStream)
    else if view.NotAView? then Some(NotAByteView)
    else if view.elements * view.elementSize == 0 then Some(EmptyView)
    else if MinimumElements(minimum) <= 0
         || MinimumElements(minimum) * view.elementSize > view.elements * view.elementSize then Some(BadMinimum)
    else None
  }

  function NewPullInto(s: Stream, view: View, minimum: Minimum): (r: Request)
    requires Refusal(s, view, minimum).None?
    ensures r.Waiting() && r.PullInto? && r.id == s.nextId && !r.auto && r.filled == []
  {
    MultipleModulo(view.elements, view.elementSize);
    MultipleModulo(MinimumElements(minimum), view.elementSize);
    PullInto(s.nextId, false, [], view.elements * view.elementSize,
             MinimumElements(minimum) * view.elementSize, view.elementSize, view.byteOffset, view.bufferLength)
  }

  function StartReadInto(s: Stream, request: Request): Call
    requires Drainable(s) && request.Waiting()
  {
    var t := s.(nextId := s.nextId + 1);
    if s.phase.Errored? then Call(Settle(t, Failed(request, s.phase.storedError)), None)
    else if s.phase.Closed? && s.requests == [] then Call(Settle(t, Answered(request, [], true)), None)
    else
      var drained := DrainByteQueue(t.(requests := s.requests + [request]));
      if drained.thrown.Some?
      then Call(ErrorReadable(drained.stream, drained.thrown.value), drained.thrown)
      else Call(RequestPull(drained.stream), None)
  }

  /** `read(view, { min })` of a reader that brings its own buffer. */
  function ReadInto(s: Stream, view: View, minimum: Minimum): Call
    requires s.byteStream ==> Drainable(s)
  {
    var refusal := Refusal(s, view, minimum);
    if refusal.Some? then Call(s, refusal) else StartReadInto(s, NewPullInto(s, view, minimum))
  }

  /** A cancel drops the queue and tells every waiting read that the stream is done. */
  function Abandon(s: Stream): Stream {
    s.(queue := [], queueTotalSize := 0.0, settled := s.settled + FinishedAll(s.requests), requests := [],
       byobRequest := None, cancelled := true)
  }

  function CancelReadable(s: Stream): Stream
    requires AllShaped(s.requests)
  {
    if !s.phase.Readable? then s.(queue := [], queueTotalSize := 0.0) else CloseReadable(Abandon(s)).stream
  }
}
