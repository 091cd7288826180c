/** The state object of a ReadableStream, updated in place by the engine's functions. */
module ReadableStates {
  import opened Options
  import opened ReadableModel

  lemma FinishCommutes(t: Stream, q: seq<Entry>, r: real, d: bool)
    requires HasPullInto(t)
    ensures FinishPullInto(t.(queue := q, queueTotalSize := r), d) == FinishPullInto(t, d).(queue := q, queueTotalSize := r)
  {
  }

  function Grown(s: Stream): Stream
    requires Drainable(s) && s.queue != [] && HasPullInto(s)
  {
    s.(requests := [Copied(s.requests[0], s.queue[0])] + s.requests[1..])
  }

  function Filled(s: Stream): Stream
    requires Drainable(s) && s.queue != [] && HasPullInto(s)
  {
    if Grown(s).requests[0].Waiting() then Grown(s) else FinishPullInto(Grown(s), false)
  }

  lemma CopyIsGrown(s: Stream)
    requires Drainable(s) && s.queue != [] && HasPullInto(s)
    ensures var used := FillCount(s.requests[0], |s.queue[0].value| - s.queue[0].offset);
            used <= |s.queue[0].value| - s.queue[0].offset &&
            CopyHead(s) == Grown(s).(queue := Advance(s.queue, used), queueTotalSize := s.queueTotalSize - used as real)
  {
    hide Advance, FillCount;
  }

  /** The head buffer may be filled and handed back before the bytes leave the queue. */
  lemma FillThenConsume(s: Stream)
    requires Drainable(s) && s.queue != [] && HasPullInto(s)
    ensures var used := FillCount(s.requests[0], |s.queue[0].value| - s.queue[0].offset);
            FillHead(s) == Filled(s).(queue := Advance(s.queue, used), queueTotalSize := s.queueTotalSize - used as real)
  {
    CopyIsGrown(s);
    hide CopyHead, Advance, FillCount;
    if Grown(s).requests[0].Waiting() {
      hide Grown;
    } else {
      assert HasPullInto(Grown(s));
      var used := FillCount(s.requests[0], |s.queue[0].value| - s.queue[0].offset);
      FinishCommutes(Grown(s), Advance(s.queue, used), s.queueTotalSize - used as real, false);
      hide Grown, FinishPullInto;
    }
  }

  class ReadableState {
    const byteStream: bool
    const autoAllocate: nat
    const highWaterMark: Mark
    const hasPull: bool

    var phase: Phase
    var started: bool
    var pulling: bool
    var pullAgain: bool
    var closeRequested: bool
    var queue: seq<Entry>
    var queueTotalSize: real
    var requests: seq<Request>
    var byobRequest: Option<nat>
    var reader: Reader
    /** The `closed` promise of the reader. */
    var closed: Signal
    var nextId: nat
    /** What the promises of reads were settled with. */
    var settled: seq<Settlement>
    /** Calls of the source's `pull`, and those whose promise is settled. */
    var pullCalls: nat
    var pullEnds: nat
    ghost var supplied: seq<Item>
    ghost var cancelled: bool

    ghost function Model(): Stream
      reads this
    {
      Stream(byteStream, autoAllocate, highWaterMark, hasPull, phase, started, pulling, pullAgain, closeRequested,
             queue, queueTotalSize, requests, byobRequest, reader, closed, nextId, settled, supplied, pullCalls,
             pullEnds, cancelled)
    }

    constructor (byteStream: bool, autoAllocate: nat, highWaterMark: Mark, hasPull: bool)
      ensures Model() == Initial(byteStream, autoAllocate, highWaterMark, hasPull)
    {
      this.byteStream, this.autoAllocate, this.highWaterMark, this.hasPull :=
        byteStream, autoAllocate, highWaterMark, hasPull;
      phase, started, pulling, pullAgain, closeRequested := Readable, false, false, false, false;
      queue, queueTotalSize, requests, byobRequest, reader, closed := [], 0.0, [], None, NoReader, Awaited;
      nextId, settled, supplied, pullCalls, pullEnds, cancelled := 0, [], [], 0, 0, false;
    }

    // ---- settling -----------------------------------------------------------

    method FinishPullInto(done: bool)
      requires HasPullInto(Model())
      modifies `requests, `byobRequest, `settled
      ensures Model() == ReadableModel.FinishPullInto(old(Model()), done)
    {
      var request := requests[0];
      byobRequest := None;
      requests := requests[1..];
      settled := settled + [Answered(request, request.filled, done)];
    }

    method RejectReads(reason: Reason)
      modifies `requests, `settled
      ensures requests == [] && settled == old(settled) + FailedAll(old(requests), reason)
    {
      while requests != []
        invariant settled + FailedAll(requests, reason) == old(settled) + FailedAll(old(requests), reason)
        decreases |requests|
      {
        assert FailedAll(requests, reason) == [Failed(requests[0], reason)] + FailedAll(requests[1..], reason);
        settled := settled + [Failed(requests[0], reason)];
        requests := requests[1..];
      }
    }

    /** A promise is settled once, and only an attached reader is told. */
    method SettleClosed(signal: Signal)
      modifies `closed
      ensures closed == Signalled(reader, old(closed), signal)
    {
      if !reader.NoReader? && closed.Awaited? {
        closed := signal;
      }
    }

    method ErrorReadable(reason: Reason)
      modifies `phase, `queue, `queueTotalSize, `requests, `settled, `byobRequest, `closed
      ensures Model() == ReadableModel.ErrorReadable(old(Model()), reason)
    {
      if phase.Readable? {
        BecomeErrored(reason);
      }
    }

    method BecomeErrored(reason: Reason)
      modifies `phase, `queue, `queueTotalSize, `requests, `settled, `byobRequest, `closed
      ensures phase == Errored(reason) && queue == [] && queueTotalSize == 0.0
      ensures requests == [] && settled == old(settled) + FailedAll(old(requests), reason)
      ensures byobRequest == None && closed == Signalled(reader, old(closed), Rejected(reason))
    {
      phase := Errored(reason);
      queue := [];
      queueTotalSize := 0.0;
      RejectReads(reason);
      byobRequest := None;
      SettleClosed(Rejected(reason));
    }

    /** Every waiting read is told that the stream is done. */
    method FinishReads()
      modifies `requests, `settled
      ensures requests == [] && settled == old(settled) + FinishedAll(old(requests))
    {
      while requests != []
        invariant settled + FinishedAll(requests) == old(settled) + FinishedAll(old(requests))
        decreases |requests|
      {
        assert FinishedAll(requests) == [Finished(requests[0])] + FinishedAll(requests[1..]);
        settled := settled + [Finished(requests[0])];
        requests := requests[1..];
      }
    }

    /** Waiting reads end now, unless the head buffer must be given back first. */
    method BecomeClosed()
      modifies `phase, `requests, `settled, `byobRequest, `closed
      ensures phase == Closed && closed == Signalled(reader, old(closed), Resolved)
      ensures if old(HoldsReaderBuffer(Model())) then requests == old(requests) && settled == old(settled)
                                                       && byobRequest == old(byobRequest)
              else requests == [] && byobRequest == None && settled == old(settled) + FinishedAll(old(requests))
    {
      phase := Closed;
      if !(requests != [] && requests[0].PullInto? && !requests[0].auto) {
        FinishReads();
        byobRequest := None;
      }
      SettleClosed(Resolved);
    }

    method CloseReadable() returns (thrown: Option<Reason>)
      requires AllShaped(requests)
      modifies this
      ensures Call(Model(), thrown) == ReadableModel.CloseReadable(old(Model()))
    {
      if !phase.Readable? {
        return None;
      }
      if requests != [] && requests[0].PullInto? && |requests[0].filled| % requests[0].elementSize != 0 {
        ErrorReadable(ClosedMidElement);
        return Some(ClosedMidElement);
      }
      BecomeClosed();
      return None;
    }

    // ---- draining -----------------------------------------------------------

    /** Copy from `entry` into the head buffer. */
    method CopyBytes(entry: Entry) returns (used: nat)
      requires HasPullInto(Model()) && requests[0].Waiting() && entry.Fits(true)
      modifies `requests
      ensures used == FillCount(old(requests[0]), |entry.value| - entry.offset)
      ensures requests == [Copied(old(requests[0]), entry)] + old(requests[1..])
    {
      var request := requests[0];
      used := CountBytes(request, |entry.value| - entry.offset);
      request := request.(filled := request.filled + entry.value[entry.offset..entry.offset + used]);
      requests := [request] + requests[1..];
    }

    /** Copy from the head entry, and hand the buffer back once it meets its minimum. */
    method FillPullInto(entry: Entry) returns (used: nat)
      requires Drainable(Model()) && queue != [] && HasPullInto(Model()) && entry == queue[0]
      modifies `requests, `byobRequest, `settled
      ensures used == FillCount(old(requests[0]), |entry.value| - entry.offset)
      ensures Model() == Filled(old(Model()))
    {
      assert entry.Fits(true) && requests[0].Waiting();
      used := CopyBytes(entry);
      assert Model() == Grown(old(Model()));
      hide Copied, FillCount, Drainable;
      if |requests[0].filled| >= requests[0].minimum {
        FinishPullInto(false);
        hide Grown, ReadableModel.FinishPullInto;
      } else {
        hide Grown;
      }
    }

    /** Commit whole elements only, once the minimum is within reach. */
    static method CountBytes(request: Request, available: nat) returns (count: nat)
      requires request.PullInto? && request.Waiting()
      ensures count == FillCount(request, available)
    {
      var capacity := request.byteLength - |request.filled|;
      count := if available <= capacity then available else capacity;
      if |request.filled| + count >= request.minimum {
        ghost var whole := ElementPrefix(request, count);
        count := count - (|request.filled| + count) % request.elementSize;
      }
    }

    /** Answer a read with the rest of the head entry. */
    method AnswerFromQueue(request: Request)
      requires queue != []
      modifies `queue, `queueTotalSize, `settled
      ensures queue == old(queue)[1..] && queueTotalSize == old(queueTotalSize) - old(queue)[0].Weight()
      ensures settled == old(settled) + [Answered(request, old(queue)[0].Rest(), false)]
    {
      var entry := queue[0];
      queue := queue[1..];
      queueTotalSize := queueTotalSize - entry.Weight();
      settled := settled + [Answered(request, entry.Rest(), false)];
    }

    method ServeDefault()
      requires queue != [] && requests != []
      modifies `queue, `queueTotalSize, `settled, `requests
      ensures Model() == ServeHead(old(Model()))
    {
      AnswerFromQueue(requests[0]);
      requests := requests[1..];
    }

    /** Take bytes that were copied out off the head entry. */
    method Consume(used: nat)
      requires queue != [] && queue[0].Fits(true) && used <= |queue[0].value| - queue[0].offset
      modifies `queue, `queueTotalSize
      ensures queue == Advance(old(queue), used) && queueTotalSize == old(queueTotalSize) - used as real
    {
      var entry := queue[0].(offset := queue[0].offset + used);
      queueTotalSize := queueTotalSize - used as real;
      queue := if entry.offset == |entry.value| then queue[1..] else [entry] + queue[1..];
    }

    method ServePullInto()
      requires Drainable(Model()) && queue != [] && HasPullInto(Model())
      modifies this
      ensures Model() == FillHead(old(Model()))
    {
      assert queue[0].Fits(true) && requests[0].Waiting();
      FillThenConsume(Model());
      hide Drainable, FillHead, Filled, FillCount, Advance;
      var used := FillPullInto(queue[0]);
      Consume(used);
    }

    method DrainByteQueue() returns (thrown: Option<Reason>)
      requires Drainable(Model())
      modifies this
      ensures Call(Model(), thrown) == ReadableModel.DrainByteQueue(old(Model()))
    {
      while queue != [] && requests != []
        invariant Drainable(Model())
        invariant DrainLoop(Model()) == DrainLoop(old(Model()))
        decreases |queue| + |requests|
      {
        DrainStepProgress(Model());
        if requests[0].DefaultRead? {
          ServeDefault();
        } else {
          ServePullInto();
        }
        hide FillHead, ServeHead, Drainable;
      }
      DrainLoopDrainable(old(Model()));
      thrown := FinishDrain();
    }

    /** A requested close takes effect once the queue has run dry. */
    method FinishDrain() returns (thrown: Option<Reason>)
      requires AllShaped(requests)
      modifies this
      ensures Call(Model(), thrown) == EndDrain(old(Model()))
    {
      thrown := None;
      if closeRequested && queue == [] {
        if requests != [] && requests[0].PullInto? && 0 < |requests[0].filled| < requests[0].minimum {
          ErrorReadable(EndedBelowMinimum);
        } else {
          thrown := CloseReadable();
        }
      }
    }

    // ---- pulling ------------------------------------------------------------

    predicate WantsMore()
      reads this
    {
      phase.Readable? && (highWaterMark.Finite? ==> highWaterMark.limit - queueTotalSize > 0.0)
    }

    /** The call of the source's `pull` is counted; what it does happens in later steps. */
    method CallPull()
      modifies this
      ensures Model() == ReadableModel.CallPull(old(Model()))
    {
      if !phase.Readable? || closeRequested || !started || pulling || !hasPull {
        return;
      }
      if requests == [] && !WantsMore() {
        return;
      }
      pulling := true;
      pullCalls := pullCalls + 1;
    }

    method RequestPull()
      modifies this
      ensures Model() == ReadableModel.RequestPull(old(Model()))
    {
      if pulling {
        pullAgain := true;
        return;
      }
      CallPull();
    }

    method PullResolved()
      modifies this
      ensures Model() == ReadableModel.PullResolved(old(Model()))
    {
      hide ReadableModel.CallPull;
      pullEnds := pullEnds + 1;
      pulling := false;
      if pullAgain {
        pullAgain := false;
        CallPull();
      } else if requests != [] || WantsMore() {
        CallPull();
      }
    }

    method PullRejected(reason: Reason)
      modifies this
      ensures Model() == ReadableModel.PullRejected(old(Model()), reason)
    {
      hide ReadableModel.ErrorReadable;
      pullEnds := pullEnds + 1;
      pulling := false;
      ErrorReadable(reason);
    }

    method StartResolved()
      modifies this
      ensures Model() == ReadableModel.StartResolved(old(Model()))
    {
      started := true;
      RequestPull();
    }

    // ---- the controller -----------------------------------------------------

    method PushEntry(e: Entry)
      modifies `queue, `queueTotalSize, `supplied
      ensures Model() == Push(old(Model()), e)
    {
      queue := queue + [e];
      queueTotalSize := queueTotalSize + e.Weight();
      supplied := supplied + e.Rest();
    }

    method EnqueueBytes(bytes: seq<Item>) returns (thrown: Option<Reason>)
      requires Drainable(Model()) && bytes != []
      modifies this
      ensures Call(Model(), thrown) == ReadableModel.EnqueueBytes(old(Model()), bytes)
    {
      if requests != [] && requests[0].PullInto? && byobRequest.Some? {
        byobRequest := None;
      }
      PushEntry(Bytes(bytes, 0));
      assert Model() == ReceiveBytes(old(Model()), bytes);
      hide ReceiveBytes, Drainable, ReadableModel.DrainByteQueue, ReadableModel.RequestPull;
      thrown := DrainByteQueue();
      if thrown.None? {
        RequestPull();
      }
    }

    method EnqueueChunk(chunk: Incoming) returns (thrown: Option<Reason>)
      modifies this
      ensures Call(Model(), thrown) == ReadableModel.EnqueueChunk(old(Model()), chunk)
    {
      hide ReadableModel.RequestPull, ReadableModel.ErrorReadable;
      if requests != [] {
        settled := settled + [Answered(requests[0], [chunk.item], false)];
        requests := requests[1..];
        supplied := supplied + [chunk.item];
      } else {
        if chunk.size.Raises? {
          ErrorReadable(chunk.size.reason);
          return Some(chunk.size.reason);
        }
        if chunk.size.NotANumber? || chunk.size.amount < 0.0 {
          ErrorReadable(BadChunkSize);
          return Some(BadChunkSize);
        }
        PushEntry(Chunk(chunk.item, chunk.size.amount));
      }
      RequestPull();
      return None;
    }

    method Enqueue(chunk: Incoming) returns (thrown: Option<Reason>)
      requires byteStream ==> Drainable(Model())
      modifies this
      ensures Call(Model(), thrown) == ReadableModel.Enqueue(old(Model()), chunk)
    {
      if closeRequested || !phase.Readable? {
        return Some(CannotEnqueue);
      }
      if !byteStream {
        thrown := EnqueueChunk(chunk);
      } else if chunk.view.None? {
        thrown := Some(NotAByteView);
      } else if chunk.view.value == [] {
        thrown := Some(EmptyChunk);
      } else {
        thrown := EnqueueBytes(chunk.view.value);
      }
      hide ReadableModel.EnqueueBytes, ReadableModel.EnqueueChunk, Drainable;
    }

    method ControllerClose() returns (thrown: Option<Reason>)
      requires AllShaped(requests)
      modifies this
      ensures Call(Model(), thrown) == ReadableModel.ControllerClose(old(Model()))
    {
      hide ReadableModel.CloseReadable;
      if closeRequested || !phase.Readable? {
        return Some(CannotClose);
      }
      closeRequested := true;
      thrown := None;
      if queue == [] {
        thrown := CloseReadable();
      }
    }

    method GetByobRequest()
      modifies this
      ensures Model() == ReadableModel.GetByobRequest(old(Model()))
    {
      if requests != [] && requests[0].PullInto? && byobRequest.None? {
        byobRequest := Some(requests[0].id);
      }
    }

    /** Every waiting buffer goes back to its reader, marked done. */
    method ReturnReads()
      modifies `requests, `settled
      ensures requests == [] && settled == old(settled) + ReturnedAll(old(requests))
    {
      while requests != []
        invariant settled + ReturnedAll(requests) == old(settled) + ReturnedAll(old(requests))
        decreases |requests|
      {
        assert ReturnedAll(requests) == [Answered(requests[0], requests[0].Filled(), true)] + ReturnedAll(requests[1..]);
        settled := settled + [Answered(requests[0], requests[0].Filled(), true)];
        requests := requests[1..];
      }
    }

    method CarryTail()
      requires HasPullInto(Model()) && requests[0].Shaped() && AllFit(queue, true)
      modifies `requests, `queue, `queueTotalSize
      ensures Model() == ReadableModel.CarryTail(old(Model()))
    {
      var request := requests[0];
      var remainder := |request.filled| % request.elementSize;
      Multiples.RemainderBound(|request.filled|, request.elementSize);
      if remainder != 0 {
        var cut := |request.filled| - remainder;
        queue := queue + [Bytes(request.filled[cut..], 0)];
        queueTotalSize := queueTotalSize + remainder as real;
        requests := [request.(filled := request.filled[..cut])] + requests[1..];
      }
    }

    method RespondPullInto(bytes: seq<Item>) returns (thrown: Option<Reason>)
      requires HasPullInto(Model()) && Drainable(Model())
      modifies this
      ensures Call(Model(), thrown) == ReadableModel.RespondPullInto(old(Model()), bytes)
    {
      byobRequest := None;
      requests := [requests[0].(filled := requests[0].filled + bytes)] + requests[1..];
      supplied := supplied + bytes;
      assert Model() == Receive(old(Model()), bytes);
      hide Receive, ReadableModel.AfterReceive;
      thrown := AfterReceive();
    }

    method AfterReceive() returns (thrown: Option<Reason>)
      requires HasPullInto(Model()) && requests[0].Shaped() && AllWaiting(requests[1..]) && AllFit(queue, true)
      modifies this
      ensures Call(Model(), thrown) == ReadableModel.AfterReceive(old(Model()))
    {
      hide ReadableModel.DrainByteQueue, ReadableModel.RequestPull, ReadableModel.CarryTail, ReturnedAll, AllWaiting,
        AllFit;
      thrown := None;
      if phase.Closed? {
        ReturnReads();
        byobRequest := None;
        return;
      }
      if |requests[0].filled| >= requests[0].minimum {
        CarryTail();
        FinishPullInto(false);
        thrown := DrainByteQueue();
        if thrown.Some? {
          return;
        }
      }
      RequestPull();
    }

    /** `respond(count)` on the source's view of the head buffer. */
    method Respond(count: Option<int>, detached: bool, memory: nat -> Item) returns (thrown: Option<Reason>)
      requires byobRequest.Some? ==> HasPullInto(Model())
      requires HasPullInto(Model()) ==> Drainable(Model())
      modifies this
      ensures Call(Model(), thrown) == ReadableModel.Respond(old(Model()), count, detached, memory)
    {
      hide ReadableModel.RespondPullInto, Drainable;
      if byobRequest.None? {
        return Some(RequestInactive);
      }
      if detached {
        return Some(BufferDetached);
      }
      if count.None? || count.value < 0 || count.value > requests[0].byteLength - |requests[0].filled| {
        return Some(BadByteCount);
      }
      if if phase.Closed? then count.value != 0 else count.value == 0 {
        return Some(StateMismatch);
      }
      thrown := RespondPullInto(seq(count.value, memory));
    }

    method RespondWithNewView(view: Replacement, memory: nat -> Item) returns (thrown: Option<Reason>)
      requires byobRequest.Some? ==> HasPullInto(Model())
      requires HasPullInto(Model()) ==> Drainable(Model())
      modifies this
      ensures Call(Model(), thrown) == ReadableModel.RespondWithNewView(old(Model()), view, memory)
    {
      hide ReadableModel.RespondPullInto, Drainable;
      if byobRequest.None? {
        return Some(RequestInactive);
      }
      if view.NoView? {
        return Some(NotAByteView);
      }
      if view.bufferLength == 0 {
        return Some(BufferDetached);
      }
      if if phase.Closed? then view.byteLength != 0 else view.byteLength == 0 {
        return Some(StateMismatch);
      }
      if view.byteOffset != requests[0].byteOffset + |requests[0].filled|
         || view.bufferLength != requests[0].bufferLength
         || view.byteLength > requests[0].byteLength - |requests[0].filled| {
        return Some(BadByteCount);
      }
      thrown := RespondPullInto(seq(view.byteLength, memory));
    }

    // ---- the readers --------------------------------------------------------

    method AcquireReader(kind: Reader) returns (thrown: Option<Reason>)
      modifies `reader, `closed
      ensures Call(Model(), thrown) == ReadableModel.AcquireReader(old(Model()), kind)
    {
      if kind.ByobReader? && !byteStream {
        return Some(NotAByteStream);
      }
      if !reader.NoReader? {
        return Some(Locked);
      }
      reader := kind;
      closed := match phase
                case Readable => Awaited
                case Closed => Resolved
                case Errored(reason) => Rejected(reason);
      thrown := None;
    }

    method ReleaseLock() returns (thrown: Option<Reason>)
      modifies `reader, `closed
      ensures Call(Model(), thrown) == ReadableModel.ReleaseLock(old(Model()))
    {
      if reader.NoReader? {
        return None;
      }
      if requests != [] {
        return Some(PendingReads);
      }
      SettleClosed(Rejected(LockReleased));
      reader := NoReader;
      thrown := None;
    }

    method TakeEntry()
      requires queue != []
      modifies this
      ensures Model() == ReadableModel.TakeEntry(old(Model()))
    {
      AnswerFromQueue(DefaultRead(nextId));
      nextId := nextId + 1;
    }

    /** A read of a stream that has ended is settled at once, any other waits. */
    method WaitOrEnd()
      requires AllShaped(requests) && queue == []
      modifies this
      ensures Model() == ReadableModel.ReadFrom(old(Model()))
    {
      hide ReadableModel.CloseReadable, ReadableModel.RequestPull, ReadableModel.TakeEntry, AllShaped;
      var id := nextId;
      nextId := nextId + 1;
      if phase.Closed? {
        settled := settled + [Finished(DefaultRead(id))];
      } else if phase.Errored? {
        settled := settled + [Failed(DefaultRead(id), phase.storedError)];
      } else {
        var request :=
          if byteStream && autoAllocate > 0
          then PullInto(id, true, [], autoAllocate, 1, 1, 0, autoAllocate)
          else DefaultRead(id);
        requests := requests + [request];
        RequestPull();
      }
    }

    method ReadFrom()
      requires AllShaped(requests)
      modifies this
      ensures Model() == ReadableModel.ReadFrom(old(Model()))
    {
      hide ReadableModel.CloseReadable, ReadableModel.RequestPull;
      if queue != [] {
        TakeEntry();
        if closeRequested && queue == [] {
          var _ := CloseReadable();
        } else {
          RequestPull();
        }
        return;
      }
      WaitOrEnd();
    }

    method ReadInto(view: View, minimum: Minimum) returns (thrown: Option<Reason>)
      requires byteStream ==> Drainable(Model())
      modifies this
      ensures Call(Model(), thrown) == ReadableModel.ReadInto(old(Model()), view, minimum)
    {
      if !byteStream {
        return Some(NotAByteStream);
      }
      if view.NotAView? {
        return Some(NotAByteView);
      }
      if view.elements * view.elementSize == 0 {
        return Some(EmptyView);
      }
      var minElements := if minimum.Whole? then minimum.elements else if minimum.Unspecified? then 1 else 0;
      if minElements <= 0 || minElements * view.elementSize > view.elements * view.elementSize {
        return Some(BadMinimum);
      }
      ghost var request := NewPullInto(Model(), view, minimum);
      hide Drainable, ReadableModel.StartReadInto;
      thrown := StartReadInto(PullInto(nextId, false, [], view.elements * view.elementSize,
                                       minElements * view.elementSize, view.elementSize,
                                       view.byteOffset, view.bufferLength));
    }

    method DrainThenPull() returns (thrown: Option<Reason>)
      requires Drainable(Model())
      modifies this
      ensures Call(Model(), thrown)
           == var drained := ReadableModel.DrainByteQueue(old(Model()));
              if drained.thrown.Some?
              then Call(ReadableModel.ErrorReadable(drained.stream, drained.thrown.value), drained.thrown)
              else Call(ReadableModel.RequestPull(drained.stream), None)
    {
      hide ReadableModel.DrainByteQueue, ReadableModel.RequestPull, ReadableModel.ErrorReadable;
      thrown := DrainByteQueue();
      if thrown.Some? {
        ErrorReadable(thrown.value);
      } else {
        RequestPull();
      }
    }

    method StartReadInto(request: Request) returns (thrown: Option<Reason>)
      requires Drainable(Model()) && request.Waiting()
      modifies this
      ensures Call(Model(), thrown) == ReadableModel.StartReadInto(old(Model()), request)
    {
      hide ReadableModel.DrainByteQueue, ReadableModel.RequestPull, ReadableModel.ErrorReadable;
      nextId := nextId + 1;
      if phase.Errored? {
        settled := settled + [Failed(request, phase.storedError)];
        return None;
      }
      if phase.Closed? && requests == [] {
        settled := settled + [Answered(request, [], true)];
        return None;
      }
      requests := requests + [request];
      thrown := DrainThenPull();
    }

    /** The queue is dropped and every waiting read is told that the stream is done. */
    method Abandon()
      modifies `queue, `queueTotalSize, `requests, `settled, `byobRequest, `cancelled
      ensures queue == [] && queueTotalSize == 0.0 && requests == [] && byobRequest == None && cancelled
      ensures settled == old(settled) + FinishedAll(old(requests))
    {
      queue := [];
      queueTotalSize := 0.0;
      FinishReads();
      byobRequest := None;
      cancelled := true;
    }

    /** The result tells what the promise for the caller is: fulfilled or rejected at once, or open
        until the source's cancel, which is called only then, has settled. */
    method CancelReadable() returns (answer: Signal)
      requires AllShaped(requests)
      modifies this
      ensures Model() == ReadableModel.CancelReadable(old(Model()))
      ensures answer == Announced(old(phase))
    {
      hide ReadableModel.CloseReadable, FinishedAll;
      if !phase.Readable? {
        answer := if phase.Closed? then Resolved else Rejected(phase.storedError);
        queue := [];
        queueTotalSize := 0.0;
        return;
      }
      answer := Awaited;
      Abandon();
      assert Model() == ReadableModel.Abandon(old(Model()));
      var _ := CloseReadable();
    }
  }
}
