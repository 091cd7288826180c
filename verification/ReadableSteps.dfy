/** Every entry point of the readable half keeps the invariant. */
module ReadableSteps {
  import opened Options
  import opened Multiples
  import opened ReadableModel
  import opened ReadableInvariants

  /** The close at the end of a drain never finds a partial element: it errors the stream instead. */
  lemma EndDrainKeeps(s: Stream)
    requires Structure(s) && (s.queue == [] || s.requests == [])
    ensures Sound(EndDrain(s).stream) && EndDrain(s).thrown.None?
    ensures History(s) ==> History(EndDrain(s).stream)
  {
    if s.closeRequested && s.queue == [] && s.phase.Readable? {
      if StuckBelowMinimum(s) {
        ErrorKeeps(s, EndedBelowMinimum);
        hide ErrorReadable, Sound, History;
      } else {
        CloseKeeps(s);
        assert HasPullInto(s) ==> s.requests[0].Waiting();
        assert CloseReadable(s).thrown.None?;
        hide CloseReadable, Sound, History;
      }
    }
  }

  /** Draining leaves no data beside a waiting read. */
  lemma DrainByteQueueKeeps(s: Stream)
    requires Structure(s) && s.byteStream
    ensures Sound(DrainByteQueue(s).stream) && DrainByteQueue(s).thrown.None?
    ensures History(s) ==> History(DrainByteQueue(s).stream)
  {
    DrainLoopKeeps(s);
    EndDrainKeeps(DrainLoop(s));
    hide DrainLoop, EndDrain, Structure, History, Sound;
  }

  lemma RequestPullKeeps(s: Stream)
    requires Sound(s)
    ensures Sound(RequestPull(s)) && Served(RequestPull(s))
    ensures History(s) ==> History(RequestPull(s))
  {
    hide QueueFits, RequestsFit, LedgerOf, Ordered, AllWhole;
  }

  // ---- enqueue --------------------------------------------------------------

  lemma LedgerPush(settled: seq<Settlement>, requests: seq<Request>, queue: seq<Entry>, e: Entry)
    ensures LedgerOf(settled, requests, queue + [e]) == LedgerOf(settled, requests, queue) + e.Rest()
  {
    QueuePush(queue, e);
    hide Delivered, HeadFilled, Contents;
  }

  lemma PushStructure(s: Stream, e: Entry)
    requires Structure(s) && s.phase.Readable? && e.Fits(s.byteStream)
    ensures Structure(Push(s, e))
  {
    QueuePush(s.queue, e);
    hide RequestsFit, Total;
  }

  lemma PushHistory(s: Stream, e: Entry)
    requires PhaseFits(s) && History(s) && s.phase.Readable?
    ensures History(Push(s, e))
  {
    LedgerPush(s.settled, s.requests, s.queue, e);
    hide LedgerOf;
  }

  lemma ForgetByob(s: Stream)
    requires Structure(s)
    ensures Structure(s.(byobRequest := None))
    ensures History(s) ==> History(s.(byobRequest := None))
  {
    hide QueueFits, RequestsFit, LedgerOf, Ordered, AllWhole;
  }

  lemma ReceiveBytesKeeps(s: Stream, bytes: seq<Item>)
    requires Structure(s) && History(s) && s.byteStream && s.phase.Readable? && bytes != []
    ensures Structure(ReceiveBytes(s, bytes)) && History(ReceiveBytes(s, bytes)) && ReceiveBytes(s, bytes).byteStream
  {
    ForgetByob(s);
    var u := s.(byobRequest := if HasPullInto(s) then None else s.byobRequest);
    hide Structure, History, PhaseFits;
    assert u == s || u == s.(byobRequest := None);
    PushStructure(u, Bytes(bytes, 0));
    PushHistory(u, Bytes(bytes, 0));
  }

  lemma EnqueueBytesKeeps(s: Stream, bytes: seq<Item>)
    requires Inv(s) && s.byteStream && s.phase.Readable? && bytes != []
    ensures Inv(EnqueueBytes(s, bytes).stream) && EnqueueBytes(s, bytes).thrown.None?
  {
    ReceiveBytesKeeps(s, bytes);
    hide ReceiveBytes, Structure, History;
    var t := ReceiveBytes(s, bytes);
    DrainByteQueueKeeps(t);
    hide DrainByteQueue, Sound;
    RequestPullKeeps(DrainByteQueue(t).stream);
    hide RequestPull, Served;
  }

  lemma AnswerChunkKeeps(s: Stream, item: Item)
    requires Sound(s) && History(s) && !s.byteStream && s.phase.Readable? && s.requests != []
    ensures Sound(AnswerChunk(s, item)) && History(AnswerChunk(s, item))
  {
    assert s.requests[0].DefaultRead? by {
      assert Admitted(Admits(s), s.requests[0]);
    }
    AnswerChunkSound(s, item);
    assert Lossless(s) && s.queue == [] && AllUnfilled(s.requests[1..]);
    AnswerChunkHistory(s, item);
    hide Sound, History, AnswerChunk;
  }

  lemma AnswerChunkSound(s: Stream, item: Item)
    requires Sound(s) && !s.byteStream && s.phase.Readable? && s.requests != []
    ensures Sound(AnswerChunk(s, item))
  {
    assert Admitted(Admits(s), s.requests[0]);
    hide QueueFits;
  }

  lemma AnswerChunkLedger(s: Stream, item: Item)
    requires s.queue == [] && s.requests != [] && HeadFilled(s.requests) == [] && HeadFilled(s.requests[1..]) == []
    ensures Ledger(AnswerChunk(s, item)) == Ledger(s) + [item]
  {
    DeliveredPush(s.settled, Answered(s.requests[0], [item], false));
    assert Contents([]) == [];
    hide Delivered, Contents;
  }

  lemma AnswerChunkHistory(s: Stream, item: Item)
    requires History(s) && Lossless(s) && s.queue == [] && !s.byteStream && s.requests != []
    requires AllUnfilled(s.requests[1..]) && s.requests[0].DefaultRead?
    ensures History(AnswerChunk(s, item))
  {
    assert |s.requests| > 1 ==> s.requests[1..][0].Filled() == [];
    AnswerChunkLedger(s, item);
    hide Ledger;
  }

  lemma EnqueueKeeps(s: Stream, chunk: Incoming)
    requires Inv(s)
    ensures Inv(Enqueue(s, chunk).stream)
  {
    if !s.closeRequested && s.phase.Readable? {
      if s.byteStream {
        if chunk.view.Some? && chunk.view.value != [] {
          EnqueueBytesKeeps(s, chunk.view.value);
        }
      } else if s.requests != [] {
        AnswerChunkKeeps(s, chunk.item);
        RequestPullKeeps(AnswerChunk(s, chunk.item));
      } else if chunk.size.Raises? {
        ErrorKeeps(s, chunk.size.reason);
      } else if chunk.size.NotANumber? || chunk.size.amount < 0.0 {
        ErrorKeeps(s, BadChunkSize);
      } else {
        var e := Chunk(chunk.item, chunk.size.amount);
        PushStructure(s, e);
        PushHistory(s, e);
        RequestPullKeeps(Push(s, e));
      }
    }
    hide EnqueueBytes, AnswerChunk, Push, RequestPull, Sound, History, ErrorReadable;
  }

  // ---- respond --------------------------------------------------------------

  lemma ReceivedRequests(a: Admission, requests: seq<Request>, bytes: seq<Item>)
    requires RequestsFit(a, requests) && requests != [] && requests[0].PullInto?
    requires |bytes| <= requests[0].byteLength - |requests[0].filled|
    ensures var received := [requests[0].(filled := requests[0].filled + bytes)] + requests[1..];
            && RequestsFit(a, received) && received[0].id == requests[0].id
            && (AllWaiting(requests) && received[0].Waiting() ==> AllWaiting(received))
            && (bytes == [] ==> received == requests)
  {
    assert Admitted(a, requests[0]) && requests[0].Shaped();
    assert requests[0].filled + [] == requests[0].filled;
  }

  lemma ReceiveBuffers(s: Stream, bytes: seq<Item>)
    requires Sound(s) && HasPullInto(s) && |bytes| <= s.requests[0].byteLength - |s.requests[0].filled|
    requires s.phase.Closed? ==> bytes == []
    ensures Buffers(Receive(s, bytes))
    ensures Receive(s, bytes).requests[0].Waiting() ==> Structure(Receive(s, bytes))
  {
    ReceivedRequests(Admits(s), s.requests, bytes);
    hide QueueFits, RequestsFit, AllWaiting;
  }

  lemma ReceivedLedger(s: Stream, bytes: seq<Item>)
    requires HasPullInto(s) && s.queue == []
    ensures Ledger(Receive(s, bytes)) == Ledger(s) + bytes
  {
    assert Contents([]) == [];
    hide Delivered, Contents;
    Regroup(Delivered(s.settled), s.requests[0].filled, bytes, []);
  }

  lemma ReceiveHistory(s: Stream, bytes: seq<Item>)
    requires Sound(s) && History(s) && HasPullInto(s) && (s.phase.Closed? ==> bytes == [])
    ensures History(Receive(s, bytes))
  {
    hide Delivered, Contents, QueueFits, RequestsFit, AllWhole;
    var filled := s.requests[0].filled;
    assert s.queue == [] && Receive(s, bytes).queue == [];
    ReceivedLedger(s, bytes);
    hide Ledger;
  }

  lemma {:induction false} ReturnedNothing(requests: seq<Request>)
    requires AllUnfilled(requests)
    ensures Delivered(ReturnedAll(requests)) == []
  {
    if requests != [] {
      assert ReturnedAll(requests)[1..] == ReturnedAll(requests[1..]);
      assert requests[0].Filled() == [];
      ReturnedNothing(requests[1..]);
    }
  }

  lemma ReturnedDelivers(requests: seq<Request>)
    requires requests != [] && AllUnfilled(requests[1..])
    ensures Delivered(ReturnedAll(requests)) == HeadFilled(requests)
  {
    assert ReturnedAll(requests)[1..] == ReturnedAll(requests[1..]);
    ReturnedNothing(requests[1..]);
  }

  lemma ReturnedWhole(a: Admission, requests: seq<Request>)
    requires RequestsFit(a, requests) && a.Supplied? && requests != [] && requests[0].PullInto?
    requires WholeElements(requests[0])
    ensures AllWhole(Closed, true, ReturnedAll(requests))
  {
    forall i | 0 <= i < |requests|
      ensures WholeAnswer(Closed, true, ReturnedAll(requests)[i])
    {
      assert Admitted(a, requests[i]) && requests[i].Shaped();
      if i > 0 {
        assert requests[1..][i - 1].Filled() == [];
      }
    }
    hide WholeAnswer, RequestsFit;
  }

  lemma ReturnBuffersLedger(s: Stream)
    requires s.requests != [] && AllUnfilled(s.requests[1..])
    ensures Ledger(ReturnBuffers(s)) == Ledger(s)
  {
    hide Delivered, Contents, ReturnedAll;
    ReturnedDelivers(s.requests);
    DeliveredConcat(s.settled, ReturnedAll(s.requests));
  }

  /** After a close the source gives the readers' buffers back; nothing in them is lost. */
  lemma ReturnBuffersKeeps(s: Stream)
    requires Buffers(s) && History(s) && s.phase.Closed? && HasPullInto(s)
    ensures Sound(ReturnBuffers(s)) && History(ReturnBuffers(s))
  {
    assert Admits(s).Supplied? && s.byteStream;
    ReturnedWhole(Admits(s), s.requests);
    ReturnBuffersLedger(s);
    hide Ledger, WholeAnswer;
  }

  lemma CarryTailQueue(s: Stream)
    requires QueueFits(true, s.queue, s.queueTotalSize) && HasPullInto(s) && s.requests[0].Shaped()
    ensures QueueFits(true, CarryTail(s).queue, CarryTail(s).queueTotalSize)
  {
    var r := s.requests[0];
    RemainderBound(|r.filled|, r.elementSize);
    var remainder := |r.filled| % r.elementSize;
    if remainder > 0 {
      QueuePush(s.queue, Bytes(r.filled[|r.filled| - remainder..], 0));
      hide Total;
    }
  }

  lemma CarryTailRequests(s: Stream)
    requires HasPullInto(s) && RequestsFit(Admits(s), s.requests) && AllFit(s.queue, true)
    requires s.requests[0].minimum <= |s.requests[0].filled|
    ensures RequestsFit(Admits(s), CarryTail(s).requests) && Complete(CarryTail(s))
    ensures CarryTail(s).requests[0].id == s.requests[0].id
  {
    var r := s.requests[0];
    assert Admitted(Admits(s), r);
    AlignedFloor(|r.filled|, r.minimum, r.elementSize);
    RemainderBound(|r.filled|, r.elementSize);
    if |r.filled| % r.elementSize == 0 {
    } else {
    }
  }

  lemma CarryTailBuffers(s: Stream)
    requires Buffers(s) && HasPullInto(s) && s.byteStream && s.phase.Readable?
    requires s.requests[0].minimum <= |s.requests[0].filled|
    ensures Buffers(CarryTail(s)) && Complete(CarryTail(s)) && SameControls(s, CarryTail(s))
  {
    CarryTailQueue(s);
    CarryTailRequests(s);
    if |s.requests[0].filled| % s.requests[0].elementSize == 0 {
      hide QueueFits, RequestsFit, Complete;
    } else {
      hide QueueFits, RequestsFit, Complete;
    }
  }

  /** The tail moves from the head buffer to the queue, which comes right after it. */
  lemma CarryTailLedger(s: Stream)
    requires HasPullInto(s) && s.requests[0].Shaped() && s.queue == []
    ensures Ledger(CarryTail(s)) == Ledger(s)
  {
    var r := s.requests[0];
    RemainderBound(|r.filled|, r.elementSize);
    var remainder := |r.filled| % r.elementSize;
    if remainder > 0 {
      var cut := |r.filled| - remainder;
      var tail := Bytes(r.filled[cut..], 0);
      assert [tail] == [] + [tail] && Contents([]) == [];
      QueuePush([], tail);
      LedgerWithHead(s.settled, s.requests, []);
      LedgerWithHead(s.settled, [r.(filled := r.filled[..cut])] + s.requests[1..], [tail]);
      hide Delivered, Contents, LedgerOf;
      MovedPiece(Delivered(s.settled), r.filled[..cut], r.filled[cut..], [], r.filled, r.filled[cut..]);
    }
  }

  lemma CarryTailFrame(s: Stream)
    requires HasPullInto(s) && s.requests[0].Shaped() && AllFit(s.queue, true)
    ensures var t := CarryTail(s);
            && t.settled == s.settled && t.supplied == s.supplied && t.phase == s.phase && t.nextId == s.nextId
            && t.byteStream == s.byteStream && t.cancelled == s.cancelled && t.requests[0].id == s.requests[0].id
  {
    hide AllFit;
    if |s.requests[0].filled| % s.requests[0].elementSize == 0 {
    } else {
    }
  }

  /** Only the ids of the waiting reads matter for their order. */
  lemma SameIdsOrdered(settled: seq<Settlement>, a: seq<Request>, b: seq<Request>, nextId: nat)
    requires a != [] && b != [] && a[0].id == b[0].id && a[1..] == b[1..]
    ensures Ordered(settled, a, nextId) ==> Ordered(settled, b, nextId)
  {
    assert a == [a[0]] + a[1..] && b == [b[0]] + b[1..];
  }

  lemma CarryTailHistory(s: Stream)
    requires History(s) && HasPullInto(s) && s.requests[0].Shaped() && s.queue == []
    ensures History(CarryTail(s))
  {
    CarryTailLedger(s);
    CarryTailFrame(s);
    SameIdsOrdered(s.settled, s.requests, CarryTail(s).requests, s.nextId);
    hide Ledger, AllWhole, CarryTail, Ordered;
  }

  /** The state from which a response that met the minimum goes on to drain. */
  lemma RespondedKeeps(s: Stream)
    requires Buffers(s) && History(s) && HasPullInto(s) && s.byteStream && s.phase.Readable? && s.queue == []
    requires s.requests[0].minimum <= |s.requests[0].filled|
    ensures var t := FinishPullInto(CarryTail(s), false); Structure(t) && History(t) && t.byteStream
  {
    CarryTailBuffers(s);
    CarryTailHistory(s);
    hide Buffers, History, CarryTail;
    FinishBuffers(CarryTail(s), false);
    FinishHistory(CarryTail(s), false);
  }

  lemma RespondPullIntoKeeps(s: Stream, bytes: seq<Item>)
    requires Inv(s) && HasPullInto(s) && |bytes| <= s.requests[0].byteLength - |s.requests[0].filled|
    requires s.phase.Closed? ==> bytes == []
    ensures Inv(RespondPullInto(s, bytes).stream) && RespondPullInto(s, bytes).thrown.None?
  {
    assert Admitted(Admits(s), s.requests[0]);
    assert s.byteStream && s.queue == [];
    ReceiveBuffers(s, bytes);
    ReceiveHistory(s, bytes);
    var t := Receive(s, bytes);
    if t.phase.Closed? {
      assert t.requests[0].filled == s.requests[0].filled;
      ReturnBuffersKeeps(t);
    } else if |t.requests[0].filled| < t.requests[0].minimum {
      assert Sound(t);
      RequestPullKeeps(t);
    } else {
      RespondedKeeps(t);
      var u := FinishPullInto(CarryTail(t), false);
      DrainByteQueueKeeps(u);
      RequestPullKeeps(DrainByteQueue(u).stream);
    }
    hide Buffers, History, Sound, RequestPull, DrainByteQueue, CarryTail, ReturnBuffers, Structure;
  }

  lemma RespondKeeps(s: Stream, count: Option<int>, detached: bool, memory: nat -> Item)
    requires Inv(s)
    ensures Inv(Respond(s, count, detached, memory).stream)
  {
    if s.byobRequest.Some? && !detached && count.Some?
       && 0 <= count.value <= s.requests[0].byteLength - |s.requests[0].filled|
       && (s.phase.Closed? ==> count.value == 0) {
      RespondPullIntoKeeps(s, seq(count.value, memory));
    }
    hide RespondPullInto, Inv;
  }

  lemma RespondWithNewViewKeeps(s: Stream, view: Replacement, memory: nat -> Item)
    requires Inv(s)
    ensures Inv(RespondWithNewView(s, view, memory).stream)
  {
    if s.byobRequest.Some? && view.Replacement? && Covers(s.requests[0], view)
       && (s.phase.Closed? ==> view.byteLength == 0) {
      RespondPullIntoKeeps(s, seq(view.byteLength, memory));
    }
    hide RespondPullInto, Inv;
  }

  // ---- the controller and the source's promises -----------------------------

  lemma CloseRequested(s: Stream)
    requires Structure(s) && History(s)
    ensures Structure(s.(closeRequested := true)) && History(s.(closeRequested := true))
  {
    hide QueueFits, RequestsFit, LedgerOf, Ordered, AllWhole;
  }

  lemma ErrorEnds(s: Stream, reason: Reason)
    ensures var t := ErrorReadable(s, reason);
            !t.phase.Readable? && t.pulling == s.pulling && t.pullEnds == s.pullEnds
  {
  }

  lemma CloseEnds(s: Stream)
    requires AllShaped(s.requests)
    ensures !CloseReadable(s).stream.phase.Readable?
  {
    if !s.phase.Readable? {
    } else if MidElement(s) {
      ErrorEnds(s, ClosedMidElement);
    } else if HoldsReaderBuffer(s) {
    } else {
    }
    hide AllShaped, MidElement, FailedAll, FinishedAll, ErrorReadable;
  }

  lemma ControllerCloseKeeps(s: Stream)
    requires Inv(s)
    ensures Inv(ControllerClose(s).stream)
  {
    hide CloseReadable;
    var t := s.(closeRequested := true);
    assert AllShaped(s.requests);
    hide Structure, History, AllShaped;
    if !s.closeRequested && s.phase.Readable? {
      CloseRequested(s);
      if t.queue == [] {
        CloseKeeps(t);
        CloseEnds(t);
        hide Quiet;
      }
    }
  }

  lemma ErrorReadableKeeps(s: Stream, reason: Reason)
    requires Inv(s)
    ensures Inv(ErrorReadable(s, reason))
  {
    if s.phase.Readable? {
      ErrorKeeps(s, reason);
      hide Sound, History;
    }
  }

  lemma GetByobRequestKeeps(s: Stream)
    requires Inv(s)
    ensures Inv(GetByobRequest(s))
  {
    hide QueueFits, RequestsFit, LedgerOf, Ordered, AllWhole;
  }

  lemma StartResolvedKeeps(s: Stream)
    requires Inv(s)
    ensures Inv(StartResolved(s))
  {
    var t := s.(started := true);
    assert Sound(t) && History(t);
    RequestPullKeeps(t);
    hide RequestPull, Sound, History, Served;
  }

  lemma PullResolvedKeeps(s: Stream)
    requires Inv(s) && s.pulling
    ensures Inv(PullResolved(s))
  {
    hide QueueFits, RequestsFit, LedgerOf, Ordered, AllWhole;
  }

  /** A stream that is no longer readable does not care which pulls are still running. */
  lemma PullEndKeeps(s: Stream)
    requires Inv(s) && !s.phase.Readable? && s.pulling
    ensures Inv(s.(pulling := false, pullEnds := s.pullEnds + 1))
  {
    hide QueueFits, RequestsFit, LedgerOf, Ordered, AllWhole;
  }

  lemma PullRejectedIs(s: Stream, reason: Reason)
    ensures PullRejected(s, reason) == ErrorReadable(s, reason).(pulling := false, pullEnds := s.pullEnds + 1)
  {
    hide FailedAll;
    if s.phase.Readable? {
    } else {
    }
  }

  lemma PullRejectedKeeps(s: Stream, reason: Reason)
    requires Inv(s) && s.pulling
    ensures Inv(PullRejected(s, reason))
  {
    hide *;
    PullRejectedIs(s, reason);
    ErrorReadableKeeps(s, reason);
    ErrorEnds(s, reason);
    PullEndKeeps(ErrorReadable(s, reason));
  }

  // ---- the readers ----------------------------------------------------------

  /** Without waiting reads the lock may change hands. */
  lemma LockKeeps(s: Stream, kind: Reader, closed: Signal)
    requires Inv(s) && s.requests == []
    ensures Inv(s.(reader := kind, closed := closed))
  {
    hide QueueFits, LedgerOf, Ordered, AllWhole;
  }

  lemma UnlockedHasNoReads(s: Stream)
    requires Inv(s) && s.reader.NoReader?
    ensures s.requests == []
  {
    assert s.requests != [] ==> Admitted(Nothing, s.requests[0]);
    hide QueueFits, History;
  }

  lemma AcquireReaderKeeps(s: Stream, kind: Reader)
    requires Inv(s)
    ensures Inv(AcquireReader(s, kind).stream)
  {
    hide Inv;
    if s.reader.NoReader? {
      UnlockedHasNoReads(s);
      LockKeeps(s, kind, Announced(s.phase));
    }
  }

  lemma ReleaseLockKeeps(s: Stream)
    requires Inv(s)
    ensures Inv(ReleaseLock(s).stream)
  {
    hide Inv;
    if s.requests == [] {
      LockKeeps(s, NoReader, Signalled(s.reader, s.closed, Rejected(LockReleased)));
    }
  }

  // ---- reads ----------------------------------------------------------------

  lemma TakeEntryLedger(s: Stream)
    requires s.queue != [] && s.requests == []
    ensures Ledger(TakeEntry(s)) == Ledger(s)
  {
    var t := TakeEntry(s);
    TakeLedger(s.settled, DefaultRead(s.nextId), s.queue);
    NoFill(s.settled, s.requests, s.queue);
    NoFill(t.settled, t.requests, t.queue);
    hide Delivered, Contents, LedgerOf;
  }

  lemma TakeEntryStructure(s: Stream)
    requires Sound(s) && s.queue != []
    ensures Structure(TakeEntry(s))
  {
  }

  lemma TakenWhole(s: Stream)
    requires Sound(s) && s.queue != []
    ensures s.requests == []
    ensures WholeAnswer(s.phase, s.byteStream, Answered(DefaultRead(s.nextId), s.queue[0].Rest(), false))
  {
    assert s.queue[0].Fits(s.byteStream);
  }

  lemma TakeEntryKeeps(s: Stream)
    requires Sound(s) && History(s) && s.queue != []
    ensures Structure(TakeEntry(s)) && History(TakeEntry(s))
  {
    TakeEntryLedger(s);
    TakeEntryStructure(s);
    TakenWhole(s);
    hide Ledger, WholeAnswer, Structure;
  }

  /** A read that is settled without items. */
  lemma SettleEmptyKeeps(s: Stream, a: Settlement)
    requires Inv(s) && s.requests == [] && a.request.id == s.nextId && a.Items() == []
    requires WholeAnswer(s.phase, s.byteStream, a)
    ensures Inv(Settle(s.(nextId := s.nextId + 1), a))
  {
    DeliveredPush(s.settled, a);
    hide Delivered, Contents, QueueFits;
  }

  /** The state with one more waiting read. */
  function Joined(s: Stream, request: Request): Stream {
    s.(nextId := s.nextId + 1, requests := s.requests + [request])
  }

  /** A read that waits. */
  lemma WaitStructure(s: Stream, request: Request)
    requires Structure(s) && request.Waiting() && request.Filled() == []
    requires Admitted(Admits(s), request) && !s.phase.Errored? && !s.cancelled
    requires s.phase.Closed? ==> s.requests != []
    ensures Structure(Joined(s, request))
  {
    if s.requests == [] {
    } else {
      assert (s.requests + [request])[1..] == s.requests[1..] + [request];
    }
    hide QueueFits;
  }

  lemma WaitHistory(s: Stream, request: Request)
    requires History(s) && request.id == s.nextId && request.Filled() == []
    ensures History(Joined(s, request))
  {
    assert HeadFilled(s.requests + [request]) == HeadFilled(s.requests);
    hide Delivered, Contents, AllWhole, HeadFilled;
  }

  lemma WaitKeeps(s: Stream, request: Request)
    requires Structure(s) && History(s) && request.id == s.nextId && request.Waiting() && request.Filled() == []
    requires Admitted(Admits(s), request) && !s.phase.Errored? && !s.cancelled
    requires s.phase.Closed? ==> s.requests != []
    ensures Structure(Joined(s, request)) && History(Joined(s, request))
  {
    WaitStructure(s, request);
    WaitHistory(s, request);
    hide Structure, History, Joined;
  }

  lemma ReadFromQueueKeeps(s: Stream)
    requires Inv(s) && s.queue != []
    ensures Inv(ReadFrom(s))
  {
    TakeEntryKeeps(s);
    var t := TakeEntry(s);
    assert Quiet(t) || (t.closeRequested && t.queue == []);
    hide Structure, History, TakeEntry;
    if t.closeRequested && t.queue == [] && t.phase.Readable? {
      CloseKeeps(t);
    } else {
      RequestPullKeeps(t);
    }
    hide CloseReadable, RequestPull;
  }

  lemma ReadFromWaitingIs(s: Stream)
    requires AllShaped(s.requests) && s.queue == [] && s.phase.Readable?
    ensures ReadFrom(s) == RequestPull(Joined(s, NewRead(s)))
  {
    hide RequestPull, CloseReadable, NewRead;
  }

  lemma NewReadWaits(s: Stream)
    requires Inv(s) && s.reader.DefaultReader? && s.phase.Readable?
    ensures var request := NewRead(s);
            && request.id == s.nextId && request.Waiting() && request.Filled() == [] && Admitted(Admits(s), request)
            && !s.cancelled && AllShaped(s.requests) && Structure(s) && History(s)
  {
    hide QueueFits, History;
  }

  lemma JoinedQuiet(s: Stream, request: Request)
    requires Inv(s) && s.queue == []
    ensures Quiet(Joined(s, request))
  {
    hide Structure, History;
  }

  lemma ReadFromWaitingKeeps(s: Stream)
    requires Inv(s) && s.reader.DefaultReader? && s.queue == [] && s.phase.Readable?
    ensures Inv(ReadFrom(s))
  {
    NewReadWaits(s);
    JoinedQuiet(s, NewRead(s));
    ReadFromWaitingIs(s);
    hide Structure, History, Quiet, Served, NewRead, Joined, ReadFrom, RequestPull, AllShaped, Admitted;
    WaitKeeps(s, NewRead(s));
    RequestPullKeeps(Joined(s, NewRead(s)));
  }

  lemma ReadFromEndedIs(s: Stream, a: Settlement)
    requires AllShaped(s.requests) && s.queue == [] && !s.phase.Readable?
    requires a == if s.phase.Closed? then Finished(DefaultRead(s.nextId))
                  else Failed(DefaultRead(s.nextId), s.phase.storedError)
    ensures ReadFrom(s) == Settle(s.(nextId := s.nextId + 1), a)
  {
    hide RequestPull, CloseReadable, AllShaped, TakeEntry, NewRead;
    if s.phase.Closed? {
    } else {
    }
  }

  lemma ReadFromKeeps(s: Stream)
    requires Inv(s) && s.reader.DefaultReader?
    ensures Inv(ReadFrom(s))
  {
    if s.queue != [] {
      ReadFromQueueKeeps(s);
    } else if s.phase.Readable? {
      ReadFromWaitingKeeps(s);
    } else {
      assert s.requests == [];
      SettleEmptyKeeps(s, if s.phase.Closed? then Finished(DefaultRead(s.nextId))
                          else Failed(DefaultRead(s.nextId), s.phase.storedError));
    }
    hide Inv, RequestPull, CloseReadable, TakeEntry;
  }

  predicate FreshInto(s: Stream, request: Request) {
    request.Waiting() && request.PullInto? && request.id == s.nextId && !request.auto && request.filled == []
  }

  lemma WaitIntoKeeps(s: Stream, request: Request)
    requires Inv(s) && s.byteStream && s.reader.ByobReader? && (s.phase.Readable? || (s.phase.Closed? && s.requests != []))
    requires request.Waiting() && request.PullInto? && request.id == s.nextId && !request.auto && request.filled == []
    ensures var t := Joined(s, request);
            Drainable(t) && Inv(RequestPull(DrainByteQueue(t).stream)) && DrainByteQueue(t).thrown.None?
  {
    WaitKeeps(s, request);
    var t := Joined(s, request);
    assert Drainable(t);
    hide Structure, History;
    DrainByteQueueKeeps(t);
    hide DrainByteQueue, Sound;
    RequestPullKeeps(DrainByteQueue(t).stream);
    hide RequestPull, Served;
  }

  lemma StartReadIntoIs(s: Stream, request: Request)
    requires Drainable(s) && request.Waiting() && Drainable(Joined(s, request))
    requires s.phase.Readable? || (s.phase.Closed? && s.requests != [])
    requires DrainByteQueue(Joined(s, request)).thrown.None?
    ensures StartReadInto(s, request) == Call(RequestPull(DrainByteQueue(Joined(s, request)).stream), None)
  {
    hide DrainByteQueue, RequestPull, AllWaiting, AllFit, ErrorReadable;
  }

  lemma StartReadIntoWaits(s: Stream, request: Request)
    requires Inv(s) && s.byteStream && s.reader.ByobReader? && FreshInto(s, request)
    requires s.phase.Readable? || (s.phase.Closed? && s.requests != [])
    ensures Inv(StartReadInto(s, request).stream) && StartReadInto(s, request).thrown.None?
  {
    hide DrainByteQueue, RequestPull, ErrorReadable, StartReadInto;
    WaitIntoKeeps(s, request);
    hide Inv;
    StartReadIntoIs(s, request);
  }

  lemma StartReadIntoEnds(s: Stream, request: Request)
    requires Inv(s) && s.byteStream && FreshInto(s, request)
    requires !s.phase.Readable? && s.requests == []
    ensures Inv(StartReadInto(s, request).stream) && StartReadInto(s, request).thrown.None?
  {
    SettleEmptyKeeps(s, if s.phase.Errored? then Failed(request, s.phase.storedError) else Answered(request, [], true));
    hide Inv, DrainByteQueue, RequestPull;
  }

  lemma StartReadIntoKeeps(s: Stream, request: Request)
    requires Inv(s) && s.byteStream && s.reader.ByobReader? && FreshInto(s, request)
    ensures Inv(StartReadInto(s, request).stream) && StartReadInto(s, request).thrown.None?
  {
    if !s.phase.Readable? && s.requests == [] {
      StartReadIntoEnds(s, request);
    } else {
      StartReadIntoWaits(s, request);
    }
    hide Inv, StartReadInto;
  }

  /** A read with a buffer fails early only for its arguments; nothing is thrown later. */
  lemma ReadIntoKeeps(s: Stream, view: View, minimum: Minimum)
    requires Inv(s) && s.reader.ByobReader?
    ensures Inv(ReadInto(s, view, minimum).stream)
    ensures ReadInto(s, view, minimum).thrown == Refusal(s, view, minimum)
  {
    if Refusal(s, view, minimum).None? {
      StartReadIntoKeeps(s, NewPullInto(s, view, minimum));
    }
    hide StartReadInto, NewPullInto, Inv;
  }

  function Cancelled(s: Stream): Stream {
    s.(phase := Closed, queue := [], queueTotalSize := 0.0, settled := s.settled + FinishedAll(s.requests),
       requests := [], byobRequest := None, closed := Signalled(s.reader, s.closed, Resolved), cancelled := true)
  }

  lemma CancelIs(s: Stream)
    requires s.phase.Readable? && AllShaped(s.requests)
    ensures CancelReadable(s) == Cancelled(s)
  {
    var settled := s.settled + FinishedAll(s.requests);
    assert settled + FinishedAll([]) == settled;
  }

  lemma CancelledSound(s: Stream)
    requires Sound(s)
    ensures Sound(Cancelled(s)) && Served(Cancelled(s))
  {
  }

  lemma CancelledConserved(s: Stream)
    requires Conserved(s)
    ensures Conserved(Cancelled(s))
  {
    DeliveredNothing(s.settled, FinishedAll(s.requests));
    hide Delivered, Contents;
  }

  lemma CancelledHistory(s: Stream)
    requires History(s) && s.phase.Readable?
    ensures History(Cancelled(s))
  {
    CancelledConserved(s);
    hide Conserved;
  }

  lemma CancelReadableKeeps(s: Stream)
    requires Inv(s)
    ensures Inv(CancelReadable(s))
  {
    if s.phase.Readable? {
      CancelIs(s);
      CancelledSound(s);
      CancelledHistory(s);
      hide CancelReadable, Cancelled, Sound, History;
    } else {
      assert CancelReadable(s) == s;
    }
  }
}
