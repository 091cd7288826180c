/** The view of the head buffer that the source holds: when there is one, and what ends it. */
module ReadableViews {
  import opened Options
  import opened ReadableModel
  import opened ReadableInvariants
  import opened ReadableSteps
  import opened ReadableRuns
  import opened ReadableSignals
  import opened ReadablePhases

  /** The source handed data over or gave the buffer back, and was not refused. */
  predicate HandsOver(s: Stream, e: Event)
    requires Sound(s)
  {
    match e
    case SourceEnqueue(chunk) => Enqueue(s, chunk).thrown.None?
    case SourceRespond(count, detached, memory) => s.byteStream && Respond(s, count, detached, memory).thrown.None?
    case SourceRespondWithView(view, memory) => s.byteStream && RespondWithNewView(s, view, memory).thrown.None?
    case _ => false
  }

  // ---- inner operations -----------------------------------------------------

  lemma CallPullViews(s: Stream)
    ensures CallPull(s).byobRequest == s.byobRequest && CallPull(s).requests == s.requests
  {
    hide Demand, MayPull;
  }

  lemma PullViews(s: Stream)
    ensures RequestPull(s).byobRequest == s.byobRequest && RequestPull(s).requests == s.requests
  {
    CallPullViews(s);
    hide CallPull;
  }

  lemma PullResolvedViews(s: Stream)
    ensures PullResolved(s).byobRequest == s.byobRequest && PullResolved(s).requests == s.requests
  {
    CallPullViews(s.(pulling := false, pullEnds := s.pullEnds + 1, pullAgain := false));
    CallPullViews(s.(pulling := false, pullEnds := s.pullEnds + 1));
    hide CallPull, Demand;
  }

  lemma ErrorViews(s: Stream, reason: Reason)
    ensures ErrorReadable(s, reason).byobRequest == if s.phase.Readable? then None else s.byobRequest
    ensures s.phase.Readable? ==> ErrorReadable(s, reason).requests == []
    ensures !s.phase.Readable? ==> ErrorReadable(s, reason) == s
  {
  }

  lemma EndReadsViews(s: Stream)
    ensures EndReads(s).byobRequest.None? && EndReads(s).requests == []
  {
    hide FinishedAll;
  }

  lemma CloseViews(s: Stream)
    requires AllShaped(s.requests)
    ensures CloseReadable(s).stream.byobRequest == s.byobRequest || CloseReadable(s).stream.requests == []
    ensures s.byobRequest.None? ==> CloseReadable(s).stream.byobRequest.None?
    ensures !s.phase.Readable? ==> CloseReadable(s).stream == s
  {
    ErrorViews(s, ClosedMidElement);
    EndReadsViews(s);
    hide ErrorReadable, AllShaped, MidElement, EndReads;
  }

  lemma CopyViews(s: Stream)
    requires Drainable(s) && s.queue != [] && HasPullInto(s)
    ensures CopyHead(s).byobRequest == s.byobRequest && HasPullInto(CopyHead(s))
  {
    hide FillCount, Advance, AllFit, AllWaiting;
  }

  lemma DrainStepViews(s: Stream)
    requires Drainable(s) && s.queue != [] && s.requests != [] && s.byobRequest.None?
    ensures DrainStep(s).byobRequest.None?
  {
    if HasPullInto(s) {
      CopyViews(s);
      hide CopyHead, AllFit, AllWaiting;
    } else {
      hide AllFit, AllWaiting, FillHead;
    }
  }

  lemma {:induction false} DrainLoopViews(s: Stream)
    requires Drainable(s) && s.byobRequest.None?
    ensures DrainLoop(s).byobRequest.None?
    decreases |s.queue| + |s.requests|
  {
    if s.queue != [] && s.requests != [] {
      DrainStepProgress(s);
      DrainStepViews(s);
      DrainLoopViews(DrainStep(s));
    }
    hide DrainStep, Drainable;
  }

  lemma DrainViews(s: Stream)
    requires Drainable(s) && s.byobRequest.None?
    ensures DrainByteQueue(s).stream.byobRequest.None?
  {
    DrainLoopViews(s);
    DrainLoopDrainable(s);
    CloseViews(DrainLoop(s));
    ErrorViews(DrainLoop(s), EndedBelowMinimum);
    hide DrainLoop, CloseReadable, ErrorReadable;
  }

  // ---- the source -----------------------------------------------------------

  lemma EnqueueBytesViews(s: Stream, bytes: seq<Item>)
    requires Inv(s) && Drainable(s) && bytes != []
    ensures EnqueueBytes(s, bytes).thrown.None? ==> EnqueueBytes(s, bytes).stream.byobRequest.None?
  {
    assert ReceiveBytes(s, bytes).byobRequest.None?;
    hide Inv, Drainable, ReceiveBytes, DrainByteQueue;
    DrainViews(ReceiveBytes(s, bytes));
    PullViews(DrainByteQueue(ReceiveBytes(s, bytes)).stream);
    hide RequestPull;
  }

  lemma ChunkViews(s: Stream, chunk: Incoming)
    requires s.byobRequest.None?
    ensures EnqueueChunk(s, chunk).stream.byobRequest.None?
  {
    if s.requests != [] {
      PullViews(AnswerChunk(s, chunk.item));
    } else if chunk.size.Raises? {
      ErrorViews(s, chunk.size.reason);
    } else if chunk.size.NotANumber? || chunk.size.amount < 0.0 {
      ErrorViews(s, BadChunkSize);
    } else {
      PullViews(Push(s, Chunk(chunk.item, chunk.size.amount)));
    }
    hide RequestPull, ErrorReadable;
  }

  lemma EnqueueViews(s: Stream, chunk: Incoming)
    requires Inv(s)
    ensures s.byteStream ==> Drainable(s)
    ensures var c := Enqueue(s, chunk);
            c.stream.byobRequest == if c.thrown.None? then None else s.byobRequest
  {
    EnqueueRefused(s, chunk);
    if s.byteStream {
      if Enqueue(s, chunk).thrown.None? {
        EnqueueBytesViews(s, chunk.view.value);
      }
      hide Inv, Drainable, EnqueueBytes;
    } else {
      NoViewOfChunks(s);
      ChunkViews(s, chunk);
      hide Inv, EnqueueChunk, Drainable;
    }
  }

  lemma NoViewOfChunks(s: Stream)
    requires Inv(s) && !s.byteStream
    ensures s.byobRequest.None?
  {
    assert s.requests != [] ==> Admitted(Admits(s), s.requests[0]);
  }

  lemma AnsweredViews(s: Stream)
    requires HasPullInto(s) && s.requests[0].Shaped() && AllWaiting(s.requests[1..]) && AllFit(s.queue, true)
    requires s.byobRequest.None?
    ensures AfterReceive(s).thrown.None? ==> AfterReceive(s).stream.byobRequest.None?
  {
    hide DrainByteQueue, CarryTail, RequestPull, AllFit, AllWaiting;
    PullViews(s);
    if !s.phase.Closed? && |s.requests[0].filled| >= s.requests[0].minimum {
      var t := FinishPullInto(CarryTail(s), false);
      assert t.byobRequest.None? && Drainable(t);
      DrainViews(t);
      PullViews(DrainByteQueue(t).stream);
    }
  }

  lemma RespondPullIntoViews(s: Stream, bytes: seq<Item>)
    requires HasPullInto(s) && Drainable(s)
    ensures RespondPullInto(s, bytes).thrown.None? ==> RespondPullInto(s, bytes).stream.byobRequest.None?
  {
    assert AllWaiting(s.requests[1..]) && s.requests[0].Shaped();
    AnsweredViews(Receive(s, bytes));
    hide AfterReceive, AllWaiting, AllFit;
  }

  lemma RespondViews(s: Stream, count: Option<int>, detached: bool, memory: nat -> Item)
    requires Inv(s)
    ensures (s.byobRequest.Some? ==> HasPullInto(s)) && (HasPullInto(s) ==> Drainable(s))
    ensures var c := Respond(s, count, detached, memory);
            c.stream.byobRequest == if c.thrown.None? then None else s.byobRequest
  {
    RespondRefused(s, count, detached, memory);
    if Respond(s, count, detached, memory).thrown.None? {
      RespondPullIntoViews(s, seq(count.value, memory));
    }
    hide Inv, RespondPullInto, Drainable;
  }

  lemma NewViewViews(s: Stream, view: Replacement, memory: nat -> Item)
    requires Inv(s)
    ensures (s.byobRequest.Some? ==> HasPullInto(s)) && (HasPullInto(s) ==> Drainable(s))
    ensures var c := RespondWithNewView(s, view, memory);
            c.stream.byobRequest == if c.thrown.None? then None else s.byobRequest
  {
    NewViewRefused(s, view, memory);
    if RespondWithNewView(s, view, memory).thrown.None? {
      RespondPullIntoViews(s, seq(view.byteLength, memory));
    }
    hide Inv, RespondPullInto, Drainable;
  }

  // ---- the readers ----------------------------------------------------------

  lemma ReadViews(s: Stream)
    requires Inv(s)
    ensures AllShaped(s.requests)
    ensures ReadFrom(s).requests == [] || ReadFrom(s).byobRequest == s.byobRequest
  {
    assert AllShaped(s.requests);
    hide Inv, ReadFrom, RequestPull, NewRead;
    if s.queue != [] {
      ReadTakesHead(s);
    } else if s.phase.Readable? {
      ReadFromWaitingIs(s);
      PullViews(Joined(s, NewRead(s)));
    } else {
      ReadFromEndedIs(s, if s.phase.Closed? then Finished(DefaultRead(s.nextId))
                         else Failed(DefaultRead(s.nextId), s.phase.storedError));
    }
  }

  /** Nothing is drained while a request waits already. */
  lemma WaitingIntoViews(s: Stream)
    requires Structure(s) && s.queue == [] && (s.phase.Readable? ==> !s.closeRequested)
    ensures DrainByteQueue(s).stream.byobRequest == s.byobRequest
  {
    CloseViews(s);
    ErrorViews(s, EndedBelowMinimum);
    hide CloseReadable, ErrorReadable;
  }

  lemma DrainedViews(s: Stream)
    requires Structure(s) && s.byteStream && (s.byobRequest.None? || s.queue == [])
    requires s.queue == [] && s.phase.Readable? ==> !s.closeRequested
    ensures Drainable(s) && RequestPull(DrainByteQueue(s).stream).byobRequest == s.byobRequest
  {
    assert Drainable(s);
    PullViews(DrainByteQueue(s).stream);
    hide DrainByteQueue, RequestPull, Structure, Drainable;
    if s.byobRequest.None? {
      DrainViews(s);
    } else {
      WaitingIntoViews(s);
    }
  }

  lemma JoinedViews(s: Stream, request: Request)
    requires Inv(s)
    ensures var t := Joined(s, request);
            && t.byobRequest == s.byobRequest && t.byteStream == s.byteStream
            && (t.byobRequest.None? || t.queue == [])
            && (t.queue == [] && t.phase.Readable? ==> !t.closeRequested)
  {
    NoViewUnread(s);
    hide Structure, History, Served;
  }

  lemma WaitingReadViews(s: Stream, request: Request)
    requires Inv(s) && s.byteStream && s.reader.ByobReader? && FreshInto(s, request)
    requires s.phase.Readable? || (s.phase.Closed? && s.requests != [])
    ensures Drainable(s) && StartReadInto(s, request).stream.byobRequest == s.byobRequest
  {
    hide StartReadInto, DrainByteQueue, RequestPull, History, Joined;
    assert Drainable(s);
    WaitIntoKeeps(s, request);
    WaitKeeps(s, request);
    StartReadIntoIs(s, request);
    JoinedViews(s, request);
    hide Inv, Structure, Drainable;
    DrainedViews(Joined(s, request));
  }

  lemma StartReadIntoViews(s: Stream, request: Request)
    requires Inv(s) && s.byteStream && s.reader.ByobReader? && FreshInto(s, request)
    ensures Drainable(s) && StartReadInto(s, request).stream.byobRequest == s.byobRequest
  {
    hide DrainByteQueue, RequestPull, ErrorReadable;
    assert Drainable(s);
    if s.phase.Readable? || (s.phase.Closed? && s.requests != []) {
      WaitingReadViews(s, request);
      hide StartReadInto;
    }
    hide Inv, Drainable;
  }

  lemma ReadIntoViews(s: Stream, view: View, minimum: Minimum)
    requires Inv(s) && s.reader.ByobReader?
    ensures s.byteStream ==> Drainable(s)
    ensures ReadInto(s, view, minimum).stream.byobRequest == s.byobRequest
  {
    assert s.byteStream ==> Drainable(s);
    if Refusal(s, view, minimum).None? {
      var request := NewPullInto(s, view, minimum);
      assert FreshInto(s, request);
      StartReadIntoViews(s, request);
      hide StartReadInto, NewPullInto;
    }
    hide Inv, Drainable;
  }

  lemma CancelViews(s: Stream)
    requires AllShaped(s.requests)
    ensures CancelReadable(s).requests == [] || CancelReadable(s).byobRequest == s.byobRequest
  {
    if s.phase.Readable? {
      CancelIs(s);
      hide CancelReadable, FinishedAll, AllShaped;
    } else {
      hide CloseReadable, AllShaped;
    }
  }

  // ---- every step -----------------------------------------------------------

  /** The view a step leaves, if there is still a waiting read. */
  function ViewAfter(s: Stream, e: Event): Option<nat>
    requires Sound(s)
  {
    if e.SourceByobRequest? then (if HasPullInto(s) then Some(s.requests[0].id) else None)
    else if HandsOver(s, e) then None
    else s.byobRequest
  }

  lemma NoViewUnread(s: Stream)
    requires Inv(s)
    ensures s.requests == [] ==> s.byobRequest.None?
    ensures s.byobRequest.Some? ==> HasPullInto(s) && s.byobRequest.value == s.requests[0].id
  {
    hide History;
  }

  lemma SourceViews(s: Stream, e: Event)
    requires Inv(s) && OfSource(e)
    ensures Step(s, e).requests == [] || Step(s, e).byobRequest == ViewAfter(s, e)
  {
    assert Sound(s) && AllShaped(s.requests) && (s.byteStream ==> Drainable(s));
    hide Inv, Sound, Drainable, Enqueue, CloseReadable, Respond, RespondWithNewView, AllShaped;
    match e {
      case SourceEnqueue(chunk) => EnqueueViews(s, chunk);
      case SourceClose => CloseViews(s.(closeRequested := true));
      case SourceByobRequest => NoViewUnread(s);
      case SourceRespond(count, detached, memory) => if s.byteStream { RespondViews(s, count, detached, memory); }
      case SourceRespondWithView(view, memory) => if s.byteStream { NewViewViews(s, view, memory); }
    }
  }

  lemma PromiseViews(s: Stream, e: Event)
    requires Inv(s) && (e.StartFulfilled? || e.StartRejected? || e.PullFulfilled? || e.PullFailed? || e.SourceError?)
    ensures Step(s, e).requests == [] || Step(s, e).byobRequest == s.byobRequest
  {
    assert Sound(s);
    hide Inv, Sound, ErrorReadable, RequestPull, PullResolved, PullRejected;
    match e {
      case StartFulfilled => PullViews(s.(started := true));
      case StartRejected(reason) => ErrorViews(s, reason);
      case PullFulfilled => PullResolvedViews(s);
      case PullFailed(reason) =>
        PullRejectedIs(s, reason);
        ErrorViews(s, reason);
      case SourceError(reason) => ErrorViews(s, reason);
    }
  }

  lemma ConsumerViews(s: Stream, e: Event)
    requires Inv(s) && (e.GetReader? || e.ReleaseReader? || e.Read? || e.ReadView? || e.Cancel?)
    ensures Step(s, e).requests == [] || Step(s, e).byobRequest == s.byobRequest
  {
    assert Sound(s) && AllShaped(s.requests);
    hide Inv, Sound, AllShaped, ReadFrom, ReadInto, CancelReadable;
    match e {
      case GetReader(byob) =>
      case ReleaseReader =>
      case Read => if s.reader.DefaultReader? { ReadViews(s); }
      case ReadView(view, minimum) => if s.reader.ByobReader? { ReadIntoViews(s, view, minimum); }
      case Cancel => CancelViews(s);
    }
  }

  /** Every step, from every state: the source's view comes into being only when the source asks for
      it and a buffer waits, it ends when the source hands data over or gives the buffer back, and
      with the last waiting read, and nothing else touches it. */
  lemma StepViews(s: Stream, e: Event)
    requires Inv(s)
    ensures Sound(s)
    ensures Step(s, e).byobRequest == if Step(s, e).requests == [] then None else ViewAfter(s, e)
  {
    StepKeeps(s, e);
    NoViewUnread(Step(s, e));
    assert Sound(s);
    if OfSource(e) {
      SourceViews(s, e);
    } else {
      assert ViewAfter(s, e) == s.byobRequest;
      if e.StartFulfilled? || e.StartRejected? || e.PullFulfilled? || e.PullFailed? || e.SourceError? {
        PromiseViews(s, e);
      } else {
        ConsumerViews(s, e);
      }
    }
    hide Inv, Sound, Step, ViewAfter, HandsOver;
  }

  // ---- asking again ---------------------------------------------------------

  /** Whether a pull was asked for meanwhile makes no difference: when one ends, the next starts
      exactly if there is demand. */
  lemma AskingAgainIsIdle(s: Stream)
    ensures PullResolved(s) == CallPull(s.(pulling := false, pullEnds := s.pullEnds + 1, pullAgain := false))
                               .(pullAgain := false)
  {
  }
}
