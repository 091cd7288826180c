/** What a reader's `closed` promise tells in every run. */
module ReadableSignals {
  import opened Options
  import opened ReadableModel
  import opened ReadableInvariants
  import opened ReadableSteps
  import opened ReadableRuns

  /** An attached reader has been told of the phase, and of no other. */
  predicate Told(s: Stream) {
    !s.reader.NoReader? ==> s.closed == Announced(s.phase)
  }

  predicate SamePhase(s: Stream, t: Stream) {
    t.phase == s.phase && t.reader == s.reader && t.closed == s.closed && t.cancelled == s.cancelled
  }

  /** No reader is attached, and the one that was hears nothing more. */
  predicate Silent(s: Stream, t: Stream) {
    s.reader.NoReader? ==> t.reader.NoReader? && t.closed == s.closed
  }

  /** The reader is told of every change of phase, and the stream is not cancelled. */
  predicate Follows(s: Stream, t: Stream) {
    (Told(s) ==> Told(t)) && t.cancelled == s.cancelled && Silent(s, t)
  }

  lemma DrainStepSamePhase(s: Stream)
    requires Drainable(s) && s.queue != [] && s.requests != []
    ensures SamePhase(s, DrainStep(s))
  {
    hide FillCount, Advance, AllFit, AllWaiting;
    if HasPullInto(s) {
      var t := CopyHead(s);
      assert SamePhase(s, t) && t.requests[0].PullInto?;
      hide CopyHead;
    }
  }

  lemma {:induction false} DrainLoopSamePhase(s: Stream)
    requires Drainable(s)
    ensures SamePhase(s, DrainLoop(s))
    decreases |s.queue| + |s.requests|
  {
    hide DrainStep, Drainable;
    if s.queue != [] && s.requests != [] {
      DrainStepProgress(s);
      DrainStepSamePhase(s);
      DrainLoopSamePhase(DrainStep(s));
    }
  }

  lemma ErrorTells(s: Stream, reason: Reason)
    ensures Follows(s, ErrorReadable(s, reason))
  {
    hide FailedAll;
    if s.phase.Readable? {
      var t := ErrorReadable(s, reason);
      assert t.phase == Errored(reason) && t.reader == s.reader && t.cancelled == s.cancelled;
      assert t.closed == Signalled(s.reader, s.closed, Rejected(reason));
      hide ErrorReadable;
    }
  }

  lemma EndReadsTells(s: Stream)
    requires s.phase.Readable?
    ensures Follows(s, EndReads(s))
  {
    hide FinishedAll;
  }

  lemma CloseTells(s: Stream)
    requires AllShaped(s.requests)
    ensures Follows(s, CloseReadable(s).stream)
  {
    hide AllShaped, FinishedAll, FailedAll, MidElement;
    if s.phase.Readable? {
      if MidElement(s) {
        ErrorTells(s, ClosedMidElement);
        hide ErrorReadable;
      } else if HoldsReaderBuffer(s) {
      } else {
        EndReadsTells(s);
        hide EndReads;
      }
    }
  }

  lemma DrainTells(s: Stream)
    requires Drainable(s)
    ensures Follows(s, DrainByteQueue(s).stream)
  {
    hide DrainLoop, CloseReadable, ErrorReadable;
    DrainLoopSamePhase(s);
    DrainLoopDrainable(s);
    var t := DrainLoop(s);
    assert AllShaped(t.requests);
    hide AllShaped, AllWaiting, AllFit;
    CloseTells(t);
    ErrorTells(t, EndedBelowMinimum);
  }

  lemma EnqueueChunkTells(s: Stream, chunk: Incoming)
    ensures Follows(s, EnqueueChunk(s, chunk).stream)
  {
    hide ErrorReadable;
    if s.requests == [] {
      ErrorTells(s, BadChunkSize);
      if chunk.size.Raises? {
        ErrorTells(s, chunk.size.reason);
      }
    }
  }

  lemma EnqueueTells(s: Stream, chunk: Incoming)
    requires Inv(s)
    ensures Follows(s, Enqueue(s, chunk).stream)
  {
    hide DrainByteQueue, ErrorReadable;
    if s.byteStream {
      assert Drainable(s);
      hide Inv, AllFit, AllWaiting;
      if s.phase.Readable? && !s.closeRequested && chunk.view.Some? && chunk.view.value != [] {
        DrainTells(ReceiveBytes(s, chunk.view.value));
      }
    } else {
      hide Inv;
      EnqueueChunkTells(s, chunk);
      hide EnqueueChunk;
    }
  }

  lemma PullTells(s: Stream)
    ensures Follows(s, RequestPull(s))
  {
  }

  lemma AfterReceiveTells(s: Stream)
    requires HasPullInto(s) && s.requests[0].Shaped() && AllWaiting(s.requests[1..]) && AllFit(s.queue, true)
    ensures Follows(s, AfterReceive(s).stream)
  {
    hide DrainByteQueue, AllFit, ReturnedAll, RequestPull;
    if !s.phase.Closed? && |s.requests[0].filled| >= s.requests[0].minimum {
      var t := FinishPullInto(CarryTail(s), false);
      assert SamePhase(s, t) && Drainable(t);
      hide CarryTail, FinishPullInto, AllWaiting;
      DrainTells(t);
      PullTells(DrainByteQueue(t).stream);
    } else {
      PullTells(s);
    }
  }

  lemma RespondTells(s: Stream, bytes: seq<Item>)
    requires HasPullInto(s) && Drainable(s)
    ensures Follows(s, RespondPullInto(s, bytes).stream)
  {
    AfterReceiveTells(Receive(s, bytes));
    hide AfterReceive, AllWaiting, AllFit;
  }

  lemma TakenTells(s: Stream)
    requires s.queue != [] && AllShaped(s.requests)
    ensures Follows(s, ReadFrom(s))
  {
    hide CloseReadable, RequestPull, AllShaped;
    var t := TakeEntry(s);
    assert Follows(s, t) && AllShaped(t.requests);
    CloseTells(t);
    PullTells(t);
    hide TakeEntry;
  }

  lemma WaitingTells(s: Stream)
    requires AllShaped(s.requests) && s.queue == [] && s.phase.Readable?
    ensures Follows(s, ReadFrom(s))
  {
    ReadFromWaitingIs(s);
    var t := Joined(s, NewRead(s));
    assert Told(s) ==> Told(t);
    PullTells(t);
    assert t.cancelled == s.cancelled;
    hide ReadFrom, RequestPull, NewRead, Told;
  }

  lemma EndedTells(s: Stream)
    requires AllShaped(s.requests) && s.queue == [] && !s.phase.Readable?
    ensures Follows(s, ReadFrom(s))
  {
    ReadFromEndedIs(s, if s.phase.Closed? then Finished(DefaultRead(s.nextId))
                       else Failed(DefaultRead(s.nextId), s.phase.storedError));
    hide ReadFrom;
  }

  lemma ReadFromTells(s: Stream)
    requires Inv(s)
    ensures Follows(s, ReadFrom(s))
  {
    assert AllShaped(s.requests);
    hide Inv, AllShaped, ReadFrom, Follows;
    if s.queue != [] {
      TakenTells(s);
    } else if s.phase.Readable? {
      WaitingTells(s);
    } else {
      EndedTells(s);
    }
  }

  lemma ReadIntoTells(s: Stream, view: View, minimum: Minimum)
    requires Inv(s) && s.reader.ByobReader?
    ensures Follows(s, ReadInto(s, view, minimum).stream)
  {
    if Refusal(s, view, minimum).None? {
      StartReadIntoTells(s, NewPullInto(s, view, minimum));
    }
    hide StartReadInto, NewPullInto, Inv;
  }

  lemma StartReadIntoTells(s: Stream, request: Request)
    requires Inv(s) && s.byteStream && s.reader.ByobReader? && FreshInto(s, request)
    ensures Follows(s, StartReadInto(s, request).stream)
  {
    hide DrainByteQueue, RequestPull, ErrorReadable;
    if s.phase.Readable? || (s.phase.Closed? && s.requests != []) {
      hide StartReadInto;
      WaitIntoKeeps(s, request);
      assert Drainable(s);
      hide Inv, AllFit, AllWaiting;
      StartReadIntoIs(s, request);
      DrainTells(Joined(s, request));
      PullTells(DrainByteQueue(Joined(s, request)).stream);
    } else {
      hide Inv;
    }
  }

  lemma SourceRespondTells(s: Stream, e: Event)
    requires Inv(s) && s.byteStream && (e.SourceRespond? || e.SourceRespondWithView?)
    ensures Follows(s, Step(s, e))
  {
    hide RespondPullInto;
    if s.byobRequest.Some? {
      assert HasPullInto(s) && Drainable(s);
      hide Drainable, Inv;
      if e.SourceRespond? && e.count.Some? && e.count.value >= 0 {
        RespondTells(s, seq(e.count.value, e.memory));
      } else if e.SourceRespondWithView? && e.replacement.Replacement? {
        RespondTells(s, seq(e.replacement.byteLength, e.memory));
      }
    }
  }

  lemma CancelTells(s: Stream)
    requires Inv(s)
    ensures (Told(s) ==> Told(CancelReadable(s))) && Silent(s, CancelReadable(s))
  {
    if s.phase.Readable? {
      CancelIs(s);
      hide CancelReadable;
    }
    hide Inv;
  }

  lemma ControllerCloseTells(s: Stream)
    requires AllShaped(s.requests)
    ensures Follows(s, ControllerClose(s).stream)
  {
    CloseTells(s.(closeRequested := true));
    hide CloseReadable;
  }

  lemma PullResolvedTells(s: Stream)
    ensures Follows(s, PullResolved(s))
  {
    hide Demand, MayPull;
  }

  lemma PullRejectedTells(s: Stream, reason: Reason)
    ensures Follows(s, PullRejected(s, reason))
  {
    PullRejectedIs(s, reason);
    ErrorTells(s, reason);
    hide ErrorReadable, PullRejected;
  }

  lemma StartTells(s: Stream)
    ensures Follows(s, StartResolved(s))
  {
    PullTells(s.(started := true));
    hide RequestPull;
  }

  lemma AcquireTells(s: Stream, kind: Reader)
    ensures var t := AcquireReader(s, kind).stream;
            (Told(s) ==> Told(t)) && t.cancelled == s.cancelled
  {
  }

  lemma ReleaseTells(s: Stream)
    ensures Follows(s, ReleaseLock(s).stream)
  {
  }

  lemma ByobTells(s: Stream)
    ensures Follows(s, GetByobRequest(s)) && Follows(s, s)
  {
  }

  /** An event of the source. */
  predicate OfSource(e: Event) {
    e.SourceEnqueue? || e.SourceClose? || e.SourceByobRequest? || e.SourceRespond? || e.SourceRespondWithView?
  }

  lemma SourceTells(s: Stream, e: Event)
    requires Inv(s) && OfSource(e)
    ensures Follows(s, Step(s, e))
  {
    assert AllShaped(s.requests);
    hide Inv, Enqueue, ControllerClose, Respond, RespondWithNewView, GetByobRequest, Follows, AllShaped;
    ByobTells(s);
    match e {
      case SourceEnqueue(chunk) => EnqueueTells(s, chunk);
      case SourceClose => ControllerCloseTells(s);
      case SourceRespond(_, _, _) => if s.byteStream { SourceRespondTells(s, e); }
      case SourceRespondWithView(_, _) => if s.byteStream { SourceRespondTells(s, e); }
      case _ =>
    }
  }

  lemma StepTells(s: Stream, e: Event)
    requires Inv(s)
    ensures Told(s) ==> Told(Step(s, e))
    ensures !e.Cancel? ==> Step(s, e).cancelled == s.cancelled
    ensures !e.GetReader? ==> Silent(s, Step(s, e))
  {
    hide Inv, ReadFrom, ReadInto, CancelReadable, ErrorReadable, StartResolved, PullResolved, PullRejected,
      AcquireReader, ReleaseLock, Told, Silent;
    ByobTells(s);
    match e {
      case StartFulfilled => StartTells(s);
      case StartRejected(reason) => ErrorTells(s, reason);
      case PullFulfilled => PullResolvedTells(s);
      case PullFailed(reason) => PullRejectedTells(s, reason);
      case SourceError(reason) => ErrorTells(s, reason);
      case GetReader(byob) => AcquireTells(s, if byob then ByobReader else DefaultReader);
      case ReleaseReader => ReleaseTells(s);
      case Read => if s.reader.DefaultReader? { ReadFromTells(s); }
      case ReadView(view, minimum) => if s.reader.ByobReader? { ReadIntoTells(s, view, minimum); }
      case Cancel => CancelTells(s);
      case _ =>
        SourceTells(s, e);
        hide Step;
    }
  }

  lemma {:induction false} RunTells(s: Stream, events: seq<Event>)
    requires Inv(s) && Told(s)
    ensures Told(Run(s, events))
    decreases |events|
  {
    if events != [] {
      StepKeeps(s, events[0]);
      StepTells(s, events[0]);
      hide Step, Inv, Told;
      RunTells(Step(s, events[0]), events[1..]);
    }
  }

  /** In every run the `closed` promise of the attached reader is open exactly while the stream is
      readable, fulfilled exactly when it is closed, and rejected exactly with its stored error. */
  lemma ClosedTellsThePhase(byteStream: bool, autoAllocate: nat, highWaterMark: Mark, hasPull: bool, events: seq<Event>)
    ensures var s := Reached(byteStream, autoAllocate, highWaterMark, hasPull, events);
            !s.reader.NoReader? ==>
              && (s.closed.Awaited? <==> s.phase.Readable?)
              && (s.closed.Resolved? <==> s.phase.Closed?)
              && (forall reason :: s.closed == Rejected(reason) <==> s.phase == Errored(reason))
  {
    InitialHolds(byteStream, autoAllocate, highWaterMark, hasPull);
    RunTells(Initial(byteStream, autoAllocate, highWaterMark, hasPull), events);
    hide Run, Inv;
  }
}
