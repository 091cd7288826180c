/** What the source side of a readable stream leaves alone: the lock, the ids of reads, and, for a
    default reader, the promise that an answer with a value is not the last one. */
module ReadableFrames {
  import opened Options
  import opened ReadableModel
  import opened ReadableInvariants
  import opened ReadableSteps
  import opened ReadableAdvances
  import opened ReadableRuns

  /** No answer from this one on carries a value and is marked done. */
  predicate NoneDone(settled: seq<Settlement>, from: nat) {
    forall i | from <= i < |settled| :: !(settled[i].Answered? && settled[i].done)
  }

  /** The lock and the ids stay, and only promises of waiting reads are settled. */
  predicate Undisturbed(s: Stream, t: Stream) {
    t.reader == s.reader && t.nextId == s.nextId && s.settled <= t.settled && NoneDone(t.settled, |s.settled|)
  }

  lemma UndisturbedThen(s: Stream, t: Stream, u: Stream)
    requires Undisturbed(s, t) && Undisturbed(t, u)
    ensures Undisturbed(s, u)
  {
    forall i | |s.settled| <= i < |u.settled|
      ensures !(u.settled[i].Answered? && u.settled[i].done)
    {
      assert i < |t.settled| ==> u.settled[i] == t.settled[i];
    }
  }

  lemma EndedReadsAreNotDone(settled: seq<Settlement>, requests: seq<Request>, reason: Reason)
    ensures NoneDone(settled + FailedAll(requests, reason), |settled|)
    ensures NoneDone(settled + FinishedAll(requests), |settled|)
  {
  }

  lemma NothingNewDone(settled: seq<Settlement>)
    ensures NoneDone(settled, |settled|)
  {
  }

  lemma ErrorUndisturbed(s: Stream, reason: Reason)
    ensures Undisturbed(s, ErrorReadable(s, reason))
  {
    EndedReadsAreNotDone(s.settled, s.requests, reason);
    hide FailedAll, NoneDone;
    if s.phase.Readable? {
    } else {
      NothingNewDone(s.settled);
    }
  }

  lemma EndReadsUndisturbed(s: Stream)
    ensures Undisturbed(s, EndReads(s))
  {
    EndedReadsAreNotDone(s.settled, s.requests, ClosedMidElement);
    hide FinishedAll, NoneDone;
  }

  lemma CloseUndisturbed(s: Stream)
    requires AllShaped(s.requests)
    ensures Undisturbed(s, CloseReadable(s).stream)
  {
    ErrorUndisturbed(s, ClosedMidElement);
    EndReadsUndisturbed(s);
    hide ErrorReadable, EndReads, AllShaped, MidElement;
  }

  lemma DrainStepUndisturbed(s: Stream)
    requires Drainable(s) && s.queue != [] && s.requests != []
    ensures Undisturbed(s, DrainStep(s))
  {
    hide FillCount, Advance, AllFit, AllWaiting;
    if HasPullInto(s) {
      var t := CopyHead(s);
      assert t.reader == s.reader && t.nextId == s.nextId && t.settled == s.settled && t.requests[0].PullInto?;
      hide CopyHead;
    }
  }

  lemma {:induction false} DrainLoopUndisturbed(s: Stream)
    requires Drainable(s)
    ensures Undisturbed(s, DrainLoop(s))
    decreases |s.queue| + |s.requests|
  {
    hide DrainStep, Drainable;
    if s.queue != [] && s.requests != [] {
      DrainStepProgress(s);
      DrainStepUndisturbed(s);
      DrainLoopUndisturbed(DrainStep(s));
      UndisturbedThen(s, DrainStep(s), DrainLoop(DrainStep(s)));
    }
  }

  lemma EndDrainUndisturbed(s: Stream)
    requires AllShaped(s.requests)
    ensures Undisturbed(s, EndDrain(s).stream)
  {
    CloseUndisturbed(s);
    ErrorUndisturbed(s, EndedBelowMinimum);
    hide CloseReadable, ErrorReadable, AllShaped;
  }

  lemma DrainUndisturbed(s: Stream)
    requires Drainable(s)
    ensures Undisturbed(s, DrainByteQueue(s).stream)
  {
    DrainLoopUndisturbed(s);
    DrainLoopDrainable(s);
    EndDrainUndisturbed(DrainLoop(s));
    UndisturbedThen(s, DrainLoop(s), EndDrain(DrainLoop(s)).stream);
    hide DrainLoop, EndDrain, AllFit, Undisturbed;
  }

  lemma PullUndisturbed(s: Stream)
    ensures Undisturbed(s, RequestPull(s))
  {
  }

  lemma EnqueueBytesUndisturbed(s: Stream, bytes: seq<Item>)
    requires Drainable(s) && bytes != []
    ensures Undisturbed(s, EnqueueBytes(s, bytes).stream)
  {
    var t := ReceiveBytes(s, bytes);
    assert Undisturbed(s, t);
    hide Drainable, ReceiveBytes, Undisturbed, DrainByteQueue;
    DrainUndisturbed(t);
    var u := DrainByteQueue(t).stream;
    UndisturbedThen(s, t, u);
    PullUndisturbed(u);
    UndisturbedThen(s, u, RequestPull(u));
    hide RequestPull;
  }

  lemma EnqueueChunkUndisturbed(s: Stream, chunk: Incoming)
    ensures Undisturbed(s, EnqueueChunk(s, chunk).stream)
  {
    if s.requests != [] {
      var t := AnswerChunk(s, chunk.item);
      PullUndisturbed(t);
    } else if chunk.size.Raises? {
      ErrorUndisturbed(s, chunk.size.reason);
    } else if chunk.size.NotANumber? || chunk.size.amount < 0.0 {
      ErrorUndisturbed(s, BadChunkSize);
    } else {
      PullUndisturbed(Push(s, Chunk(chunk.item, chunk.size.amount)));
    }
    hide RequestPull, ErrorReadable;
  }

  lemma EnqueueUndisturbed(s: Stream, chunk: Incoming)
    requires Inv(s)
    ensures Undisturbed(s, Enqueue(s, chunk).stream)
  {
    if s.byteStream {
      assert Drainable(s);
      hide Inv, Drainable;
      if chunk.view.Some? && chunk.view.value != [] {
        EnqueueBytesUndisturbed(s, chunk.view.value);
      }
      hide EnqueueBytes;
    } else {
      hide Inv;
      EnqueueChunkUndisturbed(s, chunk);
      hide EnqueueChunk;
    }
  }

  lemma FinishedIsUndisturbed(s: Stream, t: Stream)
    requires HasPullInto(t) && t.reader == s.reader && t.nextId == s.nextId && t.settled == s.settled
    requires AllFit(t.queue, true) && AllWaiting(t.requests[1..])
    ensures Undisturbed(s, FinishPullInto(t, false)) && Drainable(FinishPullInto(t, false))
  {
    hide AllFit, AllWaiting;
  }

  lemma FinishUndisturbed(s: Stream)
    requires HasPullInto(s) && s.requests[0].Shaped() && AllWaiting(s.requests[1..]) && AllFit(s.queue, true)
    ensures var t := FinishPullInto(CarryTail(s), false);
            Undisturbed(s, t) && Drainable(t)
  {
    var t := CarryTail(s);
    CarryTailAlike(s);
    assert t.reader == s.reader && t.nextId == s.nextId && AllFit(t.queue, true) && AllWaiting(t.requests[1..]);
    hide CarryTail, AllFit, Extends;
    FinishedIsUndisturbed(s, t);
  }

  lemma FinishedThenDrained(s: Stream)
    requires HasPullInto(s) && s.requests[0].Shaped() && AllWaiting(s.requests[1..]) && AllFit(s.queue, true)
    ensures var t := FinishPullInto(CarryTail(s), false);
            && Drainable(t) && Undisturbed(s, DrainByteQueue(t).stream)
            && Undisturbed(s, RequestPull(DrainByteQueue(t).stream))
  {
    hide AllFit, AllWaiting;
    FinishUndisturbed(s);
    var t := FinishPullInto(CarryTail(s), false);
    hide CarryTail, FinishPullInto, Undisturbed, DrainByteQueue;
    DrainUndisturbed(t);
    var u := DrainByteQueue(t).stream;
    UndisturbedThen(s, t, u);
    PullUndisturbed(u);
    UndisturbedThen(s, u, RequestPull(u));
    hide RequestPull;
  }

  lemma AfterReceiveUndisturbed(s: Stream)
    requires HasPullInto(s) && s.requests[0].Shaped() && AllWaiting(s.requests[1..]) && AllFit(s.queue, true)
    requires !s.phase.Closed?
    ensures Undisturbed(s, AfterReceive(s).stream)
  {
    if |s.requests[0].filled| >= s.requests[0].minimum {
      FinishedThenDrained(s);
      hide CarryTail, FinishPullInto, Undisturbed, DrainByteQueue, RequestPull, AllFit, AllWaiting;
    } else {
      PullUndisturbed(s);
      hide RequestPull, AllFit, AllWaiting;
    }
  }

  lemma RespondUndisturbed(s: Stream, bytes: seq<Item>)
    requires HasPullInto(s) && Drainable(s) && !s.phase.Closed?
    ensures Undisturbed(s, RespondPullInto(s, bytes).stream)
  {
    var t := Receive(s, bytes);
    AfterReceiveUndisturbed(t);
    hide AfterReceive, AllWaiting, AllFit;
  }

  /** A default reader's buffers are the engine's own: a close does not wait for them. */
  lemma DefaultHeadIsReadable(s: Stream)
    requires Inv(s) && s.reader.DefaultReader? && HasPullInto(s)
    ensures s.phase.Readable? && Drainable(s) && s.byteStream
  {
    assert Admitted(Admits(s), s.requests[0]);
    assert s.byteStream;
    hide History;
  }

  lemma SourceRespondUndisturbed(s: Stream, e: Event)
    requires Inv(s) && s.reader.DefaultReader? && s.byteStream && (e.SourceRespond? || e.SourceRespondWithView?)
    ensures Undisturbed(s, Step(s, e))
  {
    hide RespondPullInto;
    if s.byobRequest.Some? {
      assert HasPullInto(s);
      DefaultHeadIsReadable(s);
      hide Drainable, Inv;
      if e.SourceRespond? && e.count.Some? && e.count.value >= 0 {
        RespondUndisturbed(s, seq(e.count.value, e.memory));
      } else if e.SourceRespondWithView? && e.replacement.Replacement? {
        RespondUndisturbed(s, seq(e.replacement.byteLength, e.memory));
      }
    }
  }

  /** What only the holder of the lock may call. */
  predicate ByReader(e: Event) {
    e.ReleaseReader? || e.Read? || e.ReadView? || e.Cancel?
  }

  lemma ControllerCloseUndisturbed(s: Stream)
    requires AllShaped(s.requests)
    ensures Undisturbed(s, ControllerClose(s).stream)
  {
    CloseUndisturbed(s.(closeRequested := true));
    hide CloseReadable, AllShaped;
  }

  lemma PullRejectedUndisturbed(s: Stream, reason: Reason)
    ensures Undisturbed(s, PullRejected(s, reason))
  {
    PullRejectedIs(s, reason);
    ErrorUndisturbed(s, reason);
    hide ErrorReadable, PullRejected, NoneDone;
  }

  lemma PullResolvedUndisturbed(s: Stream)
    ensures Undisturbed(s, PullResolved(s))
  {
    NothingNewDone(s.settled);
    hide Demand, MayPull, NoneDone;
  }

  lemma StartUndisturbed(s: Stream)
    ensures Undisturbed(s, StartResolved(s))
  {
    PullUndisturbed(s.(started := true));
    hide RequestPull;
  }

  lemma ByobUndisturbed(s: Stream)
    ensures Undisturbed(s, GetByobRequest(s)) && Undisturbed(s, s)
  {
  }

  /** While a default reader holds the lock, no event but its own disturbs the stream. */
  lemma SourceUndisturbed(s: Stream, e: Event)
    requires Inv(s) && s.reader.DefaultReader? && !ByReader(e)
    ensures Undisturbed(s, Step(s, e))
  {
    assert AllShaped(s.requests);
    hide Inv, Enqueue, ControllerClose, Respond, RespondWithNewView, ErrorReadable, StartResolved, PullResolved,
      PullRejected, GetByobRequest, AllShaped, Undisturbed;
    ByobUndisturbed(s);
    match e {
      case StartRejected(reason) => ErrorUndisturbed(s, reason);
      case StartFulfilled => StartUndisturbed(s);
      case PullFulfilled => PullResolvedUndisturbed(s);
      case PullFailed(reason) => PullRejectedUndisturbed(s, reason);
      case SourceEnqueue(chunk) => EnqueueUndisturbed(s, chunk);
      case SourceClose => ControllerCloseUndisturbed(s);
      case SourceError(reason) => ErrorUndisturbed(s, reason);
      case SourceRespond(_, _, _) => if s.byteStream { SourceRespondUndisturbed(s, e); }
      case SourceRespondWithView(_, _) => if s.byteStream { SourceRespondUndisturbed(s, e); }
      case _ =>
    }
  }
}
