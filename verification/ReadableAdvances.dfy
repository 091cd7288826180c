/** What one call of an entry point adds to the history of a readable stream. */
module ReadableAdvances {
  import opened Options
  import opened ReadableModel
  import opened ReadableInvariants
  import opened ReadableSteps

  /** Settled promises stay settled, the end of a stream is final, and `given` is what the source gave. */
  predicate Extends(s: Stream, given: seq<Item>, t: Stream) {
    && s.settled <= t.settled
    && t.supplied == s.supplied + given
    && (!s.phase.Readable? ==> t.phase == s.phase)
    && t.byteStream == s.byteStream
    && t.hasPull == s.hasPull && t.autoAllocate == s.autoAllocate && t.highWaterMark == s.highWaterMark
  }

  predicate PullsAlike(s: Stream, t: Stream) {
    t.pullCalls == s.pullCalls && t.pullEnds == s.pullEnds && t.pulling == s.pulling
  }

  /** At most one pull starts, only while none runs, and only on a started, open stream with demand. */
  predicate PullsInTurn(s: Stream, t: Stream) {
    && s.pullCalls <= t.pullCalls <= s.pullCalls + 1
    && s.pullEnds <= t.pullEnds
    && (t.pullCalls > s.pullCalls ==>
          MayPull(t) && Demand(t) && s.pullCalls == t.pullEnds && t.pullCalls == t.pullEnds + 1)
  }

  predicate Advances(s: Stream, given: seq<Item>, t: Stream) {
    Extends(s, given, t) && PullsInTurn(s, t)
  }

  lemma ThenRequestPull(s: Stream, given: seq<Item>, t: Stream)
    requires Extends(s, given, t) && PullsAlike(s, t) && PullFits(s)
    ensures Advances(s, given, RequestPull(t))
  {
  }

  lemma ErrorAlike(s: Stream, reason: Reason)
    ensures Extends(s, [], ErrorReadable(s, reason)) && PullsAlike(s, ErrorReadable(s, reason))
  {
    hide FailedAll;
  }

  lemma EndReadsAlike(s: Stream)
    requires s.phase.Readable?
    ensures Extends(s, [], EndReads(s)) && PullsAlike(s, EndReads(s))
  {
    hide FinishedAll;
  }

  lemma CloseAlike(s: Stream)
    requires AllShaped(s.requests)
    ensures Extends(s, [], CloseReadable(s).stream) && PullsAlike(s, CloseReadable(s).stream)
  {
    ErrorAlike(s, ClosedMidElement);
    if s.phase.Readable? {
      EndReadsAlike(s);
      hide EndReads, ErrorReadable, MidElement, AllShaped;
    }
  }

  lemma EndDrainAlike(s: Stream)
    requires AllShaped(s.requests)
    ensures Extends(s, [], EndDrain(s).stream) && PullsAlike(s, EndDrain(s).stream)
  {
    ErrorAlike(s, EndedBelowMinimum);
    CloseAlike(s);
    hide ErrorReadable, CloseReadable, AllShaped;
  }

  lemma DrainAlike(s: Stream)
    requires Structure(s) && s.byteStream
    ensures Extends(s, [], DrainByteQueue(s).stream) && PullsAlike(s, DrainByteQueue(s).stream)
  {
    DrainLoopKeeps(s);
    var t := DrainLoop(s);
    assert Extends(s, [], t) && PullsAlike(s, t);
    EndDrainAlike(t);
    hide DrainLoop, EndDrain, Structure, History, AllShaped;
  }

  lemma EnqueueBytesAdvances(s: Stream, bytes: seq<Item>)
    requires Inv(s) && s.byteStream && s.phase.Readable? && bytes != []
    ensures Advances(s, bytes, EnqueueBytes(s, bytes).stream)
  {
    ReceiveBytesKeeps(s, bytes);
    var t := ReceiveBytes(s, bytes);
    assert Extends(s, bytes, t) && PullsAlike(s, t);
    hide ReceiveBytes, Structure, History, Inv;
    DrainByteQueueKeeps(t);
    DrainAlike(t);
    hide DrainByteQueue, Sound;
    assert Extends(s, bytes, DrainByteQueue(t).stream);
    ThenRequestPull(s, bytes, DrainByteQueue(t).stream);
    hide RequestPull;
  }

  lemma EnqueueChunkAdvances(s: Stream, chunk: Incoming)
    requires PullFits(s) && s.phase.Readable?
    ensures Advances(s, if EnqueueChunk(s, chunk).thrown.Some? then [] else [chunk.item], EnqueueChunk(s, chunk).stream)
  {
    if s.requests != [] {
      ThenRequestPull(s, [chunk.item], AnswerChunk(s, chunk.item));
    } else if chunk.size.Raises? {
      ErrorAlike(s, chunk.size.reason);
    } else if chunk.size.NotANumber? || chunk.size.amount < 0.0 {
      ErrorAlike(s, BadChunkSize);
    } else {
      ThenRequestPull(s, [chunk.item], Push(s, Chunk(chunk.item, chunk.size.amount)));
    }
    hide RequestPull, ErrorReadable;
  }

  lemma EnqueueAdvances(s: Stream, chunk: Incoming)
    requires Inv(s)
    ensures var c := Enqueue(s, chunk);
            Advances(s, if c.thrown.Some? then [] else if s.byteStream then chunk.view.GetOr([]) else [chunk.item], c.stream)
  {
    if s.phase.Readable? && !s.closeRequested {
      if !s.byteStream {
        EnqueueChunkAdvances(s, chunk);
      } else if chunk.view.Some? && chunk.view.value != [] {
        EnqueueBytesKeeps(s, chunk.view.value);
        EnqueueBytesAdvances(s, chunk.view.value);
        hide Advances;
      }
    }
    hide EnqueueBytes, EnqueueChunk, Inv;
  }

  lemma CarryTailAlike(s: Stream)
    requires HasPullInto(s) && s.requests[0].Shaped() && AllFit(s.queue, true)
    ensures CarryTail(s).settled == s.settled && CarryTail(s).phase == s.phase
    ensures Extends(s, [], CarryTail(s)) && PullsAlike(s, CarryTail(s))
  {
    if |s.requests[0].filled| % s.requests[0].elementSize == 0 {
    } else {
    }
  }

  lemma FinishAlike(s: Stream, done: bool)
    requires HasPullInto(s)
    ensures Extends(s, [], FinishPullInto(s, done)) && PullsAlike(s, FinishPullInto(s, done))
  {
  }

  lemma RespondedAdvances(s: Stream)
    requires Buffers(s) && HasPullInto(s) && s.byteStream && s.queue == [] && History(s) && s.phase.Readable?
    requires s.requests[0].minimum <= |s.requests[0].filled|
    ensures var t := FinishPullInto(CarryTail(s), false);
            && Drainable(t) && DrainByteQueue(t).thrown.None?
            && Advances(s, [], RequestPull(DrainByteQueue(t).stream))
  {
    var t := FinishPullInto(CarryTail(s), false);
    RespondedKeeps(s);
    CarryTailAlike(s);
    FinishAlike(CarryTail(s), false);
    assert Extends(s, [], t) && PullsAlike(s, t);
    hide Buffers, History, CarryTail, FinishPullInto, Structure, Sound, DrainByteQueue, Extends;
    DrainByteQueueKeeps(t);
    DrainAlike(t);
    DrainedThenPulled(s, [], t);
  }

  lemma AfterReceiveAdvances(s: Stream)
    requires Buffers(s) && HasPullInto(s) && s.byteStream && s.queue == [] && History(s) && !s.phase.Errored?
    ensures Advances(s, [], AfterReceive(s).stream)
  {
    if s.phase.Closed? {
      hide ReturnedAll, Buffers, History;
    } else if |s.requests[0].filled| < s.requests[0].minimum {
      ThenRequestPull(s, [], s);
      hide RequestPull, Buffers, History;
    } else {
      RespondedAdvances(s);
      hide DrainByteQueue, FinishPullInto, CarryTail, RequestPull, Buffers, History, Advances;
    }
  }

  lemma ReceiveAlike(s: Stream, bytes: seq<Item>)
    requires HasPullInto(s)
    ensures Extends(s, bytes, Receive(s, bytes)) && PullsAlike(s, Receive(s, bytes))
  {
  }

  lemma ReceiveReady(s: Stream, bytes: seq<Item>)
    requires Inv(s) && HasPullInto(s) && |bytes| <= s.requests[0].byteLength - |s.requests[0].filled|
    requires s.phase.Closed? ==> bytes == []
    ensures var t := Receive(s, bytes);
            && Buffers(t) && History(t) && HasPullInto(t) && t.byteStream && t.queue == [] && !t.phase.Errored?
  {
    ReceiveBuffers(s, bytes);
    ReceiveHistory(s, bytes);
    assert Admitted(Admits(s), s.requests[0]);
    hide Buffers, History, QueueFits;
  }

  lemma RespondPullIntoAdvances(s: Stream, bytes: seq<Item>)
    requires Inv(s) && HasPullInto(s) && |bytes| <= s.requests[0].byteLength - |s.requests[0].filled|
    requires s.phase.Closed? ==> bytes == []
    ensures Advances(s, bytes, RespondPullInto(s, bytes).stream)
  {
    hide Structure, History, AfterReceive;
    ReceiveReady(s, bytes);
    ReceiveAlike(s, bytes);
    AfterReceiveAdvances(Receive(s, bytes));
    hide Buffers, Receive, Inv;
  }

  lemma TakeAdvances(s: Stream)
    requires PullFits(s) && AllShaped(s.requests) && s.queue != []
    ensures Advances(s, [], ReadFrom(s))
  {
    var t := TakeEntry(s);
    assert Extends(s, [], t) && PullsAlike(s, t) && AllShaped(t.requests);
    hide TakeEntry;
    CloseAlike(t);
    ThenRequestPull(s, [], t);
    hide CloseReadable, RequestPull, AllShaped;
  }

  lemma WaitingAlike(s: Stream, request: Request)
    ensures Extends(s, [], Joined(s, request)) && PullsAlike(s, Joined(s, request))
  {
  }

  lemma SettleAdvances(s: Stream, a: Settlement)
    ensures Advances(s, [], Settle(s.(nextId := s.nextId + 1), a))
  {
  }

  lemma ReadFromWaitingAdvances(s: Stream)
    requires PullFits(s) && AllShaped(s.requests) && s.queue == []
    ensures Advances(s, [], ReadFrom(s))
  {
    if s.phase.Readable? {
      ReadFromWaitingIs(s);
      WaitingAlike(s, NewRead(s));
      hide *;
      ThenRequestPull(s, [], Joined(s, NewRead(s)));
    } else {
      var a := if s.phase.Closed? then Finished(DefaultRead(s.nextId))
               else Failed(DefaultRead(s.nextId), s.phase.storedError);
      ReadFromEndedIs(s, a);
      SettleAdvances(s, a);
      hide *;
    }
  }

  lemma ReadFromAdvances(s: Stream)
    requires Inv(s)
    ensures Advances(s, [], ReadFrom(s))
  {
    assert PullFits(s) && AllShaped(s.requests);
    if s.queue != [] {
      TakeAdvances(s);
    } else {
      ReadFromWaitingAdvances(s);
    }
    hide ReadFrom, Advances, Inv;
  }

  lemma StartJoinedAdvances(s: Stream, request: Request)
    requires Inv(s) && s.byteStream && s.reader.ByobReader? && FreshInto(s, request)
    requires s.phase.Readable? || (s.phase.Closed? && s.requests != [])
    ensures Advances(s, [], StartReadInto(s, request).stream)
  {
    var t := Joined(s, request);
    WaitIntoKeeps(s, request);
    StartReadIntoIs(s, request);
    WaitingAlike(s, request);
    assert PullFits(s) && Structure(t) && t.byteStream by {
      WaitKeeps(s, request);
    }
    hide *;
    DrainAlike(t);
    DrainedThenPulled(s, [], t);
  }

  /** A drain and a pull after a step that gave something and started no pull. */
  lemma DrainedThenPulled(s: Stream, given: seq<Item>, t: Stream)
    requires Extends(s, given, t) && PullsAlike(s, t) && PullFits(s) && Drainable(t)
    requires Extends(t, [], DrainByteQueue(t).stream) && PullsAlike(t, DrainByteQueue(t).stream)
    ensures Advances(s, given, RequestPull(DrainByteQueue(t).stream))
  {
    hide DrainByteQueue;
    ThenRequestPull(s, given, DrainByteQueue(t).stream);
    hide RequestPull, Drainable;
  }

  lemma StartReadIntoAdvances(s: Stream, request: Request)
    requires Inv(s) && s.byteStream && s.reader.ByobReader? && FreshInto(s, request)
    ensures Advances(s, [], StartReadInto(s, request).stream)
  {
    if s.phase.Readable? || (s.phase.Closed? && s.requests != []) {
      StartJoinedAdvances(s, request);
    } else if s.phase.Errored? {
      SettleAdvances(s, Failed(request, s.phase.storedError));
    } else {
      SettleAdvances(s, Answered(request, [], true));
    }
    hide Inv, DrainByteQueue, Advances;
  }

  lemma ReadIntoAdvances(s: Stream, view: View, minimum: Minimum)
    requires Inv(s) && s.reader.ByobReader?
    ensures Advances(s, [], ReadInto(s, view, minimum).stream)
  {
    if Refusal(s, view, minimum).None? {
      StartReadIntoAdvances(s, NewPullInto(s, view, minimum));
      hide StartReadInto, NewPullInto, Inv, Advances;
    }
  }

  lemma CancelAdvances(s: Stream)
    requires Inv(s)
    ensures Advances(s, [], CancelReadable(s))
  {
    if s.phase.Readable? {
      CancelIs(s);
      hide CancelReadable, Inv;
    }
  }
}
