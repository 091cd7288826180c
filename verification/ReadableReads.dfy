/** What the reads of a stream ask for, and that no step of the engine ever changes it. */
module ReadableReads {
  import opened Options
  import opened ReadableModel
  import opened ReadableInvariants
  import opened ReadableSteps
  import opened ReadableAdvances
  import opened ReadableRuns

  /** A request apart from the bytes it has got: its id, its kind, its buffer and its minimum. */
  function Ask(request: Request): Request {
    if request.PullInto? then request.(filled := []) else request
  }

  function Settled(settled: seq<Settlement>): (asks: seq<Request>)
    ensures |asks| == |settled|
  {
    seq(|settled|, i requires 0 <= i < |settled| => Ask(settled[i].request))
  }

  function Waiting(requests: seq<Request>): (asks: seq<Request>)
    ensures |asks| == |requests|
  {
    seq(|requests|, i requires 0 <= i < |requests| => Ask(requests[i]))
  }

  /** All reads so far, the settled ones before the waiting ones. */
  function Asks(s: Stream): (asks: seq<Request>)
    ensures |asks| == |s.settled| + |s.requests|
  {
    Settled(s.settled) + Waiting(s.requests)
  }

  // ---- settling and filling -------------------------------------------------

  /** Settling every waiting read turns waiting reads into settled ones. */
  lemma AllSettled(settled: seq<Settlement>, requests: seq<Request>, reason: Reason)
    ensures Settled(settled + FailedAll(requests, reason)) == Settled(settled) + Waiting(requests)
    ensures Settled(settled + FinishedAll(requests)) == Settled(settled) + Waiting(requests)
    ensures Settled(settled + ReturnedAll(requests)) == Settled(settled) + Waiting(requests)
  {
  }

  lemma NoneWait(settled: seq<Settlement>)
    ensures Settled(settled) + Waiting([]) == Settled(settled)
  {
  }

  /** Settling the head moves it over; how far it was filled does not matter. */
  lemma HeadSettled(settled: seq<Settlement>, requests: seq<Request>, a: Settlement)
    requires requests != [] && Ask(a.request) == Ask(requests[0])
    ensures Settled(settled + [a]) + Waiting(requests[1..]) == Settled(settled) + Waiting(requests)
  {
  }

  lemma HeadFilledOnly(requests: seq<Request>, head: Request)
    requires requests != [] && Ask(head) == Ask(requests[0])
    ensures Waiting([head] + requests[1..]) == Waiting(requests)
  {
  }

  lemma OneMore(settled: seq<Settlement>, requests: seq<Request>, request: Request, a: Settlement)
    ensures Settled(settled) + Waiting(requests + [request]) == Settled(settled) + Waiting(requests) + [Ask(request)]
    ensures a.request == request ==> Settled(settled + [a]) == Settled(settled) + [Ask(request)]
  {
  }

  lemma ErrorAsks(s: Stream, reason: Reason)
    ensures Asks(ErrorReadable(s, reason)) == Asks(s)
  {
    AllSettled(s.settled, s.requests, reason);
    NoneWait(s.settled + FailedAll(s.requests, reason));
    hide Settled, Waiting, FailedAll;
  }

  lemma EndReadsAsks(s: Stream)
    ensures Asks(EndReads(s)) == Asks(s)
  {
    AllSettled(s.settled, s.requests, ClosedMidElement);
    NoneWait(s.settled + FinishedAll(s.requests));
    hide Settled, Waiting, FinishedAll;
  }

  lemma CloseAsks(s: Stream)
    requires AllShaped(s.requests)
    ensures Asks(CloseReadable(s).stream) == Asks(s)
  {
    ErrorAsks(s, ClosedMidElement);
    EndReadsAsks(s);
    hide ErrorReadable, EndReads, AllShaped, MidElement, Settled, Waiting;
  }

  lemma FinishAsks(s: Stream, done: bool)
    requires HasPullInto(s)
    ensures Asks(FinishPullInto(s, done)) == Asks(s)
  {
    HeadSettled(s.settled, s.requests, Answered(s.requests[0], s.requests[0].filled, done));
    hide Settled, Waiting;
  }

  // ---- draining -------------------------------------------------------------

  lemma CopyAsks(s: Stream)
    requires Drainable(s) && s.queue != [] && HasPullInto(s)
    ensures Asks(CopyHead(s)) == Asks(s) && HasPullInto(CopyHead(s))
  {
    HeadFilledOnly(s.requests, Copied(s.requests[0], s.queue[0]));
    hide Settled, Waiting, FillCount, Advance, AllFit, AllWaiting;
  }

  lemma DrainStepAsks(s: Stream)
    requires Drainable(s) && s.queue != [] && s.requests != []
    ensures Asks(DrainStep(s)) == Asks(s)
  {
    if HasPullInto(s) {
      CopyAsks(s);
      FinishAsks(CopyHead(s), false);
      hide CopyHead, FinishPullInto, Asks, AllFit, AllWaiting;
    } else {
      HeadSettled(s.settled, s.requests, Answered(s.requests[0], s.queue[0].Rest(), false));
      hide Settled, Waiting, AllFit, AllWaiting;
    }
  }

  lemma {:induction false} DrainLoopAsks(s: Stream)
    requires Drainable(s)
    ensures Asks(DrainLoop(s)) == Asks(s)
    decreases |s.queue| + |s.requests|
  {
    hide DrainStep, Drainable, Asks;
    if s.queue != [] && s.requests != [] {
      DrainStepProgress(s);
      DrainStepAsks(s);
      DrainLoopAsks(DrainStep(s));
    }
  }

  lemma DrainAsks(s: Stream)
    requires Drainable(s)
    ensures Asks(DrainByteQueue(s).stream) == Asks(s)
  {
    DrainLoopAsks(s);
    DrainLoopDrainable(s);
    CloseAsks(DrainLoop(s));
    ErrorAsks(DrainLoop(s), EndedBelowMinimum);
    hide DrainLoop, AllFit, AllWaiting, Asks, CloseReadable, ErrorReadable;
  }

  lemma PullAsks(s: Stream)
    ensures Asks(RequestPull(s)) == Asks(s)
  {
    hide Settled, Waiting;
  }

  // ---- the source -----------------------------------------------------------

  lemma EnqueueAsks(s: Stream, chunk: Incoming)
    requires s.byteStream ==> Drainable(s)
    ensures Asks(Enqueue(s, chunk).stream) == Asks(s)
  {
    hide Settled, Waiting;
    if s.byteStream {
      if chunk.view.Some? && chunk.view.value != [] {
        EnqueueBytesAsks(s, chunk.view.value);
      }
      hide EnqueueBytes, Drainable;
    } else {
      EnqueueChunkAsks(s, chunk);
      hide EnqueueChunk;
    }
  }

  lemma EnqueueBytesAsks(s: Stream, bytes: seq<Item>)
    requires Drainable(s) && bytes != []
    ensures Asks(EnqueueBytes(s, bytes).stream) == Asks(s)
  {
    var t := ReceiveBytes(s, bytes);
    assert Asks(t) == Asks(s) by {
      hide Settled, Waiting;
    }
    hide Drainable, ReceiveBytes, Asks, DrainByteQueue;
    DrainAsks(t);
    PullAsks(DrainByteQueue(t).stream);
    hide RequestPull;
  }

  lemma AnswerAsks(s: Stream, item: Item)
    requires s.requests != []
    ensures Asks(AnswerChunk(s, item)) == Asks(s)
  {
    HeadSettled(s.settled, s.requests, Answered(s.requests[0], [item], false));
    hide Settled, Waiting;
  }

  lemma EnqueueChunkAsks(s: Stream, chunk: Incoming)
    ensures Asks(EnqueueChunk(s, chunk).stream) == Asks(s)
  {
    hide Settled, Waiting;
    if s.requests != [] {
      AnswerAsks(s, chunk.item);
      PullAsks(AnswerChunk(s, chunk.item));
      hide AnswerChunk, Asks;
    } else if chunk.size.Raises? {
      ErrorAsks(s, chunk.size.reason);
    } else if chunk.size.NotANumber? || chunk.size.amount < 0.0 {
      ErrorAsks(s, BadChunkSize);
    } else {
      var t := Push(s, Chunk(chunk.item, chunk.size.amount));
      assert Asks(t) == Asks(s);
      PullAsks(t);
      hide Push;
    }
    hide RequestPull, ErrorReadable;
  }

  lemma CarryAsks(s: Stream)
    requires HasPullInto(s) && s.requests[0].Shaped() && AllFit(s.queue, true)
    ensures Asks(CarryTail(s)) == Asks(s)
  {
    hide Settled, Waiting, AllFit;
    var request := s.requests[0];
    if |request.filled| % request.elementSize == 0 {
    } else {
      HeadFilledOnly(s.requests, CarryTail(s).requests[0]);
    }
  }

  lemma AfterReceiveAsks(s: Stream)
    requires HasPullInto(s) && s.requests[0].Shaped() && AllWaiting(s.requests[1..]) && AllFit(s.queue, true)
    ensures Asks(AfterReceive(s).stream) == Asks(s)
  {
    if s.phase.Closed? {
      AllSettled(s.settled, s.requests, ClosedMidElement);
      NoneWait(s.settled + ReturnedAll(s.requests));
      hide Settled, Waiting, ReturnedAll, AllFit, AllWaiting;
    } else if |s.requests[0].filled| < s.requests[0].minimum {
      PullAsks(s);
      hide RequestPull, Asks, AllFit, AllWaiting;
    } else {
      CarryAsks(s);
      var t := FinishPullInto(CarryTail(s), false);
      FinishAsks(CarryTail(s), false);
      assert Drainable(t);
      hide CarryTail, FinishPullInto, Asks, AllFit, AllWaiting, DrainByteQueue;
      DrainAsks(t);
      PullAsks(DrainByteQueue(t).stream);
      hide RequestPull;
    }
  }

  lemma RespondAsks(s: Stream, bytes: seq<Item>)
    requires HasPullInto(s) && Drainable(s)
    ensures Asks(RespondPullInto(s, bytes).stream) == Asks(s)
  {
    var t := Receive(s, bytes);
    HeadFilledOnly(s.requests, t.requests[0]);
    assert Asks(t) == Asks(s) by {
      hide Settled, Waiting;
    }
    AfterReceiveAsks(t);
    hide AfterReceive, AllWaiting, AllFit, Asks;
  }

  lemma SourceRespondAsks(s: Stream, e: Event)
    requires Inv(s) && s.byteStream && (e.SourceRespond? || e.SourceRespondWithView?)
    ensures Asks(Step(s, e)) == Asks(s)
  {
    hide RespondPullInto, Asks;
    if s.byobRequest.Some? {
      assert HasPullInto(s) && Drainable(s);
      hide Drainable, Inv;
      if e.SourceRespond? && e.count.Some? && e.count.value >= 0 {
        RespondAsks(s, seq(e.count.value, e.memory));
      } else if e.SourceRespondWithView? && e.replacement.Replacement? {
        RespondAsks(s, seq(e.replacement.byteLength, e.memory));
      }
    }
  }

  lemma PullRejectedAsks(s: Stream, reason: Reason)
    ensures Asks(PullRejected(s, reason)) == Asks(s)
  {
    PullRejectedIs(s, reason);
    ErrorAsks(s, reason);
    hide Settled, Waiting, ErrorReadable, PullRejected;
  }

  lemma PullResolvedAsks(s: Stream)
    ensures Asks(PullResolved(s)) == Asks(s)
  {
    hide Settled, Waiting, Demand, MayPull;
  }

  lemma StartResolvedAsks(s: Stream)
    ensures Asks(StartResolved(s)) == Asks(s)
  {
    PullAsks(s.(started := true));
    hide Settled, Waiting, RequestPull;
  }

  lemma ByobAsks(s: Stream)
    ensures Asks(GetByobRequest(s)) == Asks(s)
  {
    hide Settled, Waiting;
  }

  // ---- the readers ----------------------------------------------------------

  /** What a new read of a default reader asks for: a buffer of its own if the source allocates. */
  function DefaultAsk(s: Stream): Request {
    if s.queue == [] && s.phase.Readable? && s.byteStream && s.autoAllocate > 0
    then PullInto(s.nextId, true, [], s.autoAllocate, 1, 1, 0, s.autoAllocate)
    else DefaultRead(s.nextId)
  }

  lemma TakeAsks(s: Stream)
    requires AllShaped(s.requests) && s.queue != [] && s.requests == []
    ensures Asks(ReadFrom(s)) == Asks(s) + [DefaultRead(s.nextId)]
  {
    var t := TakeEntry(s);
    TakenAsks(s);
    assert AllShaped(t.requests);
    hide TakeEntry, AllShaped, Asks;
    CloseAsks(t);
    PullAsks(t);
    hide CloseReadable, RequestPull;
  }

  lemma TakenAsks(s: Stream)
    requires s.queue != [] && s.requests == []
    ensures Asks(TakeEntry(s)) == Asks(s) + [DefaultRead(s.nextId)]
  {
    var read := DefaultRead(s.nextId);
    OneMore(s.settled, s.requests, read, Answered(read, s.queue[0].Rest(), false));
    NoneWait(s.settled);
    NoneWait(TakeEntry(s).settled);
    hide Settled, Waiting;
  }

  lemma EndedAsks(s: Stream)
    requires AllShaped(s.requests) && s.queue == [] && s.requests == [] && !s.phase.Readable?
    ensures Asks(ReadFrom(s)) == Asks(s) + [DefaultRead(s.nextId)]
  {
    var read := DefaultRead(s.nextId);
    var a := if s.phase.Closed? then Finished(read) else Failed(read, s.phase.storedError);
    ReadFromEndedIs(s, a);
    OneMore(s.settled, s.requests, read, a);
    NoneWait(s.settled);
    NoneWait(s.settled + [a]);
    hide ReadFrom, Settled, Waiting;
  }

  lemma WaitingAsks(s: Stream)
    requires AllShaped(s.requests) && s.queue == [] && s.phase.Readable?
    ensures Asks(ReadFrom(s)) == Asks(s) + [DefaultAsk(s)]
  {
    ReadFromWaitingIs(s);
    JoinedAsks(s, NewRead(s));
    PullAsks(Joined(s, NewRead(s)));
    hide RequestPull, ReadFrom, Asks, Joined;
  }

  lemma ReadFromAsks(s: Stream)
    requires Inv(s) && s.reader.DefaultReader?
    ensures Asks(ReadFrom(s)) == Asks(s) + [DefaultAsk(s)]
  {
    assert AllShaped(s.requests) && (s.queue != [] || !s.phase.Readable? ==> s.requests == []);
    hide Inv, ReadFrom, Asks, AllShaped;
    if s.queue != [] {
      TakeAsks(s);
    } else if s.phase.Readable? {
      WaitingAsks(s);
    } else {
      EndedAsks(s);
    }
  }

  lemma JoinedAsks(s: Stream, request: Request)
    ensures Asks(Joined(s, request)) == Asks(s) + [Ask(request)]
  {
    OneMore(s.settled, s.requests, request, Finished(request));
    hide Settled, Waiting;
  }

  lemma StartAsks(s: Stream, request: Request)
    requires Inv(s) && s.byteStream && s.reader.ByobReader? && FreshInto(s, request)
    ensures Asks(StartReadInto(s, request).stream) == Asks(s) + [request]
  {
    if s.phase.Readable? || (s.phase.Closed? && s.requests != []) {
      WaitIntoKeeps(s, request);
      StartReadIntoIs(s, request);
      JoinedAsks(s, request);
      var t := Joined(s, request);
      hide Inv, StartReadInto, DrainByteQueue, Joined, Drainable, Asks;
      DrainAsks(t);
      PullAsks(DrainByteQueue(t).stream);
      hide RequestPull;
    } else {
      assert s.requests == [];
      var a := if s.phase.Errored? then Failed(request, s.phase.storedError) else Answered(request, [], true);
      OneMore(s.settled, s.requests, request, a);
      NoneWait(s.settled);
      NoneWait(s.settled + [a]);
      hide Inv, Settled, Waiting, DrainByteQueue;
    }
  }

  lemma CancelAsks(s: Stream)
    requires AllShaped(s.requests)
    ensures Asks(CancelReadable(s)) == Asks(s)
  {
    if s.phase.Readable? {
      CancelIs(s);
      AllSettled(s.settled, s.requests, ClosedMidElement);
      NoneWait(s.settled + FinishedAll(s.requests));
      hide CancelReadable, FinishedAll;
    }
    hide Settled, Waiting, AllShaped;
  }

  lemma AcquireAsks(s: Stream, kind: Reader)
    ensures Asks(AcquireReader(s, kind).stream) == Asks(s)
  {
    hide Settled, Waiting;
  }

  lemma ReleaseAsks(s: Stream)
    ensures Asks(ReleaseLock(s).stream) == Asks(s)
  {
    hide Settled, Waiting;
  }

  // ---- steps and runs -------------------------------------------------------

  /** A view and a minimum that a reader's call accepts, in the caller's terms. */
  predicate Acceptable(view: View, minimum: Minimum) {
    && view.View? && view.elements > 0 && view.elementSize > 0
    && (minimum.Unspecified? || (minimum.Whole? && 0 < minimum.elements <= view.elements))
  }

  /** How many bytes such a call waits for. */
  function Need(view: View, minimum: Minimum): int
    requires Acceptable(view, minimum)
  {
    (if minimum.Whole? then minimum.elements else 1) * view.elementSize
  }

  /** What the call asks for. */
  function BufferAsk(s: Stream, view: View, minimum: Minimum): (r: Request)
    requires Acceptable(view, minimum)
  {
    NeedFits(view, minimum);
    PullInto(s.nextId, false, [], view.elements * view.elementSize, Need(view, minimum), view.elementSize,
             view.byteOffset, view.bufferLength)
  }

  lemma NeedFits(view: View, minimum: Minimum)
    requires Acceptable(view, minimum)
    ensures 0 < Need(view, minimum) <= view.elements * view.elementSize
  {
    var m, n, e := if minimum.Whole? then minimum.elements else 1, view.elements, view.elementSize;
    assert (n - m) * e >= 0 && (m - 1) * e >= 0;
  }

  /** A read with a buffer is refused exactly when the caller's arguments are not acceptable. */
  lemma RefusedExactly(s: Stream, view: View, minimum: Minimum)
    requires s.byteStream
    ensures Refusal(s, view, minimum).None? <==> Acceptable(view, minimum)
    ensures Acceptable(view, minimum) ==> NewPullInto(s, view, minimum) == BufferAsk(s, view, minimum)
  {
    if view.View? {
      var m, n, e := MinimumElements(minimum), view.elements, view.elementSize;
      if m > n && e > 0 {
        assert (m - n) * e > 0;
      }
      if Acceptable(view, minimum) {
        NeedFits(view, minimum);
        assert n * e > 0;
      }
    }
  }

  /** The read a step makes, if it makes one. */
  function NewAsks(s: Stream, e: Event): seq<Request> {
    if e.Read? && s.reader.DefaultReader? then [DefaultAsk(s)]
    else if e.ReadView? && s.reader.ByobReader? && s.byteStream && Acceptable(e.view, e.minimum)
    then [BufferAsk(s, e.view, e.minimum)]
    else []
  }

  lemma ReadViewAsks(s: Stream, view: View, minimum: Minimum)
    requires Inv(s) && s.reader.ByobReader? && s.byteStream && Acceptable(view, minimum)
    ensures Drainable(s) && Asks(ReadInto(s, view, minimum).stream) == Asks(s) + [BufferAsk(s, view, minimum)]
  {
    assert Drainable(s);
    RefusedExactly(s, view, minimum);
    StartAsks(s, NewPullInto(s, view, minimum));
    hide StartReadInto, NewPullInto, Inv, Asks, BufferAsk, Acceptable, Drainable, Refusal;
  }

  lemma RefusedAsks(s: Stream, view: View, minimum: Minimum)
    requires Inv(s) && s.reader.ByobReader? && !(s.byteStream && Acceptable(view, minimum))
    ensures (s.byteStream ==> Drainable(s)) && ReadInto(s, view, minimum).stream == s
  {
    assert s.byteStream ==> Drainable(s);
    if s.byteStream {
      RefusedExactly(s, view, minimum);
    }
    hide StartReadInto, NewPullInto, Inv, Acceptable, Drainable;
  }

  /** No step changes what a read asks for, and a step asks for nothing but its own new read. */
  lemma StepAsks(s: Stream, e: Event)
    requires Inv(s)
    ensures Asks(Step(s, e)) == Asks(s) + NewAsks(s, e)
  {
    assert AllShaped(s.requests) && Sound(s) && (s.byteStream ==> Drainable(s));
    hide Inv, Sound, Enqueue, ControllerClose, Respond, RespondWithNewView, ErrorReadable, StartResolved, PullResolved,
      PullRejected, GetByobRequest, AcquireReader, ReleaseLock, ReadFrom, ReadInto, CancelReadable, AllShaped, Asks,
      Drainable, DefaultAsk, BufferAsk, Acceptable;
    match e {
      case StartFulfilled => StartResolvedAsks(s);
      case StartRejected(reason) => ErrorAsks(s, reason);
      case PullFulfilled => PullResolvedAsks(s);
      case PullFailed(reason) => PullRejectedAsks(s, reason);
      case SourceEnqueue(chunk) => EnqueueAsks(s, chunk);
      case SourceClose => ControllerCloseAsks(s);
      case SourceError(reason) => ErrorAsks(s, reason);
      case SourceByobRequest => ByobAsks(s);
      case SourceRespond(_, _, _) => if s.byteStream { SourceRespondAsks(s, e); }
      case SourceRespondWithView(_, _) => if s.byteStream { SourceRespondAsks(s, e); }
      case GetReader(byob) => AcquireAsks(s, if byob then ByobReader else DefaultReader);
      case ReleaseReader => ReleaseAsks(s);
      case Read => if s.reader.DefaultReader? { ReadFromAsks(s); }
      case ReadView(view, minimum) =>
        if s.reader.ByobReader? {
          if s.byteStream && Acceptable(view, minimum) {
            ReadViewAsks(s, view, minimum);
          } else {
            RefusedAsks(s, view, minimum);
          }
        }
      case Cancel => CancelAsks(s);
    }
  }

  lemma ControllerCloseAsks(s: Stream)
    requires AllShaped(s.requests)
    ensures Asks(ControllerClose(s).stream) == Asks(s)
  {
    CloseAsks(s.(closeRequested := true));
    hide CloseReadable, AllShaped, Settled, Waiting;
  }

  lemma {:induction false} RunAsks(s: Stream, events: seq<Event>)
    requires Inv(s)
    ensures Asks(s) <= Asks(Run(s, events))
    decreases |events|
  {
    assert Sound(s);
    hide Step, Asks, NewAsks, Inv, Sound;
    if events != [] {
      StepKeeps(s, events[0]);
      StepAsks(s, events[0]);
      RunAsks(Step(s, events[0]), events[1..]);
    }
  }

  // ---- what a read with a buffer gets ---------------------------------------

  /** The read with this id, which asked for `ask`: it waits below its minimum, or an answer met the
      minimum, or the stream ended. */
  predicate Serves(t: Stream, ask: Request)
    requires ask.PullInto? && ask.elementSize > 0
  {
    && ask.id < |t.settled| + |t.requests|
    && (ask.id >= |t.settled| ==>
          var r := t.requests[ask.id - |t.settled|];
          Ask(r) == ask && |r.filled| < ask.minimum)
    && (ask.id < |t.settled| ==>
          var a := t.settled[ask.id];
          && Ask(a.request) == ask
          && (a.Answered? ==> |a.items| <= ask.byteLength && |a.items| % ask.elementSize == 0)
          && (a.Answered? && !a.done ==> ask.minimum <= |a.items|)
          && (a.Finished? || (a.Answered? && a.done) ==> t.phase.Closed?)
          && (a.Failed? ==> t.phase == Errored(a.reason)))
  }

  lemma AskedIsServed(t: Stream, ask: Request)
    requires Inv(t) && ask.PullInto? && ask.elementSize > 0 && ask.id < |Asks(t)| && Asks(t)[ask.id] == ask
    ensures Serves(t, ask)
  {
    hide QueueFits, Conserved, Served;
    if ask.id < |t.settled| {
      assert Settled(t.settled)[ask.id] == ask;
      assert WholeAnswer(t.phase, t.byteStream, t.settled[ask.id]);
    } else {
      assert Waiting(t.requests)[ask.id - |t.settled|] == ask;
      assert t.requests[ask.id - |t.settled|].Waiting();
    }
    hide AllWhole, Ordered;
  }

  lemma AsksCounted(s: Stream)
    requires Inv(s)
    ensures |Asks(s)| == s.nextId
  {
    hide Sound, AllWhole, Conserved, Served, Settled, Waiting;
  }

  lemma NewAskIsServed(s: Stream, e: Event, ask: Request, later: seq<Event>)
    requires Inv(s) && NewAsks(s, e) == [ask] && ask.PullInto? && ask.elementSize > 0 && ask.id == s.nextId
    ensures Inv(Step(s, e)) && Serves(Run(Step(s, e), later), ask)
  {
    AsksCounted(s);
    StepKeeps(s, e);
    StepAsks(s, e);
    hide Step, Run, Inv, Asks, NewAsks, Serves;
    RunAsks(Step(s, e), later);
    AskedIsServed(Run(Step(s, e), later), ask);
  }

  /** A read with a buffer waits for exactly the minimum its caller asked for, in elements of the
      caller's view and one element if none was given, and fills the caller's view: in every later
      state of every run it still waits with less, or it was answered with at least that much, or
      the stream ended. */
  lemma BufferReadGetsItsMinimum(s: Stream, view: View, minimum: Minimum, later: seq<Event>)
    requires Inv(s) && s.byteStream && s.reader.ByobReader? && Acceptable(view, minimum)
    ensures var n, e := view.elements, view.elementSize;
            var need := if minimum.Whole? then minimum.elements * e else e;
            && Inv(Step(s, ReadView(view, minimum))) && need >= 0
            && Serves(Run(Step(s, ReadView(view, minimum)), later),
                      PullInto(s.nextId, false, [], n * e, need, e, view.byteOffset, view.bufferLength))
  {
    NeedFits(view, minimum);
    NewAskIsServed(s, ReadView(view, minimum), BufferAsk(s, view, minimum), later);
    hide Step, Run, Inv, Serves;
  }

  /** A read of a default reader that has to wait gets the buffer its source allocates, if it does. */
  lemma DefaultReadGetsItsBuffer(s: Stream, later: seq<Event>)
    requires Inv(s) && s.byteStream && s.reader.DefaultReader? && s.queue == [] && s.phase.Readable?
    requires s.autoAllocate > 0
    ensures Inv(Step(s, Read))
    ensures Serves(Run(Step(s, Read), later), PullInto(s.nextId, true, [], s.autoAllocate, 1, 1, 0, s.autoAllocate))
  {
    NewAskIsServed(s, Read, PullInto(s.nextId, true, [], s.autoAllocate, 1, 1, 0, s.autoAllocate), later);
    hide Step, Run, Inv, Serves;
  }
}
