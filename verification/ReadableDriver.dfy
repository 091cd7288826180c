/** A readable stream's state object under any sequence of calls. */
module ReadableDrivers {
  import opened Options
  import opened ReadableModel
  import opened ReadableInvariants
  import opened ReadableRuns
  import opened ReadableSignals
  import opened ReadableStates

  /** What the methods of the object rely on holds between calls. */
  lemma Callable(s: Stream)
    requires Inv(s)
    ensures AllShaped(s.requests) && (s.byteStream ==> Drainable(s))
    ensures s.byobRequest.Some? ==> HasPullInto(s)
    ensures HasPullInto(s) ==> Drainable(s)
    ensures s.pulling <==> s.pullCalls > s.pullEnds
  {
    assert s.requests != [] ==> Admitted(Admits(s), s.requests[0]);
  }

  method DispatchSource(s: ReadableState, e: Event)
    requires Inv(s.Model())
    requires e.SourceEnqueue? || e.SourceClose? || e.SourceByobRequest? || e.SourceRespond? || e.SourceRespondWithView?
    modifies s
    ensures s.Model() == Step(old(s.Model()), e)
  {
    Callable(s.Model());
    hide Inv, Drainable, AllShaped, ReadableModel.Enqueue, ReadableModel.ControllerClose, ReadableModel.Respond,
      ReadableModel.RespondWithNewView, ReadableModel.GetByobRequest;
    match e {
      case SourceEnqueue(chunk) =>
        var _ := s.Enqueue(chunk);
      case SourceClose =>
        var _ := s.ControllerClose();
      case SourceByobRequest =>
        s.GetByobRequest();
      case SourceRespond(count, detached, memory) =>
        if s.byteStream {
          var _ := s.Respond(count, detached, memory);
        }
      case SourceRespondWithView(view, memory) =>
        if s.byteStream {
          var _ := s.RespondWithNewView(view, memory);
        }
    }
  }

  method DispatchConsumer(s: ReadableState, e: Event)
    requires Inv(s.Model())
    requires e.GetReader? || e.ReleaseReader? || e.Read? || e.ReadView? || e.Cancel?
    modifies s
    ensures s.Model() == Step(old(s.Model()), e)
  {
    Callable(s.Model());
    hide Inv, Drainable, AllShaped, ReadableModel.AcquireReader, ReadableModel.ReleaseLock, ReadableModel.ReadFrom,
      ReadableModel.ReadInto, ReadableModel.CancelReadable;
    match e {
      case GetReader(byob) =>
        var _ := s.AcquireReader(if byob then ByobReader else DefaultReader);
      case ReleaseReader =>
        var _ := s.ReleaseLock();
      case Read =>
        if s.reader.DefaultReader? {
          s.ReadFrom();
        }
      case ReadView(view, minimum) =>
        if s.reader.ByobReader? {
          var _ := s.ReadInto(view, minimum);
        }
      case Cancel =>
        var _ := s.CancelReadable();
    }
  }

  /** One call on the object, or one settled promise. */
  method Dispatch(s: ReadableState, e: Event)
    requires Inv(s.Model())
    modifies s
    ensures s.Model() == Step(old(s.Model()), e) && Inv(s.Model())
  {
    Callable(s.Model());
    StepKeeps(s.Model(), e);
    hide Inv, Drainable, AllShaped, ReadableModel.ErrorReadable, ReadableModel.StartResolved,
      ReadableModel.PullResolved, ReadableModel.PullRejected;
    match e {
      case StartFulfilled => s.StartResolved();
      case StartRejected(reason) => s.ErrorReadable(reason);
      case PullFulfilled => if s.pullCalls > s.pullEnds { s.PullResolved(); }
      case PullFailed(reason) => if s.pullCalls > s.pullEnds { s.PullRejected(reason); }
      case SourceError(reason) => s.ErrorReadable(reason);
      case SourceEnqueue(_) => DispatchSource(s, e); hide Step;
      case SourceClose => DispatchSource(s, e); hide Step;
      case SourceByobRequest => DispatchSource(s, e); hide Step;
      case SourceRespond(_, _, _) => DispatchSource(s, e); hide Step;
      case SourceRespondWithView(_, _) => DispatchSource(s, e); hide Step;
      case _ => DispatchConsumer(s, e); hide Step;
    }
  }

  /** A new stream after any calls: its object is in the state of the run, so what its readers got,
      then what fills the head buffer, then what is queued is what its source gave, at most one
      pull is outstanding, and its reader has been told of its phase. */
  method Drive(byteStream: bool, autoAllocate: nat, highWaterMark: Mark, hasPull: bool, events: seq<Event>)
    returns (s: ReadableState)
    ensures fresh(s) && s.Model() == Reached(byteStream, autoAllocate, highWaterMark, hasPull, events)
    ensures var given := Supply(byteStream, autoAllocate, highWaterMark, hasPull, events);
            && Delivered(s.settled) <= given
            && (!s.phase.Errored? && !s.cancelled ==>
                  Delivered(s.settled) + HeadFilled(s.requests) + Contents(s.queue) == given)
    ensures s.pullEnds <= s.pullCalls <= s.pullEnds + 1
    ensures !s.reader.NoReader? ==> (s.closed.Awaited? <==> s.phase.Readable?)
  {
    InitialHolds(byteStream, autoAllocate, highWaterMark, hasPull);
    ghost var first := Initial(byteStream, autoAllocate, highWaterMark, hasPull);
    s := new ReadableState(byteStream, autoAllocate, highWaterMark, hasPull);
    hide Inv, Step, Initial;
    var i := 0;
    assert events[0..] == events;
    while i < |events|
      invariant i <= |events| && fresh(s) && Inv(s.Model())
      invariant Run(first, events) == Run(s.Model(), events[i..])
    {
      assert events[i..][0] == events[i] && events[i..][1..] == events[i + 1..];
      Dispatch(s, events[i]);
      i := i + 1;
    }
    assert events[i..] == [];
    Conservation(byteStream, autoAllocate, highWaterMark, hasPull, events);
    PullScheduling(byteStream, autoAllocate, highWaterMark, hasPull, events, ReleaseReader);
    ClosedTellsThePhase(byteStream, autoAllocate, highWaterMark, hasPull, events);
    assert s.Model() == Reached(byteStream, autoAllocate, highWaterMark, hasPull, events);
    hide Run, Reached, Supply, Delivered, Contents;
  }
}
