/** A writable stream's state object under any sequence of calls and settled promises. */
module WritableDrivers {
  import opened Options
  import opened ReadableModel
  import opened WritableModel
  import opened WritableRuns
  import opened WritableStates

  /** One call on the object, or one step of its chain. */
  method Dispatch(s: WritableState, e: Event)
    modifies s
    ensures s.Model() == Step(old(s.Model()), e)
  {
    hide WritableModel.WriteWritable, WritableModel.CloseWritable, WritableModel.ErrorWritable, WritableModel.GetWriter,
      WritableModel.ReleaseWriter, WritableModel.Begin, WritableModel.SinkSettles, WritableModel.React,
      WritableModel.AbortWritable;
    match e {
      case CallWrite(size) =>
        var _ := s.WriteWritable(size);
      case CallClose =>
        var _ := s.CloseWritable();
      case CallAbort(reason) => s.AbortWritable(reason);
      case ControllerError(reason) => s.ErrorWritable(reason);
      case AttachWriter =>
        var _ := s.GetWriter();
      case DetachWriter => s.ReleaseWriter();
      case LinkBegins =>
        if s.jobs != [] && s.jobs[0].progress.Pending? {
          s.Begin();
        }
      case SinkPromise(result) =>
        if s.jobs != [] && s.jobs[0].progress.Running? {
          s.SinkSettles(result);
        }
      case LinkReacts =>
        if s.jobs != [] && s.jobs[0].progress.Settled? {
          s.React();
        }
    }
  }

  /** A new stream after any calls: its object is in the state of the run, so its sink was called
      for the accepted writes in order and for close last, and while it is writable its total is
      the sum of the open writes. */
  method Drive(highWaterMark: Mark, events: seq<Event>) returns (s: WritableState)
    ensures fresh(s) && s.Model() == Run(Constructed(highWaterMark), events)
    ensures forall i | 0 <= i < |s.calls| :: s.calls[i] == if i < s.nextId then SinkWrite(i) else SinkClose
    ensures SinkClose in s.calls ==> s.closeQueued && |s.calls| == s.nextId + 1
    ensures s.condition.Writable? ==>
              && s.queueTotalSize == Unsettled(s.jobs)
              && (s.writer.Some? ==> (s.writer.value <==> MarkReached(s.Model())))
  {
    ghost var first := Constructed(highWaterMark);
    s := new WritableState(highWaterMark);
    hide Step;
    var i := 0;
    assert events[0..] == events;
    while i < |events|
      invariant i <= |events| && fresh(s)
      invariant Run(first, events) == Run(s.Model(), events[i..])
    {
      assert events[i..][0] == events[i] && events[i..][1..] == events[i + 1..];
      Dispatch(s, events[i]);
      i := i + 1;
    }
    assert events[i..] == [];
    Serialised(highWaterMark, events);
    Backpressured(highWaterMark, events);
    HighWaterMarkStays(highWaterMark, events);
    assert s.Model() == Run(first, events);
    hide Run, Unsettled;
  }

  lemma HighWaterMarkStays(highWaterMark: Mark, events: seq<Event>)
    ensures Run(Constructed(highWaterMark), events).highWaterMark == highWaterMark
  {
    ReadinessRun(highWaterMark, events);
    hide Run, Disturbed;
  }
}
