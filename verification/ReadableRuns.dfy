/** Runs of a readable stream: any interleaving of reader calls, source calls and settled promises. */
module ReadableRuns {
  import opened Options
  import opened ReadableModel
  import opened ReadableInvariants
  import opened ReadableSteps
  import opened ReadableAdvances

  datatype Event =
    // the source
    | StartFulfilled
    | StartRejected(reason: Reason)
    | PullFulfilled
    | PullFailed(reason: Reason)
    | SourceEnqueue(chunk: Incoming)
    | SourceClose
    | SourceError(reason: Reason)
    | SourceByobRequest
    | SourceRespond(count: Option<int>, detached: bool, memory: nat -> Item)
    | SourceRespondWithView(replacement: Replacement, memory: nat -> Item)
    // the consumer
    | GetReader(byob: bool)
    | ReleaseReader
    | Read
    | ReadView(view: View, minimum: Minimum)
    | Cancel

  /** A promise of `pull` is settled only while one is outstanding; a reader without a lock does nothing. */
  function Step(s: Stream, e: Event): Stream
    requires Sound(s)
  {
    match e
    case StartFulfilled => StartResolved(s)
    case StartRejected(reason) => ErrorReadable(s, reason)
    case PullFulfilled => if s.pullCalls > s.pullEnds then PullResolved(s) else s
    case PullFailed(reason) => if s.pullCalls > s.pullEnds then PullRejected(s, reason) else s
    case SourceEnqueue(chunk) => Enqueue(s, chunk).stream
    case SourceClose => ControllerClose(s).stream
    case SourceError(reason) => ErrorReadable(s, reason)
    case SourceByobRequest => GetByobRequest(s)
    case SourceRespond(count, detached, memory) =>
      if s.byteStream then Respond(s, count, detached, memory).stream else s
    case SourceRespondWithView(view, memory) =>
      if s.byteStream then RespondWithNewView(s, view, memory).stream else s
    case GetReader(byob) => AcquireReader(s, if byob then ByobReader else DefaultReader).stream
    case ReleaseReader => ReleaseLock(s).stream
    case Read => if s.reader.DefaultReader? then ReadFrom(s) else s
    case ReadView(view, minimum) => if s.reader.ByobReader? then ReadInto(s, view, minimum).stream else s
    case Cancel => CancelReadable(s)
  }

  lemma StepKeeps(s: Stream, e: Event)
    requires Inv(s)
    ensures Inv(Step(s, e))
  {
    match e {
      case StartFulfilled => StartResolvedKeeps(s);
      case StartRejected(reason) => ErrorReadableKeeps(s, reason);
      case PullFulfilled => if s.pulling { PullResolvedKeeps(s); }
      case PullFailed(reason) => if s.pulling { PullRejectedKeeps(s, reason); }
      case SourceEnqueue(chunk) => EnqueueKeeps(s, chunk);
      case SourceClose => ControllerCloseKeeps(s);
      case SourceError(reason) => ErrorReadableKeeps(s, reason);
      case SourceByobRequest => GetByobRequestKeeps(s);
      case SourceRespond(count, detached, memory) => RespondKeeps(s, count, detached, memory);
      case SourceRespondWithView(view, memory) => RespondWithNewViewKeeps(s, view, memory);
      case GetReader(byob) => AcquireReaderKeeps(s, if byob then ByobReader else DefaultReader);
      case ReleaseReader => ReleaseLockKeeps(s);
      case Read => if s.reader.DefaultReader? { ReadFromKeeps(s); }
      case ReadView(view, minimum) => if s.reader.ByobReader? { ReadIntoKeeps(s, view, minimum); }
      case Cancel => CancelReadableKeeps(s);
    }
    assert s.pulling <==> s.pullCalls > s.pullEnds;
    hide Inv, ErrorReadable, PullResolved, PullRejected, Enqueue, ControllerClose, GetByobRequest, Respond,
      RespondWithNewView, AcquireReader, ReleaseLock, ReadFrom, ReadInto, CancelReadable, StartResolved;
  }

  /** The state after a run that starts in `s`. */
  function Run(s: Stream, events: seq<Event>): (t: Stream)
    requires Inv(s)
    ensures Inv(t)
    decreases |events|
  {
    if events == [] then s
    else
      StepKeeps(s, events[0]);
      Run(Step(s, events[0]), events[1..])
  }

  // ---- what one step adds ---------------------------------------------------

  /** What the source gives with a step: the chunk or the bytes of a call that is not refused. */
  function Gives(s: Stream, e: Event): seq<Item>
    requires Sound(s)
  {
    match e
    case SourceEnqueue(chunk) =>
      if Enqueue(s, chunk).thrown.Some? then [] else if s.byteStream then chunk.view.GetOr([]) else [chunk.item]
    case SourceRespond(count, detached, memory) =>
      if !s.byteStream || Respond(s, count, detached, memory).thrown.Some? || count.None? || count.value < 0 then []
      else seq(count.value, memory)
    case SourceRespondWithView(view, memory) =>
      if !s.byteStream || RespondWithNewView(s, view, memory).thrown.Some? || view.NoView? then []
      else seq(view.byteLength, memory)
    case _ => []
  }

  lemma ControllerCloseAdvances(s: Stream)
    requires Inv(s)
    ensures Advances(s, [], ControllerClose(s).stream)
  {
    CloseAlike(s.(closeRequested := true));
    hide CloseReadable;
  }

  lemma PullEndAdvances(s: Stream, reason: Reason)
    requires Inv(s) && s.pulling
    ensures Advances(s, [], PullResolved(s)) && Advances(s, [], PullRejected(s, reason))
  {
    PullRejectedIs(s, reason);
    ErrorAlike(s, reason);
    hide PullRejected, ErrorReadable;
  }

  lemma LockAdvances(s: Stream, kind: Reader, closed: Signal)
    ensures Advances(s, [], s.(reader := kind, closed := closed)) && Advances(s, [], s)
  {
  }

  lemma AcquireAdvances(s: Stream, kind: Reader)
    ensures Advances(s, [], AcquireReader(s, kind).stream)
  {
    LockAdvances(s, kind, Announced(s.phase));
    hide Advances;
  }

  lemma ReleaseAdvances(s: Stream)
    ensures Advances(s, [], ReleaseLock(s).stream)
  {
    LockAdvances(s, NoReader, Signalled(s.reader, s.closed, Rejected(LockReleased)));
    hide Advances;
  }

  lemma ByobRequestAdvances(s: Stream)
    ensures Advances(s, [], GetByobRequest(s))
  {
    if HasPullInto(s) && s.byobRequest.None? {
    }
  }

  lemma StartAdvances(s: Stream, reason: Reason)
    requires PullFits(s)
    ensures Advances(s, [], StartResolved(s)) && Advances(s, [], ErrorReadable(s, reason))
  {
    ThenRequestPull(s, [], s.(started := true));
    ErrorAlike(s, reason);
    hide RequestPull, ErrorReadable;
  }

  lemma NothingAdvances(s: Stream)
    requires Inv(s)
    ensures Advances(s, [], s)
  {
    hide Sound, History, Served;
  }

  lemma SourceRespondAdvances(s: Stream, e: Event)
    requires Inv(s) && s.byteStream && (e.SourceRespond? || e.SourceRespondWithView?)
    ensures Advances(s, Gives(s, e), Step(s, e))
  {
    hide RespondPullInto, Advances;
    NothingAdvances(s);
    if s.byobRequest.Some? {
      var room := s.requests[0].byteLength - |s.requests[0].filled|;
      if e.SourceRespond? && !e.detached && e.count.Some? && 0 <= e.count.value <= room
         && (s.phase.Closed? ==> e.count.value == 0) {
        RespondPullIntoKeeps(s, seq(e.count.value, e.memory));
        RespondPullIntoAdvances(s, seq(e.count.value, e.memory));
      } else if e.SourceRespondWithView? && e.replacement.Replacement? && e.replacement.byteLength <= room
                && (s.phase.Closed? ==> e.replacement.byteLength == 0) {
        RespondPullIntoKeeps(s, seq(e.replacement.byteLength, e.memory));
        RespondPullIntoAdvances(s, seq(e.replacement.byteLength, e.memory));
      }
    }
    hide Inv;
  }

  /** Every step only adds to the history, accounts for what it was given, and pulls in turn. */
  lemma StepAdvances(s: Stream, e: Event)
    requires Inv(s)
    ensures Advances(s, Gives(s, e), Step(s, e))
  {
    assert s.pulling <==> s.pullCalls > s.pullEnds;
    match e {
      case StartFulfilled => StartAdvances(s, NotAByteView);
      case StartRejected(reason) => StartAdvances(s, reason);
      case PullFulfilled => if s.pulling { PullEndAdvances(s, NotAByteView); }
      case PullFailed(reason) => if s.pulling { PullEndAdvances(s, reason); }
      case SourceEnqueue(chunk) => EnqueueAdvances(s, chunk);
      case SourceClose => ControllerCloseAdvances(s);
      case SourceError(reason) => StartAdvances(s, reason);
      case SourceByobRequest => ByobRequestAdvances(s);
      case SourceRespond(_, _, _) => if s.byteStream { SourceRespondAdvances(s, e); }
      case SourceRespondWithView(_, _) => if s.byteStream { SourceRespondAdvances(s, e); }
      case GetReader(byob) => AcquireAdvances(s, if byob then ByobReader else DefaultReader);
      case ReleaseReader =>
      case Read => ReadFromAdvances(s);
      case ReadView(view, minimum) => if s.reader.ByobReader? { ReadIntoAdvances(s, view, minimum); }
      case Cancel => CancelAdvances(s);
    }
    ReleaseAdvances(s);
    NothingAdvances(s);
    hide Advances, Inv, ErrorReadable, PullResolved, PullRejected, Enqueue, ControllerClose, Respond, GetByobRequest,
      RespondWithNewView, AcquireReader, ReleaseLock, StartResolved, ReadFrom, ReadInto, CancelReadable, RequestPull;
  }

  // ---- runs -----------------------------------------------------------------

  lemma InitialHolds(byteStream: bool, autoAllocate: nat, highWaterMark: Mark, hasPull: bool)
    ensures Inv(Initial(byteStream, autoAllocate, highWaterMark, hasPull))
  {
  }

  /** Everything the source gives in a run, call by call. */
  function Given(s: Stream, events: seq<Event>): seq<Item>
    requires Inv(s)
    decreases |events|
  {
    if events == [] then []
    else
      StepKeeps(s, events[0]);
      Gives(s, events[0]) + Given(Step(s, events[0]), events[1..])
  }

  lemma ExtendsThen(s: Stream, a: seq<Item>, t: Stream, b: seq<Item>, u: Stream)
    requires Extends(s, a, t) && Extends(t, b, u)
    ensures Extends(s, a + b, u)
  {
    assert s.supplied + a + b == s.supplied + (a + b);
  }

  lemma {:induction false} RunExtends(s: Stream, events: seq<Event>)
    requires Inv(s)
    ensures Extends(s, Given(s, events), Run(s, events))
    decreases |events|
  {
    if events != [] {
      var m := Step(s, events[0]);
      StepKeeps(s, events[0]);
      StepAdvances(s, events[0]);
      hide Step, Gives, Inv, Extends;
      RunExtends(m, events[1..]);
      ExtendsThen(s, Gives(s, events[0]), m, Given(m, events[1..]), Run(m, events[1..]));
    }
  }

  lemma {:induction false} EndedRunGivesNothing(s: Stream, events: seq<Event>)
    requires Inv(s) && !s.phase.Readable?
    ensures Given(s, events) == []
    decreases |events|
  {
    if events != [] {
      StepKeeps(s, events[0]);
      StepAdvances(s, events[0]);
      ClosedGivesNothing(s, events[0]);
      hide Step, Gives, Inv;
      EndedRunGivesNothing(Step(s, events[0]), events[1..]);
    }
  }

  /** A stream that has ended accepts no more data. */
  lemma ClosedGivesNothing(s: Stream, e: Event)
    requires Inv(s) && !s.phase.Readable?
    ensures Gives(s, e) == []
  {
    hide RespondPullInto;
  }

  /** The streams of the engine are those a run reaches from a constructed one. */
  function Reached(byteStream: bool, autoAllocate: nat, highWaterMark: Mark, hasPull: bool, events: seq<Event>): (s: Stream)
    ensures Inv(s)
  {
    InitialHolds(byteStream, autoAllocate, highWaterMark, hasPull);
    Run(Initial(byteStream, autoAllocate, highWaterMark, hasPull), events)
  }

  function Supply(byteStream: bool, autoAllocate: nat, highWaterMark: Mark, hasPull: bool, events: seq<Event>): seq<Item> {
    InitialHolds(byteStream, autoAllocate, highWaterMark, hasPull);
    Given(Initial(byteStream, autoAllocate, highWaterMark, hasPull), events)
  }

  lemma ReachedSupply(byteStream: bool, autoAllocate: nat, highWaterMark: Mark, hasPull: bool, events: seq<Event>)
    ensures Reached(byteStream, autoAllocate, highWaterMark, hasPull, events).supplied
         == Supply(byteStream, autoAllocate, highWaterMark, hasPull, events)
    ensures var s := Reached(byteStream, autoAllocate, highWaterMark, hasPull, events);
            && s.byteStream == byteStream && s.autoAllocate == autoAllocate
            && s.highWaterMark == highWaterMark && s.hasPull == hasPull
  {
    InitialHolds(byteStream, autoAllocate, highWaterMark, hasPull);
    RunExtends(Initial(byteStream, autoAllocate, highWaterMark, hasPull), events);
  }

  /** Conservation: what readers got, then what fills the head buffer, then what is queued is
      exactly what the source gave; after an error or a cancel readers got a prefix of it. */
  lemma Conservation(byteStream: bool, autoAllocate: nat, highWaterMark: Mark, hasPull: bool, events: seq<Event>)
    ensures var s := Reached(byteStream, autoAllocate, highWaterMark, hasPull, events);
            var given := Supply(byteStream, autoAllocate, highWaterMark, hasPull, events);
            && (Lossless(s) ==> Delivered(s.settled) + HeadFilled(s.requests) + Contents(s.queue) == given)
            && Delivered(s.settled) <= given
  {
    ReachedSupply(byteStream, autoAllocate, highWaterMark, hasPull, events);
    hide Reached, Supply, Sound, Ordered, AllWhole, Served, Delivered, Contents;
  }

  /** The end is announced only after everything the source gave is with the readers, or in the
      buffer the source has yet to give back. */
  lemma CloseDeliversEverything(byteStream: bool, autoAllocate: nat, highWaterMark: Mark, hasPull: bool,
                                events: seq<Event>, i: nat)
    requires var s := Reached(byteStream, autoAllocate, highWaterMark, hasPull, events);
             && !s.cancelled && i < |s.settled|
             && (s.settled[i].Finished? || (s.settled[i].Answered? && s.settled[i].done))
    ensures var s := Reached(byteStream, autoAllocate, highWaterMark, hasPull, events);
            var given := Supply(byteStream, autoAllocate, highWaterMark, hasPull, events);
            && s.phase.Closed?
            && Delivered(s.settled) + HeadFilled(s.requests) == given
            && (s.requests == [] ==> Delivered(s.settled) == given)
  {
    ReachedSupply(byteStream, autoAllocate, highWaterMark, hasPull, events);
    var s := Reached(byteStream, autoAllocate, highWaterMark, hasPull, events);
    assert WholeAnswer(s.phase, s.byteStream, s.settled[i]);
    hide Reached, Supply, Ordered, AllWhole, Served, Delivered;
  }

  /** The settlements that carry a value. */
  function Values(settled: seq<Settlement>): seq<Settlement> {
    if settled == [] then []
    else (if settled[0].Answered? then [settled[0]] else []) + Values(settled[1..])
  }

  lemma {:induction false} ValuesDelivered(phase: Phase, settled: seq<Settlement>)
    requires AllWhole(phase, false, settled)
    ensures |Values(settled)| == |Delivered(settled)|
    ensures forall k | 0 <= k < |Values(settled)| :: Values(settled)[k].Items() == [Delivered(settled)[k]]
  {
    if settled != [] {
      assert WholeAnswer(phase, false, settled[0]);
      ValuesDelivered(phase, settled[1..]);
      hide AllWhole, WholeAnswer;
      if settled[0].Answered? {
        assert Values(settled) == [settled[0]] + Values(settled[1..]);
        assert Delivered(settled) == settled[0].items + Delivered(settled[1..]);
      } else {
        assert Values(settled) == Values(settled[1..]) && Delivered(settled) == Delivered(settled[1..]);
      }
      hide Values, Delivered;
    }
  }

  /** First in, first out: the k-th read that yields a value gets the k-th enqueued chunk. */
  lemma Fifo(highWaterMark: Mark, hasPull: bool, events: seq<Event>)
    ensures var s := Reached(false, 0, highWaterMark, hasPull, events);
            var given := Supply(false, 0, highWaterMark, hasPull, events);
            && |Values(s.settled)| <= |given|
            && (forall k | 0 <= k < |Values(s.settled)| :: Values(s.settled)[k].Items() == [given[k]])
            && (s.queue == [] || s.requests == [])
  {
    Conservation(false, 0, highWaterMark, hasPull, events);
    ReachedSupply(false, 0, highWaterMark, hasPull, events);
    var s := Reached(false, 0, highWaterMark, hasPull, events);
    ValuesDelivered(s.phase, s.settled);
    hide Reached, Supply, Delivered, Values, Ordered, Served, Structure;
  }

  /** Data and waiting reads never coexist, the total is the sum of what the entries weigh, and a
      requested close is outstanding only while there is data. */
  lemma QueueAccounted(byteStream: bool, autoAllocate: nat, highWaterMark: Mark, hasPull: bool, events: seq<Event>)
    ensures var s := Reached(byteStream, autoAllocate, highWaterMark, hasPull, events);
            && (s.queue == [] || s.requests == [])
            && s.queueTotalSize == Total(s.queue)
            && (s.closeRequested && s.phase.Readable? ==> s.queue != [])
  {
    hide Reached, History, Served, Total;
  }

  /** Every read is settled at most once and in the order of the calls: what is settled stays
      settled, and the open reads are the latest ones. */
  lemma ReadsSettleInOrder(byteStream: bool, autoAllocate: nat, highWaterMark: Mark, hasPull: bool,
                           events: seq<Event>, later: seq<Event>)
    ensures var s := Reached(byteStream, autoAllocate, highWaterMark, hasPull, events);
            var t := Run(s, later);
            && s.settled <= t.settled
            && (forall i | 0 <= i < |t.settled| :: t.settled[i].request.id == i)
            && (forall i | 0 <= i < |t.requests| :: t.requests[i].id == |t.settled| + i)
            && (!s.phase.Readable? ==> t.phase == s.phase && t.supplied == s.supplied)
  {
    var s := Reached(byteStream, autoAllocate, highWaterMark, hasPull, events);
    RunExtends(s, later);
    if !s.phase.Readable? {
      EndedRunGivesNothing(s, later);
    }
    hide Reached, Run, AllWhole, Served, Conserved, Sound;
  }

  /** The pull scheduler, in terms of the stream's fields: as long as the source may still give data
      and a read waits or the queued sizes are below the high-water mark, a pull is in flight; there
      is never a second one; and the next one starts, after the one before has ended, only then. */
  lemma PullScheduling(byteStream: bool, autoAllocate: nat, highWaterMark: Mark, hasPull: bool,
                       events: seq<Event>, next: Event)
    ensures var s := Reached(byteStream, autoAllocate, highWaterMark, hasPull, events);
            var t := Step(s, next);
            && s.pullEnds <= s.pullCalls <= s.pullEnds + 1
            && (s.started && hasPull && s.phase.Readable? && !s.closeRequested
                && (s.requests != [] || highWaterMark.Unlimited? || Total(s.queue) < highWaterMark.limit) ==>
                  s.pullCalls == s.pullEnds + 1)
            && (t.pullCalls > s.pullCalls ==>
                  && t.pullCalls == s.pullCalls + 1 && s.pullCalls == t.pullEnds
                  && t.started && hasPull && t.phase.Readable? && !t.closeRequested
                  && (t.requests != [] || highWaterMark.Unlimited? || Total(t.queue) < highWaterMark.limit))
  {
    var s := Reached(byteStream, autoAllocate, highWaterMark, hasPull, events);
    StepAdvances(s, next);
    StepKeeps(s, next);
    ReachedSupply(byteStream, autoAllocate, highWaterMark, hasPull, events);
    PullDemand(s);
    PullDemand(Step(s, next));
    hide Reached, Step, Inv, Gives, Total, Demand, MayPull;
  }

  /** The engine's own test of the desired size is about the sum of the queued sizes. */
  lemma PullDemand(s: Stream)
    requires Inv(s)
    ensures MayPull(s) <==> s.started && s.hasPull && s.phase.Readable? && !s.closeRequested
    ensures s.phase.Readable? ==>
              (Demand(s) <==> s.requests != [] || s.highWaterMark.Unlimited? || Total(s.queue) < s.highWaterMark.limit)
    ensures MayPull(s) && Demand(s) ==> s.pullCalls == s.pullEnds + 1
    ensures s.pullEnds <= s.pullCalls <= s.pullEnds + 1
  {
    hide History, Total;
  }

  /** A view handed back holds whole elements, fits the reader's buffer, and meets the minimum
      unless the stream ended. */
  lemma ViewsAreWhole(autoAllocate: nat, highWaterMark: Mark, hasPull: bool, events: seq<Event>, i: nat)
    requires var s := Reached(true, autoAllocate, highWaterMark, hasPull, events);
             i < |s.settled| && s.settled[i].Answered? && s.settled[i].request.PullInto?
    ensures var s := Reached(true, autoAllocate, highWaterMark, hasPull, events);
            var a := s.settled[i];
            && a.request.elementSize > 0
            && |a.items| % a.request.elementSize == 0
            && |a.items| <= a.request.byteLength
            && (|a.items| < a.request.minimum ==> a.done && s.phase.Closed?)
  {
    var s := Reached(true, autoAllocate, highWaterMark, hasPull, events);
    assert WholeAnswer(s.phase, s.byteStream, s.settled[i]);
    hide Reached, Sound, Served, Ordered, Conserved, AllWhole;
  }
}
