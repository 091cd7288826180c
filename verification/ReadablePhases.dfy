/** How a stream opens, ends and refuses: what each call does to the fields that decide it, in terms
    of the fields before the call and of its arguments. */
module ReadablePhases {
  import opened Options
  import opened Multiples
  import opened ReadableModel
  import opened ReadableInvariants
  import opened ReadableSteps
  import opened ReadableAdvances
  import opened ReadableRuns
  import opened ReadableSignals
  import opened ReadableReads

  // ---- streams that take data -----------------------------------------------

  /** The stream takes data. */
  predicate Open(s: Stream) {
    s.phase.Readable? && !s.closeRequested
  }

  lemma EnqueueBytesAccepts(s: Stream, value: seq<Item>)
    requires Inv(s) && Open(s) && s.byteStream && value != []
    ensures var c := EnqueueBytes(s, value);
            c.thrown.None? && c.stream.byteStream && Open(c.stream)
  {
    ReceiveBytesKeeps(s, value);
    var t := ReceiveBytes(s, value);
    assert Open(t) && t.byteStream;
    hide Inv, DrainLoop, DrainByteQueue, Structure, History, Drainable, ReceiveBytes;
    DrainKeepsOpen(t);
    DrainedIsBytes(t);
  }

  lemma DrainedIsBytes(s: Stream)
    requires Structure(s) && s.byteStream
    ensures DrainLoop(s).byteStream
  {
    DrainLoopKeeps(s);
    hide DrainLoop, Structure, History;
  }

  /** Draining an open stream leaves it open. */
  lemma DrainKeepsOpen(s: Stream)
    requires Structure(s) && s.byteStream && Open(s)
    ensures DrainByteQueue(s) == Call(DrainLoop(s), None) && Open(DrainLoop(s))
  {
    DrainLoopKeeps(s);
    hide DrainLoop, Structure, History;
  }

  lemma StartKeepsOpen(s: Stream, request: Request)
    requires Inv(s) && s.reader.ByobReader? && s.byteStream && FreshInto(s, request) && Open(s)
    ensures Open(StartReadInto(s, request).stream)
  {
    var t := Joined(s, request);
    WaitIntoKeeps(s, request);
    WaitKeeps(s, request);
    StartReadIntoIs(s, request);
    assert Structure(t) && t.byteStream && Open(t) by {
      hide DrainByteQueue;
    }
    hide StartReadInto, DrainLoop, DrainByteQueue, Inv, Structure, History, Open, Joined, RequestPull;
    DrainKeepsOpen(t);
    PullKeepsOpen(DrainLoop(t));
  }

  lemma ReadIntoKeepsOpen(s: Stream, view: View, minimum: Minimum)
    requires Inv(s) && s.reader.ByobReader? && Open(s)
    ensures Open(ReadInto(s, view, minimum).stream)
  {
    if Refusal(s, view, minimum).None? {
      var request := NewPullInto(s, view, minimum);
      assert FreshInto(s, request);
      StartKeepsOpen(s, request);
      hide StartReadInto, NewPullInto, Inv;
    }
  }

  lemma PullKeepsOpen(s: Stream)
    requires Open(s)
    ensures Open(RequestPull(s)) && Open(PullResolved(s)) && Open(StartResolved(s))
    ensures RequestPull(s).byteStream == s.byteStream
  {
    hide Demand, MayPull;
  }

  lemma ReadKeepsOpen(s: Stream)
    requires AllShaped(s.requests) && Open(s)
    ensures Open(ReadFrom(s))
  {
    hide CloseReadable, AllShaped, RequestPull;
    if s.queue != [] {
      PullKeepsOpen(TakeEntry(s));
    } else {
      ReadFromWaitingIs(s);
      PullKeepsOpen(Joined(s, NewRead(s)));
      hide ReadFrom;
    }
  }

  lemma LockKeepsOpen(s: Stream, kind: Reader)
    requires Open(s)
    ensures Open(AcquireReader(s, kind).stream) && Open(ReleaseLock(s).stream)
  {
  }

  lemma PromisesKeepOpen(s: Stream, e: Event)
    requires Inv(s) && (e.StartFulfilled? || e.PullFulfilled?) && Open(s)
    ensures Open(Step(s, e))
  {
    PullKeepsOpen(s);
    hide Inv, StartResolved, PullResolved;
  }

  lemma ReaderKeepsOpen(s: Stream, e: Event)
    requires Inv(s) && (e.GetReader? || e.ReleaseReader? || e.Read? || e.ReadView?) && Open(s)
    ensures Open(Step(s, e))
  {
    assert AllShaped(s.requests);
    hide Inv, Open, AllShaped, AcquireReader, ReleaseLock, ReadFrom, ReadInto;
    match e {
      case GetReader(byob) => LockKeepsOpen(s, if byob then ByobReader else DefaultReader);
      case ReleaseReader => LockKeepsOpen(s, NoReader);
      case Read => ReadKeepsOpen(s);
      case ReadView(view, minimum) => if s.reader.ByobReader? { ReadIntoKeepsOpen(s, view, minimum); }
    }
  }

  // ---- one buffer and the queue ---------------------------------------------

  /** How many bytes a buffer with `filled` bytes is answered with from the queue: it takes whole
      entries until its minimum is met, and of the last one the elements that fit. */
  function AnswerSize(queue: seq<Entry>, filled: nat, r: Request): nat
    requires r.PullInto? && r.Shaped() && filled < r.minimum && filled + |Contents(queue)| >= r.minimum
    decreases |queue|
  {
    var reach := filled + |queue[0].Rest()|;
    if reach < r.minimum then AnswerSize(queue[1..], reach, r) else Cutoff(r, reach)
  }

  /** Of `reach` bytes, the whole elements that fit the buffer. */
  function Cutoff(r: Request, reach: nat): (n: nat)
    requires r.PullInto? && r.Shaped()
    ensures n <= reach
  {
    RemainderBound(reach, r.elementSize);
    if reach > r.byteLength then r.byteLength else reach - reach % r.elementSize
  }

  lemma {:induction false} AnswerFits(queue: seq<Entry>, filled: nat, r: Request)
    requires r.PullInto? && r.Shaped() && filled < r.minimum && filled + |Contents(queue)| >= r.minimum
    ensures r.minimum <= AnswerSize(queue, filled, r) <= filled + |Contents(queue)|
    ensures AnswerSize(queue, filled, r) <= r.byteLength && AnswerSize(queue, filled, r) % r.elementSize == 0
    decreases |queue|
  {
    var reach := filled + |queue[0].Rest()|;
    if reach < r.minimum {
      AnswerFits(queue[1..], reach, r);
    } else if reach <= r.byteLength {
      AlignedFloor(reach, r.minimum, r.elementSize);
      RemainderBound(reach, r.elementSize);
    }
  }

  /** What one copy moves, exactly. */
  lemma FillExactly(r: Request, available: nat)
    requires r.PullInto? && r.Waiting()
    ensures |r.filled| + FillCount(r, available)
         == var reach := |r.filled| + available; if reach < r.minimum then reach else Cutoff(r, reach)
  {
  }

  lemma Cut(filled: seq<Item>, rest: seq<Item>, more: seq<Item>, used: nat, contents: seq<Item>,
            grown: seq<Item>, left: seq<Item>)
    requires used <= |rest| && contents == rest + more && grown == filled + rest[..used] && left == rest[used..] + more
    ensures |filled| + used <= |filled + contents|
    ensures grown == (filled + contents)[..|filled| + used] && left == (filled + contents)[|filled| + used..]
  {
  }

  lemma EntryPieces(entry: Entry, used: nat)
    requires entry.Fits(true) && used <= |entry.value| - entry.offset
    ensures |entry.Rest()| == |entry.value| - entry.offset
    ensures entry.Rest()[..used] == entry.value[entry.offset..entry.offset + used]
    ensures entry.Rest()[used..] == entry.value[entry.offset + used..]
  {
  }

  lemma CopyParts(s: Stream, used: nat)
    requires Drainable(s) && s.queue != [] && HasPullInto(s)
    ensures s.queue[0].Fits(true) && s.requests[0].Waiting()
    ensures used == FillCount(s.requests[0], |s.queue[0].value| - s.queue[0].offset) ==>
              var t := CopyHead(s);
              && t.settled == s.settled && t.queue == Advance(s.queue, used)
              && t.requests == [Copied(s.requests[0], s.queue[0])] + s.requests[1..]
  {
    hide FillCount, Advance;
  }

  lemma ContentsOf(queue: seq<Entry>)
    requires queue != []
    ensures Contents(queue) == queue[0].Rest() + Contents(queue[1..])
  {
  }

  /** The copied bytes and those that are left are a cut of the buffer's bytes and the queue's. */
  lemma FirstPieces(r: Request, queue: seq<Entry>, n: nat)
    requires r.PullInto? && r.Waiting() && queue != [] && queue[0].Fits(true)
    requires n == |r.filled| + FillCount(r, |queue[0].Rest()|)
    ensures var all, used := r.filled + Contents(queue), FillCount(r, |queue[0].value| - queue[0].offset);
            && n <= |r.filled| + |queue[0].Rest()| && n <= |all|
            && Copied(r, queue[0]) == r.(filled := all[..n])
            && Contents(Advance(queue, used)) == all[n..]
  {
    hide Copied, FillCount, Contents, Advance;
    var entry, rest := queue[0], queue[0].Rest();
    var used := FillCount(r, |entry.value| - entry.offset);
    EntryPieces(entry, used);
    CopiedShape(r, entry);
    CopiedPiece(r, entry, Copied(r, entry), used);
    ContentsOf(queue);
    AdvancedContents(queue, used);
    var grown, left := Copied(r, entry).filled, Contents(Advance(queue, used));
    Cut(r.filled, rest, Contents(queue[1..]), used, Contents(queue), grown, left);
  }

  lemma CopiedShape(r: Request, entry: Entry)
    requires r.PullInto? && r.Waiting() && entry.Fits(true)
    ensures Copied(r, entry) == r.(filled := Copied(r, entry).filled)
    ensures |Copied(r, entry).filled| == |r.filled| + FillCount(r, |entry.value| - entry.offset)
  {
    hide FillCount;
  }

  /** The bytes of the first copy, and those that are left. */
  lemma FirstCopy(s: Stream, n: nat)
    requires Drainable(s) && s.queue != [] && HasPullInto(s)
    requires n == |s.requests[0].filled| + FillCount(s.requests[0], |s.queue[0].Rest()|)
    ensures var r, t, all := s.requests[0], CopyHead(s), s.requests[0].filled + Contents(s.queue);
            && n <= |r.filled| + |s.queue[0].Rest()| && n <= |all|
            && t.settled == s.settled && t.requests == [r.(filled := all[..n])] + s.requests[1..]
            && Contents(t.queue) == all[n..]
  {
    var r, entry := s.requests[0], s.queue[0];
    CopyParts(s, FillCount(r, |s.queue[0].value| - s.queue[0].offset));
    FirstPieces(r, s.queue, n);
    hide FillCount, Copied, Contents, Advance, CopyHead, AllFit, AllWaiting;
  }

  /** The whole entry went into the buffer, which waits on. */
  predicate WaitsOn(s: Stream, t: Stream)
    requires s.queue != [] && HasPullInto(s)
  {
    var r := s.requests[0];
    t.queue == s.queue[1..] && t.settled == s.settled && t.requests == [r.(filled := r.filled + s.queue[0].Rest())]
  }

  /** The buffer was answered with `n` bytes: what it had, and then the first ones of the queue. */
  predicate AnswersWith(s: Stream, t: Stream, n: nat)
    requires HasPullInto(s)
  {
    var r, all := s.requests[0], s.requests[0].filled + Contents(s.queue);
    && n <= |all| && t.requests == []
    && t.settled == s.settled + [Answered(r.(filled := all[..n]), all[..n], false)]
    && Contents(t.queue) == all[n..]
  }

  lemma CopyWaits(s: Stream)
    requires Drainable(s) && s.queue != [] && |s.requests| == 1 && HasPullInto(s)
    requires |s.requests[0].filled| + |s.queue[0].Rest()| < s.requests[0].minimum
    ensures FillHead(s) == CopyHead(s) && WaitsOn(s, CopyHead(s))
  {
    var r, entry := s.requests[0], s.queue[0];
    assert entry.Fits(true) && r.Waiting();
    FillExactly(r, |entry.Rest()|);
    assert entry.value[entry.offset..|entry.value|] == entry.Rest();
    hide FillCount;
  }

  lemma MeetsMinimum(r: Request, available: nat, n: nat)
    requires r.PullInto? && r.Waiting() && |r.filled| + available >= r.minimum && n == Cutoff(r, |r.filled| + available)
    ensures r.minimum <= n && n == |r.filled| + FillCount(r, available)
  {
    if |r.filled| + available <= r.byteLength {
      AlignedFloor(|r.filled| + available, r.minimum, r.elementSize);
    }
    FillExactly(r, available);
    hide FillCount;
  }

  lemma FinishAnswers(s: Stream, t: Stream, n: nat)
    requires HasPullInto(s) && n <= |s.requests[0].filled + Contents(s.queue)| && t.settled == s.settled
    requires t.requests == [s.requests[0].(filled := (s.requests[0].filled + Contents(s.queue))[..n])]
    requires Contents(t.queue) == (s.requests[0].filled + Contents(s.queue))[n..]
    ensures AnswersWith(s, FinishPullInto(t, false), n)
  {
    hide Contents;
  }

  lemma CopyAnswers(s: Stream, n: nat)
    requires Drainable(s) && s.queue != [] && |s.requests| == 1 && HasPullInto(s) && s.requests[0].Waiting()
    requires |s.requests[0].filled| + |s.queue[0].Rest()| >= s.requests[0].minimum
    requires n == Cutoff(s.requests[0], |s.requests[0].filled| + |s.queue[0].Rest()|)
    ensures AnswersWith(s, FillHead(s), n)
  {
    var r := s.requests[0];
    MeetsMinimum(r, |s.queue[0].Rest()|, n);
    FirstCopy(s, n);
    var t := CopyHead(s);
    assert t.requests[0] == r.(filled := (r.filled + Contents(s.queue))[..n]);
    hide CopyHead, FillCount, Contents, Cutoff, AllWaiting, AllFit, AnswersWith;
    assert t.requests == [t.requests[0]];
    FinishAnswers(s, t, n);
    hide FinishPullInto;
  }

  lemma AnswersOn(s: Stream, u: Stream, t: Stream, n: nat)
    requires s.queue != [] && HasPullInto(s) && WaitsOn(s, u) && AnswersWith(u, t, n)
    ensures AnswersWith(s, t, n)
  {
    TakenOver(s.requests[0].filled, s.queue);
    hide Contents;
  }

  lemma TakenOver(filled: seq<Item>, queue: seq<Entry>)
    requires queue != []
    ensures filled + Contents(queue) == filled + queue[0].Rest() + Contents(queue[1..])
  {
    Associate(filled, queue[0].Rest(), Contents(queue[1..]));
  }

  lemma AllWaits(s: Stream, u: Stream, t: Stream, all: seq<Item>)
    requires s.queue != [] && HasPullInto(s) && WaitsOn(s, u) && all == s.requests[0].filled + Contents(s.queue)
    requires t.settled == u.settled && t.requests == [u.requests[0].(filled := u.requests[0].filled + Contents(u.queue))]
    ensures t.settled == s.settled && t.requests == [s.requests[0].(filled := all)]
  {
    TakenOver(s.requests[0].filled, s.queue);
    hide Contents;
  }

  lemma WaitsFacts(s: Stream, u: Stream)
    requires s.queue != [] && HasPullInto(s) && WaitsOn(s, u)
    ensures |u.requests| == 1 && HasPullInto(u) && |u.queue| < |s.queue| && Ask(u.requests[0]) == Ask(s.requests[0])
    ensures |u.requests[0].filled| == |s.requests[0].filled| + |s.queue[0].Rest()| && u.queue == s.queue[1..]
    ensures |u.requests[0].filled| + |Contents(u.queue)| == |s.requests[0].filled| + |Contents(s.queue)|
  {
    TakenOver(s.requests[0].filled, s.queue);
    hide Contents;
  }

  /** What the drain does with one waiting buffer. */
  predicate DrainsOne(s: Stream, t: Stream)
    requires HasPullInto(s) && s.requests[0].Waiting()
  {
    var r := s.requests[0];
    var all := r.filled + Contents(s.queue);
    if |all| < r.minimum then t.queue == [] && t.settled == s.settled && t.requests == [r.(filled := all)]
    else AnswersWith(s, t, AnswerSize(s.queue, |r.filled|, Ask(r)))
  }

  lemma DrainsOn(s: Stream, u: Stream, t: Stream)
    requires s.queue != [] && HasPullInto(s) && s.requests[0].Waiting() && WaitsOn(s, u)
    requires HasPullInto(u) && u.requests[0].Waiting() && DrainsOne(u, t)
    ensures DrainsOne(s, t)
  {
    var r, all := s.requests[0], s.requests[0].filled + Contents(s.queue);
    WaitsFacts(s, u);
    if |all| < r.minimum {
      hide AnswersWith, AnswerSize;
      AllWaits(s, u, t, all);
    } else {
      assert AnswerSize(s.queue, |r.filled|, Ask(r)) == AnswerSize(u.queue, |u.requests[0].filled|, Ask(r));
      hide AnswerSize;
      AnswersOn(s, u, t, AnswerSize(u.queue, |u.requests[0].filled|, Ask(r)));
    }
    hide Contents, WaitsOn, AnswersWith;
  }

  lemma AnsweredEmpties(s: Stream, t: Stream, n: nat)
    requires HasPullInto(s) && AnswersWith(s, t, n)
    ensures t.requests == []
  {
    hide Contents;
  }

  lemma AtOnceSize(queue: seq<Entry>, r: Request)
    requires r.PullInto? && r.Waiting() && queue != [] && |r.filled| + |queue[0].Rest()| >= r.minimum
    ensures |r.filled| + |Contents(queue)| >= r.minimum
    ensures AnswerSize(queue, |r.filled|, Ask(r)) == Cutoff(r, |r.filled| + |queue[0].Rest()|)
  {
    ContentsOf(queue);
    hide Contents;
  }

  lemma DrainsAtOnce(s: Stream)
    requires Drainable(s) && s.queue != [] && |s.requests| == 1 && HasPullInto(s) && s.requests[0].Waiting()
    requires |s.requests[0].filled| + |s.queue[0].Rest()| >= s.requests[0].minimum
    ensures DrainsOne(s, FillHead(s)) && FillHead(s).requests == []
  {
    hide Contents, FillHead, Cutoff, AnswersWith, AllFit, AllWaiting;
    var r := s.requests[0];
    var n := Cutoff(r, |r.filled| + |s.queue[0].Rest()|);
    CopyAnswers(s, n);
    AnsweredEmpties(s, FillHead(s), n);
    TakenOver(r.filled, s.queue);
    AtOnceSize(s.queue, r);
  }

  /** The whole drain for one waiting buffer. */
  lemma {:induction false} DrainOne(s: Stream)
    requires Drainable(s) && |s.requests| == 1 && HasPullInto(s)
    ensures s.requests[0].Waiting() && DrainsOne(s, DrainLoop(s))
    decreases |s.queue|
  {
    var r := s.requests[0];
    assert r.Waiting();
    if s.queue == [] {
      assert r.filled + [] == r.filled && r.(filled := r.filled) == r && Contents([]) == [];
      hide AnswerSize;
    } else {
      var u := FillHead(s);
      DrainStepProgress(s);
      assert DrainStep(s) == u;
      assert DrainLoop(s) == DrainLoop(u);
      hide Contents, Drainable, FillHead, DrainStep, WaitsOn, DrainsOne;
      if |r.filled| + |s.queue[0].Rest()| < r.minimum {
        CopyWaits(s);
        WaitsFacts(s, u);
        DrainOne(u);
        DrainsOn(s, u, DrainLoop(u));
      } else {
        DrainsAtOnce(s);
        assert DrainLoop(u) == u;
      }
    }
  }

  // ---- flags ----------------------------------------------------------------

  /** The fields that decide what a stream still does. */
  datatype Flags = Flags(phase: Phase, started: bool, closeRequested: bool, reader: Reader, cancelled: bool)

  function FlagsOf(s: Stream): Flags {
    Flags(s.phase, s.started, s.closeRequested, s.reader, s.cancelled)
  }

  /** The head buffer holds a partial element. */
  predicate Partial(s: Stream) {
    s.requests != [] && s.requests[0].PullInto? && s.requests[0].elementSize > 0
    && |s.requests[0].filled| % s.requests[0].elementSize != 0
  }

  /** What the last data of a closing stream does for a read with a buffer: too little for its
      minimum errors the stream, and taking all of it closes it. */
  function AfterLastRead(queue: seq<Entry>, ask: Request): Phase
    requires ask.PullInto? && ask.Shaped() && ask.filled == []
  {
    if |Contents(queue)| < ask.minimum then Errored(EndedBelowMinimum)
    else if AnswerSize(queue, 0, ask) == |Contents(queue)| then Closed
    else Readable
  }

  /** The only ways out of the readable phase. */
  function PhaseAfter(s: Stream, e: Event): Phase {
    if !s.phase.Readable? then s.phase
    else
      match e
      case StartRejected(reason) => Errored(reason)
      case PullFailed(reason) => if s.pullCalls > s.pullEnds then Errored(reason) else Readable
      case SourceError(reason) => Errored(reason)
      case SourceEnqueue(chunk) =>
        if s.byteStream || s.closeRequested || s.requests != [] then Readable
        else if chunk.size.Raises? then Errored(chunk.size.reason)
        else if chunk.size.NotANumber? || chunk.size.amount < 0.0 then Errored(BadChunkSize)
        else Readable
      case SourceClose =>
        if s.closeRequested || s.queue != [] then Readable
        else if Partial(s) then Errored(ClosedMidElement)
        else Closed
      case Read => if s.reader.DefaultReader? && s.closeRequested && |s.queue| == 1 then Closed else Readable
      case ReadView(view, minimum) =>
        if s.reader.ByobReader? && s.byteStream && s.closeRequested && Acceptable(view, minimum) then
          AskShaped(s, view, minimum);
          AfterLastRead(s.queue, BufferAsk(s, view, minimum))
        else Readable
      case Cancel => Closed
      case _ => Readable
  }

  lemma AskShaped(s: Stream, view: View, minimum: Minimum)
    requires Acceptable(view, minimum)
    ensures BufferAsk(s, view, minimum).Shaped()
  {
    NeedFits(view, minimum);
    MultipleModulo(view.elements, view.elementSize);
    MultipleModulo(if minimum.Whole? then minimum.elements else 1, view.elementSize);
  }

  /** A lock is taken only on an unlocked stream, by a reader of a kind the stream has, and given up
      only while no read waits. */
  function ReaderAfter(s: Stream, e: Event): Reader {
    match e
    case GetReader(byob) =>
      if s.reader.NoReader? && (byob ==> s.byteStream) then (if byob then ByobReader else DefaultReader) else s.reader
    case ReleaseReader => if s.requests == [] then NoReader else s.reader
    case _ => s.reader
  }

  function FlagsAfter(s: Stream, e: Event): Flags {
    Flags(PhaseAfter(s, e),
          s.started || e.StartFulfilled?,
          s.closeRequested || (e.SourceClose? && s.phase.Readable?),
          ReaderAfter(s, e),
          s.cancelled || (e.Cancel? && s.phase.Readable?))
  }

  // ---- flags of the inner operations ----------------------------------------

  lemma ErrorFlags(s: Stream, reason: Reason)
    ensures FlagsOf(ErrorReadable(s, reason))
         == if s.phase.Readable? then FlagsOf(s).(phase := Errored(reason)) else FlagsOf(s)
  {
    hide FailedAll;
  }

  lemma EndReadsFlags(s: Stream)
    ensures FlagsOf(EndReads(s)) == FlagsOf(s).(phase := Closed)
  {
    hide FinishedAll;
  }

  lemma CloseFlags(s: Stream)
    requires AllShaped(s.requests)
    ensures FlagsOf(CloseReadable(s).stream)
         == if !s.phase.Readable? then FlagsOf(s)
            else FlagsOf(s).(phase := if Partial(s) then Errored(ClosedMidElement) else Closed)
    ensures CloseReadable(s).thrown == if s.phase.Readable? && Partial(s) then Some(ClosedMidElement) else None
  {
    hide FinishedAll, FailedAll;
    if !s.phase.Readable? {
    } else if MidElement(s) {
      ErrorFlags(s, ClosedMidElement);
      hide ErrorReadable;
    } else if HoldsReaderBuffer(s) {
    } else {
      EndReadsFlags(s);
      hide EndReads;
    }
  }

  lemma PullFlags(s: Stream)
    ensures FlagsOf(RequestPull(s)) == FlagsOf(s) && FlagsOf(PullResolved(s)) == FlagsOf(s)
  {
    hide Demand, MayPull;
  }

  lemma LoopFlags(s: Stream)
    requires Structure(s) && s.byteStream
    ensures FlagsOf(DrainLoop(s)) == FlagsOf(s)
  {
    DrainLoopKeeps(s);
    DrainLoopSamePhase(s);
    hide DrainLoop, Structure, History;
  }

  /** Draining an open stream changes no flag. */
  lemma OpenDrainFlags(s: Stream)
    requires Structure(s) && s.byteStream && Open(s)
    ensures DrainByteQueue(s).thrown.None? && FlagsOf(DrainByteQueue(s).stream) == FlagsOf(s)
  {
    DrainKeepsOpen(s);
    LoopFlags(s);
    hide DrainByteQueue, DrainLoop, Structure;
  }

  lemma EnqueueBytesFlags(s: Stream, bytes: seq<Item>)
    requires Inv(s) && Open(s) && s.byteStream && bytes != []
    ensures EnqueueBytes(s, bytes).thrown.None? && FlagsOf(EnqueueBytes(s, bytes).stream) == FlagsOf(s)
  {
    ReceiveBytesKeeps(s, bytes);
    var t := ReceiveBytes(s, bytes);
    assert FlagsOf(t) == FlagsOf(s) && Open(t);
    hide Inv, DrainByteQueue, Structure, History, Drainable, ReceiveBytes, FlagsOf, Open;
    OpenDrainFlags(t);
    PullFlags(DrainByteQueue(t).stream);
    hide RequestPull;
  }

  lemma EnqueueChunkFlags(s: Stream, chunk: Incoming)
    requires Open(s) && !s.byteStream
    ensures FlagsOf(EnqueueChunk(s, chunk).stream) == FlagsAfter(s, SourceEnqueue(chunk))
    ensures EnqueueChunk(s, chunk).thrown
         == match PhaseAfter(s, SourceEnqueue(chunk)) case Errored(reason) => Some(reason) case _ => None
  {
    if s.requests != [] {
      PullFlags(AnswerChunk(s, chunk.item));
    } else if chunk.size.Raises? {
      ErrorFlags(s, chunk.size.reason);
    } else if chunk.size.NotANumber? || chunk.size.amount < 0.0 {
      ErrorFlags(s, BadChunkSize);
    } else {
      PullFlags(Push(s, Chunk(chunk.item, chunk.size.amount)));
    }
    hide RequestPull, ErrorReadable;
  }

  /** Exactly when `enqueue` is refused: by a stream that is closing or has ended, by a byte stream
      for anything but a non-empty view, and by the strategy's size, which errors the stream. */
  lemma EnqueueRefused(s: Stream, chunk: Incoming)
    requires Inv(s)
    ensures s.byteStream ==> Drainable(s)
    ensures var c := Enqueue(s, chunk);
            && (c.thrown.None? <==>
                  && s.phase.Readable? && !s.closeRequested
                  && (if s.byteStream then chunk.view.Some? && |chunk.view.value| > 0
                      else s.requests != [] || (chunk.size.Size? && chunk.size.amount >= 0.0)))
            && (c.thrown.Some? && (s.byteStream || s.closeRequested || !s.phase.Readable?) ==> c.stream == s)
            && FlagsOf(c.stream) == FlagsAfter(s, SourceEnqueue(chunk))
  {
    assert s.byteStream ==> Drainable(s);
    if Open(s) {
      if !s.byteStream {
        EnqueueChunkFlags(s, chunk);
      } else if chunk.view.Some? && chunk.view.value != [] {
        EnqueueBytesFlags(s, chunk.view.value);
      }
    }
    hide Inv, EnqueueBytes, EnqueueChunk, Drainable;
  }

  /** Exactly when `close` is refused, and what it does otherwise: a queue postpones it, a partial
      element makes it fail, and else the stream is closed. */
  lemma CloseRefused(s: Stream)
    requires Inv(s)
    ensures AllShaped(s.requests)
    ensures var c := ControllerClose(s);
            && (c.thrown == Some(CannotClose) <==> s.closeRequested || !s.phase.Readable?)
            && (c.thrown == Some(CannotClose) ==> c.stream == s)
            && (c.thrown == Some(ClosedMidElement) <==> Open(s) && s.queue == [] && Partial(s))
            && (c.thrown.Some? ==> c.thrown == Some(CannotClose) || c.thrown == Some(ClosedMidElement))
            && (Open(s) && s.queue != [] ==> c.stream == s.(closeRequested := true))
            && FlagsOf(c.stream) == FlagsAfter(s, SourceClose)
  {
    assert AllShaped(s.requests);
    CloseFlags(s.(closeRequested := true));
    hide CloseReadable, Inv, AllShaped;
  }

  // ---- answering the source's request ---------------------------------------

  lemma AfterReceiveFlags(s: Stream)
    requires Buffers(s) && History(s) && HasPullInto(s) && s.byteStream && s.queue == [] && !s.phase.Errored?
    requires s.phase.Readable? ==> !s.closeRequested
    ensures AfterReceive(s).thrown.None? && FlagsOf(AfterReceive(s).stream) == FlagsOf(s)
  {
    if s.phase.Closed? {
      hide Buffers, History, ReturnedAll;
    } else if |s.requests[0].filled| < s.requests[0].minimum {
      PullFlags(s);
      hide RequestPull, Buffers, History;
    } else {
      RespondedKeeps(s);
      var t := FinishPullInto(CarryTail(s), false);
      CarriedFlags(s);
      hide CarryTail, FinishPullInto, Buffers, History, Structure, DrainByteQueue, FlagsOf;
      OpenDrainFlags(t);
      PullFlags(DrainByteQueue(t).stream);
      hide RequestPull;
    }
  }

  lemma CarriedTailFlags(s: Stream)
    requires HasPullInto(s) && s.requests[0].Shaped() && AllFit(s.queue, true)
    ensures FlagsOf(CarryTail(s)) == FlagsOf(s)
  {
    hide AllFit;
    if |s.requests[0].filled| % s.requests[0].elementSize == 0 {
    } else {
    }
  }

  lemma CarriedFlags(s: Stream)
    requires HasPullInto(s) && s.requests[0].Shaped() && AllFit(s.queue, true)
    ensures FlagsOf(FinishPullInto(CarryTail(s), false)) == FlagsOf(s)
    ensures Open(FinishPullInto(CarryTail(s), false)) <==> Open(s)
  {
    var t := CarryTail(s);
    CarriedTailFlags(s);
    hide CarryTail, AllFit;
  }

  lemma RespondFlags(s: Stream, bytes: seq<Item>)
    requires Inv(s) && HasPullInto(s) && |bytes| <= s.requests[0].byteLength - |s.requests[0].filled|
    requires s.phase.Closed? ==> bytes == []
    ensures Drainable(s) && RespondPullInto(s, bytes).thrown.None?
    ensures FlagsOf(RespondPullInto(s, bytes).stream) == FlagsOf(s)
  {
    ReceiveReady(s, bytes);
    assert Drainable(s) && FlagsOf(Receive(s, bytes)) == FlagsOf(s);
    assert s.phase.Readable? ==> !s.closeRequested;
    hide Inv, Buffers, History, AfterReceive, AllFit, AllWaiting;
    AfterReceiveFlags(Receive(s, bytes));
    hide Receive;
  }

  /** Exactly when `respond` is refused: without an active request, with a detached buffer, for a
      count that is no size of the rest of the view, and for zero bytes while the stream is open. */
  lemma RespondRefused(s: Stream, count: Option<int>, detached: bool, memory: nat -> Item)
    requires Inv(s)
    ensures (s.byobRequest.Some? ==> HasPullInto(s)) && (HasPullInto(s) ==> Drainable(s))
    ensures var c := Respond(s, count, detached, memory);
            && (c.thrown.None? <==>
                  && s.byobRequest.Some? && !detached && count.Some?
                  && 0 <= count.value <= s.requests[0].byteLength - |s.requests[0].filled|
                  && (count.value == 0 <==> s.phase.Closed?))
            && (c.thrown.Some? ==> c.stream == s)
            && FlagsOf(c.stream) == FlagsOf(s)
  {
    Answerable(s);
    if s.byobRequest.Some? && !detached && count.Some?
       && 0 <= count.value <= s.requests[0].byteLength - |s.requests[0].filled|
       && (count.value == 0 <==> s.phase.Closed?) {
      RespondFlags(s, seq(count.value, memory));
    }
    hide Inv, RespondPullInto, Drainable;
  }

  lemma Answerable(s: Stream)
    requires Inv(s)
    ensures (s.byobRequest.Some? ==> HasPullInto(s)) && (HasPullInto(s) ==> Drainable(s))
  {
    assert s.requests != [] ==> Admitted(Admits(s), s.requests[0]);
    hide History;
  }

  /** Exactly when `respondWithNewView` is refused. */
  lemma NewViewRefused(s: Stream, view: Replacement, memory: nat -> Item)
    requires Inv(s)
    ensures (s.byobRequest.Some? ==> HasPullInto(s)) && (HasPullInto(s) ==> Drainable(s))
    ensures var c := RespondWithNewView(s, view, memory);
            && (c.thrown.None? <==>
                  && s.byobRequest.Some? && view.Replacement? && view.bufferLength > 0
                  && view.byteOffset == s.requests[0].byteOffset + |s.requests[0].filled|
                  && view.bufferLength == s.requests[0].bufferLength
                  && view.byteLength <= s.requests[0].byteLength - |s.requests[0].filled|
                  && (view.byteLength == 0 <==> s.phase.Closed?))
            && (c.thrown.Some? ==> c.stream == s)
            && FlagsOf(c.stream) == FlagsOf(s)
  {
    Answerable(s);
    if s.byobRequest.Some? && view.Replacement? && view.bufferLength > 0 && Covers(s.requests[0], view)
       && (view.byteLength == 0 <==> s.phase.Closed?) {
      RespondFlags(s, seq(view.byteLength, memory));
    }
    hide Inv, RespondPullInto, Drainable;
  }

  /** What a call of the source gives, in terms of its arguments: all it hands over, if it is accepted. */
  lemma GivesExactly(s: Stream, e: Event)
    requires Inv(s)
    ensures Gives(s, e) ==
            match e
            case SourceEnqueue(chunk) =>
              if !s.phase.Readable? || s.closeRequested then []
              else if s.byteStream then chunk.view.GetOr([])
              else if s.requests != [] || (chunk.size.Size? && chunk.size.amount >= 0.0) then [chunk.item]
              else []
            case SourceRespond(count, detached, memory) =>
              if s.byteStream && s.byobRequest.Some? && !detached && count.Some?
                 && 0 <= count.value <= s.requests[0].byteLength - |s.requests[0].filled|
                 && (count.value == 0 <==> s.phase.Closed?)
              then seq(count.value, memory)
              else []
            case SourceRespondWithView(view, memory) =>
              if s.byteStream && s.byobRequest.Some? && view.Replacement? && view.bufferLength > 0
                 && Covers(s.requests[0], view) && (view.byteLength == 0 <==> s.phase.Closed?)
              then seq(view.byteLength, memory)
              else []
            case _ => []
  {
    Answerable(s);
    match e {
      case SourceEnqueue(chunk) => EnqueueRefused(s, chunk);
      case SourceRespond(count, detached, memory) => RespondRefused(s, count, detached, memory);
      case SourceRespondWithView(view, memory) => NewViewRefused(s, view, memory);
      case _ =>
    }
    hide Inv, Enqueue, Respond, RespondWithNewView, Drainable;
  }

  // ---- the readers ----------------------------------------------------------

  lemma TakeFlags(s: Stream)
    requires Inv(s) && s.queue != []
    ensures AllShaped(s.requests)
    ensures FlagsOf(ReadFrom(s)) == FlagsOf(s).(phase := if s.closeRequested && |s.queue| == 1 then Closed else Readable)
  {
    assert AllShaped(s.requests) && s.phase.Readable? && s.requests == [];
    hide Inv, CloseReadable, RequestPull;
    var t := TakeEntry(s);
    assert t.requests == [] && FlagsOf(t) == FlagsOf(s) && |t.queue| == |s.queue| - 1;
    hide TakeEntry;
    CloseFlags(t);
    PullFlags(t);
  }

  lemma EndedReadFlags(s: Stream)
    requires AllShaped(s.requests) && s.queue == [] && !s.phase.Readable?
    ensures FlagsOf(ReadFrom(s)) == FlagsOf(s)
  {
    ReadFromEndedIs(s, if s.phase.Closed? then Finished(DefaultRead(s.nextId))
                       else Failed(DefaultRead(s.nextId), s.phase.storedError));
    hide ReadFrom;
  }

  lemma EmptyReadFlags(s: Stream)
    requires AllShaped(s.requests) && s.queue == []
    ensures FlagsOf(ReadFrom(s)) == FlagsOf(s)
  {
    hide FlagsOf, ReadFrom;
    if s.phase.Readable? {
      ReadFromWaitingIs(s);
      JoinedFlags(s, NewRead(s));
      PullFlags(Joined(s, NewRead(s)));
      hide RequestPull, Joined;
    } else {
      EndedReadFlags(s);
    }
  }

  lemma JoinedFlags(s: Stream, request: Request)
    ensures FlagsOf(Joined(s, request)) == FlagsOf(s)
  {
  }

  lemma ReadFlags(s: Stream)
    requires Inv(s) && s.reader.DefaultReader?
    ensures FlagsOf(Step(s, Read)) == FlagsAfter(s, Read)
  {
    assert AllShaped(s.requests) && (!s.phase.Readable? ==> s.queue == []) && Sound(s);
    if s.queue != [] {
      TakeFlags(s);
    } else {
      EmptyReadFlags(s);
    }
    hide Inv, Sound, ReadFrom, AllShaped;
  }

  /** The end of a drain on which nothing waits, or one buffer below its minimum. */
  lemma EndDrainFlags(s: Stream)
    requires AllShaped(s.requests) && s.closeRequested && s.phase.Readable? && s.queue == []
    ensures s.requests == [] ==> FlagsOf(EndDrain(s).stream) == FlagsOf(s).(phase := Closed)
    ensures HasPullInto(s) && 0 < |s.requests[0].filled| < s.requests[0].minimum ==>
              FlagsOf(EndDrain(s).stream) == FlagsOf(s).(phase := Errored(EndedBelowMinimum))
  {
    CloseFlags(s);
    ErrorFlags(s, EndedBelowMinimum);
    hide CloseReadable, ErrorReadable, AllShaped;
  }

  lemma LastReadFlags(s: Stream, request: Request)
    requires Structure(s) && s.byteStream && s.requests == [request] && request.PullInto? && request.filled == []
    requires s.closeRequested && s.phase.Readable? && s.queue != []
    ensures Drainable(s) && request.Shaped() && request.minimum > 0
    ensures FlagsOf(DrainByteQueue(s).stream) == FlagsOf(s).(phase := AfterLastRead(s.queue, request))
  {
    assert Drainable(s) && request.Waiting() && HasPullInto(s) && s.queue[0].Fits(true);
    assert Ask(request) == request && [] + Contents(s.queue) == Contents(s.queue);
    ContentsOf(s.queue);
    DrainOne(s);
    LoopFlags(s);
    DrainLoopKeeps(s);
    var t := DrainLoop(s);
    LastDrain(s, t);
    hide DrainLoop, Structure, History, Contents, AnswerSize, DrainsOne;
  }

  lemma NoContents(queue: seq<Entry>)
    requires AllFit(queue, true)
    ensures Contents(queue) == [] <==> queue == []
  {
    if queue != [] {
      assert queue[0].Fits(true);
    }
  }

  lemma LastDrain(s: Stream, t: Stream)
    requires HasPullInto(s) && |s.requests| == 1 && s.requests[0].Waiting() && s.requests[0].filled == [] && DrainsOne(s, t)
    requires |Contents(s.queue)| > 0 && FlagsOf(t) == FlagsOf(s) && s.closeRequested && s.phase.Readable?
    requires AllFit(t.queue, true) && AllShaped(t.requests)
    ensures FlagsOf(EndDrain(t).stream) == FlagsOf(s).(phase := AfterLastRead(s.queue, s.requests[0]))
  {
    var r := s.requests[0];
    assert Ask(r) == r && r.filled + Contents(s.queue) == Contents(s.queue);
    NoContents(t.queue);
    if t.queue == [] {
      EndDrainFlags(t);
    }
    hide Contents, AnswerSize, EndDrain, AllFit, AllShaped;
  }

  lemma JoinedReadFlags(s: Stream, request: Request)
    requires Inv(s) && s.byteStream && s.reader.ByobReader? && FreshInto(s, request) && s.phase.Readable?
    ensures request.Shaped() && Drainable(s)
    ensures FlagsOf(StartReadInto(s, request).stream)
         == FlagsOf(s).(phase := if s.closeRequested then AfterLastRead(s.queue, request) else Readable)
  {
    var t := Joined(s, request);
    WaitIntoKeeps(s, request);
    WaitKeeps(s, request);
    StartReadIntoIs(s, request);
    JoinedFlags(s, request);
    assert Drainable(s) && t.byteStream && t.queue == s.queue && t.requests == s.requests + [request];
    assert s.closeRequested ==> s.queue != [] && s.requests == [] && t.requests == [request];
    assert t.closeRequested == s.closeRequested && t.phase.Readable?;
    hide Inv, StartReadInto, DrainByteQueue, Structure, History, Joined, RequestPull, AfterLastRead, Drainable;
    if s.closeRequested {
      LastReadFlags(t, request);
    } else {
      OpenDrainFlags(t);
    }
    PullFlags(DrainByteQueue(t).stream);
  }

  lemma WaitingReadIntoFlags(s: Stream, request: Request)
    requires Inv(s) && s.byteStream && s.reader.ByobReader? && FreshInto(s, request)
    requires s.phase.Closed? && s.requests != []
    ensures Drainable(s) && FlagsOf(StartReadInto(s, request).stream) == FlagsOf(s)
  {
    var t := Joined(s, request);
    WaitIntoKeeps(s, request);
    WaitKeeps(s, request);
    StartReadIntoIs(s, request);
    JoinedFlags(s, request);
    assert Drainable(s) && t.byteStream && t.phase.Closed?;
    hide Inv, StartReadInto, DrainByteQueue, Structure, History, Joined, RequestPull, Drainable;
    ClosedDrainFlags(t);
    PullFlags(DrainByteQueue(t).stream);
  }

  lemma EndedReadIntoFlags(s: Stream, request: Request)
    requires Inv(s) && s.byteStream && s.reader.ByobReader? && FreshInto(s, request) && !s.phase.Readable?
    ensures Drainable(s) && FlagsOf(StartReadInto(s, request).stream) == FlagsOf(s)
  {
    assert Drainable(s);
    if s.phase.Closed? && s.requests != [] {
      WaitingReadIntoFlags(s, request);
      hide Inv, StartReadInto, Drainable;
    } else {
      hide Inv, DrainByteQueue, Drainable;
    }
  }

  lemma ClosedDrainFlags(s: Stream)
    requires Structure(s) && s.byteStream && s.phase.Closed?
    ensures FlagsOf(DrainByteQueue(s).stream) == FlagsOf(s)
  {
    LoopFlags(s);
    DrainLoopDrainable(s);
    CloseFlags(DrainLoop(s));
    ErrorFlags(DrainLoop(s), EndedBelowMinimum);
    hide DrainLoop, CloseReadable, ErrorReadable, Structure;
  }

  lemma ReadViewFlags(s: Stream, view: View, minimum: Minimum)
    requires Inv(s) && s.reader.ByobReader?
    ensures FlagsOf(Step(s, ReadView(view, minimum))) == FlagsAfter(s, ReadView(view, minimum))
  {
    if s.byteStream && Acceptable(view, minimum) {
      AcceptedViewFlags(s, view, minimum);
      hide ReadInto, AfterLastRead, BufferAsk;
    } else {
      RefusedAsks(s, view, minimum);
      hide ReadInto;
    }
    hide Inv, Acceptable;
  }

  lemma AcceptedViewFlags(s: Stream, view: View, minimum: Minimum)
    requires Inv(s) && s.reader.ByobReader? && s.byteStream && Acceptable(view, minimum)
    ensures Drainable(s) && BufferAsk(s, view, minimum).Shaped()
    ensures FlagsOf(ReadInto(s, view, minimum).stream)
         == FlagsOf(s).(phase := if s.phase.Readable? && s.closeRequested
                                 then AfterLastRead(s.queue, BufferAsk(s, view, minimum)) else s.phase)
  {
    var request := BufferAsk(s, view, minimum);
    AskShaped(s, view, minimum);
    RefusedExactly(s, view, minimum);
    assert FreshInto(s, request);
    assert Drainable(s);
    hide StartReadInto, AfterLastRead, Inv, BufferAsk, NewPullInto, Acceptable, Refusal;
    if s.phase.Readable? {
      JoinedReadFlags(s, request);
    } else {
      EndedReadIntoFlags(s, request);
    }
    hide FlagsOf, Drainable;
  }

  lemma CancelFlags(s: Stream)
    requires AllShaped(s.requests)
    ensures FlagsOf(CancelReadable(s))
         == if s.phase.Readable? then FlagsOf(s).(phase := Closed, cancelled := true) else FlagsOf(s)
  {
    if s.phase.Readable? {
      CancelIs(s);
      hide CancelReadable, FinishedAll, AllShaped;
    } else {
      hide CloseReadable, AllShaped;
    }
  }

  lemma AcquireFlags(s: Stream, byob: bool)
    ensures FlagsOf(AcquireReader(s, if byob then ByobReader else DefaultReader).stream)
         == FlagsOf(s).(reader := ReaderAfter(s, GetReader(byob)))
  {
  }

  lemma ReleaseFlags(s: Stream)
    requires Inv(s)
    ensures FlagsOf(ReleaseLock(s).stream) == FlagsOf(s).(reader := ReaderAfter(s, ReleaseReader))
  {
    if s.reader.NoReader? {
      UnlockedHasNoReads(s);
    }
    hide Inv;
  }

  lemma PullRejectedFlags(s: Stream, reason: Reason)
    ensures FlagsOf(PullRejected(s, reason)) == FlagsOf(ErrorReadable(s, reason))
  {
    PullRejectedIs(s, reason);
    hide ErrorReadable, PullRejected;
  }

  lemma StartFlags(s: Stream)
    ensures FlagsOf(StartResolved(s)) == FlagsOf(s).(started := true)
  {
    PullFlags(s.(started := true));
    hide RequestPull;
  }

  /** The source's view and its answers change none of the flags. */
  lemma AnswersLeaveFlags(s: Stream, e: Event)
    requires e.SourceByobRequest? || e.SourceRespond? || e.SourceRespondWithView?
    ensures FlagsAfter(s, e) == FlagsOf(s)
  {
  }

  lemma AnswerFlags(s: Stream, e: Event)
    requires Inv(s) && (e.SourceByobRequest? || e.SourceRespond? || e.SourceRespondWithView?)
    ensures FlagsOf(Step(s, e)) == FlagsOf(s)
  {
    assert Sound(s);
    Answerable(s);
    hide Inv, Sound, Drainable, Respond, RespondWithNewView, GetByobRequest, FlagsOf;
    match e {
      case SourceByobRequest => ByobFlags(s);
      case SourceRespond(count, detached, memory) => RespondRefused(s, count, detached, memory);
      case SourceRespondWithView(view, memory) => NewViewRefused(s, view, memory);
    }
  }

  lemma SourceFlags(s: Stream, e: Event)
    requires Inv(s) && OfSource(e)
    ensures FlagsOf(Step(s, e)) == FlagsAfter(s, e)
  {
    assert Sound(s) && AllShaped(s.requests) && (s.byteStream ==> Drainable(s));
    hide Inv, Sound, Drainable, Enqueue, ControllerClose, FlagsOf, FlagsAfter, AllShaped;
    if e.SourceEnqueue? {
      EnqueueRefused(s, e.chunk);
    } else if e.SourceClose? {
      CloseRefused(s);
    } else {
      AnswerFlags(s, e);
      AnswersLeaveFlags(s, e);
      hide Step;
    }
  }

  lemma PromiseFlags(s: Stream, e: Event)
    requires Inv(s) && (e.StartFulfilled? || e.StartRejected? || e.PullFulfilled? || e.PullFailed? || e.SourceError?)
    ensures FlagsOf(Step(s, e)) == FlagsAfter(s, e)
  {
    assert Sound(s);
    hide Inv, Sound, ErrorReadable, StartResolved, PullResolved, PullRejected, FlagsOf;
    match e {
      case StartFulfilled => StartFlags(s);
      case StartRejected(reason) => ErrorFlags(s, reason);
      case PullFulfilled => PullFlags(s);
      case PullFailed(reason) =>
        PullRejectedFlags(s, reason);
        ErrorFlags(s, reason);
      case SourceError(reason) => ErrorFlags(s, reason);
    }
    FlagsAre(s);
  }

  lemma FlagsAre(s: Stream)
    ensures FlagsOf(s) == Flags(s.phase, s.started, s.closeRequested, s.reader, s.cancelled)
  {
  }

  lemma ConsumerFlags(s: Stream, e: Event)
    requires Inv(s) && (e.GetReader? || e.ReleaseReader? || e.Read? || e.ReadView? || e.Cancel?)
    ensures FlagsOf(Step(s, e)) == FlagsAfter(s, e)
  {
    assert Sound(s) && AllShaped(s.requests);
    hide Inv, Sound, AllShaped, ReadFrom, ReadInto, CancelReadable, AfterLastRead, BufferAsk, Acceptable, AcquireReader,
      ReleaseLock;
    match e {
      case GetReader(byob) => AcquireFlags(s, byob);
      case ReleaseReader => ReleaseFlags(s);
      case Read => if s.reader.DefaultReader? { ReadFlags(s); }
      case ReadView(view, minimum) => if s.reader.ByobReader? { ReadViewFlags(s, view, minimum); }
      case Cancel => CancelFlags(s);
    }
  }

  /** Every step, from every state: the phase, whether the source has started or asked for the end,
      the lock and the cancellation change exactly as the arguments and the fields before it say. */
  lemma StepFlags(s: Stream, e: Event)
    requires Inv(s)
    ensures FlagsOf(Step(s, e)) == FlagsAfter(s, e)
  {
    hide Inv, Step, FlagsAfter;
    if OfSource(e) {
      SourceFlags(s, e);
    } else if e.StartFulfilled? || e.StartRejected? || e.PullFulfilled? || e.PullFailed? || e.SourceError? {
      PromiseFlags(s, e);
    } else {
      ConsumerFlags(s, e);
    }
  }

  // ---- the reader's closed promise ------------------------------------------

  lemma ReleaseClosed(s: Stream)
    requires Inv(s) && !s.reader.NoReader? && s.requests == []
    ensures Step(s, ReleaseReader).closed == if s.closed.Awaited? then Rejected(LockReleased) else s.closed
  {
    hide Inv;
  }

  lemma AcquireClosed(s: Stream, byob: bool)
    requires Inv(s) && s.reader.NoReader?
    ensures Step(s, GetReader(byob)).closed
         == if Step(s, GetReader(byob)).reader.NoReader? then s.closed else Announced(s.phase)
  {
    hide Inv;
  }

  /** Every step: `closed` of a new reader starts as the phase is, releasing the lock rejects it
      while it is open, an ended stream settles it, and once settled, or without a reader, it stays. */
  lemma StepClosed(s: Stream, e: Event)
    requires Inv(s) && Told(s)
    ensures Step(s, e).closed
         == if s.reader.NoReader? then (if Step(s, e).reader.NoReader? then s.closed else Announced(s.phase))
            else if Step(s, e).reader.NoReader? then (if s.closed.Awaited? then Rejected(LockReleased) else s.closed)
            else if s.closed.Awaited? then Announced(Step(s, e).phase)
            else s.closed
  {
    StepTells(s, e);
    StepFlags(s, e);
    if s.reader.NoReader? && e.GetReader? {
      AcquireClosed(s, e.byob);
    } else if !s.reader.NoReader? && e.ReleaseReader? && s.requests == [] {
      ReleaseClosed(s);
    } else {
      FlagsReader(s, e);
      if !s.phase.Readable? {
        FlagsPhase(s, e);
      }
    }
    hide Inv, Step, FlagsAfter;
  }

  lemma FlagsReader(s: Stream, e: Event)
    requires s.reader.NoReader? ==> !e.GetReader?
    requires e.ReleaseReader? && s.requests == [] ==> s.reader.NoReader?
    ensures FlagsAfter(s, e).reader == s.reader
  {
  }

  lemma FlagsPhase(s: Stream, e: Event)
    requires !s.phase.Readable?
    ensures FlagsAfter(s, e).phase == s.phase
  {
  }

  /** A view of the head buffer exists after the source asked for it, exactly if there is one. */
  lemma ByobFlags(s: Stream)
    ensures FlagsOf(GetByobRequest(s)) == FlagsOf(s)
    ensures s.requests != [] && s.requests[0].PullInto? ==> GetByobRequest(s).byobRequest.Some?
  {
  }

  // ---- what a read takes from the queue -------------------------------------

  /** No more whole elements would fit: the cut is the greatest. */
  lemma CutoffGreatest(r: Request, reach: nat, m: nat)
    requires r.PullInto? && r.Shaped() && m % r.elementSize == 0 && m <= reach && m <= r.byteLength
    ensures m <= Cutoff(r, reach) <= r.byteLength && Cutoff(r, reach) % r.elementSize == 0
  {
    AlignedFloor(reach, m, r.elementSize);
  }

  /** The answers and what is queued after a drain on which nothing waits. */
  lemma EndedDrain(t: Stream)
    requires AllShaped(t.requests) && t.requests == []
    ensures EndDrain(t).stream.settled == t.settled && EndDrain(t).stream.requests == []
    ensures EndDrain(t).stream.queue == t.queue
  {
    hide AllShaped;
    assert t.settled + FinishedAll([]) == t.settled;
    assert !HasPullInto(t);
  }

  lemma DrainedAnswer(s: Stream, request: Request)
    requires Structure(s) && s.byteStream && s.requests == [request] && request.PullInto? && request.filled == []
    requires |Contents(s.queue)| >= request.minimum
    ensures Drainable(s) && request.Shaped() && request.minimum > 0
    ensures var n, t := AnswerSize(s.queue, 0, request), DrainByteQueue(s).stream;
            && n <= |Contents(s.queue)| && t.requests == [] && Contents(t.queue) == Contents(s.queue)[n..]
            && t.settled == s.settled + [Answered(request.(filled := Contents(s.queue)[..n]), Contents(s.queue)[..n], false)]
  {
    assert Drainable(s) && request.Waiting() && HasPullInto(s);
    assert Ask(request) == request && [] + Contents(s.queue) == Contents(s.queue);
    DrainOne(s);
    DrainLoopDrainable(s);
    var t := DrainLoop(s);
    assert t.requests == [] && AllShaped(t.requests);
    EndedDrain(t);
    hide DrainLoop, Structure, Contents, AnswerSize, EndDrain, Drainable;
  }

  /** A read with a buffer that finds its minimum in the queue is answered at once: with whole
      entries until the minimum is met, and of the last one all the elements that fit. */
  lemma BufferReadTakesQueued(s: Stream, view: View, minimum: Minimum)
    requires Inv(s) && s.byteStream && s.reader.ByobReader? && Acceptable(view, minimum)
    requires |Contents(s.queue)| >= Need(view, minimum)
    ensures Drainable(s) && BufferAsk(s, view, minimum).Shaped() && BufferAsk(s, view, minimum).minimum > 0
    ensures var ask, bytes, t := BufferAsk(s, view, minimum), Contents(s.queue), ReadInto(s, view, minimum).stream;
            var n := AnswerSize(s.queue, 0, ask);
            && n <= |bytes| && t.requests == [] && Contents(t.queue) == bytes[n..]
            && t.settled == s.settled + [Answered(ask.(filled := bytes[..n]), bytes[..n], false)]
  {
    var request, t := BufferAsk(s, view, minimum), Joined(s, BufferAsk(s, view, minimum));
    AskShaped(s, view, minimum);
    NeedFits(view, minimum);
    RefusedExactly(s, view, minimum);
    FullQueue(s);
    WaitIntoKeeps(s, request);
    WaitKeeps(s, request);
    StartReadIntoIs(s, request);
    assert t.requests == [request] && t.queue == s.queue && t.settled == s.settled && t.byteStream;
    hide Inv, Structure, History, Joined, StartReadInto, NewPullInto, BufferAsk, DrainByteQueue, Contents, Acceptable,
      AnswerSize, Drainable;
    DrainedAnswer(t, request);
    PullLeavesData(DrainByteQueue(t).stream);
    hide RequestPull;
  }

  lemma FullQueue(s: Stream)
    requires Inv(s) && s.byteStream && |Contents(s.queue)| > 0
    ensures s.phase.Readable? && s.requests == [] && Drainable(s)
  {
    hide History;
  }

  lemma PullLeavesData(s: Stream)
    ensures RequestPull(s).queue == s.queue && RequestPull(s).requests == s.requests
    ensures RequestPull(s).settled == s.settled
  {
    hide Demand, MayPull;
  }

  /** A read without a buffer takes the whole head entry of the queue, at once. */
  lemma ReadTakesHead(s: Stream)
    requires Inv(s) && s.queue != []
    ensures AllShaped(s.requests)
    ensures var t := ReadFrom(s);
            && t.settled == s.settled + [Answered(DefaultRead(s.nextId), s.queue[0].Rest(), false)]
            && t.queue == s.queue[1..] && t.requests == []
  {
    assert AllShaped(s.requests) && s.requests == [] && s.phase.Readable?;
    hide Inv, AllShaped, CloseReadable, RequestPull;
    var t := TakeEntry(s);
    PullLeavesData(t);
    CloseNothing(t);
  }

  lemma CloseNothing(t: Stream)
    requires AllShaped(t.requests) && t.requests == [] && t.phase.Readable?
    ensures CloseReadable(t).stream.settled == t.settled && CloseReadable(t).stream.queue == t.queue
    ensures CloseReadable(t).stream.requests == []
  {
    hide AllShaped;
    assert t.settled + FinishedAll([]) == t.settled;
    assert !HasPullInto(t);
  }
}
