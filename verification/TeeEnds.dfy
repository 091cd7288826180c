/** How the end of the source reaches the branches of a tee, and how their demand reaches the source. */
module TeeEnds {
  import opened Options
  import opened ReadableModel
  import opened ReadableInvariants
  import opened ReadableSteps
  import opened ReadableAdvances
  import opened ReadableRuns
  import opened ReadablePhases
  import opened ReadableReads
  import opened TeeModel
  import opened TeeRuns
  import TeeSources

  // ---- a branch that ends ---------------------------------------------------

  /** Nobody waits at a closed branch. */
  predicate NobodyWaits(s: Stream) {
    s.phase.Closed? ==> s.requests == []
  }

  /** Once the source is done with, a branch that is not cancelled takes no more data. */
  predicate BranchEnds(s: Stream, canceled: bool, finished: bool) {
    NobodyWaits(s) && (finished && !canceled ==> !Open(s))
  }

  predicate Ends(t: Tee) {
    && BranchEnds(t.left, t.leftCanceled, t.sourceFinished)
    && BranchEnds(t.right, t.rightCanceled, t.sourceFinished)
  }

  /** Promises settled from this one on tell the reader that the stream is done. */
  predicate ToldDone(settled: seq<Settlement>, from: nat) {
    forall i | from <= i < |settled| :: settled[i].Finished? || (settled[i].Answered? && settled[i].done)
  }

  lemma EndedReadsAreTold(settled: seq<Settlement>, requests: seq<Request>)
    ensures ToldDone(settled + FinishedAll(requests), |settled|)
    ensures ToldDone(settled + ReturnedAll(requests), |settled|)
  {
  }

  /** Closing without a partial element: waiting reads are told at once, unless they hold the
      reader's own buffers, which go back with the response of zero bytes. */
  lemma ClosedThenAnswered(s: Stream)
    requires Inv(s) && Open(s) && s.queue == [] && !Partial(s)
    ensures var n := CloseBranch(s); n.phase.Closed? && n.requests == [] && ToldDone(n.settled, |s.settled|)
  {
    ControllerCloseKeeps(s);
    var t := s.(closeRequested := true);
    assert AllShaped(s.requests) && !MidElement(t);
    assert s.requests != [] ==> Admitted(Admits(s), s.requests[0]);
    assert HoldsReaderBuffer(t) ==> s.byteStream;
    var c := ControllerClose(s);
    assert c == CloseReadable(t);
    if HoldsReaderBuffer(t) {
      assert c.stream.requests == s.requests && c.stream.settled == s.settled && c.thrown.None?;
      ReturnedAfterClose(c.stream);
    } else {
      EndedReadsAreTold(s.settled, s.requests);
      assert c == Call(EndReads(t), None);
    }
    hide Inv, ControllerClose, CloseReadable, RespondPullInto, FinishedAll;
  }

  lemma ReturnedAfterClose(s: Stream)
    requires HasPullInto(s) && Drainable(s) && s.phase.Closed?
    ensures var n := RespondPullInto(s, []).stream;
            n.phase.Closed? && n.requests == [] && ToldDone(n.settled, |s.settled|)
  {
    var t := Receive(s, []);
    EndedReadsAreTold(t.settled, t.requests);
    hide ReturnedAll, Drainable, ToldDone;
  }

  /** What the end of the source does to an open branch: queued data comes first, a partial element
      is an error, and otherwise the branch is closed and every waiting read is told so. */
  lemma CloseBranchEnds(s: Stream)
    requires Inv(s) && Open(s)
    ensures var n := CloseBranch(s);
            if s.queue != [] then n == s.(closeRequested := true)
            else if Partial(s) then n.phase == Errored(ClosedMidElement)
            else n.phase.Closed? && n.requests == [] && ToldDone(n.settled, |s.settled|)
  {
    CloseRefused(s);
    if s.queue == [] && !Partial(s) {
      ClosedThenAnswered(s);
      hide CloseBranch, Inv;
    } else if s.queue != [] {
      assert s.requests == [];
      hide Inv, ControllerClose;
    } else {
      ErrorFlags(ControllerClose(s).stream, ClosedMidElement);
      hide Inv, ControllerClose, ErrorReadable;
    }
  }

  lemma CloseBranchKeepsEnds(s: Stream, canceled: bool)
    requires Inv(s) && Open(s)
    ensures BranchEnds(CloseBranch(s), canceled, true)
  {
    CloseBranchEnds(s);
    hide CloseBranch, Inv, ToldDone, Partial;
  }

  lemma ErrorBranchEnds(s: Stream, reason: Reason, canceled: bool)
    requires NobodyWaits(s)
    ensures BranchEnds(ErrorReadable(s, reason), canceled, true)
    ensures s.phase.Readable? ==> ErrorReadable(s, reason).phase == Errored(reason)
  {
    hide FailedAll;
  }

  // ---- what the consumer of a branch does -----------------------------------

  lemma ReadEnds(s: Stream)
    requires Inv(s) && s.reader.DefaultReader? && NobodyWaits(s)
    ensures AllShaped(s.requests) && NobodyWaits(ReadFrom(s))
  {
    assert AllShaped(s.requests);
    if s.queue != [] {
      ReadTakesHead(s);
    } else {
      EmptyReadEnds(s);
    }
    hide Inv, ReadFrom, AllShaped;
  }

  lemma EmptyReadEnds(s: Stream)
    requires AllShaped(s.requests) && s.queue == [] && NobodyWaits(s)
    ensures NobodyWaits(ReadFrom(s))
  {
    if s.phase.Readable? {
      ReadFromWaitingIs(s);
      PullFlags(Joined(s, NewRead(s)));
      hide RequestPull;
    } else {
      ReadFromEndedIs(s, if s.phase.Closed? then Finished(DefaultRead(s.nextId))
                         else Failed(DefaultRead(s.nextId), s.phase.storedError));
    }
    hide ReadFrom, AllShaped;
  }

  lemma ReadViewEnds(s: Stream, view: View, minimum: Minimum)
    requires Inv(s) && s.reader.ByobReader? && NobodyWaits(s)
    ensures (s.byteStream ==> Drainable(s)) && NobodyWaits(ReadInto(s, view, minimum).stream)
  {
    if s.byteStream && Acceptable(view, minimum) {
      AcceptedViewEnds(s, view, minimum);
    } else {
      RefusedAsks(s, view, minimum);
    }
    hide Inv, ReadInto, Acceptable, Drainable;
  }

  lemma AcceptedViewEnds(s: Stream, view: View, minimum: Minimum)
    requires Inv(s) && s.reader.ByobReader? && NobodyWaits(s) && s.byteStream && Acceptable(view, minimum)
    ensures Drainable(s) && NobodyWaits(ReadInto(s, view, minimum).stream)
  {
    AcceptedViewFlags(s, view, minimum);
    if |Contents(s.queue)| >= Need(view, minimum) {
      BufferReadTakesQueued(s, view, minimum);
    } else if s.phase.Closed? {
      ClosedViewEnds(s, view, minimum);
    }
    hide Inv, ReadInto, Acceptable, Contents, BufferAsk, AnswerSize, Drainable;
  }

  lemma ClosedViewEnds(s: Stream, view: View, minimum: Minimum)
    requires Inv(s) && s.phase.Closed? && s.requests == [] && s.byteStream
    ensures Drainable(s) && ReadInto(s, view, minimum).stream.requests == []
  {
    assert Drainable(s);
    hide Inv, DrainByteQueue, NewPullInto, Refusal, Drainable;
  }

  /** A branch that takes no data never takes data again, and nobody comes to wait once it is closed. */
  lemma OutsideEnds(s: Stream, e: Event, canceled: bool, finished: bool)
    requires Inv(s) && Outside(e) && BranchEnds(s, canceled, finished)
    ensures BranchEnds(Step(s, e), canceled, finished)
  {
    StepFlags(s, e);
    OutsideNobodyWaits(s, e);
    var n := Step(s, e);
    assert FlagsOf(n).phase == n.phase && FlagsOf(n).closeRequested == n.closeRequested;
    assert !Open(s) ==> !Open(n);
    hide Step, Inv, NobodyWaits, AfterLastRead, BufferAsk, Acceptable;
  }

  lemma OutsideNobodyWaits(s: Stream, e: Event)
    requires Inv(s) && Outside(e) && NobodyWaits(s)
    ensures NobodyWaits(Step(s, e))
  {
    assert Sound(s);
    hide Inv, Sound, NobodyWaits, ReadFrom, ReadInto, AcquireReader, ReleaseLock, StartResolved, PullResolved;
    match e {
      case StartFulfilled => PromisesNobodyWaits(s);
      case PullFulfilled => PromisesNobodyWaits(s);
      case GetReader(byob) => LocksNobodyWaits(s, if byob then ByobReader else DefaultReader);
      case ReleaseReader => LocksNobodyWaits(s, NoReader);
      case Read => if s.reader.DefaultReader? { ReadEnds(s); }
      case ReadView(view, minimum) => if s.reader.ByobReader? { ReadViewEnds(s, view, minimum); }
    }
  }

  lemma PromisesNobodyWaits(s: Stream)
    requires NobodyWaits(s)
    ensures NobodyWaits(StartResolved(s)) && NobodyWaits(PullResolved(s))
  {
    hide Demand, MayPull;
  }

  lemma LocksNobodyWaits(s: Stream, kind: Reader)
    requires NobodyWaits(s)
    ensures NobodyWaits(AcquireReader(s, kind).stream) && NobodyWaits(ReleaseLock(s).stream)
  {
  }

  // ---- steps of the tee -----------------------------------------------------

  lemma CancelEnds(s: Stream, canceled: bool, finished: bool)
    requires Inv(s) && BranchEnds(s, canceled, finished)
    ensures AllShaped(s.requests) && BranchEnds(CancelReadable(s), canceled || s.phase.Readable?, finished)
  {
    assert AllShaped(s.requests);
    if s.phase.Readable? {
      CancelIs(s);
    }
    hide Inv, AllShaped, CloseReadable;
  }

  lemma OfferEnds(canceled: bool, s: Stream, value: seq<Item>, taken: seq<Item>)
    requires Inv(s) && BranchFits(s, canceled, false, taken) && NobodyWaits(s)
    requires if s.byteStream then value != [] else |value| == 1
    ensures Offer(canceled, s, ChunkFor(s.byteStream, value)).thrown.None?
    ensures NobodyWaits(Offer(canceled, s, ChunkFor(s.byteStream, value)).stream)
  {
    if !canceled {
      EnqueueAccepts(s, value);
    }
    hide Inv, Enqueue, ChunkFor;
  }

  lemma CloseOrStay(s: Stream, canceled: bool, taken: seq<Item>)
    requires Inv(s) && BranchFits(s, canceled, false, taken) && NobodyWaits(s)
    ensures BranchEnds(if canceled then s else CloseBranch(s), canceled, true)
  {
    if !canceled {
      CloseBranchKeepsEnds(s, canceled);
    }
    hide Inv, CloseBranch;
  }

  lemma FinishEnds(t: Tee, failed: Option<Reason>)
    requires TeeInv(t) && Ends(t)
    ensures Ends(FinishSource(t, failed))
  {
    if t.sourceFinished {
    } else if failed.Some? {
      ErrorBranchEnds(t.left, failed.value, t.leftCanceled);
      ErrorBranchEnds(t.right, failed.value, t.rightCanceled);
    } else {
      CloseOrStay(t.left, t.leftCanceled, t.taken);
      CloseOrStay(t.right, t.rightCanceled, t.taken);
    }
    hide Inv, CloseBranch, ErrorReadable, BranchFits;
  }

  lemma ValueEnds(t: Tee, value: seq<Item>)
    requires TeeInv(t) && Ends(t) && ValueFits(t, value)
    ensures Ends(ReadResolved(t, value))
  {
    if !t.sourceFinished && !t.cancelStarted {
      OfferEnds(t.leftCanceled, t.left, value, t.taken);
      OfferEnds(t.rightCanceled, t.right, value, t.taken);
    }
    hide Inv, Offer, ChunkFor, BranchFits;
  }

  lemma PulledEnds(u: Tee)
    requires Ends(u)
    ensures Ends(PullBranch(u))
  {
    hide BranchEnds;
  }

  lemma ReplacedEnds(t: Tee, isLeft: bool, n: Stream)
    requires Ends(t)
    requires if isLeft then BranchEnds(n, t.leftCanceled, t.sourceFinished) else BranchEnds(n, t.rightCanceled, t.sourceFinished)
    ensures Ends(if isLeft then t.(left := n) else t.(right := n))
  {
    hide BranchEnds;
  }

  lemma OnBranchEnds(t: Tee, isLeft: bool, e: Event)
    requires TeeInv(t) && Ends(t) && Outside(e)
    ensures Ends(OnBranch(t, isLeft, e))
  {
    var s, canceled := if isLeft then t.left else t.right, if isLeft then t.leftCanceled else t.rightCanceled;
    assert Inv(s) && Sound(s) && BranchEnds(s, canceled, t.sourceFinished);
    hide Inv, Sound, TeeInv, ReadableRuns.Step, Outside, BranchEnds, Ends;
    OutsideEnds(s, e, canceled, t.sourceFinished);
    var n := ReadableRuns.Step(s, e);
    ReplacedEnds(t, isLeft, n);
    PulledEnds(if isLeft then t.(left := n) else t.(right := n));
    hide PullBranch;
  }

  lemma CancelBranchEnds(t: Tee, isLeft: bool)
    requires TeeInv(t) && Ends(t)
    ensures Ends(TeeModel.CancelBranch(t, isLeft))
  {
    if isLeft {
      CancelEnds(t.left, t.leftCanceled, t.sourceFinished);
    } else {
      CancelEnds(t.right, t.rightCanceled, t.sourceFinished);
    }
    hide Inv, CancelReadable, BranchFits, BranchEnds, AllShaped;
  }

  lemma SettledEnds(t: Tee, result: Option<Reason>)
    requires TeeInv(t) && Ends(t) && t.cancelStarted
    ensures Ends(CancelSettled(t, result))
  {
    hide Inv, BranchFits;
  }

  lemma ReadingEnds(t: Tee, reading: Reading)
    requires Ends(t)
    ensures Ends(t.(reading := reading))
  {
    hide BranchEnds;
  }

  lemma SourceStepEnds(t: Tee, e: TeeEvent)
    requires TeeInv(t) && Ends(t) && !e.BranchEvent? && !e.BranchCancel?
    ensures Ends(TeeStep(t, e))
  {
    assert Usable(t);
    hide ReadResolved, FinishSource, CancelSettled, Inv, TeeInv, Usable, Ends;
    match e {
      case SourceValue(value) => if ValueFits(t, value) { ValueEnds(t, value); }
      case SourceDone =>
        ReadingEnds(t, Handled);
        HandledKeeps(t, Handled);
        FinishEnds(t.(reading := Handled), None);
      case SourceReadFailed(reason) =>
        ReadingEnds(t, Handled);
        HandledKeeps(t, Handled);
        FinishEnds(t.(reading := Handled), Some(reason));
      case ReadingCleared => ReadingEnds(t, Idle);
      case SourceClosedFailed(reason) => FinishEnds(t, Some(reason));
      case SourceCancelSettled(result) => if t.cancelStarted { SettledEnds(t, result); }
    }
  }

  lemma StepEnds(t: Tee, e: TeeEvent)
    requires TeeInv(t) && Ends(t)
    ensures Ends(TeeStep(t, e))
  {
    assert Usable(t);
    hide OnBranch, TeeModel.CancelBranch, Inv, TeeInv, Usable, Ends;
    match e {
      case BranchEvent(isLeft, event) => if Outside(event) { OnBranchEnds(t, isLeft, event); }
      case BranchCancel(isLeft) => CancelBranchEnds(t, isLeft);
      case _ =>
        SourceStepEnds(t, e);
        hide TeeStep;
    }
  }

  lemma {:induction false} RunEnds(t: Tee, events: seq<TeeEvent>)
    requires TeeInv(t) && Ends(t)
    ensures Ends(RunTee(t, events))
    decreases |events|
  {
    hide TeeStep, Ends, Inv, BranchFits;
    if events != [] {
      TeeStepKeeps(t, events[0]);
      StepEnds(t, events[0]);
      RunEnds(TeeStep(t, events[0]), events[1..]);
    }
  }

  // ---- the end of the source ------------------------------------------------

  /** A branch that was not cancelled is at its end: errored; or closed, with nobody waiting; or
      about to close, with queued data still to be read and nobody waiting. */
  predicate AtItsEnd(s: Stream) {
    || s.phase.Errored?
    || (s.phase.Closed? && s.requests == [])
    || (s.phase.Readable? && s.closeRequested && s.queue != [] && s.requests == [])
  }

  /** In every run: once the source is done with, however it ended, every branch that was not
      cancelled is at its end. */
  lemma EndReachesBranches(byteStream: bool, events: seq<TeeEvent>)
    ensures var t := ReachedTee(byteStream, events);
            t.sourceFinished ==>
              && (!t.leftCanceled ==> AtItsEnd(t.left))
              && (!t.rightCanceled ==> AtItsEnd(t.right))
  {
    SplitHolds(byteStream);
    assert Ends(Split(byteStream));
    RunEnds(Split(byteStream), events);
    var t := ReachedTee(byteStream, events);
    EndOfBranch(t.left, t.leftCanceled, t.sourceFinished);
    EndOfBranch(t.right, t.rightCanceled, t.sourceFinished);
    hide RunTee, TeeInv, ReachedTee, BranchEnds, AtItsEnd;
  }

  lemma EndOfBranch(s: Stream, canceled: bool, finished: bool)
    requires Inv(s) && BranchEnds(s, canceled, finished)
    ensures finished && !canceled ==> AtItsEnd(s)
  {
    hide Structure, History;
  }

  /** What the end of the source does at once: from every reached state, a branch that was not
      cancelled closes, after its queued data if it has any, and tells every waiting read; a failure
      errors it with the reason; a cancelled branch is left alone. */
  lemma SourceEnds(t: Tee, e: TeeEvent)
    requires TeeInv(t) && !t.sourceFinished && !t.cancelStarted
    requires ((e.SourceDone? || e.SourceReadFailed?) && t.reading.Awaiting?) || e.SourceClosedFailed?
    ensures var u := TeeStep(t, e);
            && u.sourceFinished
            && (t.leftCanceled ==> u.left == t.left) && (t.rightCanceled ==> u.right == t.right)
            && (!t.leftCanceled ==> EndedBy(t.left, u.left, e))
            && (!t.rightCanceled ==> EndedBy(t.right, u.right, e))
  {
    if e.SourceDone? {
      if !t.leftCanceled {
        CloseBranchEnds(t.left);
      }
      if !t.rightCanceled {
        CloseBranchEnds(t.right);
      }
      hide CloseBranch;
    } else {
      ErrorFlags(t.left, e.reason);
      ErrorFlags(t.right, e.reason);
      hide ErrorReadable;
    }
    hide Inv, ToldDone, Partial;
  }

  /** The end of the source at one branch. */
  predicate EndedBy(s: Stream, n: Stream, e: TeeEvent) {
    if e.SourceDone? then
      if s.queue != [] then n == s.(closeRequested := true)
      else if Partial(s) then n.phase == Errored(ClosedMidElement)
      else n.phase.Closed? && n.requests == [] && ToldDone(n.settled, |s.settled|)
    else
      && (e.SourceReadFailed? ==> n.phase == Errored(e.reason))
      && (e.SourceClosedFailed? ==> n.phase == Errored(e.reason))
  }

  lemma CloseBranchStays(s: Stream)
    requires Inv(s) && !s.phase.Readable?
    ensures CloseBranch(s).phase == s.phase
  {
    CloseRefused(s);
    hide Inv, ControllerClose;
  }

  lemma OfferStays(canceled: bool, s: Stream, chunk: Incoming)
    requires Inv(s) && !s.phase.Readable?
    ensures Offer(canceled, s, chunk).stream.phase == s.phase
  {
    EnqueueRefused(s, chunk);
    hide Inv, Enqueue;
  }

  lemma ValueStays(t: Tee, value: seq<Item>)
    requires Usable(t) && value != []
    ensures var u := ReadResolved(t, value);
            && (!t.left.phase.Readable? ==> u.left.phase == t.left.phase)
            && (!t.right.phase.Readable? ==> u.right.phase == t.right.phase)
  {
    var chunk := ChunkFor(t.byteStream, value);
    if !t.left.phase.Readable? {
      OfferStays(t.leftCanceled, t.left, chunk);
    }
    if !t.right.phase.Readable? {
      OfferStays(t.rightCanceled, t.right, chunk);
    }
    hide Inv, Offer, ChunkFor;
  }

  lemma FinishStays(t: Tee, failed: Option<Reason>)
    requires Usable(t)
    ensures var u := FinishSource(t, failed);
            && (!t.left.phase.Readable? ==> u.left.phase == t.left.phase)
            && (!t.right.phase.Readable? ==> u.right.phase == t.right.phase)
  {
    if !t.left.phase.Readable? {
      CloseBranchStays(t.left);
    }
    if !t.right.phase.Readable? {
      CloseBranchStays(t.right);
    }
    hide Inv, CloseBranch;
  }

  lemma OnBranchIs(t: Tee, isLeft: bool, e: Event)
    requires Usable(t)
    ensures var u := OnBranch(t, isLeft, e);
            && u.left == (if isLeft then ReadableRuns.Step(t.left, e) else t.left)
            && u.right == (if isLeft then t.right else ReadableRuns.Step(t.right, e))
  {
    hide Inv, ReadableRuns.Step;
  }

  lemma ConsumerStays(t: Tee, isLeft: bool, e: Event)
    requires Usable(t) && Outside(e)
    ensures var u := OnBranch(t, isLeft, e);
            && (!t.left.phase.Readable? ==> u.left.phase == t.left.phase)
            && (!t.right.phase.Readable? ==> u.right.phase == t.right.phase)
  {
    OnBranchIs(t, isLeft, e);
    var s := if isLeft then t.left else t.right;
    OutsideGivesNothing(s, e);
    hide OnBranch, Inv, ReadableRuns.Step, Outside;
  }

  lemma CancelStays(t: Tee, isLeft: bool)
    requires Usable(t)
    ensures var u := TeeModel.CancelBranch(t, isLeft);
            && (!t.left.phase.Readable? ==> u.left.phase == t.left.phase)
            && (!t.right.phase.Readable? ==> u.right.phase == t.right.phase)
  {
    hide Inv, CloseReadable;
  }

  lemma StepStays(t: Tee, e: TeeEvent)
    requires TeeInv(t)
    ensures var u := TeeStep(t, e);
            && (!t.left.phase.Readable? ==> u.left.phase == t.left.phase)
            && (!t.right.phase.Readable? ==> u.right.phase == t.right.phase)
  {
    assert Usable(t);
    hide OnBranch, TeeModel.CancelBranch, ReadResolved, FinishSource, Inv, TeeInv, Usable;
    match e {
      case BranchEvent(isLeft, event) => if Outside(event) { ConsumerStays(t, isLeft, event); }
      case BranchCancel(isLeft) => CancelStays(t, isLeft);
      case SourceValue(value) => if ValueFits(t, value) { ValueStays(t, value); }
      case SourceDone => FinishStays(t.(reading := Handled), None);
      case SourceReadFailed(reason) => FinishStays(t.(reading := Handled), Some(reason));
      case SourceClosedFailed(reason) => FinishStays(t, Some(reason));
      case _ =>
    }
  }

  lemma {:induction false} RunStays(t: Tee, events: seq<TeeEvent>)
    requires TeeInv(t)
    ensures var u := RunTee(t, events);
            && (!t.left.phase.Readable? ==> u.left.phase == t.left.phase)
            && (!t.right.phase.Readable? ==> u.right.phase == t.right.phase)
    decreases |events|
  {
    if events != [] {
      TeeStepKeeps(t, events[0]);
      StepStays(t, events[0]);
      RunStays(TeeStep(t, events[0]), events[1..]);
      hide TeeStep, TeeInv;
    }
  }

  /** A failure of the source is final at both branches: whatever happens later, those that were not
      cancelled stay errored with its reason. */
  lemma FailureStays(t: Tee, e: TeeEvent, later: seq<TeeEvent>)
    requires TeeInv(t) && !t.sourceFinished && !t.cancelStarted
    requires (e.SourceReadFailed? && t.reading.Awaiting?) || e.SourceClosedFailed?
    ensures TeeInv(TeeStep(t, e))
    ensures var u := RunTee(TeeStep(t, e), later);
            && (!t.leftCanceled ==> u.left.phase == Errored(e.reason))
            && (!t.rightCanceled ==> u.right.phase == Errored(e.reason))
  {
    TeeStepKeeps(t, e);
    SourceEnds(t, e);
    RunStays(TeeStep(t, e), later);
    hide TeeStep, TeeInv, RunTee;
  }

  /** The same for a tee of a real stream: once it is done with its source, every branch that was
      not cancelled is at its end. */
  lemma SourceEndReachesBranches(source: Stream, events: seq<TeeSources.JointEvent>)
    requires Inv(source) && source.reader.NoReader?
    ensures var j := TeeSources.Teed(source, events);
            (j.ended ==> j.tee.sourceFinished) && (j.tee.sourceFinished ==>
              && (!j.tee.leftCanceled ==> AtItsEnd(j.tee.left))
              && (!j.tee.rightCanceled ==> AtItsEnd(j.tee.right)))
  {
    TeeSources.AttachHolds(source);
    var parts := TeeSources.TeeParts(TeeSources.Attach(source), events);
    TeeSources.RunIsTeeRun(TeeSources.Attach(source), events);
    assert TeeSources.Teed(source, events).tee == ReachedTee(source.byteStream, parts);
    EndReachesBranches(source.byteStream, parts);
    hide TeeSources.RunJoint, RunTee, ReachedTee, Inv, TeeInv, TeeSources.Attach, TeeSources.TeeParts, AtItsEnd,
      TeeSources.LockFits, TeeSources.Accounts;
  }

  // ---- the demand of the branches -------------------------------------------

  /** Every pull of a branch, while the source gives data and nobody waits for it, reads the source
      once; a read that is under way serves both branches. */
  lemma PullReads(t: Tee, isLeft: bool, e: Event)
    requires TeeInv(t) && Outside(e) && !t.sourceFinished && !t.cancelStarted
    ensures var u := TeeStep(t, BranchEvent(isLeft, e));
            var pulled := if isLeft then u.left.pullCalls > t.left.pullCalls else u.right.pullCalls > t.right.pullCalls;
            && (pulled && t.reading.Idle? ==> u.reading.Awaiting? && u.sourceReads == t.sourceReads + 1)
            && (!(pulled && t.reading.Idle?) ==> u.reading == t.reading && u.sourceReads == t.sourceReads)
  {
    hide Inv, ReadableRuns.Step, BranchFits;
  }
}
