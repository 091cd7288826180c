/** What decides the course of a tee: which branches are cancelled, whether its source is cancelled
    or done with, its shared read, and the demand of its branches. */
module TeeCourse {
  import opened Options
  import opened ReadableModel
  import opened ReadableInvariants
  import opened ReadableSteps
  import opened ReadableAdvances
  import opened ReadableRuns
  import opened ReadablePhases
  import opened ReadableReads
  import opened TeeModel
  import opened TeeRuns
  import opened TeeEnds
  import TeeSources

  // ---- the course of a tee ---------------------------------------------------

  datatype Course = Course(byteStream: bool, leftCanceled: bool, rightCanceled: bool, cancelStarted: bool,
                           sourceFinished: bool, completion: Signal, sourceCancels: nat)

  function CourseOf(t: Tee): Course {
    Course(t.byteStream, t.leftCanceled, t.rightCanceled, t.cancelStarted, t.sourceFinished, t.completion, t.sourceCancels)
  }

  /** Until the source is done with, it is cancelled exactly when both branches are. */
  predicate CancelKnown(t: Tee) {
    !t.sourceFinished ==> (t.cancelStarted <==> t.leftCanceled && t.rightCanceled)
  }

  /** The event ends the source: the shared read says so or fails, the source fails, or its cancel is
      answered. */
  predicate EndsSource(t: Tee, e: TeeEvent) {
    match e
    case SourceDone => t.reading.Awaiting? && !t.cancelStarted
    case SourceReadFailed(_) => t.reading.Awaiting?
    case SourceClosedFailed(_) => true
    case SourceCancelSettled(_) => t.cancelStarted
    case _ => false
  }

  /** The promise that the cancels share: settled once, with the answer of the source's cancel if
      there is one, and fulfilled if the source is done with before. */
  function CompletionAfter(t: Tee, e: TeeEvent): Signal {
    if !t.completion.Awaited? || (t.sourceFinished && !e.SourceCancelSettled?) then t.completion
    else if e.SourceCancelSettled? && t.cancelStarted then
      (if e.result.None? then Resolved else Rejected(e.result.value))
    else if EndsSource(t, e) && !t.cancelStarted then Resolved
    else Awaited
  }

  function CourseAfter(t: Tee, e: TeeEvent): Course {
    var left := t.leftCanceled || (e == BranchCancel(true) && t.left.phase.Readable?);
    var right := t.rightCanceled || (e == BranchCancel(false) && t.right.phase.Readable?);
    var cancels := !t.sourceFinished && left && right && !t.cancelStarted;
    Course(t.byteStream, left, right, t.cancelStarted || cancels, t.sourceFinished || EndsSource(t, e), CompletionAfter(t, e),
          t.sourceCancels + if cancels then 1 else 0)
  }

  lemma FinishCourse(t: Tee, failed: Option<Reason>)
    requires Usable(t) && Completes(t)
    ensures CourseOf(FinishSource(t, failed))
         == CourseOf(t).(sourceFinished := true,
                        completion := if t.sourceFinished || t.cancelStarted then t.completion else Resolved)
  {
    hide Inv, CloseBranch, ErrorReadable;
  }

  lemma ValueCourse(t: Tee, value: seq<Item>)
    requires TeeInv(t) && ValueFits(t, value)
    ensures CourseOf(ReadResolved(t, value)) == CourseOf(t)
  {
    if !t.sourceFinished && !t.cancelStarted {
      OfferKeeps(t.leftCanceled, t.left, value, t.taken);
      OfferKeeps(t.rightCanceled, t.right, value, t.taken);
    }
    hide Inv, Offer, ChunkFor, BranchFits;
  }

  lemma CancelCourse(t: Tee, isLeft: bool)
    requires Usable(t) && Completes(t) && CancelKnown(t)
    ensures CourseOf(TeeModel.CancelBranch(t, isLeft)) == CourseAfter(t, BranchCancel(isLeft))
  {
    hide Inv, CancelReadable;
  }

  /** An end without a cancel of the source. */
  lemma EndedCourse(t: Tee, u: Tee, e: TeeEvent)
    requires Completes(t) && CancelKnown(t) && (e.SourceDone? || e.SourceReadFailed? || e.SourceClosedFailed?)
    requires CourseOf(u)
          == if EndsSource(t, e)
             then CourseOf(t).(sourceFinished := true,
                               completion := if t.sourceFinished || t.cancelStarted then t.completion else Resolved)
             else CourseOf(t)
    ensures CourseOf(u) == CourseAfter(t, e)
  {
  }

  lemma HandledCourse(t: Tee)
    requires Completes(t)
    ensures Completes(t.(reading := Handled)) && CourseOf(t.(reading := Handled)) == CourseOf(t)
  {
  }

  lemma EndCourse(t: Tee, e: TeeEvent)
    requires Usable(t) && Completes(t) && CancelKnown(t)
    requires e.SourceDone? || e.SourceReadFailed? || e.SourceClosedFailed?
    ensures CourseOf(TeeStep(t, e)) == CourseAfter(t, e)
  {
    HandledCourse(t);
    if e.SourceDone? {
      FinishCourse(t.(reading := Handled), None);
    } else {
      FinishCourse(t, Some(e.reason));
      FinishCourse(t.(reading := Handled), Some(e.reason));
    }
    EndedCourse(t, TeeStep(t, e), e);
    hide Inv, FinishSource, CourseAfter, Completes, CancelKnown;
  }

  lemma SettledCourse(t: Tee, e: TeeEvent)
    requires Completes(t) && CancelKnown(t) && e.SourceCancelSettled? && t.cancelStarted
    ensures CourseOf(CancelSettled(t, e.result)) == CourseAfter(t, e)
  {
  }

  /** What neither ends nor cancels anything changes nothing. */
  lemma QuietCourse(t: Tee, e: TeeEvent)
    requires Completes(t) && CancelKnown(t) && !e.BranchCancel? && !EndsSource(t, e)
    ensures CourseAfter(t, e) == CourseOf(t)
  {
  }

  lemma SourceStepCourse(t: Tee, e: TeeEvent)
    requires TeeInv(t) && Completes(t) && CancelKnown(t) && !e.BranchEvent? && !e.BranchCancel?
    ensures CourseOf(TeeStep(t, e)) == CourseAfter(t, e)
  {
    assert Usable(t);
    if e.SourceDone? || e.SourceReadFailed? || e.SourceClosedFailed? {
      EndCourse(t, e);
      hide TeeStep;
    } else if e.SourceCancelSettled? && t.cancelStarted {
      SettledCourse(t, e);
      hide ReadResolved, CancelSettled;
    } else {
      QuietCourse(t, e);
      if e.SourceValue? && t.reading.Awaiting? && ValueFits(t, e.value) {
        ValueCourse(t, e.value);
      }
      hide ReadResolved;
    }
    hide FinishSource, Usable, TeeInv, Completes, CancelKnown, CourseAfter;
  }

  /** Every step: the cancellations, the end of the source and the shared promise of the cancels
      change exactly as the event and the fields before it say. */
  lemma StepTee(t: Tee, e: TeeEvent)
    requires TeeInv(t) && Completes(t) && CancelKnown(t)
    ensures CourseOf(TeeStep(t, e)) == CourseAfter(t, e)
  {
    assert Usable(t);
    hide OnBranch, TeeModel.CancelBranch, Inv, TeeInv, Usable, Completes, CancelKnown;
    match e {
      case BranchEvent(isLeft, event) => if Outside(event) { BranchCourse(t, isLeft, event); }
      case BranchCancel(isLeft) => CancelCourse(t, isLeft);
      case _ =>
        SourceStepCourse(t, e);
        hide TeeStep, CourseAfter;
    }
  }

  lemma BranchCourse(t: Tee, isLeft: bool, e: Event)
    requires Usable(t)
    ensures CourseOf(OnBranch(t, isLeft, e)) == CourseOf(t)
  {
    hide Inv, ReadableRuns.Step;
  }

  /** The source has been cancelled once or never. */
  predicate Followed(t: Tee) {
    TeeInv(t) && Completes(t) && CancelKnown(t)
  }

  lemma StepFollowed(t: Tee, e: TeeEvent)
    requires Followed(t)
    ensures Followed(TeeStep(t, e)) && TeeStep(t, e).byteStream == t.byteStream
  {
    TeeStepKeeps(t, e);
    StepCompletes(t, e);
    StepTee(t, e);
    var u := TeeStep(t, e);
    assert CourseOf(u).cancelStarted == u.cancelStarted && CourseOf(u).byteStream == u.byteStream;
    assert TeeInv(t) && CancelKnown(t);
    hide TeeStep, TeeInv, Completes, EndsSource, CompletionAfter;
  }

  lemma {:induction false} RunFollowed(t: Tee, events: seq<TeeEvent>)
    requires Followed(t)
    ensures Followed(RunTee(t, events)) && RunTee(t, events).byteStream == t.byteStream
    decreases |events|
  {
    if events != [] {
      StepFollowed(t, events[0]);
      RunFollowed(TeeStep(t, events[0]), events[1..]);
    }
    hide TeeStep, TeeInv, Completes, CancelKnown;
  }

  /** In every run: a cancel reaches the source, once, exactly when both branches are cancelled while
      it is still open. */
  lemma CancelReachesSource(byteStream: bool, events: seq<TeeEvent>)
    ensures var t := ReachedTee(byteStream, events);
            && Followed(t)
            && (!t.sourceFinished ==> (t.cancelStarted <==> t.leftCanceled && t.rightCanceled))
            && t.sourceCancels == if t.cancelStarted then 1 else 0
  {
    SplitHolds(byteStream);
    assert Followed(Split(byteStream));
    RunFollowed(Split(byteStream), events);
    hide RunTee, Inv, Usable, BranchFits, Completes;
  }

  // ---- the shared read ------------------------------------------------------

  /** The event answers the shared read. */
  predicate Answers(t: Tee, e: TeeEvent) {
    t.reading.Awaiting? && ((e.SourceValue? && ValueFits(t, e.value)) || e.SourceDone? || e.SourceReadFailed?)
  }

  /** Every step: the shared read begins with a branch's pull, is answered once, and is then
      forgotten; its value counts as taken if nothing has ended the source before. */
  lemma StepReading(t: Tee, e: TeeEvent)
    requires TeeInv(t)
    ensures var u := TeeStep(t, e);
            && (Answers(t, e) ==> u.reading.Handled?)
            && (e.ReadingCleared? && t.reading.Handled? ==> u.reading.Idle?)
            && (!Answers(t, e) && !(e.ReadingCleared? && t.reading.Handled?) && !e.BranchEvent? ==> u.reading == t.reading)
            && (!e.BranchEvent? ==> u.sourceReads == t.sourceReads)
            && u.taken == if Answers(t, e) && e.SourceValue? && !t.sourceFinished && !t.cancelStarted
                          then t.taken + e.value else t.taken
  {
    assert Usable(t);
    hide TeeInv, Usable;
    if e.SourceValue? {
      if Answers(t, e) {
        ValueReading(t, e.value);
      }
    } else if e.BranchEvent? {
      BranchReading(t, e.isLeft, e.event);
    } else {
      RestReading(t, e);
    }
    hide ReadResolved, OnBranch, TeeModel.CancelBranch, FinishSource, CancelSettled;
  }

  lemma ValueReading(t: Tee, value: seq<Item>)
    requires TeeInv(t) && ValueFits(t, value)
    ensures var u := ReadResolved(t, value);
            && u.reading.Handled? && u.sourceReads == t.sourceReads
            && u.taken == if !t.sourceFinished && !t.cancelStarted then t.taken + value else t.taken
  {
    if !t.sourceFinished && !t.cancelStarted {
      OfferKeeps(t.leftCanceled, t.left, value, t.taken);
      OfferKeeps(t.rightCanceled, t.right, value, t.taken);
    }
    hide Inv, Offer, ChunkFor, BranchFits;
  }

  lemma BranchReading(t: Tee, isLeft: bool, e: Event)
    requires Usable(t)
    ensures OnBranch(t, isLeft, e).taken == t.taken
  {
    hide Inv, ReadableRuns.Step;
  }

  lemma FinishReading(t: Tee, failed: Option<Reason>)
    requires Usable(t)
    ensures var u := FinishSource(t, failed);
            u.taken == t.taken && u.sourceReads == t.sourceReads && u.reading == t.reading
  {
    hide Inv, CloseBranch, ErrorReadable;
  }

  lemma CancelReading(t: Tee, isLeft: bool)
    requires Usable(t)
    ensures var u := TeeModel.CancelBranch(t, isLeft);
            u.taken == t.taken && u.sourceReads == t.sourceReads && u.reading == t.reading
  {
    hide Inv, CancelReadable;
  }

  lemma RestReading(t: Tee, e: TeeEvent)
    requires Usable(t) && !e.SourceValue? && !e.BranchEvent?
    ensures var u := TeeStep(t, e);
            && u.taken == t.taken && u.sourceReads == t.sourceReads
            && u.reading == (if t.reading.Awaiting? && (e.SourceDone? || e.SourceReadFailed?) then Handled
                             else if e.ReadingCleared? && t.reading.Handled? then Idle
                             else t.reading)
  {
    assert Usable(t.(reading := Handled));
    hide Usable, FinishSource, TeeModel.CancelBranch, ReadResolved, OnBranch;
    match e {
      case BranchCancel(isLeft) => CancelReading(t, isLeft);
      case SourceDone => FinishReading(t.(reading := Handled), None);
      case SourceReadFailed(reason) => FinishReading(t.(reading := Handled), Some(reason));
      case SourceClosedFailed(reason) => FinishReading(t, Some(reason));
      case _ =>
    }
  }

  // ---- the demand of a branch -----------------------------------------------

  predicate Units(queue: seq<Entry>) {
    forall i | 0 <= i < |queue| :: queue[i].Chunk? && queue[i].size == 1.0
  }

  /** A branch of a byte stream wants data only for a waiting read, any other branch one chunk ahead. */
  predicate Strategy(s: Stream) {
    && s.hasPull && s.autoAllocate == 0 && s.highWaterMark == Finite(if s.byteStream then 0.0 else 1.0)
    && (!s.byteStream ==> Units(s.queue))
  }

  /** While a branch takes data it has that strategy. */
  predicate Eager(s: Stream) {
    Open(s) ==> Strategy(s)
  }

  lemma {:induction false} UnitTotal(queue: seq<Entry>)
    requires Units(queue)
    ensures Total(queue) == |queue| as real
  {
    if queue != [] {
      UnitTotal(queue[1..]);
    }
  }

  lemma SameData(s: Stream)
    ensures StartResolved(s).queue == s.queue && PullResolved(s).queue == s.queue
  {
    hide Demand, MayPull;
  }

  lemma WaitLeavesQueue(s: Stream)
    requires Inv(s) && s.queue == []
    ensures AllShaped(s.requests) && ReadFrom(s).queue == []
  {
    assert AllShaped(s.requests);
    if s.phase.Readable? {
      ReadFromWaitingIs(s);
      PullLeavesData(Joined(s, NewRead(s)));
      hide RequestPull;
    } else {
      ReadFromEndedIs(s, if s.phase.Closed? then Finished(DefaultRead(s.nextId))
                         else Failed(DefaultRead(s.nextId), s.phase.storedError));
    }
    hide ReadFrom, Inv;
  }

  lemma ReadUnits(s: Stream)
    requires Inv(s) && Units(s.queue)
    ensures AllShaped(s.requests) && Units(ReadFrom(s).queue)
  {
    if s.queue != [] {
      ReadTakesHead(s);
      TailUnits(s.queue);
    } else {
      WaitLeavesQueue(s);
    }
    hide Inv, ReadFrom;
  }

  /** The consumer of a branch only takes from its queue. */
  lemma OutsideUnits(s: Stream, e: Event)
    requires Inv(s) && Outside(e) && !s.byteStream && Units(s.queue)
    ensures Units(Step(s, e).queue)
  {
    assert Sound(s);
    SameData(s);
    hide Inv, Sound, ReadFrom, ReadInto, StartResolved, PullResolved, Units;
    match e {
      case Read =>
        if s.reader.DefaultReader? { ReadUnits(s); }
      case ReadView(view, minimum) => if s.reader.ByobReader? { RefusedAsks(s, view, minimum); }
      case _ =>
    }
  }

  lemma TailUnits(queue: seq<Entry>)
    requires Units(queue) && queue != []
    ensures Units(queue[1..])
  {
  }

  /** A call that keeps the settings and, if the stream still takes data, the unit sizes. */
  lemma EagerKept(s: Stream, n: Stream, given: seq<Item>)
    requires Eager(s) && Extends(s, given, n) && (Open(n) ==> Open(s))
    requires Open(n) && !s.byteStream && Units(s.queue) ==> Units(n.queue)
    ensures Eager(n)
  {
    hide Units;
  }

  /** A stream that takes no more data does not take data again. */
  lemma OpensNever(s: Stream, e: Event)
    requires Inv(s) && Open(Step(s, e))
    ensures Open(s)
  {
    StepFlags(s, e);
    FlagsAre(Step(s, e));
    ClosedStays(s, e);
    hide Step, Inv, FlagsAfter;
  }

  lemma ClosedStays(s: Stream, e: Event)
    ensures FlagsAfter(s, e).phase.Readable? && !FlagsAfter(s, e).closeRequested ==> Open(s)
  {
    hide AfterLastRead, BufferAsk, Acceptable;
  }

  lemma OutsideEager(s: Stream, e: Event)
    requires Inv(s) && Outside(e) && Eager(s)
    ensures Eager(Step(s, e))
  {
    StepAdvances(s, e);
    if Open(Step(s, e)) {
      OpensNever(s, e);
    }
    if !s.byteStream && Units(s.queue) {
      OutsideUnits(s, e);
    }
    EagerKept(s, Step(s, e), Gives(s, e));
    hide Step, Inv, Units, Eager, Outside, Extends, PullsInTurn;
  }

  lemma ChunkUnits(s: Stream, item: Item)
    requires Open(s) && !s.byteStream && Units(s.queue)
    ensures Units(EnqueueChunk(s, Incoming(item, None, Size(1.0))).stream.queue)
  {
    if s.requests != [] {
      PullLeavesData(AnswerChunk(s, item));
    } else {
      PullLeavesData(Push(s, Chunk(item, 1.0)));
    }
    hide RequestPull;
  }

  lemma OfferEager(canceled: bool, s: Stream, value: seq<Item>, taken: seq<Item>)
    requires Inv(s) && BranchFits(s, canceled, false, taken) && Eager(s)
    requires if s.byteStream then value != [] else |value| == 1
    ensures Eager(Offer(canceled, s, ChunkFor(s.byteStream, value)).stream)
  {
    if !canceled {
      var chunk := ChunkFor(s.byteStream, value);
      EnqueueAdvances(s, chunk);
      if !s.byteStream && Units(s.queue) {
        ChunkUnits(s, value[0]);
        assert Enqueue(s, chunk) == EnqueueChunk(s, chunk);
      }
      var c := Enqueue(s, chunk);
      EagerKept(s, c.stream, if c.thrown.Some? then [] else if s.byteStream then chunk.view.GetOr([]) else [chunk.item]);
    }
    hide Inv, EnqueueBytes, EnqueueChunk, Eager, Units;
  }

  // ---- every step -----------------------------------------------------------

  predicate Wants(t: Tee) {
    TeeInv(t) && Ends(t) && Eager(t.left) && Eager(t.right)
  }

  /** A branch that has ended wants nothing. */
  lemma EndedEager(s: Stream)
    requires !Open(s)
    ensures Eager(s)
  {
  }

  /** The end of the source leaves a cancelled branch alone, and a branch it ends wants nothing. */
  lemma FinishEager(t: Tee, failed: Option<Reason>)
    requires Wants(t)
    ensures var u := FinishSource(t, failed);
            Eager(u.left) && Eager(u.right)
  {
    FinishEnds(t, failed);
    var u := FinishSource(t, failed);
    assert t.sourceFinished || t.leftCanceled ==> u.left == t.left;
    assert t.sourceFinished || t.rightCanceled ==> u.right == t.right;
    assert u.sourceFinished && u.leftCanceled == t.leftCanceled && u.rightCanceled == t.rightCanceled;
    hide Strategy, TeeInv, FinishSource, NobodyWaits;
  }

  lemma ValueEager(t: Tee, value: seq<Item>)
    requires Wants(t) && ValueFits(t, value)
    ensures var u := ReadResolved(t, value);
            Eager(u.left) && Eager(u.right)
  {
    if !t.sourceFinished && !t.cancelStarted {
      OfferKeeps(t.leftCanceled, t.left, value, t.taken);
      OfferKeeps(t.rightCanceled, t.right, value, t.taken);
      OfferEager(t.leftCanceled, t.left, value, t.taken);
      OfferEager(t.rightCanceled, t.right, value, t.taken);
    }
    hide Inv, Offer, ChunkFor, BranchFits, Eager, Ends;
  }

  lemma OnBranchEager(t: Tee, isLeft: bool, e: Event)
    requires Wants(t) && Outside(e)
    ensures var u := OnBranch(t, isLeft, e);
            Eager(u.left) && Eager(u.right)
  {
    OnBranchIs(t, isLeft, e);
    OutsideEager(if isLeft then t.left else t.right, e);
    hide Eager, Ends, OnBranch, Outside, Inv, BranchFits;
  }

  lemma CanceledEager(s: Stream)
    requires Inv(s) && Eager(s)
    ensures AllShaped(s.requests) && Eager(CancelReadable(s))
  {
    assert AllShaped(s.requests);
    if s.phase.Readable? {
      CancelIs(s);
      EndedEager(CancelReadable(s));
    }
    hide Strategy, Inv, CloseReadable, AllShaped;
  }

  lemma CancelEager(t: Tee, isLeft: bool)
    requires Wants(t)
    ensures var u := TeeModel.CancelBranch(t, isLeft);
            Eager(u.left) && Eager(u.right)
  {
    CanceledEager(if isLeft then t.left else t.right);
    hide Eager, Ends, Inv, BranchFits, CancelReadable;
  }

  lemma HandledWants(t: Tee)
    requires Wants(t)
    ensures Wants(t.(reading := Handled))
  {
    ReadingEnds(t, Handled);
    HandledKeeps(t, Handled);
    hide TeeInv, Ends, Eager;
  }

  lemma SourceStepEager(t: Tee, e: TeeEvent)
    requires Wants(t) && !e.BranchEvent? && !e.BranchCancel?
    ensures var u := TeeStep(t, e);
            Eager(u.left) && Eager(u.right)
  {
    assert Usable(t);
    HandledWants(t);
    hide ReadResolved, FinishSource, TeeInv, Usable, Ends, Eager;
    match e {
      case SourceValue(value) => if ValueFits(t, value) { ValueEager(t, value); }
      case SourceDone => FinishEager(t.(reading := Handled), None);
      case SourceReadFailed(reason) => FinishEager(t.(reading := Handled), Some(reason));
      case SourceClosedFailed(reason) => FinishEager(t, Some(reason));
      case _ =>
    }
  }

  lemma StepWants(t: Tee, e: TeeEvent)
    requires Wants(t)
    ensures Wants(TeeStep(t, e))
  {
    TeeStepKeeps(t, e);
    StepEnds(t, e);
    assert Usable(t);
    hide OnBranch, TeeModel.CancelBranch, Inv, TeeInv, Usable, Ends, Eager;
    match e {
      case BranchEvent(isLeft, event) => if Outside(event) { OnBranchEager(t, isLeft, event); }
      case BranchCancel(isLeft) => CancelEager(t, isLeft);
      case _ =>
        SourceStepEager(t, e);
        hide TeeStep;
    }
  }

  lemma {:induction false} RunWants(t: Tee, events: seq<TeeEvent>)
    requires Wants(t)
    ensures Wants(RunTee(t, events))
    decreases |events|
  {
    if events != [] {
      StepWants(t, events[0]);
      RunWants(TeeStep(t, events[0]), events[1..]);
    }
    hide TeeStep, TeeInv, Ends, Eager;
  }

  /** What a branch that takes data has asked for. */
  lemma BranchDemand(s: Stream)
    requires Inv(s) && Eager(s) && Open(s) && s.started
    ensures Hungry(s) ==> s.pullCalls == s.pullEnds + 1
  {
    PullDemand(s);
    if !s.byteStream {
      UnitTotal(s.queue);
    }
    hide Inv, Demand, MayPull;
  }

  /** In every run: a started branch that still takes data has a pull under way whenever somebody
      waits for data, and, unless it is a byte stream, also whenever its queue is empty. */
  lemma BranchesAsk(byteStream: bool, events: seq<TeeEvent>, isLeft: bool)
    ensures var t := ReachedTee(byteStream, events);
            var s := if isLeft then t.left else t.right;
            s.started && Open(s) && Hungry(s) ==> s.pullCalls == s.pullEnds + 1
  {
    ReachedWants(byteStream, events);
    var t := ReachedTee(byteStream, events);
    var s := if isLeft then t.left else t.right;
    assert Inv(s) && Eager(s) && s.byteStream == byteStream;
    hide ReachedTee, Eager, Inv, BranchFits, Wants;
    if s.started && Open(s) {
      BranchDemand(s);
    }
  }

  lemma ReachedWants(byteStream: bool, events: seq<TeeEvent>)
    ensures Wants(ReachedTee(byteStream, events)) && ReachedTee(byteStream, events).byteStream == byteStream
  {
    SplitHolds(byteStream);
    assert Wants(Split(byteStream)) && Followed(Split(byteStream));
    RunWants(Split(byteStream), events);
    RunFollowed(Split(byteStream), events);
    hide RunTee, Wants, Followed;
  }

  /** Somebody waits for data, or a branch that reads ahead has nothing queued. */
  predicate Hungry(s: Stream) {
    s.requests != [] || (!s.byteStream && s.queue == [])
  }

  lemma {:induction false} BytesWeigh(queue: seq<Entry>)
    requires AllFit(queue, true)
    ensures Total(queue) >= 0.0
  {
    if queue != [] {
      BytesWeigh(queue[1..]);
      assert queue[0].Fits(true);
    }
  }

  lemma AsksWhenHungry(s: Stream, n: Stream)
    requires Inv(n) && Eager(n) && PullsInTurn(s, n) && n.pullCalls > s.pullCalls
    ensures Open(n) && n.started && Hungry(n)
  {
    PullDemand(n);
    if n.byteStream {
      assert AllFit(n.queue, true);
      BytesWeigh(n.queue);
    } else {
      UnitTotal(n.queue);
    }
    hide Inv, Demand, MayPull, AllFit;
  }

  /** From every reached state: a branch pulls only when it is hungry, so a tee of a byte stream reads
      its source only for a waiting read, and any other one chunk ahead of the faster branch. */
  lemma ReadsOnDemand(byteStream: bool, events: seq<TeeEvent>, isLeft: bool, e: Event)
    requires Outside(e)
    ensures var t := ReachedTee(byteStream, events);
            var u := TeeStep(t, BranchEvent(isLeft, e));
            var s, n := if isLeft then t.left else t.right, if isLeft then u.left else u.right;
            n.pullCalls > s.pullCalls || u.sourceReads > t.sourceReads ==> Open(n) && n.started && Hungry(n)
  {
    ReachedWants(byteStream, events);
    var t := ReachedTee(byteStream, events);
    var s := if isLeft then t.left else t.right;
    assert Inv(s) && Eager(s) && Usable(t);
    hide ReachedTee, Eager, Wants, TeeInv, Inv, Usable;
    OnBranchIs(t, isLeft, e);
    BranchReadsOnce(t, isLeft, e);
    var n := Step(s, e);
    StepKeeps(s, e);
    StepAdvances(s, e);
    OutsideEager(s, e);
    assert TeeStep(t, BranchEvent(isLeft, e)) == OnBranch(t, isLeft, e);
    hide OnBranch, Step, Outside, Hungry, TeeStep, Extends, PullsInTurn;
    if n.pullCalls > s.pullCalls {
      AsksWhenHungry(s, n);
    }
  }

  lemma BranchReadsOnce(t: Tee, isLeft: bool, e: Event)
    requires Usable(t)
    ensures var s := if isLeft then t.left else t.right;
            OnBranch(t, isLeft, e).sourceReads > t.sourceReads ==> Step(s, e).pullCalls > s.pullCalls
  {
    hide Inv, ReadableRuns.Step;
  }

  // ---- the cancel of the source ---------------------------------------------

  /** The cancel that completes both makes the reader cancel the source, whose answer is known at once
      unless it was readable, so that its own cancel is called. */
  lemma CancelAsked(j: TeeSources.Joint, isLeft: bool)
    requires TeeSources.JointInv(j) && !j.tee.sourceFinished && !j.tee.cancelStarted
    requires if isLeft then j.tee.rightCanceled && j.tee.left.phase.Readable?
             else j.tee.leftCanceled && j.tee.right.phase.Readable?
    ensures var k := TeeSources.JointStep(j, TeeSources.CancelAt(isLeft));
            && k.tee.cancelStarted && k.source == CancelReadable(j.source)
            && k.cancelling == Some(match j.source.phase
                                    case Readable => Awaited
                                    case Closed => Resolved
                                    case Errored(reason) => Rejected(reason))
  {
    hide CancelReadable, Inv, BranchFits;
  }

  /** That answer, or else what the source's own cancel gives, settles the cancels of the branches. */
  lemma CancelAnswered(j: TeeSources.Joint, result: Option<Reason>)
    requires TeeSources.JointInv(j) && j.cancelling.Some? && j.tee.completion.Awaited?
    ensures var t := TeeSources.JointStep(j, TeeSources.CancelReacts(result)).tee;
            t.sourceFinished
            && t.completion == match j.cancelling.value
                               case Awaited => if result.None? then Resolved else Rejected(result.value)
                               case Resolved => Resolved
                               case Rejected(reason) => Rejected(reason)
  {
    hide CancelReadable, ReadFrom, Inv, BranchFits;
  }
}
