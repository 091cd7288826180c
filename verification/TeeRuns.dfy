/** What every run of a tee keeps. */
module TeeRuns {
  import opened Options
  import opened ReadableModel
  import opened ReadableInvariants
  import opened ReadableSteps
  import opened ReadableAdvances
  import opened ReadableRuns
  import opened ReadableSignals
  import opened ReadablePhases
  import opened TeeModel

  /** A branch that was not cancelled has been given everything, and takes more until the source ends. */
  predicate BranchFits(s: Stream, canceled: bool, finished: bool, taken: seq<Item>) {
    && s.supplied <= taken
    && (!canceled ==> s.supplied == taken)
    && (canceled ==> !s.phase.Readable?)
    && (!canceled && !finished ==> Open(s))
  }

  predicate TeeInv(t: Tee) {
    && Usable(t)
    && BranchFits(t.left, t.leftCanceled, t.sourceFinished, t.taken)
    && BranchFits(t.right, t.rightCanceled, t.sourceFinished, t.taken)
    && t.sourceCancels == (if t.cancelStarted then 1 else 0)
    && (t.cancelStarted ==> t.leftCanceled && t.rightCanceled)
  }

  // ---- what a branch does under each of its calls ---------------------------

  lemma EnqueueChunkAccepts(s: Stream, item: Item)
    requires Open(s)
    ensures var c := EnqueueChunk(s, Incoming(item, None, Size(1.0)));
            c.thrown.None? && Open(c.stream) && c.stream.byteStream == s.byteStream
  {
    var t := if s.requests != [] then AnswerChunk(s, item) else Push(s, Chunk(item, 1.0));
    assert Open(t) && t.byteStream == s.byteStream;
    PullKeepsOpen(t);
    hide RequestPull, AnswerChunk, Push, Open;
  }

  /** An open stream takes a chunk the tee offers it, and stays open. */
  lemma EnqueueAccepts(s: Stream, value: seq<Item>)
    requires Inv(s) && Open(s)
    requires if s.byteStream then value != [] else |value| == 1
    ensures var c := Enqueue(s, ChunkFor(s.byteStream, value));
            && c.thrown.None? && Inv(c.stream) && c.stream.byteStream == s.byteStream
            && Open(c.stream)
            && c.stream.supplied == s.supplied + value
  {
    var chunk := ChunkFor(s.byteStream, value);
    EnqueueKeeps(s, chunk);
    EnqueueAdvances(s, chunk);
    if s.byteStream {
      EnqueueBytesAccepts(s, value);
      hide Inv, EnqueueBytes;
    } else {
      assert value == [value[0]];
      EnqueueChunkAccepts(s, value[0]);
      hide Inv, EnqueueChunk;
    }
  }

  lemma OutsideKeepsOpen(s: Stream, e: Event)
    requires Inv(s) && Outside(e) && Open(s)
    ensures Open(ReadableRuns.Step(s, e))
  {
    hide Inv, Open, ReadableRuns.Step;
    if e.StartFulfilled? || e.PullFulfilled? {
      PromisesKeepOpen(s, e);
    } else {
      ReaderKeepsOpen(s, e);
    }
  }

  /** Nothing a consumer does, short of cancelling, gives a stream data or reopens it. */
  lemma OutsideGivesNothing(s: Stream, e: Event)
    requires Inv(s) && Outside(e)
    ensures var n := ReadableRuns.Step(s, e);
            && Inv(n) && n.byteStream == s.byteStream && n.supplied == s.supplied
            && (!s.phase.Readable? ==> n.phase == s.phase)
  {
    StepKeeps(s, e);
    StepAdvances(s, e);
    hide ReadableRuns.Step, Inv;
  }

  // ---- ending a branch ------------------------------------------------------

  lemma CloseBranchKeeps(s: Stream)
    requires Inv(s)
    ensures var n := CloseBranch(s);
            && Inv(n) && n.byteStream == s.byteStream && n.supplied == s.supplied
            && (!s.phase.Readable? ==> !n.phase.Readable?)
  {
    ControllerCloseKeeps(s);
    ControllerCloseAdvances(s);
    var c := ControllerClose(s);
    if c.thrown.Some? {
      ErrorReadableKeeps(c.stream, c.thrown.value);
      ErrorAlike(c.stream, c.thrown.value);
      hide ErrorReadable;
    } else if s.byteStream && HasPullInto(c.stream) {
      assert c.stream.requests[0].Waiting();
      RespondPullIntoKeeps(c.stream, []);
      RespondPullIntoAdvances(c.stream, []);
      hide RespondPullInto;
    }
    hide ControllerClose, Inv;
  }

  lemma ErrorBranchKeeps(s: Stream, reason: Reason)
    requires Inv(s)
    ensures var n := ErrorReadable(s, reason);
            && Inv(n) && n.byteStream == s.byteStream && n.supplied == s.supplied
            && !n.phase.Readable?
  {
    ErrorReadableKeeps(s, reason);
    hide Inv;
  }

  // ---- steps of the tee -----------------------------------------------------

  lemma FinishSourceKeeps(t: Tee, failed: Option<Reason>)
    requires TeeInv(t)
    ensures TeeInv(FinishSource(t, failed))
  {
    hide Inv;
    if t.sourceFinished {
    } else if failed.Some? {
      hide ErrorReadable;
      ErrorBranchKeeps(t.left, failed.value);
      ErrorBranchKeeps(t.right, failed.value);
    } else {
      hide CloseBranch;
      CloseBranchKeeps(t.left);
      CloseBranchKeeps(t.right);
    }
  }

  lemma OfferKeeps(canceled: bool, s: Stream, value: seq<Item>, taken: seq<Item>)
    requires Inv(s) && BranchFits(s, canceled, false, taken)
    requires if s.byteStream then value != [] else |value| == 1
    ensures var c := Offer(canceled, s, ChunkFor(s.byteStream, value));
            && c.thrown.None? && Inv(c.stream) && c.stream.byteStream == s.byteStream
            && BranchFits(c.stream, canceled, false, taken + value)
  {
    if !canceled {
      EnqueueAccepts(s, value);
    }
    hide Enqueue, Inv, ChunkFor;
  }

  /** A value reaches both branches or, if one was cancelled, the other; no branch refuses it. */
  lemma ReadResolvedKeeps(t: Tee, value: seq<Item>)
    requires TeeInv(t) && ValueFits(t, value)
    ensures TeeInv(ReadResolved(t, value))
  {
    if !t.sourceFinished && !t.cancelStarted {
      OfferKeeps(t.leftCanceled, t.left, value, t.taken);
      OfferKeeps(t.rightCanceled, t.right, value, t.taken);
      hide Offer, Inv, ChunkFor, BranchFits;
    } else {
      hide Inv, BranchFits;
    }
  }

  lemma CancelBranchStream(s: Stream, canceled: bool, finished: bool, taken: seq<Item>)
    requires Inv(s) && BranchFits(s, canceled, finished, taken)
    ensures var n := CancelReadable(s);
            && Inv(n) && n.byteStream == s.byteStream
            && BranchFits(n, canceled || s.phase.Readable?, finished, taken)
  {
    CancelReadableKeeps(s);
    CancelAdvances(s);
    if s.phase.Readable? {
      CancelIs(s);
      hide CancelReadable, Inv;
    } else {
      assert CancelReadable(s) == s;
    }
  }

  lemma CancelBranchKeeps(t: Tee, isLeft: bool)
    requires TeeInv(t)
    ensures TeeInv(CancelBranch(t, isLeft))
  {
    if isLeft {
      CancelBranchStream(t.left, t.leftCanceled, t.sourceFinished, t.taken);
      hide CancelReadable, Inv, BranchFits;
    } else {
      CancelBranchStream(t.right, t.rightCanceled, t.sourceFinished, t.taken);
      hide CancelReadable, Inv, BranchFits;
    }
  }

  lemma OutsideBranch(s: Stream, e: Event, canceled: bool, finished: bool, taken: seq<Item>)
    requires Inv(s) && Outside(e) && BranchFits(s, canceled, finished, taken)
    ensures var n := ReadableRuns.Step(s, e);
            Inv(n) && n.byteStream == s.byteStream && BranchFits(n, canceled, finished, taken)
  {
    OutsideGivesNothing(s, e);
    if Open(s) {
      OutsideKeepsOpen(s, e);
    }
    hide ReadableRuns.Step, Inv;
  }

  lemma OnBranchKeeps(t: Tee, isLeft: bool, e: Event)
    requires TeeInv(t) && Outside(e)
    ensures TeeInv(OnBranch(t, isLeft, e))
  {
    hide ReadableRuns.Step, Inv, BranchFits;
    if isLeft {
      OutsideBranch(t.left, e, t.leftCanceled, t.sourceFinished, t.taken);
    } else {
      OutsideBranch(t.right, e, t.rightCanceled, t.sourceFinished, t.taken);
    }
  }

  lemma HandledKeeps(t: Tee, reading: Reading)
    requires TeeInv(t)
    ensures TeeInv(t.(reading := reading))
  {
    hide Inv, BranchFits;
  }

  lemma CancelSettledKeeps(t: Tee, result: Option<Reason>)
    requires TeeInv(t)
    ensures t.cancelStarted ==> TeeInv(CancelSettled(t, result))
  {
    hide Inv;
  }

  lemma SourceStepKeeps(t: Tee, e: TeeEvent)
    requires TeeInv(t) && !e.BranchEvent? && !e.BranchCancel?
    ensures TeeInv(TeeStep(t, e))
  {
    assert Usable(t);
    hide ReadResolved, FinishSource, CancelSettled, Inv, TeeInv, Usable;
    match e {
      case SourceValue(value) => if ValueFits(t, value) { ReadResolvedKeeps(t, value); }
      case SourceDone =>
        HandledKeeps(t, Handled);
        FinishSourceKeeps(t.(reading := Handled), None);
      case SourceReadFailed(reason) =>
        HandledKeeps(t, Handled);
        FinishSourceKeeps(t.(reading := Handled), Some(reason));
      case ReadingCleared => HandledKeeps(t, Idle);
      case SourceClosedFailed(reason) => FinishSourceKeeps(t, Some(reason));
      case SourceCancelSettled(result) => CancelSettledKeeps(t, result);
    }
  }

  lemma TeeStepKeeps(t: Tee, e: TeeEvent)
    requires TeeInv(t)
    ensures TeeInv(TeeStep(t, e))
  {
    assert Usable(t);
    hide OnBranch, TeeModel.CancelBranch, Inv, TeeInv, Usable;
    match e {
      case BranchEvent(isLeft, event) => if Outside(event) { OnBranchKeeps(t, isLeft, event); }
      case BranchCancel(isLeft) => CancelBranchKeeps(t, isLeft);
      case _ =>
        SourceStepKeeps(t, e);
        hide TeeStep;
    }
  }

  function RunTee(t: Tee, events: seq<TeeEvent>): (u: Tee)
    requires TeeInv(t)
    ensures TeeInv(u)
    decreases |events|
  {
    if events == [] then t
    else
      TeeStepKeeps(t, events[0]);
      RunTee(TeeStep(t, events[0]), events[1..])
  }

  /** The value a step takes from the source: one that some branch still wants. */
  function Takes(t: Tee, e: TeeEvent): seq<Item> {
    if e.SourceValue? && t.reading.Awaiting? && ValueFits(t, e.value) && !t.sourceFinished && !t.cancelStarted
    then e.value else []
  }

  /** The values the source's reads gave while some branch still wanted them. */
  function Taken(t: Tee, events: seq<TeeEvent>): seq<Item>
    requires TeeInv(t)
    decreases |events|
  {
    if events == [] then []
    else
      TeeStepKeeps(t, events[0]);
      Takes(t, events[0]) + Taken(TeeStep(t, events[0]), events[1..])
  }

  lemma ValueTakes(t: Tee, value: seq<Item>)
    requires Usable(t) && value != []
    ensures ReadResolved(t, value).taken == if t.sourceFinished || t.cancelStarted then t.taken else t.taken + value
  {
    hide Inv, Offer, ErrorReadable, ChunkFor;
  }

  lemma StepTakes(t: Tee, e: TeeEvent)
    requires TeeInv(t)
    ensures TeeStep(t, e).taken == t.taken + Takes(t, e)
  {
    hide Inv, BranchFits, CloseBranch, ErrorReadable, CancelReadable, ReadableRuns.Step;
    match e {
      case SourceValue(value) =>
        if t.reading.Awaiting? && ValueFits(t, value) {
          ValueTakes(t, value);
          hide ReadResolved;
        }
      case BranchEvent(_, _) => hide ReadResolved;
      case BranchCancel(_) => hide ReadResolved;
      case _ => hide ReadResolved;
    }
  }

  lemma {:induction false} RunTakes(t: Tee, events: seq<TeeEvent>)
    requires TeeInv(t)
    ensures RunTee(t, events).taken == t.taken + Taken(t, events)
    decreases |events|
  {
    hide TeeStep, Takes, Inv, BranchFits;
    if events != [] {
      TeeStepKeeps(t, events[0]);
      StepTakes(t, events[0]);
      RunTakes(TeeStep(t, events[0]), events[1..]);
    }
  }

  lemma SplitHolds(byteStream: bool)
    ensures TeeInv(Split(byteStream))
  {
    InitialHolds(byteStream, 0, Finite(if byteStream then 0.0 else 1.0), true);
    hide Inv;
  }

  /** The state of a tee after a run. */
  function ReachedTee(byteStream: bool, events: seq<TeeEvent>): (t: Tee)
    ensures TeeInv(t)
  {
    SplitHolds(byteStream);
    RunTee(Split(byteStream), events)
  }

  function TakenByTee(byteStream: bool, events: seq<TeeEvent>): seq<Item> {
    SplitHolds(byteStream);
    Taken(Split(byteStream), events)
  }

  lemma ReachedTakes(byteStream: bool, events: seq<TeeEvent>)
    ensures ReachedTee(byteStream, events).taken == TakenByTee(byteStream, events)
  {
    SplitHolds(byteStream);
    RunTakes(Split(byteStream), events);
    hide RunTee, Taken, TeeInv;
  }

  lemma DeliveredPrefix(s: Stream)
    requires Inv(s)
    ensures Delivered(s.settled) <= s.supplied
  {
    hide Delivered, Contents, Sound, Ordered, AllWhole, Served;
  }

  /** Both branches get the chunks the source gave: all of them while not cancelled, the first
      ones after a cancel; what their readers see is a prefix of that; and the source is
      cancelled at most once, after both branches were. */
  lemma BothBranchesGetAll(byteStream: bool, events: seq<TeeEvent>)
    ensures var t := ReachedTee(byteStream, events);
            var taken := TakenByTee(byteStream, events);
            && (!t.leftCanceled ==> t.left.supplied == taken)
            && (!t.rightCanceled ==> t.right.supplied == taken)
            && t.left.supplied <= taken && t.right.supplied <= taken
            && Delivered(t.left.settled) <= taken && Delivered(t.right.settled) <= taken
            && t.sourceCancels <= 1
            && (t.sourceCancels == 1 ==> t.leftCanceled && t.rightCanceled)
  {
    ReachedTakes(byteStream, events);
    var t := ReachedTee(byteStream, events);
    DeliveredPrefix(t.left);
    DeliveredPrefix(t.right);
    hide ReachedTee, TakenByTee, Inv, Delivered;
  }

  // ---- nothing is lost ------------------------------------------------------

  /** A branch is cancelled only by a cancel of that branch. */
  predicate Attended(t: Tee) {
    (t.left.cancelled ==> t.leftCanceled) && (t.right.cancelled ==> t.rightCanceled)
  }

  lemma CloseBranchAttended(s: Stream)
    requires Inv(s)
    ensures CloseBranch(s).cancelled == s.cancelled
  {
    ControllerCloseKeeps(s);
    hide ErrorReadable, RespondPullInto, CloseReadable;
    assert AllShaped(s.requests);
    CloseTells(s.(closeRequested := true));
    var c := ControllerClose(s);
    if c.thrown.Some? {
      ErrorTells(c.stream, c.thrown.value);
    } else if s.byteStream && HasPullInto(c.stream) {
      RespondTells(c.stream, []);
    }
    hide ControllerClose, Inv;
  }

  lemma FinishAttended(t: Tee, failed: Option<Reason>)
    requires Usable(t) && Attended(t)
    ensures Attended(FinishSource(t, failed))
  {
    hide Inv, CloseBranch, ErrorReadable;
    if failed.Some? {
      ErrorTells(t.left, failed.value);
      ErrorTells(t.right, failed.value);
    } else {
      CloseBranchAttended(t.left);
      CloseBranchAttended(t.right);
    }
  }

  lemma OfferAttended(canceled: bool, s: Stream, chunk: Incoming)
    requires Inv(s)
    ensures Offer(canceled, s, chunk).stream.cancelled == s.cancelled
  {
    EnqueueTells(s, chunk);
    hide Inv, Enqueue;
  }

  lemma ValueAttended(t: Tee, value: seq<Item>)
    requires TeeInv(t) && ValueFits(t, value) && Attended(t)
    ensures Attended(ReadResolved(t, value))
  {
    var chunk := ChunkFor(t.byteStream, value);
    OfferAttended(t.leftCanceled, t.left, chunk);
    OfferAttended(t.rightCanceled, t.right, chunk);
    if !t.sourceFinished && !t.cancelStarted {
      OfferKeeps(t.leftCanceled, t.left, value, t.taken);
      OfferKeeps(t.rightCanceled, t.right, value, t.taken);
    }
    hide Inv, Offer, ChunkFor, BranchFits, ErrorReadable;
  }

  lemma OnBranchAttended(t: Tee, isLeft: bool, e: Event)
    requires Usable(t) && Outside(e) && Attended(t)
    ensures Attended(OnBranch(t, isLeft, e))
  {
    hide Inv, ReadableRuns.Step;
    if isLeft {
      StepTells(t.left, e);
    } else {
      StepTells(t.right, e);
    }
  }

  lemma CancelAttended(t: Tee, isLeft: bool)
    requires Usable(t) && Attended(t)
    ensures Attended(CancelBranch(t, isLeft))
  {
    hide Inv, CloseReadable;
  }

  lemma StepAttended(t: Tee, e: TeeEvent)
    requires TeeInv(t) && Attended(t)
    ensures Attended(TeeStep(t, e))
  {
    hide Inv, ReadResolved, FinishSource, CancelBranch, OnBranch, BranchFits;
    match e {
      case BranchEvent(isLeft, event) => if Outside(event) { OnBranchAttended(t, isLeft, event); }
      case BranchCancel(isLeft) => CancelAttended(t, isLeft);
      case SourceValue(value) => if ValueFits(t, value) { ValueAttended(t, value); }
      case SourceDone => FinishAttended(t.(reading := Handled), None);
      case SourceReadFailed(reason) => FinishAttended(t.(reading := Handled), Some(reason));
      case SourceClosedFailed(reason) => FinishAttended(t, Some(reason));
      case _ =>
    }
  }

  lemma {:induction false} RunAttended(t: Tee, events: seq<TeeEvent>)
    requires TeeInv(t) && Attended(t)
    ensures Attended(RunTee(t, events))
    decreases |events|
  {
    hide TeeStep, Attended, Inv, BranchFits;
    if events != [] {
      TeeStepKeeps(t, events[0]);
      StepAttended(t, events[0]);
      RunAttended(TeeStep(t, events[0]), events[1..]);
    }
  }

  /** What a branch that did not fail was given is delivered, in a buffer, or queued; a read was
      told "done" only when nothing was left to give. */
  predicate GivesAll(s: Stream, taken: seq<Item>) {
    && Ledger(s) == taken
    && (forall i | 0 <= i < |s.settled| && (s.settled[i].Finished? || (s.settled[i].Answered? && s.settled[i].done)) ::
          s.phase.Closed? && Delivered(s.settled) + HeadFilled(s.requests) == taken)
  }

  lemma BranchWhole(s: Stream, finished: bool, taken: seq<Item>)
    requires Inv(s) && BranchFits(s, false, finished, taken) && !s.cancelled && !s.phase.Errored?
    ensures GivesAll(s, taken)
  {
    assert s.phase.Closed? ==> s.queue == [];
    assert AllWhole(s.phase, s.byteStream, s.settled);
    forall i | 0 <= i < |s.settled| && (s.settled[i].Finished? || (s.settled[i].Answered? && s.settled[i].done))
      ensures s.phase.Closed?
    {
      assert WholeAnswer(s.phase, s.byteStream, s.settled[i]);
    }
    assert Contents([]) == [];
    assert Ledger(s) == s.supplied;
    hide Sound, History, Served, Delivered, AllWhole, WholeAnswer, Contents;
    assert Delivered(s.settled) + HeadFilled(s.requests) + [] == Delivered(s.settled) + HeadFilled(s.requests);
  }

  /** In every run, also after the source ended: for a branch that was neither cancelled nor
      errored, what was taken from the source is exactly what the branch delivered, holds in a
      buffer, or has queued; and its readers hear "done" only after all of it. */
  lemma NothingLostInTheTee(byteStream: bool, events: seq<TeeEvent>)
    ensures var t := ReachedTee(byteStream, events);
            var taken := TakenByTee(byteStream, events);
            && (!t.leftCanceled && !t.left.phase.Errored? ==> GivesAll(t.left, taken))
            && (!t.rightCanceled && !t.right.phase.Errored? ==> GivesAll(t.right, taken))
  {
    ReachedTakes(byteStream, events);
    SplitHolds(byteStream);
    assert Attended(Split(byteStream));
    RunAttended(Split(byteStream), events);
    var t := ReachedTee(byteStream, events);
    assert Attended(t);
    hide ReachedTee, TakenByTee, Inv, RunTee, GivesAll;
    if !t.leftCanceled && !t.left.phase.Errored? {
      BranchWhole(t.left, t.sourceFinished, t.taken);
    }
    if !t.rightCanceled && !t.right.phase.Errored? {
      BranchWhole(t.right, t.sourceFinished, t.taken);
    }
  }

  // ---- what a cancel of a branch is told ------------------------------------

  /** The shared promise is open until the source is done with, and then open only while the
      source's own cancel is. */
  predicate Completes(t: Tee) {
    && (!t.sourceFinished ==> t.completion.Awaited?)
    && (t.sourceFinished && t.completion.Awaited? ==> t.cancelStarted)
    && (t.completion.Rejected? ==> t.cancelStarted)
  }

  lemma FinishCompletes(t: Tee, failed: Option<Reason>)
    requires Usable(t) && Completes(t)
    ensures Completes(FinishSource(t, failed))
  {
    hide Inv, CloseBranch, ErrorReadable;
  }

  lemma ValueCompletes(t: Tee, value: seq<Item>)
    requires Usable(t) && value != [] && Completes(t)
    ensures Completes(ReadResolved(t, value))
  {
    hide Inv, Offer, ErrorReadable, ChunkFor;
  }

  lemma StepCompletes(t: Tee, e: TeeEvent)
    requires Usable(t) && Completes(t)
    ensures Completes(TeeStep(t, e))
  {
    hide Inv, ReadResolved, FinishSource, CancelReadable, ReadableRuns.Step;
    match e {
      case SourceValue(value) => if ValueFits(t, value) { ValueCompletes(t, value); }
      case SourceDone => FinishCompletes(t.(reading := Handled), None);
      case SourceReadFailed(reason) => FinishCompletes(t.(reading := Handled), Some(reason));
      case SourceClosedFailed(reason) => FinishCompletes(t, Some(reason));
      case _ =>
    }
  }

  lemma {:induction false} RunCompletes(t: Tee, events: seq<TeeEvent>)
    requires TeeInv(t) && Completes(t)
    ensures Completes(RunTee(t, events))
    decreases |events|
  {
    hide TeeStep, Completes, Inv, BranchFits;
    if events != [] {
      TeeStepKeeps(t, events[0]);
      StepCompletes(t, events[0]);
      RunCompletes(TeeStep(t, events[0]), events[1..]);
    }
  }

  /** In every run: the promise of a cancel is open until the source is done with, and after it
      only while the source's own cancel is. */
  lemma CancelsComplete(byteStream: bool, events: seq<TeeEvent>)
    ensures Completes(ReachedTee(byteStream, events))
  {
    SplitHolds(byteStream);
    assert Completes(Split(byteStream));
    RunCompletes(Split(byteStream), events);
    hide RunTee, TeeInv, Completes;
  }
}
