/** What every run of a writable stream keeps. */
module WritableRuns {
  import opened Options
  import opened ReadableModel
  import opened WritableModel

  /** The sizes of the operations whose promises are open. */
  function Unsettled(jobs: seq<Job>): real {
    if jobs == [] then 0.0 else jobs[0].task.Size() + Unsettled(jobs[1..])
  }

  /** How many operations the chain has had so far. */
  function Length(s: Sink): nat {
    |s.outcomes| + |s.jobs|
  }

  /** The i-th operation of the chain, settled or not. */
  function Nth(s: Sink, i: nat): Task
    requires i < Length(s)
  {
    if i < |s.outcomes| then s.outcomes[i].task else s.jobs[i - |s.outcomes|].task
  }

  /** The chain is `start`, then the accepted writes in order, then `close`. */
  predicate Expected(s: Sink, i: nat, task: Task) {
    if i == 0 then task.Start?
    else if i <= s.nextId then task.Write? && task.id == i - 1 && task.size >= 0.0
    else task.Close?
  }

  predicate InOrder(s: Sink) {
    && Length(s) == 1 + s.nextId + (if s.closeQueued then 1 else 0)
    && (forall i | 0 <= i < Length(s) :: Expected(s, i, Nth(s, i)))
  }

  /** Only the head of the chain has begun, and it has begun only if it is `start` or was let in. */
  predicate OneAtATime(s: Sink) {
    && (forall i | 0 < i < |s.jobs| :: s.jobs[i].progress.Pending?)
    && (s.outcomes == [] ==> s.jobs != [] && !s.jobs[0].progress.Pending?)
  }

  /** How many operations have begun. */
  function Begun(s: Sink): nat {
    |s.outcomes| + (if s.jobs != [] && !s.jobs[0].progress.Pending? then 1 else 0)
  }

  /** The sink is called for operation after operation, and until an error for every one. */
  predicate CallsInOrder(s: Sink) {
    && |s.calls| < Begun(s)
    && (!s.everErrored ==> |s.calls| == Begun(s) - 1)
    && (forall i | 0 <= i < |s.calls| :: s.calls[i] == if i < s.nextId then SinkWrite(i) else SinkClose)
  }

  predicate ErrorsKnown(s: Sink) {
    && (s.condition.Writable? ==> !s.everErrored)
    && (s.condition.Failing? ==> s.everErrored)
    && (s.condition.Ended? ==> s.jobs == [] && s.closeQueued)
    && (s.chainError.Some? ==> s.condition.Failing?)
    && (!s.everErrored ==> forall i | 0 <= i < |s.outcomes| :: s.outcomes[i].result.None?)
    && (s.condition.Writable? ==> forall i | 0 <= i < |s.outcomes| :: !s.outcomes[i].task.Close?)
  }

  /** While the stream is writable its total and its writer's readiness tell the truth. */
  predicate Accounted(s: Sink) {
    s.condition.Writable? ==>
      && s.queueTotalSize == Unsettled(s.jobs)
      && (s.writer.Some? ==> s.writer.value == Backpressure(s))
  }

  predicate Inv(s: Sink) {
    InOrder(s) && OneAtATime(s) && CallsInOrder(s) && ErrorsKnown(s) && Accounted(s)
  }

  // ---- steps ----------------------------------------------------------------

  lemma {:induction false} UnsettledPush(jobs: seq<Job>, job: Job)
    ensures Unsettled(jobs + [job]) == Unsettled(jobs) + job.task.Size()
  {
    if jobs == [] {
      assert jobs + [job] == [job];
    } else {
      assert (jobs + [job])[1..] == jobs[1..] + [job];
      UnsettledPush(jobs[1..], job);
    }
  }

  lemma {:induction false} UnsettledNonNegative(jobs: seq<Job>)
    requires forall i | 0 <= i < |jobs| :: jobs[i].task.Size() >= 0.0
    ensures Unsettled(jobs) >= 0.0
  {
    if jobs != [] {
      UnsettledNonNegative(jobs[1..]);
    }
  }

  lemma ErrorKeeps(s: Sink, reason: Reason)
    requires Inv(s)
    ensures Inv(ErrorWritable(s, reason))
  {
    if s.condition.Writable? {
      var t := ErrorWritable(s, reason);
      assert forall i | 0 <= i < Length(t) :: Nth(t, i) == Nth(s, i);
    }
  }

  /** A new operation at the end of the chain. */
  lemma AppendKeeps(s: Sink, t: Sink, task: Task)
    requires InOrder(s) && OneAtATime(s) && CallsInOrder(s) && s.condition.Writable? && !s.closeQueued
    requires t.jobs == s.jobs + [Job(task, Pending)] && t.outcomes == s.outcomes && t.calls == s.calls
    requires t.everErrored == s.everErrored
    requires if task.Close? then t.nextId == s.nextId && t.closeQueued
             else t.nextId == s.nextId + 1 && !t.closeQueued && task.Write? && task.id == s.nextId && task.size >= 0.0
    ensures InOrder(t) && OneAtATime(t) && CallsInOrder(t)
  {
    forall i | 0 <= i < Length(t)
      ensures Expected(t, i, Nth(t, i))
    {
      if i < Length(s) {
        assert Nth(t, i) == Nth(s, i) && Expected(s, i, Nth(s, i));
      }
    }
    assert s.jobs == [] || t.jobs[0] == s.jobs[0];
    hide Expected;
  }

  lemma WriteKeeps(s: Sink, size: Measure)
    requires Inv(s)
    ensures Inv(WriteWritable(s, size).sink)
  {
    if s.condition.Writable? && !s.closeQueued {
      if size.Raises? {
        ErrorKeeps(s, size.reason);
      } else if size.NotANumber? || size.amount < 0.0 {
        ErrorKeeps(s, BadChunkSize);
      } else {
        var job := Job(Write(s.nextId, size.amount), Pending);
        AppendKeeps(s, WriteWritable(s, size).sink, job.task);
        UnsettledPush(s.jobs, job);
        hide Unsettled, InOrder, OneAtATime, CallsInOrder;
      }
    }
  }

  lemma CloseKeeps(s: Sink)
    requires Inv(s)
    ensures Inv(CloseWritable(s).sink)
  {
    if s.condition.Writable? && !s.closeQueued {
      AppendKeeps(s, CloseWritable(s).sink, Close);
      UnsettledPush(s.jobs, Job(Close, Pending));
      hide Unsettled, InOrder, OneAtATime, CallsInOrder;
    }
  }

  /** Changing how far the head is does not change the chain. */
  lemma ProgressKeeps(s: Sink, t: Sink)
    requires Inv(s) && s.jobs != [] && t.jobs != []
    requires t.jobs == [Job(s.jobs[0].task, t.jobs[0].progress)] + s.jobs[1..]
    requires !t.jobs[0].progress.Pending?
    requires t == s.(jobs := t.jobs, calls := t.calls)
    ensures InOrder(t) && OneAtATime(t) && ErrorsKnown(t) && Accounted(t)
  {
    assert forall i | 0 <= i < Length(t) :: Nth(t, i) == Nth(s, i);
    assert t.jobs[1..] == s.jobs[1..];
    hide Expected;
  }

  lemma BeginKeeps(s: Sink)
    requires Inv(s) && s.jobs != [] && s.jobs[0].progress.Pending?
    ensures Inv(Begin(s))
    ensures Begin(s).calls != s.calls ==> s.condition.Writable?
  {
    ProgressKeeps(s, Begin(s));
    assert Expected(s, |s.outcomes|, Nth(s, |s.outcomes|));
    assert !s.condition.Ended?;
    hide Unsettled, InOrder, OneAtATime, Accounted;
  }

  lemma SinkSettlesKeeps(s: Sink, result: Option<Reason>)
    requires Inv(s) && s.jobs != [] && s.jobs[0].progress.Running?
    ensures Inv(SinkSettles(s, result))
  {
    ProgressKeeps(s, SinkSettles(s, result));
    hide InOrder, OneAtATime, Accounted, ErrorsKnown;
  }

  lemma PoppedKeeps(s: Sink)
    requires Inv(s) && s.jobs != [] && s.jobs[0].progress.Settled?
    ensures InOrder(Popped(s)) && OneAtATime(Popped(s)) && CallsInOrder(Popped(s))
    ensures s.jobs[0].task.Close? <==> |s.jobs| == 1 && s.closeQueued
  {
    var t := Popped(s);
    assert forall i | 0 <= i < Length(t) :: Nth(t, i) == Nth(s, i);
    assert Expected(s, |s.outcomes|, Nth(s, |s.outcomes|));
    if |s.jobs| > 1 {
      assert Expected(s, |s.outcomes| + 1, Nth(s, |s.outcomes| + 1));
    }
  }

  /** The reaction changes the condition and the accounts, not the chain. */
  lemma SameChain(s: Sink, t: Sink)
    requires InOrder(s) && OneAtATime(s) && CallsInOrder(s)
    requires t.jobs == s.jobs && t.outcomes == s.outcomes && t.calls == s.calls
    requires t.nextId == s.nextId && t.closeQueued == s.closeQueued && (s.everErrored ==> t.everErrored)
    ensures InOrder(t) && OneAtATime(t) && CallsInOrder(t)
  {
    assert forall i | 0 <= i < Length(t) :: Nth(t, i) == Nth(s, i);
  }

  lemma SizesNonNegative(s: Sink)
    requires InOrder(s)
    ensures forall i | 0 <= i < |s.jobs| :: s.jobs[i].task.Size() >= 0.0
  {
    forall i | 0 <= i < |s.jobs|
      ensures s.jobs[i].task.Size() >= 0.0
    {
      assert Expected(s, |s.outcomes| + i, Nth(s, |s.outcomes| + i));
    }
  }

  lemma ReactAccounted(s: Sink)
    requires Inv(s) && s.jobs != [] && s.jobs[0].progress.Settled?
    ensures Accounted(React(s))
  {
    SizesNonNegative(s);
    UnsettledNonNegative(s.jobs[1..]);
    if s.jobs[0].task.Write? && s.jobs[0].progress.result.None? {
    } else {
    }
  }

  lemma ReactErrorsKnown(s: Sink)
    requires Inv(s) && s.jobs != [] && s.jobs[0].progress.Settled?
    ensures ErrorsKnown(React(s))
  {
    PoppedKeeps(s);
    if s.jobs[0].progress.result.Some? {
    } else if s.jobs[0].task.Write? {
    } else if s.jobs[0].task.Close? {
    } else {
    }
    hide Expected, Reduce, Backpressure;
  }

  lemma ReactKeeps(s: Sink)
    requires Inv(s) && s.jobs != [] && s.jobs[0].progress.Settled?
    ensures Inv(React(s))
  {
    PoppedKeeps(s);
    ReactAccounted(s);
    ReactErrorsKnown(s);
    SameChain(Popped(s), React(s));
    hide InOrder, OneAtATime, CallsInOrder, ErrorsKnown, Accounted;
  }

  lemma StepKeeps(s: Sink, e: Event)
    requires Inv(s)
    ensures Inv(Step(s, e))
  {
    match e {
      case CallWrite(size) => WriteKeeps(s, size);
      case CallClose => CloseKeeps(s);
      case CallAbort(reason) => ErrorKeeps(s, reason);
      case ControllerError(reason) => ErrorKeeps(s, reason);
      case AttachWriter => SameChain(s, GetWriter(s).sink);
      case DetachWriter => SameChain(s, ReleaseWriter(s));
      case LinkBegins => if s.jobs != [] && s.jobs[0].progress.Pending? { BeginKeeps(s); }
      case SinkPromise(result) => if s.jobs != [] && s.jobs[0].progress.Running? { SinkSettlesKeeps(s, result); }
      case LinkReacts => if s.jobs != [] && s.jobs[0].progress.Settled? { ReactKeeps(s); }
    }
    hide InOrder, OneAtATime, CallsInOrder, WriteWritable, CloseWritable, ErrorWritable, Begin, SinkSettles, React;
  }

  lemma {:induction false} RunKeeps(s: Sink, events: seq<Event>)
    requires Inv(s)
    ensures Inv(Run(s, events))
    decreases |events|
  {
    if events != [] {
      StepKeeps(s, events[0]);
      hide Inv, Step;
      RunKeeps(Step(s, events[0]), events[1..]);
    }
  }

  // ---- the claims -----------------------------------------------------------

  lemma Reachable(highWaterMark: Mark, events: seq<Event>)
    ensures Inv(Run(Constructed(highWaterMark), events))
  {
    RunKeeps(Constructed(highWaterMark), events);
    hide Run;
  }

  /** In every run the sink sees the accepted writes once each in submission order, and its
      close only after every one of them; promises settle in the same order. */
  lemma Serialised(highWaterMark: Mark, events: seq<Event>)
    ensures var s := Run(Constructed(highWaterMark), events);
            && (forall i | 0 <= i < |s.calls| :: s.calls[i] == if i < s.nextId then SinkWrite(i) else SinkClose)
            && |s.calls| <= s.nextId + (if s.closeQueued then 1 else 0)
            && (SinkClose in s.calls ==> s.closeQueued && |s.calls| == s.nextId + 1)
            && (forall i | 0 < i < |s.outcomes| ::
                  if i <= s.nextId then s.outcomes[i].task.Write? && s.outcomes[i].task.id == i - 1
                  else s.outcomes[i].task.Close?)
  {
    Reachable(highWaterMark, events);
    var s := Run(Constructed(highWaterMark), events);
    forall i | 0 < i < |s.outcomes|
      ensures if i <= s.nextId then s.outcomes[i].task.Write? && s.outcomes[i].task.id == i - 1
              else s.outcomes[i].task.Close?
    {
      assert Expected(s, i, Nth(s, i));
    }
    hide Run, Accounted, ErrorsKnown;
  }

  /** The sink is called only while the stream is writable and has never been errored, when
      nothing else runs and everything before has been fulfilled. */
  lemma CallsStartAlone(highWaterMark: Mark, events: seq<Event>, next: Event)
    requires var s := Run(Constructed(highWaterMark), events); Step(s, next).calls != s.calls
    ensures var s := Run(Constructed(highWaterMark), events);
            var t := Step(s, next);
            && s.condition.Writable? && !s.everErrored
            && (forall i | 0 <= i < |s.jobs| :: s.jobs[i].progress.Pending?)
            && (forall i | 0 <= i < |s.outcomes| :: s.outcomes[i].result.None?)
            && |t.calls| == |s.calls| + 1 && t.calls[..|s.calls|] == s.calls
            && |s.calls| + 1 == |s.outcomes|
  {
    Reachable(highWaterMark, events);
    var s := Run(Constructed(highWaterMark), events);
    if next.LinkBegins? {
      BeginKeeps(s);
      assert Expected(s, |s.outcomes|, Nth(s, |s.outcomes|));
      hide Run, Accounted, InOrder;
    } else {
      CallsUntouched(s, next);
      hide Run, Inv;
    }
  }

  lemma CallsUntouched(s: Sink, e: Event)
    requires !e.LinkBegins?
    ensures Step(s, e).calls == s.calls
  {
    match e {
      case CallWrite(size) =>
      case CallClose =>
      case LinkReacts =>
      case AttachWriter =>
      case _ =>
    }
  }

  lemma StaysErrored(s: Sink, e: Event)
    requires Inv(s) && s.everErrored
    ensures Step(s, e).everErrored && Step(s, e).calls == s.calls
  {
    if e.LinkBegins? {
      if s.jobs != [] && s.jobs[0].progress.Pending? {
        BeginKeeps(s);
      }
    } else {
      CallsUntouched(s, e);
      match e {
        case CallWrite(size) =>
        case LinkReacts =>
        case AttachWriter =>
        case _ =>
      }
    }
    hide InOrder, OneAtATime, CallsInOrder, Accounted;
  }

  /** Once errored, never writable again, and the sink is never called again. */
  lemma {:induction false} ErroredIsFinal(s: Sink, events: seq<Event>)
    requires Inv(s) && s.everErrored
    ensures Run(s, events).everErrored && !Run(s, events).condition.Writable? && Run(s, events).calls == s.calls
    decreases |events|
  {
    if events != [] {
      var t := Step(s, events[0]);
      StepKeeps(s, events[0]);
      StaysErrored(s, events[0]);
      hide Step, InOrder, OneAtATime, CallsInOrder, Accounted;
      ErroredIsFinal(t, events[1..]);
    }
  }

  /** While the stream is writable its total is the sum of the open writes, and the writer's
      `ready` is pending exactly when that sum reaches the high-water mark. */
  lemma Backpressured(highWaterMark: Mark, events: seq<Event>)
    ensures var s := Run(Constructed(highWaterMark), events);
            s.condition.Writable? ==>
              && s.queueTotalSize == Unsettled(s.jobs)
              && (s.writer.Some? ==>
                    (s.writer.value <==> s.highWaterMark.Finite? && Unsettled(s.jobs) >= s.highWaterMark.limit))
  {
    Reachable(highWaterMark, events);
    hide Run, Unsettled, InOrder, OneAtATime, CallsInOrder, ErrorsKnown;
  }

  /** The sink's close is running, or was fulfilled and awaits its reaction. */
  predicate Closing(s: Sink) {
    s.jobs != [] && s.jobs[0].task.Close? && (s.jobs[0].progress.Running? || s.jobs[0].progress == Settled(None))
  }

  /** Such a run: the sink's close is called, the controller errors the stream, the close is
      fulfilled. */
  lemma CloseWinsOverError(highWaterMark: Mark, reason: Reason) returns (events: seq<Event>)
    ensures ControllerError(reason) in events
    ensures Run(Constructed(highWaterMark), events).everErrored && Run(Constructed(highWaterMark), events).condition.Ended?
  {
    var c := Constructed(highWaterMark);
    var started, closing := [SinkPromise(None), LinkReacts], [CallClose, LinkBegins];
    var failed := [ControllerError(reason)];
    RunTwo(c, SinkPromise(None), LinkReacts);
    var s := Run(c, started);
    var t := ClosingRuns(s);
    RunOne(t, ControllerError(reason));
    var u := ErrorWritable(t, reason);
    hide Run;
    var closed := FulfilledClose(u);
    RunConcat(c, started, closing);
    RunConcat(c, started + closing, failed);
    RunConcat(c, started + closing + failed, closed);
    events := started + closing + failed + closed;
    assert events[4] == ControllerError(reason);
  }

  lemma ClosingRuns(s: Sink) returns (t: Sink)
    requires s.jobs == [] && s.condition.Writable? && !s.closeQueued && s.chainError.None? && !s.everErrored
    ensures t == Run(s, [CallClose, LinkBegins])
    ensures t.jobs == [Job(Close, Running)] && t.condition.Writable? && !t.everErrored
  {
    t := Run(s, [CallClose, LinkBegins]);
    RunTwo(s, CallClose, LinkBegins);
    hide Run;
  }

  lemma FulfilledClose(s: Sink) returns (events: seq<Event>)
    requires s.jobs == [Job(Close, Running)] && s.everErrored
    ensures Run(s, events).everErrored && Run(s, events).condition.Ended?
  {
    events := [SinkPromise(None), LinkReacts];
    RunTwo(s, SinkPromise(None), LinkReacts);
    hide Run;
  }

  lemma RunTwo(s: Sink, a: Event, b: Event)
    ensures Run(s, [a, b]) == Step(Step(s, a), b)
  {
    hide Step;
    assert [a, b][1..] == [b] && [b][1..] == [];
    assert Run(Step(s, a), [b]) == Run(Step(Step(s, a), b), []);
  }

  lemma {:induction false} RunConcat(s: Sink, a: seq<Event>, b: seq<Event>)
    ensures Run(s, a + b) == Run(Run(s, a), b)
    decreases |a|
  {
    hide Step;
    if a == [] {
      assert a + b == b;
    } else {
      assert (a + b)[1..] == a[1..] + b;
      RunConcat(Step(s, a[0]), a[1..], b);
    }
  }

  lemma NotClosingStep(s: Sink, e: Event)
    requires Inv(s) && s.condition.Failing? && !Closing(s)
    ensures Step(s, e).condition.Failing? && !Closing(Step(s, e))
  {
    match e {
      case LinkBegins =>
      case SinkPromise(result) =>
      case LinkReacts =>
        if s.jobs != [] && s.jobs[0].progress.Settled? {
          if |s.jobs| > 1 {
            assert s.jobs[1].progress.Pending?;
          }
        }
      case CallWrite(size) =>
      case CallClose =>
      case AttachWriter =>
      case _ =>
    }
    hide InOrder, CallsInOrder, Accounted, Backpressure, Reduce;
  }

  /** And that is the only way: an errored stream whose close is not under way stays errored. */
  lemma {:induction false} ErroredStaysErrored(s: Sink, events: seq<Event>)
    requires Inv(s) && s.condition.Failing? && !Closing(s)
    ensures Run(s, events).condition.Failing?
    decreases |events|
  {
    if events != [] {
      StepKeeps(s, events[0]);
      NotClosingStep(s, events[0]);
      hide Inv, Step, Closing;
      ErroredStaysErrored(Step(s, events[0]), events[1..]);
    }
  }

  /** If the sink fulfils a close that is under way, the stream becomes closed, errored or not. */
  lemma ClosingEnds(s: Sink) returns (events: seq<Event>)
    requires Inv(s) && Closing(s)
    ensures Run(s, events).condition.Ended?
  {
    if s.jobs[0].progress.Running? {
      events := [SinkPromise(None), LinkReacts];
      RunTwo(s, SinkPromise(None), LinkReacts);
    } else {
      events := [LinkReacts];
      assert events[1..] == [] && Run(s, events) == Run(Step(s, LinkReacts), []);
    }
    hide Run;
  }

  /** An errored stream can become closed if and only if its close is already under way. */
  lemma ErroredCanClose(s: Sink)
    requires Inv(s) && s.condition.Failing?
    ensures (exists events: seq<Event> :: Run(s, events).condition.Ended?) <==> Closing(s)
  {
    hide Inv, Run;
    if Closing(s) {
      var events := ClosingEnds(s);
    } else {
      forall events: seq<Event>
        ensures Run(s, events).condition.Failing?
      {
        ErroredStaysErrored(s, events);
      }
    }
  }

  // ---- readiness outside the writable state ---------------------------------

  /** What makes `ready` pending once the stream is not writable: a writer is attached, or a
      write that was already running is fulfilled. */
  predicate Disturbs(s: Sink, e: Event) {
    && !s.condition.Writable?
    && ((e.AttachWriter? && s.writer.None?)
        || (e.LinkReacts? && s.jobs != [] && s.jobs[0].task.Write? && s.jobs[0].progress == Settled(None)))
  }

  /** Some step of the run disturbed it. */
  predicate Disturbed(highWaterMark: Mark, events: seq<Event>) {
    exists k | 0 <= k < |events| :: Disturbs(Run(Constructed(highWaterMark), events[..k]), events[k])
  }

  lemma DisturbedPush(highWaterMark: Mark, events: seq<Event>, e: Event)
    ensures Disturbed(highWaterMark, events + [e])
       <==> Disturbed(highWaterMark, events) || Disturbs(Run(Constructed(highWaterMark), events), e)
  {
    hide Run, Disturbs;
    var longer := events + [e];
    assert longer[..|events|] == events;
    forall k | 0 <= k < |events|
      ensures longer[..k] == events[..k] && longer[k] == events[k]
    {
    }
    if Disturbed(highWaterMark, events) {
      var k :| 0 <= k < |events| && Disturbs(Run(Constructed(highWaterMark), events[..k]), events[k]);
      assert Disturbs(Run(Constructed(highWaterMark), longer[..k]), longer[k]);
    }
    if Disturbs(Run(Constructed(highWaterMark), events), e) {
      assert Disturbs(Run(Constructed(highWaterMark), longer[..|events|]), longer[|events|]);
    }
  }

  predicate MarkReached(s: Sink) {
    s.highWaterMark.Finite? && s.queueTotalSize >= s.highWaterMark.limit
  }

  /** Outside `writable` nothing is queued, and `ready` is pending when a step disturbed it or
      when the stream closed, never errored, with a mark of zero. */
  predicate Readiness(s: Sink, disturbed: bool) {
    !s.condition.Writable? ==>
      && s.queueTotalSize == 0.0
      && (s.writer.Some? ==> (s.writer.value <==> disturbed || (!s.everErrored && MarkReached(s))))
  }

  lemma ReadinessReact(s: Sink, disturbed: bool)
    requires Inv(s) && s.jobs != [] && s.jobs[0].progress.Settled?
    requires Readiness(s, disturbed) && (s.condition.Writable? ==> !disturbed)
    ensures Readiness(React(s), disturbed || Disturbs(s, LinkReacts))
    ensures React(s).condition.Writable? ==> s.condition.Writable?
    ensures React(s).highWaterMark == s.highWaterMark
  {
    SizesNonNegative(s);
    PoppedKeeps(s);
    assert |s.jobs| == 1 ==> Unsettled(s.jobs[1..]) == 0.0;
    hide InOrder, OneAtATime, CallsInOrder;
  }

  lemma ReadinessStep(s: Sink, e: Event, disturbed: bool)
    requires Inv(s) && Readiness(s, disturbed) && (s.condition.Writable? ==> !disturbed)
    ensures Readiness(Step(s, e), disturbed || Disturbs(s, e))
    ensures Step(s, e).condition.Writable? ==> s.condition.Writable?
    ensures Step(s, e).highWaterMark == s.highWaterMark
  {
    hide InOrder, OneAtATime, CallsInOrder;
    if e.LinkReacts? {
      if s.jobs != [] && s.jobs[0].progress.Settled? {
        ReadinessReact(s, disturbed);
      }
    } else {
      hide React;
    }
  }

  lemma {:induction false} ReadinessRun(highWaterMark: Mark, events: seq<Event>)
    ensures var s := Run(Constructed(highWaterMark), events);
            && Readiness(s, Disturbed(highWaterMark, events)) && s.highWaterMark == highWaterMark
            && (s.condition.Writable? ==> !Disturbed(highWaterMark, events))
    decreases |events|
  {
    if events != [] {
      var n := |events| - 1;
      var init, e := events[..n], events[n];
      ReadinessRun(highWaterMark, init);
      assert init + [e] == events;
      Reachable(highWaterMark, init);
      var s := Run(Constructed(highWaterMark), init);
      RunConcat(Constructed(highWaterMark), init, [e]);
      RunOne(s, e);
      DisturbedPush(highWaterMark, init, e);
      hide Run, Inv, Readiness, Disturbed;
      ReadinessStep(s, e, Disturbed(highWaterMark, init));
      hide Step;
    }
  }

  lemma RunOne(s: Sink, e: Event)
    ensures Run(s, [e]) == Step(s, e)
  {
    hide Step;
    assert [e][1..] == [];
  }

  /** In every run: once the stream is not writable nothing is queued, and an attached writer's
      `ready` is pending exactly when a writer was attached or a write fulfilled since, or the
      stream closed without an error and its mark is zero. */
  lemma ReadyOutsideWritable(highWaterMark: Mark, events: seq<Event>)
    ensures var s := Run(Constructed(highWaterMark), events);
            !s.condition.Writable? ==>
              && s.queueTotalSize == 0.0
              && (s.writer.Some? ==>
                    (s.writer.value <==>
                       Disturbed(highWaterMark, events)
                       || (!s.everErrored && highWaterMark.Finite? && highWaterMark.limit <= 0.0)))
  {
    ReadinessRun(highWaterMark, events);
    hide Run, Disturbed;
  }

  /** So the rule that `ready` is pending exactly when the total reaches the mark holds while the
      stream is writable; afterwards, for a positive mark, if and only if nothing disturbed it, and
      for a mark of zero if and only if the stream never errored or something did. */
  lemma ReadyRuleHolds(highWaterMark: Mark, events: seq<Event>)
    requires Run(Constructed(highWaterMark), events).writer.Some?
    ensures var s := Run(Constructed(highWaterMark), events);
            var atZero := highWaterMark.Finite? && highWaterMark.limit <= 0.0;
            (s.writer.value == MarkReached(s)
             <==> s.condition.Writable? || (if atZero then !s.everErrored || Disturbed(highWaterMark, events)
                                            else !Disturbed(highWaterMark, events)))
  {
    ReadinessRun(highWaterMark, events);
    Backpressured(highWaterMark, events);
    hide Run, Disturbed, Unsettled;
  }

  lemma AcceptedWrite(s: Sink) returns (t: Sink)
    requires s == Constructed(Finite(2.0)).(jobs := [], outcomes := [Outcome(Start, None)])
    ensures t == Run(s, [AttachWriter, CallWrite(Size(1.0))])
    ensures t == s.(jobs := [Job(Write(0, 1.0), Pending)], writer := Some(false), queueTotalSize := 1.0, nextId := 1)
  {
    t := Run(s, [AttachWriter, CallWrite(Size(1.0))]);
    RunTwo(s, AttachWriter, CallWrite(Size(1.0)));
    hide Run;
  }

  lemma FailedRunning(t: Sink, reason: Reason) returns (u: Sink)
    requires t.jobs == [Job(Write(0, 1.0), Pending)] && t.writer == Some(false)
    requires t.condition.Writable? && t.chainError.None?
    ensures u == Run(t, [LinkBegins, ControllerError(reason)])
    ensures u.jobs == [Job(Write(0, 1.0), Running)] && u.writer == Some(false)
    ensures u.condition.Failing? && u.queueTotalSize == 0.0
  {
    u := Run(t, [LinkBegins, ControllerError(reason)]);
    RunTwo(t, LinkBegins, ControllerError(reason));
    hide Run;
  }

  lemma Started() returns (s: Sink)
    ensures s == Run(Constructed(Finite(2.0)), [SinkPromise(None), LinkReacts])
    ensures s == Constructed(Finite(2.0)).(jobs := [], outcomes := [Outcome(Start, None)])
  {
    s := Run(Constructed(Finite(2.0)), [SinkPromise(None), LinkReacts]);
    RunTwo(Constructed(Finite(2.0)), SinkPromise(None), LinkReacts);
    hide Run;
  }

  lemma FulfilledAfterError(u: Sink)
    requires u.jobs == [Job(Write(0, 1.0), Running)] && u.writer == Some(false)
    requires u.condition.Failing? && u.queueTotalSize == 0.0
    ensures var v := Run(u, [SinkPromise(None), LinkReacts]);
            v.condition.Failing? && v.queueTotalSize == 0.0 && v.writer == Some(true)
  {
    RunTwo(u, SinkPromise(None), LinkReacts);
    hide Run;
  }

  lemma RunningWrite(t: Sink, s: Sink)
    requires s == Constructed(Finite(2.0)).(jobs := [], outcomes := [Outcome(Start, None)])
    requires t == s.(jobs := [Job(Write(0, 1.0), Pending)], writer := Some(false), queueTotalSize := 1.0, nextId := 1)
    ensures t.condition.Writable? && t.chainError.None?
  {
  }

  /** A run that breaks the rule: a write is running when the controller errors the stream, and is
      then fulfilled.  Nothing is queued, the mark is two, and `ready` is pending. */
  lemma ReadyAfterError(reason: Reason) returns (events: seq<Event>)
    ensures var s := Run(Constructed(Finite(2.0)), events);
            s.condition.Failing? && s.queueTotalSize == 0.0 && s.writer == Some(true)
  {
    hide *;
    var c := Constructed(Finite(2.0));
    var start, attach := [SinkPromise(None), LinkReacts], [AttachWriter, CallWrite(Size(1.0))];
    var fail, fulfil := [LinkBegins, ControllerError(reason)], [SinkPromise(None), LinkReacts];
    var s := Started();
    var t := AcceptedWrite(s);
    RunningWrite(t, s);
    var u := FailedRunning(t, reason);
    FulfilledAfterError(u);
    RunConcat(c, start, attach);
    RunConcat(c, start + attach, fail);
    RunConcat(c, start + attach + fail, fulfil);
    events := start + attach + fail + fulfil;
  }

  // ---- the writer's closed promise ------------------------------------------

  predicate WriterTold(s: Sink) {
    s.writer.Some? ==>
      && (s.condition.Writable? ==> s.writerClosed.Awaited?)
      && (s.condition.Failing? ==> s.writerClosed == Rejected(s.condition.storedError))
      && (s.condition.Ended? && !s.everErrored ==> s.writerClosed.Resolved?)
      && (s.condition.Ended? ==> !s.writerClosed.Awaited?)
  }

  lemma {:induction false} RunTells(s: Sink, events: seq<Event>)
    requires Inv(s) && WriterTold(s)
    ensures WriterTold(Run(s, events))
    decreases |events|
  {
    if events != [] {
      StepKeeps(s, events[0]);
      StepTells(s, events[0]);
      hide Inv, Step, WriterTold;
      RunTells(Step(s, events[0]), events[1..]);
    }
  }

  lemma StepTells(s: Sink, e: Event)
    requires Inv(s) && WriterTold(s)
    ensures WriterTold(Step(s, e))
  {
    hide InOrder, OneAtATime, CallsInOrder, Accounted, Reduce, Backpressure;
  }

  /** In every run: a writer's `closed` is open while the stream is writable, rejected with the
      error while it is errored, and fulfilled once it has closed without ever being errored. */
  lemma WriterIsTold(highWaterMark: Mark, events: seq<Event>)
    requires Run(Constructed(highWaterMark), events).writer.Some?
    ensures var s := Run(Constructed(highWaterMark), events);
            && (s.writerClosed.Awaited? <==> s.condition.Writable?)
            && (forall reason :: s.condition == Failing(reason) ==> s.writerClosed == Rejected(reason))
            && (s.condition.Ended? && !s.everErrored ==> s.writerClosed.Resolved?)
  {
    Reachable(highWaterMark, []);
    RunTells(Constructed(highWaterMark), events);
    hide Run;
  }
}
