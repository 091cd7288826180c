/** What the promises of the writer's calls tell, and what every call does to the stream's condition. */
module WritableOutcomes {
  import opened Options
  import opened ReadableModel
  import opened WritableModel
  import opened WritableRuns

  // ---- what the sink answered -----------------------------------------------

  /** The result of a promise of the sink that an event settles: only the running link has one. */
  function Answer(s: Sink, e: Event): seq<Option<Reason>> {
    if e.SinkPromise? && s.jobs != [] && s.jobs[0].progress.Running? then [e.result] else []
  }

  /** The results of the sink's promises in a run, one after the other. */
  function Answers(s: Sink, events: seq<Event>): seq<Option<Reason>>
    decreases |events|
  {
    if events == [] then [] else Answer(s, events[0]) + Answers(Step(s, events[0]), events[1..])
  }

  function Results(outcomes: seq<Outcome>): (r: seq<Option<Reason>>)
    ensures |r| == |outcomes|
  {
    seq(|outcomes|, i requires 0 <= i < |outcomes| => outcomes[i].result)
  }

  /** How the links that are done ended: those whose promises are settled, and a settled head. */
  function Ended(s: Sink): seq<Option<Reason>> {
    Results(s.outcomes) + (if s.jobs != [] && s.jobs[0].progress.Settled? then [s.jobs[0].progress.result] else [])
  }

  predicate HeadRuns(s: Sink) {
    s.jobs != [] && s.jobs[0].progress.Running?
  }

  /** A link that was never begun is rejected: with the error before it in the chain, or with the
      error of the stream. */
  predicate Skipped(ends: seq<Option<Reason>>, i: nat, condition: Condition)
    requires i < |ends|
  {
    && i > 0 && ends[i].Some?
    && (if ends[i - 1].Some? then ends[i] == ends[i - 1] else condition == Failing(ends[i].value))
  }

  /** The first links ended as the sink answered, and the others were never begun. */
  predicate Chained(s: Sink, answers: seq<Option<Reason>>) {
    var ends := Ended(s);
    && answers <= ends
    && (forall i: nat | |answers| <= i < |ends| :: Skipped(ends, i, s.condition))
    && (HeadRuns(s) ==> |answers| == |ends|)
    && (s.outcomes != [] ==> s.chainError == s.outcomes[|s.outcomes| - 1].result)
    && (s.outcomes == [] ==> s.chainError.None?)
    && |s.calls| + 1 == |answers| + (if HeadRuns(s) then 1 else 0)
  }

  lemma SameEnds(s: Sink, t: Sink, answers: seq<Option<Reason>>)
    requires Chained(s, answers) && Ended(t) == Ended(s) && t.outcomes == s.outcomes && t.calls == s.calls
    requires t.chainError == s.chainError && HeadRuns(t) == HeadRuns(s)
    requires s.condition.Writable? || t.condition == s.condition
    ensures Chained(t, answers)
  {
    var ends := Ended(s);
    forall i: nat | |answers| <= i < |ends|
      ensures Skipped(ends, i, t.condition)
    {
      assert Skipped(ends, i, s.condition);
    }
    hide Ended;
  }

  lemma BeginChained(s: Sink, answers: seq<Option<Reason>>)
    requires Inv(s) && Chained(s, answers) && s.jobs != [] && s.jobs[0].progress.Pending?
    ensures Chained(Begin(s), answers)
  {
    var t, ends := Begin(s), Ended(s);
    assert s.outcomes != [] && Expected(s, |s.outcomes|, Nth(s, |s.outcomes|));
    assert ends == Results(s.outcomes) && t.outcomes == s.outcomes && t.condition == s.condition;
    if s.chainError.Some? || s.condition.Failing? {
      assert Ended(t) == ends + [t.jobs[0].progress.result];
      forall i: nat | |answers| <= i < |ends| + 1
        ensures Skipped(Ended(t), i, t.condition)
      {
        assert i < |ends| ==> Skipped(ends, i, s.condition);
      }
    } else {
      NoneSkipped(s, answers);
      assert Ended(t) == ends;
    }
    hide InOrder, CallsInOrder, Accounted, Ended;
  }

  /** Without an error everything that is done was begun. */
  lemma NoneSkipped(s: Sink, answers: seq<Option<Reason>>)
    requires Chained(s, answers) && s.chainError.None? && (s.jobs != [] ==> !s.jobs[0].progress.Settled?)
    ensures |answers| == |Ended(s)|
  {
    var ends := Ended(s);
    assert ends == Results(s.outcomes);
    assert |answers| < |ends| ==> Skipped(ends, |ends| - 1, s.condition);
  }

  lemma SettleChained(s: Sink, answers: seq<Option<Reason>>, result: Option<Reason>)
    requires Chained(s, answers) && HeadRuns(s)
    ensures Chained(SinkSettles(s, result), answers + [result])
  {
    var t := SinkSettles(s, result);
    assert Ended(t) == Ended(s) + [result];
    hide Results;
  }

  lemma PopChained(s: Sink, answers: seq<Option<Reason>>)
    requires Inv(s) && Chained(s, answers) && s.jobs != [] && s.jobs[0].progress.Settled?
    ensures Chained(Popped(s), answers)
  {
    var t := Popped(s);
    assert Ended(t) == Ended(s);
    assert t.jobs != [] ==> t.jobs[0] == s.jobs[1] && t.jobs[0].progress.Pending?;
    hide InOrder, CallsInOrder, Accounted, ErrorsKnown;
  }

  /** The reaction changes the condition, of an errored stream only if nothing was skipped. */
  lemma ReactChained(s: Sink, answers: seq<Option<Reason>>)
    requires Inv(s) && Chained(s, answers) && s.jobs != [] && s.jobs[0].progress.Settled?
    ensures Chained(React(s), answers)
  {
    var t, u := Popped(s), React(s);
    PopChained(s, answers);
    AfterLinkFrame(t, s.jobs[0].task, s.jobs[0].progress.result);
    if u.condition.Ended? && !t.condition.Ended? {
      NoneSkipped(t, answers);
      EndedChained(t, u, answers);
    } else {
      assert !t.condition.Writable? ==> u.condition == t.condition;
      SameEnds(t, u, answers);
    }
    hide Inv, Popped, AfterLink, Chained, Ended;
  }

  lemma EndedChained(t: Sink, u: Sink, answers: seq<Option<Reason>>)
    requires Chained(t, answers) && |answers| == |Ended(t)| && Ended(u) == Ended(t) && HeadRuns(u) == HeadRuns(t)
    requires u.outcomes == t.outcomes && u.calls == t.calls && u.chainError == t.chainError
    ensures Chained(u, answers)
  {
    hide Ended;
  }

  lemma AfterLinkFrame(t: Sink, task: Task, result: Option<Reason>)
    ensures var u := AfterLink(t, task, result);
            && u.outcomes == t.outcomes && u.calls == t.calls && u.chainError == t.chainError && u.jobs == t.jobs
            && Ended(u) == Ended(t) && HeadRuns(u) == HeadRuns(t)
            && (u.condition.Ended? && !t.condition.Ended? ==> task.Close? && result.None?)
            && (!u.condition.Ended? && !t.condition.Writable? ==> u.condition == t.condition)
  {
  }

  lemma CallChained(s: Sink, t: Sink, answers: seq<Option<Reason>>)
    requires Inv(s) && Chained(s, answers) && t.outcomes == s.outcomes && t.calls == s.calls
    requires t.chainError == s.chainError && s.jobs <= t.jobs && (s.jobs == [] && t.jobs != [] ==> t.jobs[0].progress.Pending?)
    requires s.condition.Writable? || t.condition == s.condition
    ensures Chained(t, answers)
  {
    assert Ended(t) == Ended(s);
    SameEnds(s, t, answers);
    hide Inv, Chained;
  }

  lemma StepChained(s: Sink, e: Event, answers: seq<Option<Reason>>)
    requires Inv(s) && Chained(s, answers)
    ensures Chained(Step(s, e), answers + Answer(s, e))
  {
    assert answers + [] == answers;
    hide Inv, Chained, React, Begin, SinkSettles;
    match e {
      case LinkBegins => if s.jobs != [] && s.jobs[0].progress.Pending? { BeginChained(s, answers); }
      case SinkPromise(result) => if HeadRuns(s) { SettleChained(s, answers, result); }
      case LinkReacts => if s.jobs != [] && s.jobs[0].progress.Settled? { ReactChained(s, answers); }
      case _ =>
        CallFrame(s, e);
        hide Step;
        CallChained(s, Step(s, e), answers);
    }
  }

  lemma CallFrame(s: Sink, e: Event)
    requires !e.LinkBegins? && !e.SinkPromise? && !e.LinkReacts?
    ensures var t := Step(s, e);
            && t.outcomes == s.outcomes && t.calls == s.calls && t.chainError == s.chainError
            && s.jobs <= t.jobs && (s.jobs == [] && t.jobs != [] ==> t.jobs[0].progress.Pending?)
            && (s.condition.Writable? || t.condition == s.condition)
            && Answer(s, e) == []
  {
  }

  lemma {:induction false} RunChained(s: Sink, events: seq<Event>, answers: seq<Option<Reason>>)
    requires Inv(s) && Chained(s, answers)
    ensures Chained(Run(s, events), answers + Answers(s, events))
    decreases |events|
  {
    hide Inv, Chained, Step, Answer;
    if events == [] {
      assert answers + [] == answers;
    } else {
      StepKeeps(s, events[0]);
      StepChained(s, events[0], answers);
      RunChained(Step(s, events[0]), events[1..], answers + Answer(s, events[0]));
      assert answers + Answer(s, events[0]) + Answers(Step(s, events[0]), events[1..])
          == answers + (Answer(s, events[0]) + Answers(Step(s, events[0]), events[1..]));
    }
  }

  /** In every run the promise of each settled operation tells what its sink answered, operation for
      operation; those beyond were never begun, and each of them is rejected, with the error before
      it in the chain or else with the error of the stream. */
  lemma PromisesTellTheAnswers(highWaterMark: Mark, events: seq<Event>)
    ensures var s, answers := Run(Constructed(highWaterMark), events), Answers(Constructed(highWaterMark), events);
            && |answers| <= |s.calls| + 1
            && (forall i | 0 <= i < |s.outcomes| && i < |answers| :: s.outcomes[i].result == answers[i])
            && (forall i: nat | |answers| <= i < |s.outcomes| :: Skipped(Results(s.outcomes), i, s.condition))
  {
    var c, s := Constructed(highWaterMark), Run(Constructed(highWaterMark), events);
    var answers := Answers(c, events);
    Reachable(highWaterMark, []);
    assert Chained(c, []);
    RunChained(c, events, []);
    assert [] + answers == answers;
    hide Run, Answers, Inv;
    var ends := Ended(s);
    assert forall i | 0 <= i < |s.outcomes| :: ends[i] == Results(s.outcomes)[i] == s.outcomes[i].result;
    forall i: nat | |answers| <= i < |s.outcomes|
      ensures Skipped(Results(s.outcomes), i, s.condition)
    {
      assert Skipped(ends, i, s.condition);
    }
    hide Ended;
  }

  /** So the promise of a write or a close is fulfilled only if the sink was called for it and
      fulfilled the call. */
  lemma FulfilledBySink(highWaterMark: Mark, events: seq<Event>, i: nat)
    requires 0 < i < |Run(Constructed(highWaterMark), events).outcomes|
    requires Run(Constructed(highWaterMark), events).outcomes[i].result.None?
    ensures var s, answers := Run(Constructed(highWaterMark), events), Answers(Constructed(highWaterMark), events);
            && i <= |s.calls| && i < |answers| && answers[i].None?
            && (if s.outcomes[i].task.Write? then s.calls[i - 1] == SinkWrite(s.outcomes[i].task.id)
                else s.outcomes[i].task.Close? && s.calls[i - 1] == SinkClose)
  {
    PromisesTellTheAnswers(highWaterMark, events);
    Serialised(highWaterMark, events);
    var s := Run(Constructed(highWaterMark), events);
    assert Results(s.outcomes)[i].None?;
    assert i >= |Answers(Constructed(highWaterMark), events)| ==> Skipped(Results(s.outcomes), i, s.condition);
    hide Run, Answers, Results;
  }

  // ---- what a call does -----------------------------------------------------

  /** The size of a chunk is one the queue can count. */
  predicate Measured(size: Measure) {
    size.Size? && size.amount >= 0.0
  }

  /** Exactly when a write is refused, and what an accepted one does: it goes to the end of the chain. */
  lemma WriteRefused(s: Sink, size: Measure)
    ensures var a := WriteWritable(s, size);
            && (a.refused.None? <==> s.condition.Writable? && !s.closeQueued && Measured(size))
            && (a.refused.None? ==>
                  && a.sink.jobs == s.jobs + [Job(Write(s.nextId, size.amount), Pending)]
                  && a.sink.nextId == s.nextId + 1 && a.sink.queueTotalSize == s.queueTotalSize + size.amount)
            && (a.refused.Some? ==> a.sink.jobs == s.jobs && a.sink.nextId == s.nextId)
            && (s.condition.Failing? ==> a.refused == Some(s.condition.storedError))
  {
  }

  /** Exactly when a close is refused; an accepted one goes to the end of the chain, and nothing after it. */
  lemma CloseRefused(s: Sink)
    ensures var a := CloseWritable(s);
            && (a.refused.None? <==> s.condition.Writable? && !s.closeQueued)
            && (a.refused.None? ==> a.sink == s.(closeQueued := true, jobs := s.jobs + [Job(Close, Pending)]))
            && (a.refused.Some? ==> a.sink == s)
            && (s.condition.Failing? ==> a.refused == Some(s.condition.storedError))
  {
  }

  /** The only ways out of the writable condition, and the one way out of the errored one. */
  function ConditionAfter(s: Sink, e: Event): Condition {
    var settled := e.LinkReacts? && s.jobs != [] && s.jobs[0].progress.Settled?;
    if settled && s.jobs[0].task.Close? && s.jobs[0].progress.result.None? then WritableModel.Ended
    else if !s.condition.Writable? then s.condition
    else if settled && s.jobs[0].progress.result.Some? then Failing(s.jobs[0].progress.result.value)
    else
      match e
      case CallAbort(reason) => Failing(reason)
      case ControllerError(reason) => Failing(reason)
      case CallWrite(size) =>
        if s.closeQueued || Measured(size) then Writable
        else if size.Raises? then Failing(size.reason)
        else Failing(BadChunkSize)
      case _ => Writable
  }

  /** Every step changes the condition exactly so. */
  lemma StepCondition(s: Sink, e: Event)
    ensures Step(s, e).condition == ConditionAfter(s, e)
  {
    match e {
      case LinkReacts =>
        if s.jobs != [] && s.jobs[0].progress.Settled? {
          if s.jobs[0].task.Write? {
          } else if s.jobs[0].progress.result.Some? {
          } else {
          }
        }
      case _ =>
    }
  }

  /** A writer is attached only to a stream without one, and what its `closed` starts as. */
  lemma AttachRefused(s: Sink)
    ensures var a := GetWriter(s);
            && (a.refused.None? <==> s.writer.None?)
            && (a.refused.None? ==> a.sink.writer.Some? && (a.sink.writerClosed.Awaited? <==> s.condition.Writable?))
            && (a.refused.Some? ==> a.sink == s)
    ensures ReleaseWriter(s).writer.None?
  {
  }

  /** The promise of an attached writer is settled by the change of condition, once. */
  predicate Heard(s: Sink, t: Sink) {
    && (t.writer.Some? <==> s.writer.Some?)
    && t.writerClosed == (if s.writer.Some? && s.writerClosed.Awaited? then Announcement(t.condition) else s.writerClosed)
  }

  lemma ErrorHeard(s: Sink, reason: Reason)
    requires WriterTold(s)
    ensures Heard(s, ErrorWritable(s, reason)) && Heard(s, UpdateWriterReady(s))
  {
    hide Backpressure;
  }

  lemma ReactHeard(s: Sink)
    requires WriterTold(s) && s.jobs != [] && s.jobs[0].progress.Settled?
    ensures Heard(s, React(s))
  {
    var t, task := Popped(s), s.jobs[0].task;
    assert Heard(s, t) && WriterTold(t);
    if s.jobs[0].progress.result.Some? {
      ErrorHeard(t, s.jobs[0].progress.result.value);
      if task.Write? {
        ErrorHeard(t.(queueTotalSize := Reduce(t.queueTotalSize, task.size)), s.jobs[0].progress.result.value);
      }
    } else if task.Write? {
      ErrorHeard(t.(queueTotalSize := Reduce(t.queueTotalSize, task.size)), BadChunkSize);
    }
    hide Popped, ErrorWritable, UpdateWriterReady, Reduce;
  }

  lemma WriteHeard(s: Sink, size: Measure)
    requires WriterTold(s)
    ensures Heard(s, WriteWritable(s, size).sink)
  {
    ErrorHeard(s, BadChunkSize);
    if size.Raises? {
      ErrorHeard(s, size.reason);
    } else if size.Size? {
      ErrorHeard(s.(queueTotalSize := s.queueTotalSize + size.amount), BadChunkSize);
    }
    hide ErrorWritable, UpdateWriterReady;
  }

  /** Every step: `closed` of a new writer starts as the condition is, detaching rejects it while it
      is open, an ended stream settles it, and once settled, or without a writer, it stays. */
  lemma StepWriterClosed(s: Sink, e: Event)
    requires WriterTold(s)
    ensures Step(s, e).writerClosed
         == if s.writer.None? then (if e.AttachWriter? then Announcement(s.condition) else s.writerClosed)
            else if e.DetachWriter? && s.writerClosed.Awaited? then Rejected(LockReleased)
            else if s.writerClosed.Awaited? then Announcement(Step(s, e).condition)
            else s.writerClosed
    ensures Step(s, e).writer.Some? <==> if s.writer.None? then e.AttachWriter? else !e.DetachWriter?
  {
    hide Backpressure, ErrorWritable, React, WriteWritable;
    match e {
      case CallWrite(size) => WriteHeard(s, size);
      case CallAbort(reason) => ErrorHeard(s, reason);
      case ControllerError(reason) => ErrorHeard(s, reason);
      case LinkReacts => if s.jobs != [] && s.jobs[0].progress.Settled? { ReactHeard(s); }
      case _ =>
    }
  }
}
