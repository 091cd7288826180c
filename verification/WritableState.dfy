/** The state object of a WritableStream, updated in place by the engine's functions. */
module WritableStates {
  import opened Options
  import opened ReadableModel
  import opened WritableModel

  class WritableState {
    const highWaterMark: Mark

    var condition: Condition
    var queueTotalSize: real
    var closeQueued: bool
    var writer: Option<bool>
    /** The `closed` promise of the writer. */
    var writerClosed: Signal
    /** The open links of `chain`, and how the last settled one ended. */
    var jobs: seq<Job>
    var chainError: Option<Reason>
    var calls: seq<SinkCall>
    var outcomes: seq<Outcome>
    var nextId: nat
    ghost var everErrored: bool

    ghost function Model(): Sink
      reads this
    {
      Sink(highWaterMark, condition, queueTotalSize, closeQueued, writer, writerClosed, jobs, chainError, calls, outcomes,
           nextId, everErrored)
    }

    constructor (highWaterMark: Mark)
      ensures Model() == Constructed(highWaterMark)
    {
      this.highWaterMark := highWaterMark;
      condition, queueTotalSize, closeQueued, writer, writerClosed := Writable, 0.0, false, None, Awaited;
      jobs, chainError, calls, outcomes, nextId, everErrored := [Job(Start, Running)], None, [], [], 0, false;
    }

    method UpdateWriterReady()
      modifies `writer
      ensures Model() == WritableModel.UpdateWriterReady(old(Model()))
    {
      if writer.None? {
        return;
      }
      var backpressure :=
        condition.Writable? ==> highWaterMark.Finite? && highWaterMark.limit - queueTotalSize <= 0.0;
      if backpressure && !writer.value {
        writer := Some(true);
      } else if !backpressure && writer.value {
        writer := Some(false);
      }
    }

    /** A promise is settled once. */
    method SettleClosed(signal: Signal)
      requires writer.Some?
      modifies `writerClosed
      ensures writerClosed == if old(writerClosed).Awaited? then signal else old(writerClosed)
    {
      if writerClosed.Awaited? {
        writerClosed := signal;
      }
    }

    method BecomeErrored(reason: Reason)
      modifies `condition, `everErrored, `queueTotalSize, `writer, `writerClosed
      ensures condition == Failing(reason) && everErrored && queueTotalSize == 0.0
      ensures writer == (if old(writer).Some? then Some(false) else None)
      ensures writerClosed
           == if old(writer).Some? && old(writerClosed).Awaited? then Rejected(reason) else old(writerClosed)
    {
      condition := Failing(reason);
      everErrored := true;
      queueTotalSize := 0.0;
      if writer.Some? {
        if writer.value {
          writer := Some(false);
        }
        SettleClosed(Rejected(reason));
      }
    }

    method ErrorWritable(reason: Reason)
      modifies this
      ensures Model() == WritableModel.ErrorWritable(old(Model()), reason)
    {
      if condition.Writable? {
        BecomeErrored(reason);
      }
    }

    method WriteWritable(size: Measure) returns (refused: Option<Reason>)
      modifies this
      ensures Attempt(Model(), refused) == WritableModel.WriteWritable(old(Model()), size)
    {
      if condition.Failing? {
        return Some(condition.storedError);
      }
      if !condition.Writable? || closeQueued {
        return Some(CannotWrite);
      }
      if size.Raises? {
        ErrorWritable(size.reason);
        return Some(size.reason);
      }
      if size.NotANumber? || size.amount < 0.0 {
        ErrorWritable(BadChunkSize);
        return Some(BadChunkSize);
      }
      queueTotalSize := queueTotalSize + size.amount;
      UpdateWriterReady();
      jobs := jobs + [Job(Write(nextId, size.amount), Pending)];
      nextId := nextId + 1;
      return None;
    }

    method CloseWritable() returns (refused: Option<Reason>)
      modifies this
      ensures Attempt(Model(), refused) == WritableModel.CloseWritable(old(Model()))
    {
      if condition.Failing? {
        return Some(condition.storedError);
      }
      if !condition.Writable? || closeQueued {
        return Some(CannotClose);
      }
      closeQueued := true;
      jobs := jobs + [Job(Close, Pending)];
      return None;
    }

    method AbortWritable(reason: Reason)
      modifies this
      ensures Model() == WritableModel.AbortWritable(old(Model()), reason)
    {
      if condition.Ended? || condition.Failing? {
        return;
      }
      ErrorWritable(reason);
    }

    method GetWriter() returns (refused: Option<Reason>)
      modifies this
      ensures Attempt(Model(), refused) == WritableModel.GetWriter(old(Model()))
    {
      if writer.Some? {
        return Some(Locked);
      }
      writer := Some(false);
      writerClosed := match condition
                      case Writable => Awaited
                      case Failing(reason) => Rejected(reason)
                      case Ended => Resolved;
      UpdateWriterReady();
      return None;
    }

    method ReleaseWriter()
      modifies this
      ensures Model() == WritableModel.ReleaseWriter(old(Model()))
    {
      if writer.Some? {
        SettleClosed(Rejected(LockReleased));
        writer := None;
      }
    }

    /** The callback that a link of the chain runs when the link before it has settled. */
    method Begin()
      requires jobs != [] && jobs[0].progress.Pending?
      modifies this
      ensures Model() == WritableModel.Begin(old(Model()))
    {
      var task := jobs[0].task;
      var progress := Running;
      if chainError.Some? {
        progress := Settled(chainError);
      } else if condition.Failing? {
        progress := Settled(Some(condition.storedError));
      } else if task.Write? {
        calls := calls + [SinkWrite(task.id)];
      } else if task.Close? {
        calls := calls + [SinkClose];
      }
      jobs := [Job(task, progress)] + jobs[1..];
    }

    method SinkSettles(result: Option<Reason>)
      requires jobs != [] && jobs[0].progress.Running?
      modifies this
      ensures Model() == WritableModel.SinkSettles(old(Model()), result)
    {
      jobs := [Job(jobs[0].task, Settled(result))] + jobs[1..];
    }

    method AfterLink(task: Task, result: Option<Reason>)
      modifies this
      ensures Model() == WritableModel.AfterLink(old(Model()), task, result)
    {
      hide WritableModel.ErrorWritable, WritableModel.UpdateWriterReady;
      if task.Write? {
        queueTotalSize := if queueTotalSize - task.size >= 0.0 then queueTotalSize - task.size else 0.0;
      }
      if result.Some? {
        ErrorWritable(result.value);
      } else if task.Write? {
        UpdateWriterReady();
      } else if task.Close? {
        condition := Ended;
        if writer.Some? {
          SettleClosed(Resolved);
        }
      }
    }

    method React()
      requires jobs != [] && jobs[0].progress.Settled?
      modifies this
      ensures Model() == WritableModel.React(old(Model()))
    {
      var task, result := jobs[0].task, jobs[0].progress.result;
      jobs := jobs[1..];
      chainError := result;
      outcomes := outcomes + [Outcome(task, result)];
      assert Model() == Popped(old(Model()));
      hide Popped, WritableModel.AfterLink;
      AfterLink(task, result);
    }
  }
}
