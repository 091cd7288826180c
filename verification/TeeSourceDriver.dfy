/** A tee's closures, its branch objects and the object of the stream it reads, under any events. */
module TeeSourceDrivers {
  import opened Options
  import opened ReadableModel
  import opened ReadableInvariants
  import opened ReadableFrames
  import opened ReadableSignals
  import opened ReadableStates
  import opened TeeModel
  import opened TeeRuns
  import opened TeeStates
  import opened TeeSources
  import ReadableDrivers
  import ReadableRuns
  import TeeDrivers

  class TeeOfSource {
    const tee: TeeState
    const source: ReadableState
    /** The reader of the source: whether it holds the lock, and its latest read. */
    var holds: bool
    var readId: nat
    /** The promise of the cancel of the source, until it was reacted to. */
    var cancelling: Option<Signal>
    ghost var before: seq<Item>
    ghost var ended: bool

    ghost function Model(): Joint
      reads this, tee, tee.left, tee.right, source
    {
      Joint(tee.Model(), source.Model(), holds, readId, cancelling, before, ended)
    }

    /** The four objects do not share state. */
    ghost predicate Apart() {
      tee.left != tee.right && source != tee.left && source != tee.right
    }

    constructor (source: ReadableState)
      requires Inv(source.Model()) && source.reader.NoReader?
      modifies source
      ensures Model() == Attach(old(source.Model())) && Apart()
      ensures this.source == source && fresh(tee) && fresh(tee.left) && fresh(tee.right)
    {
      hide Inv, Delivered;
      tee := new TeeState(source.byteStream);
      this.source := source;
      holds, readId, cancelling := true, 0, None;
      before, ended := Delivered(source.settled), false;
      new;
      var _ := source.AcquireReader(DefaultReader);
    }

    method MakeRead()
      requires Apart() && Inv(source.Model())
      modifies this, source
      ensures AllShaped(old(source.requests)) && Model() == TeeSources.MakeRead(old(Model()))
    {
      CallsAreSteps(source.Model());
      hide Inv, ReadableModel.ReadFrom, AllShaped;
      readId := source.nextId;
      source.ReadFrom();
    }

    method MakeCancel()
      requires Apart() && Inv(source.Model())
      modifies this, source
      ensures AllShaped(old(source.requests)) && Model() == TeeSources.MakeCancel(old(Model()))
    {
      CallsAreSteps(source.Model());
      hide Inv, ReadableModel.CancelReadable, AllShaped;
      var answer := source.CancelReadable();
      cancelling := Some(answer);
    }

    /** Release the reader; an error is swallowed. */
    method Release()
      requires Apart()
      modifies this, source
      ensures Model() == TeeSources.Release(old(Model()))
    {
      hide ReadableModel.ReleaseLock;
      if holds {
        ReleaseRefused(source.Model());
        var thrown := source.ReleaseLock();
        if thrown.None? {
          holds := false;
        }
      }
    }

    /** The call of the reader that a step of the closures makes. */
    method MakeCall(readsBefore: nat, cancelsBefore: nat, finishedBefore: bool, ghost t: Tee)
      requires Apart() && Inv(source.Model())
      requires t.sourceReads == readsBefore && t.sourceCancels == cancelsBefore && t.sourceFinished == finishedBefore
      modifies this, source
      ensures AllShaped(old(source.requests)) && Model() == CallFor(old(Model()), t)
    {
      CallsAreSteps(source.Model());
      hide Inv, TeeSources.MakeRead, TeeSources.MakeCancel, TeeSources.Release, AllShaped;
      if tee.sourceReads > readsBefore {
        MakeRead();
      } else if tee.sourceCancels > cancelsBefore {
        MakeCancel();
      } else if tee.sourceFinished && !finishedBefore {
        Release();
      }
    }

    /** A step of the closures alone. */
    method RunClosures(e: TeeEvent)
      requires Apart() && TeeInv(tee.Model())
      modifies tee, tee.left, tee.right
      ensures Model() == old(Model()).(tee := TeeStep(old(tee.Model()), e))
    {
      hide TeeInv, TeeStep;
      TeeDrivers.Dispatch(tee, e);
    }

    /** A step of the closures and the call of the reader that it makes. */
    method AfterTee(e: TeeEvent)
      requires Apart() && Coupled(Model())
      modifies this, tee, tee.left, tee.right, source
      ensures AllShaped(old(source.requests)) && Model() == TeeSources.AfterTee(old(Model()), e)
    {
      hide Inv, TeeInv, TeeStep, CallFor, AllShaped, LockFits, Told, Accounts;
      CallsAreSteps(source.Model());
      ghost var j := Model();
      var readsBefore, cancelsBefore, finishedBefore := tee.sourceReads, tee.sourceCancels, tee.sourceFinished;
      RunClosures(e);
      hide Coupled, TeeSources.MakeRead;
      MakeCall(readsBefore, cancelsBefore, finishedBefore, j.tee);
    }

    /** The reaction to the promise of the latest read. */
    method ReactToRead()
      requires Apart() && JointInv(Model())
      modifies this, tee, tee.left, tee.right, source
      ensures Model() == ReadReaction(old(Model()))
    {
      hide Inv, TeeInv, TeeSources.AfterTee, LockFits, Told, Accounts, TookAll;
      if tee.reading.Awaiting? && readId < |source.settled| {
        ghost var j := Model();
        ended := ended || Ends(j);
        EndedIsCoupled(j, ended);
        var a := source.settled[readId];
        hide Coupled, Ends;
        AfterTee(if a.Failed? then SourceReadFailed(a.reason)
                 else if a.Answered? && !a.done then SourceValue(a.items)
                 else SourceDone);
      }
    }

    /** How a promise settles. */
    static method SettledWith(signal: Signal, result: Option<Reason>) returns (settled: Option<Reason>)
      ensures settled == Outcome(signal, result)
    {
      settled := match signal
                 case Awaited => result
                 case Resolved => None
                 case Rejected(reason) => Some(reason);
    }

    /** The reaction to the promise of the cancel. */
    method ReactToCancel(result: Option<Reason>)
      requires Apart() && JointInv(Model())
      modifies this, tee, tee.left, tee.right, source
      ensures Model() == CancelReaction(old(Model()), result)
    {
      hide Inv, TeeInv, TeeSources.AfterTee, LockFits, Told, Accounts, TookAll, Outcome, AllShaped;
      if cancelling.Some? {
        CancellingStays(Model());
        hide Coupled;
        var settled := SettledWith(cancelling.value, result);
        cancelling := None;
        AfterTee(SourceCancelSettled(settled));
      }
    }

    /** An event of the source: only the holder of the lock may use the reader. */
    method AtTheSource(event: ReadableRuns.Event)
      requires Apart() && JointInv(Model())
      modifies source
      ensures Model() == JointStep(old(Model()), AtSource(event))
    {
      hide Inv, TeeInv, LockFits, Told, Accounts, TookAll, ReadableRuns.Step;
      if !holds || !ByReader(event) {
        ReadableDrivers.Dispatch(source, event);
      }
    }

    /** One event: at a branch, at the source, or the reaction to a promise. */
    method React(e: JointEvent)
      requires Apart() && JointInv(Model())
      modifies this, tee, tee.left, tee.right, source
      ensures Model() == JointStep(old(Model()), e) && JointInv(Model())
    {
      JointStepKeeps(Model(), e);
      hide Inv, TeeInv, TeeSources.AfterTee, LockFits, Told, Accounts, TookAll, ReadableRuns.Step;
      match e {
        case AtBranch(isLeft, event) => AfterTee(BranchEvent(isLeft, event));
        case CancelAt(isLeft) => AfterTee(BranchCancel(isLeft));
        case AtSource(event) => AtTheSource(event);
        case ReadReacts => ReactToRead();
        case ReadForgotten => AfterTee(ReadingCleared);
        case ClosedReacts =>
          if holds && source.closed.Rejected? {
            AfterTee(SourceClosedFailed(source.closed.reason));
          }
        case CancelReacts(result) => ReactToCancel(result);
      }
    }

    method ReactToAll(events: seq<JointEvent>)
      requires Apart() && JointInv(Model())
      modifies this, tee, tee.left, tee.right, source
      ensures Model() == RunJoint(old(Model()), events)
    {
      ghost var j := Model();
      hide JointInv, JointStep;
      var i := 0;
      assert events[0..] == events;
      while i < |events|
        invariant i <= |events| && JointInv(Model())
        invariant RunJoint(j, events) == RunJoint(Model(), events[i..])
      {
        assert events[i..][0] == events[i] && events[i..][1..] == events[i + 1..];
        React(events[i]);
        i := i + 1;
      }
      assert events[i..] == [];
    }
  }

  /** A tee of any stream object, after any events: it is in the state of the run.  It holds the
      lock exactly until it is done with the source, what its closures took is what their reads
      delivered, and once the end of a source that was not cancelled reached it, that is all the
      source gave since, and each branch that was neither cancelled nor errored has it. */
  method Drive(source: ReadableState, events: seq<JointEvent>) returns (t: TeeOfSource)
    requires Inv(source.Model()) && source.reader.NoReader?
    modifies source
    ensures fresh(t) && t.source == source && t.Model() == Teed(old(source.Model()), events)
    ensures Faithful(old(source.Model()), t.Model())
  {
    ghost var s := source.Model();
    AttachHolds(s);
    TeedIsFaithful(s, events);
    hide Inv, JointInv, Attach, Faithful, RunJoint;
    t := new TeeOfSource(source);
    t.ReactToAll(events);
  }

  /** A refused release changes nothing. */
  lemma ReleaseRefused(s: Stream)
    ensures ReleaseLock(s).thrown.Some? ==> ReleaseLock(s).stream == s
  {
  }
}
