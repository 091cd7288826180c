/** The variables that the closures of one `tee` call share, updated in place. */
module TeeStates {
  import opened Options
  import opened ReadableModel
  import opened ReadableInvariants
  import opened ReadableSteps
  import opened ReadableStates
  import opened TeeModel

  class TeeState {
    const byteStream: bool
    const left: ReadableState
    const right: ReadableState

    var leftCanceled: bool
    var rightCanceled: bool
    var sourceFinished: bool
    var cancelStarted: bool
    var reading: Reading
    /** The shared promise of cancels. */
    var completion: Signal
    var sourceReads: nat
    var sourceCancels: nat
    ghost var taken: seq<Item>

    ghost function Model(): Tee
      reads this, left, right
    {
      Tee(byteStream, left.Model(), right.Model(), leftCanceled, rightCanceled, sourceFinished, cancelStarted, reading,
          completion, taken, sourceReads, sourceCancels)
    }

    constructor (byteStream: bool)
      ensures Model() == Split(byteStream) && left != right && fresh(left) && fresh(right)
    {
      this.byteStream := byteStream;
      left := new ReadableState(byteStream, 0, Finite(if byteStream then 0.0 else 1.0), true);
      right := new ReadableState(byteStream, 0, Finite(if byteStream then 0.0 else 1.0), true);
      leftCanceled, rightCanceled, sourceFinished, cancelStarted := false, false, false, false;
      reading, completion, sourceReads, sourceCancels, taken := Idle, Awaited, 0, 0, [];
    }

    /** Close a branch; if that fails, error it. */
    static method CloseBranch(s: ReadableState)
      requires Inv(s.Model())
      modifies s
      ensures s.Model() == TeeModel.CloseBranch(old(s.Model()))
    {
      ControllerCloseKeeps(s.Model());
      hide ReadableModel.ControllerClose, ReadableModel.RespondPullInto, ReadableModel.ErrorReadable;
      assert AllShaped(s.requests) by {
        assert AllWaiting(s.requests);
      }
      var thrown := s.ControllerClose();
      if thrown.Some? {
        s.ErrorReadable(thrown.value);
      } else if s.byteStream && s.requests != [] && s.requests[0].PullInto? {
        assert Drainable(s.Model());
        var _ := s.RespondPullInto([]);
      }
    }

    static method FailBranch(canceled: bool, s: ReadableState, reason: Reason)
      modifies s
      ensures s.Model() == if canceled then old(s.Model()) else ReadableModel.ErrorReadable(old(s.Model()), reason)
    {
      if !canceled {
        s.ErrorReadable(reason);
      }
    }

    method FailBranches(reason: Reason)
      requires left != right
      modifies left, right
      ensures Model() == TeeModel.FailBranches(old(Model()), reason)
    {
      hide ReadableModel.ErrorReadable;
      FailBranch(leftCanceled, left, reason);
      FailBranch(rightCanceled, right, reason);
    }

    static method CloseUnlessCanceled(canceled: bool, s: ReadableState)
      requires Inv(s.Model())
      modifies s
      ensures s.Model() == if canceled then old(s.Model()) else TeeModel.CloseBranch(old(s.Model()))
    {
      hide TeeModel.CloseBranch;
      if !canceled {
        CloseBranch(s);
      }
    }

    method CloseBranches()
      requires left != right && Usable(Model())
      modifies left, right
      ensures Model() == TeeModel.CloseBranches(old(Model()))
    {
      hide TeeModel.CloseBranch, Inv;
      CloseUnlessCanceled(leftCanceled, left);
      CloseUnlessCanceled(rightCanceled, right);
    }

    method FinishSource(failed: Option<Reason>)
      requires left != right && Usable(Model())
      modifies this, left, right
      ensures Model() == TeeModel.FinishSource(old(Model()), failed)
    {
      hide TeeModel.CloseBranches, TeeModel.FailBranches, Inv;
      if sourceFinished {
        return;
      }
      if failed.Some? {
        FailBranches(failed.value);
      } else {
        CloseBranches();
      }
      BecomeDone();
    }

    method BecomeDone()
      modifies `sourceFinished, `completion
      ensures Model() == Done(old(Model()))
    {
      sourceFinished := true;
      if !cancelStarted && completion.Awaited? {
        completion := Resolved;
      }
    }

    /** The reaction to the promise of the source's cancel. */
    method CancelSettled(result: Option<Reason>)
      modifies `sourceFinished, `completion
      ensures Model() == TeeModel.CancelSettled(old(Model()), result)
    {
      sourceFinished := true;
      if completion.Awaited? {
        completion := if result.None? then Resolved else Rejected(result.value);
      }
    }

    method PullBranch()
      modifies this
      ensures Model() == TeeModel.PullBranch(old(Model()))
    {
      if sourceFinished || cancelStarted || reading != Idle {
        return;
      }
      reading := Awaiting;
      sourceReads := sourceReads + 1;
    }

    /** `fulfilled` says that the caller gets a fulfilled promise, otherwise it gets the shared one. */
    method CancelSourceWhenUnused() returns (fulfilled: bool)
      modifies this
      ensures Model() == TeeModel.CancelSourceWhenUnused(old(Model()))
      ensures fulfilled <==> old(sourceFinished)
    {
      if sourceFinished {
        return true;
      }
      fulfilled := false;
      if leftCanceled && rightCanceled && !cancelStarted {
        cancelStarted := true;
        sourceCancels := sourceCancels + 1;
      }
    }

    /** A branch that is not cancelled gets the chunk. */
    method Offer(canceled: bool, s: ReadableState, chunk: Incoming) returns (thrown: Option<Reason>)
      requires Inv(s.Model())
      modifies s
      ensures Call(s.Model(), thrown) == TeeModel.Offer(canceled, old(s.Model()), chunk)
    {
      thrown := None;
      if !canceled {
        assert s.byteStream ==> Drainable(s.Model());
        thrown := s.Enqueue(chunk);
      }
      hide ReadableModel.Enqueue;
    }

    method ReadResolved(value: seq<Item>)
      requires left != right && Usable(Model()) && value != []
      modifies this, left, right
      ensures Model() == TeeModel.ReadResolved(old(Model()), value)
    {
      hide TeeModel.Offer, TeeModel.FailBranches, Inv;
      reading := Handled;
      if sourceFinished || cancelStarted {
        return;
      }
      var chunk := ChunkFor(byteStream, value);
      taken := taken + value;
      var thrown := Offer(leftCanceled, left, chunk);
      if thrown.None? {
        thrown := Offer(rightCanceled, right, chunk);
      }
      if thrown.Some? {
        FailBranches(thrown.value);
        BecomeDone();
      }
    }

    /** Cancel a branch; its cancel algorithm runs only if it was still readable. */
    static method CancelStream(s: ReadableState) returns (readable: bool)
      requires Inv(s.Model())
      modifies s
      ensures s.Model() == ReadableModel.CancelReadable(old(s.Model())) && readable == old(s.phase).Readable?
    {
      assert AllWaiting(s.requests);
      hide ReadableModel.CancelReadable, Inv;
      readable := s.phase.Readable?;
      var _ := s.CancelReadable();
    }

    method CancelLeft()
      requires left != right && Usable(Model())
      modifies this, left
      ensures Model() == CancelBranch(old(Model()), true)
    {
      assert AllShaped(left.requests);
      hide ReadableModel.CancelReadable, Inv, AllShaped;
      var readable := CancelStream(left);
      if readable {
        leftCanceled := true;
        var _ := CancelSourceWhenUnused();
      }
    }

    method CancelRight()
      requires left != right && Usable(Model())
      modifies this, right
      ensures Model() == CancelBranch(old(Model()), false)
    {
      assert AllShaped(right.requests);
      hide ReadableModel.CancelReadable, Inv, AllShaped;
      var readable := CancelStream(right);
      if readable {
        rightCanceled := true;
        var _ := CancelSourceWhenUnused();
      }
    }
  }
}
