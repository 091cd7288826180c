/** The closures of a tee and its two branch objects under any sequence of events. */
module TeeDrivers {
  import opened Options
  import opened ReadableModel
  import opened ReadableInvariants
  import opened ReadableStates
  import opened TeeModel
  import opened TeeRuns
  import opened TeeStates
  import ReadableDrivers
  import ReadableRuns

  /** An event at one branch; a new pull of it reads the source. */
  method OnBranch(t: TeeState, isLeft: bool, e: ReadableRuns.Event)
    requires t.left != t.right && Usable(t.Model()) && Outside(e)
    modifies t, t.left, t.right
    ensures t.Model() == TeeModel.OnBranch(old(t.Model()), isLeft, e)
  {
    hide Inv, ReadableRuns.Step, TeeModel.PullBranch;
    var s := if isLeft then t.left else t.right;
    var pulls := s.pullCalls;
    ReadableDrivers.Dispatch(s, e);
    if s.pullCalls > pulls {
      t.PullBranch();
    }
  }

  /** An event of the source's reader. */
  method OnSource(t: TeeState, e: TeeEvent)
    requires t.left != t.right && Usable(t.Model()) && !e.BranchEvent? && !e.BranchCancel?
    modifies t, t.left, t.right
    ensures t.Model() == TeeStep(old(t.Model()), e)
  {
    hide Inv, TeeModel.ReadResolved, TeeModel.FinishSource, TeeModel.CancelSettled;
    match e {
      case SourceValue(value) =>
        if t.reading.Awaiting? && (if t.byteStream then value != [] else |value| == 1) {
          t.ReadResolved(value);
        }
      case SourceDone =>
        if t.reading.Awaiting? {
          t.reading := Handled;
          if !t.sourceFinished && !t.cancelStarted {
            t.FinishSource(None);
          }
        }
      case SourceReadFailed(reason) =>
        if t.reading.Awaiting? {
          t.reading := Handled;
          t.FinishSource(Some(reason));
        }
      case ReadingCleared =>
        if t.reading.Handled? {
          t.reading := Idle;
        }
      case SourceClosedFailed(reason) => t.FinishSource(Some(reason));
      case SourceCancelSettled(result) =>
        if t.cancelStarted {
          t.CancelSettled(result);
        }
    }
  }

  /** One event at a branch or at the source. */
  method Dispatch(t: TeeState, e: TeeEvent)
    requires t.left != t.right && TeeInv(t.Model())
    modifies t, t.left, t.right
    ensures t.Model() == TeeStep(old(t.Model()), e) && TeeInv(t.Model())
  {
    TeeStepKeeps(t.Model(), e);
    hide Inv, BranchFits, TeeModel.OnBranch, CancelBranch, TeeModel.ReadResolved, TeeModel.FinishSource,
      TeeModel.CancelSettled;
    match e {
      case BranchEvent(isLeft, event) =>
        if Outside(event) {
          OnBranch(t, isLeft, event);
        }
      case BranchCancel(isLeft) =>
        if isLeft {
          t.CancelLeft();
        } else {
          t.CancelRight();
        }
      case _ =>
        OnSource(t, e);
        hide TeeStep;
    }
  }

  /** A tee after any events: each branch object that was neither cancelled nor errored delivered,
      holds and has queued exactly what was taken from the source, and the source was cancelled
      at most once, after both branches. */
  method Drive(byteStream: bool, events: seq<TeeEvent>) returns (t: TeeState)
    ensures fresh(t) && t.Model() == ReachedTee(byteStream, events)
    ensures var taken := TakenByTee(byteStream, events);
            && (!t.leftCanceled && !t.left.phase.Errored? ==> GivesAll(t.left.Model(), taken))
            && (!t.rightCanceled && !t.right.phase.Errored? ==> GivesAll(t.right.Model(), taken))
            && Delivered(t.left.settled) <= taken && Delivered(t.right.settled) <= taken
            && t.sourceCancels <= 1
            && (t.sourceCancels == 1 ==> t.leftCanceled && t.rightCanceled)
  {
    SplitHolds(byteStream);
    ghost var first := Split(byteStream);
    t := new TeeState(byteStream);
    hide TeeInv, TeeStep, Split;
    var i := 0;
    assert events[0..] == events;
    while i < |events|
      invariant i <= |events| && fresh(t) && fresh(t.left) && fresh(t.right) && t.left != t.right
      invariant TeeInv(t.Model()) && RunTee(first, events) == RunTee(t.Model(), events[i..])
    {
      assert events[i..][0] == events[i] && events[i..][1..] == events[i + 1..];
      Dispatch(t, events[i]);
      i := i + 1;
    }
    assert events[i..] == [];
    BothBranchesGetAll(byteStream, events);
    NothingLostInTheTee(byteStream, events);
    assert t.Model() == ReachedTee(byteStream, events);
    hide RunTee, ReachedTee, TakenByTee, GivesAll, Delivered;
  }
}
