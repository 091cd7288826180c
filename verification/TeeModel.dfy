/** `tee`: two branch streams fed by one reader of the source. */
module TeeModel {
  import opened Options
  import opened ReadableModel
  import opened ReadableInvariants
  import opened ReadableSteps
  import opened ReadableRuns

  /** The shared read: none, waiting for the source, or handled but not yet forgotten. */
  datatype Reading = Idle | Awaiting | Handled

  datatype Tee = Tee(
    byteStream: bool,
    left: Stream,
    right: Stream,
    leftCanceled: bool,
    rightCanceled: bool,
    sourceFinished: bool,
    cancelStarted: bool,
    reading: Reading,
    /** The promise that cancels of the branches share. */
    completion: Signal,
    // the history
    taken: seq<Item>,
    sourceReads: nat,
    sourceCancels: nat)

  /** A branch has the default strategy of its kind. */
  function Branch(byteStream: bool): Stream {
    Initial(byteStream, 0, Finite(if byteStream then 0.0 else 1.0), true)
  }

  function Split(byteStream: bool): Tee {
    Tee(byteStream, Branch(byteStream), Branch(byteStream), false, false, false, false, Idle, Awaited, [], 0, 0)
  }

  predicate Usable(t: Tee) {
    && Inv(t.left) && Inv(t.right)
    && t.left.byteStream == t.byteStream && t.right.byteStream == t.byteStream
  }

  /** `close()`, then `respond(0)` if a reader's buffer is pending; a failure errors the branch. */
  function CloseBranch(s: Stream): Stream
    requires Inv(s)
  {
    ControllerCloseKeeps(s);
    var c := ControllerClose(s);
    if c.thrown.Some? then ErrorReadable(c.stream, c.thrown.value)
    else if s.byteStream && HasPullInto(c.stream) then RespondPullInto(c.stream, []).stream
    else c.stream
  }

  function FailBranches(t: Tee, reason: Reason): Tee {
    t.(left := if t.leftCanceled then t.left else ErrorReadable(t.left, reason),
       right := if t.rightCanceled then t.right else ErrorReadable(t.right, reason))
  }

  function CloseBranches(t: Tee): Tee
    requires Usable(t)
  {
    t.(left := if t.leftCanceled then t.left else CloseBranch(t.left),
       right := if t.rightCanceled then t.right else CloseBranch(t.right))
  }

  /** The source is done with: a cancel that has not reached it is complete. */
  function Done(t: Tee): Tee {
    t.(sourceFinished := true,
       completion := if t.cancelStarted || !t.completion.Awaited? then t.completion else Resolved)
  }

  /** The source's cancel promise settled. */
  function CancelSettled(t: Tee, result: Option<Reason>): Tee {
    t.(sourceFinished := true,
       completion := if !t.completion.Awaited? then t.completion
                     else if result.None? then Resolved else Rejected(result.value))
  }

  /** `failed` gives the reason when the source did not end normally. */
  function FinishSource(t: Tee, failed: Option<Reason>): Tee
    requires Usable(t)
  {
    if t.sourceFinished then t
    else if failed.Some? then Done(FailBranches(t, failed.value))
    else Done(CloseBranches(t))
  }

  function PullBranch(t: Tee): Tee {
    if t.sourceFinished || t.cancelStarted || !t.reading.Idle? then t
    else t.(reading := Awaiting, sourceReads := t.sourceReads + 1)
  }

  function CancelSourceWhenUnused(t: Tee): Tee {
    if t.sourceFinished then t
    else if t.leftCanceled && t.rightCanceled && !t.cancelStarted then
      t.(cancelStarted := true, sourceCancels := t.sourceCancels + 1)
    else t
  }

  /** What a branch is given for a value of the source: a chunk of size 1, or a copy of the bytes. */
  function ChunkFor(byteStream: bool, value: seq<Item>): Incoming
    requires value != []
  {
    Incoming(value[0], if byteStream then Some(value) else None, Size(1.0))
  }

  function Offer(canceled: bool, s: Stream, chunk: Incoming): Call
    requires Inv(s)
  {
    if canceled then Call(s, None) else Enqueue(s, chunk)
  }

  /** The source's read gave a value. */
  function ReadResolved(t: Tee, value: seq<Item>): Tee
    requires Usable(t) && value != []
  {
    if t.sourceFinished || t.cancelStarted then t.(reading := Handled)
    else
      var chunk := ChunkFor(t.byteStream, value);
      EnqueueKeeps(t.left, chunk);
      EnqueueKeeps(t.right, chunk);
      var l := Offer(t.leftCanceled, t.left, chunk);
      var u := t.(left := l.stream, taken := t.taken + value, reading := Handled);
      if l.thrown.Some? then Done(FailBranches(u, l.thrown.value))
      else
        var r := Offer(t.rightCanceled, t.right, chunk);
        var w := u.(right := r.stream);
        if r.thrown.Some? then Done(FailBranches(w, r.thrown.value)) else w
  }

  /** A branch is cancelled: its cancel algorithm runs only if it was still readable. */
  function CancelBranch(t: Tee, isLeft: bool): Tee
    requires Usable(t)
  {
    var s := if isLeft then t.left else t.right;
    var u := if isLeft then t.(left := CancelReadable(s)) else t.(right := CancelReadable(s));
    if !s.phase.Readable? then u
    else CancelSourceWhenUnused(if isLeft then u.(leftCanceled := true) else u.(rightCanceled := true))
  }

  /** What happens to a branch from outside: its consumer, its start, and its pull promises. */
  predicate Outside(e: Event) {
    e.StartFulfilled? || e.PullFulfilled? || e.GetReader? || e.ReleaseReader? || e.Read? || e.ReadView?
  }

  function OnBranch(t: Tee, isLeft: bool, e: Event): Tee
    requires Usable(t)
  {
    var s := if isLeft then t.left else t.right;
    var next := ReadableRuns.Step(s, e);
    var u := if isLeft then t.(left := next) else t.(right := next);
    if next.pullCalls > s.pullCalls then PullBranch(u) else u
  }

  datatype TeeEvent =
    | BranchEvent(isLeft: bool, event: Event)
    | BranchCancel(isLeft: bool)
    | SourceValue(value: seq<Item>)
    | SourceDone
    | SourceReadFailed(reason: Reason)
    | ReadingCleared
    | SourceClosedFailed(reason: Reason)
    | SourceCancelSettled(result: Option<Reason>)

  /** A read of a source gives one chunk, or some bytes. */
  predicate ValueFits(t: Tee, value: seq<Item>) {
    if t.byteStream then value != [] else |value| == 1
  }

  function TeeStep(t: Tee, e: TeeEvent): Tee
    requires Usable(t)
  {
    match e
    case BranchEvent(isLeft, event) => if Outside(event) then OnBranch(t, isLeft, event) else t
    case BranchCancel(isLeft) => CancelBranch(t, isLeft)
    case SourceValue(value) => if t.reading.Awaiting? && ValueFits(t, value) then ReadResolved(t, value) else t
    case SourceDone =>
      if !t.reading.Awaiting? then t
      else if t.sourceFinished || t.cancelStarted then t.(reading := Handled)
      else FinishSource(t.(reading := Handled), None)
    case SourceReadFailed(reason) =>
      if t.reading.Awaiting? then FinishSource(t.(reading := Handled), Some(reason)) else t
    case ReadingCleared => if t.reading.Handled? then t.(reading := Idle) else t
    case SourceClosedFailed(reason) => FinishSource(t, Some(reason))
    case SourceCancelSettled(result) => if t.cancelStarted then CancelSettled(t, result) else t
  }
}
