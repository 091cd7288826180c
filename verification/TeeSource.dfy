/** A tee together with the stream it reads: the calls its closures make through their reader, and
    the reactions to the promises they get back. */
module TeeSources {
  import opened Options
  import opened ReadableModel
  import opened ReadableInvariants
  import opened ReadableSteps
  import opened ReadableAdvances
  import opened ReadableRuns
  import opened ReadableSignals
  import opened ReadableFrames
  import opened TeeModel
  import opened TeeRuns

  /** `holds` says that the tee's reader has not been released, `readId` is the latest read, and
      `cancelling` is what is known of the promise of the cancel while it has not been reacted to. */
  datatype Joint = Joint(
    tee: Tee,
    source: Stream,
    holds: bool,
    readId: nat,
    cancelling: Option<Signal>,
    // the history
    before: seq<Item>,
    ended: bool)

  predicate Ready(j: Joint) {
    TeeInv(j.tee) && Inv(j.source)
  }

  /** `tee()` on a stream that is not locked. */
  function Attach(source: Stream): Joint {
    Joint(Split(source.byteStream), AcquireReader(source, DefaultReader).stream, true, 0, None,
          Delivered(source.settled), false)
  }

  // ---- calls of the reader --------------------------------------------------

  function MakeRead(j: Joint): Joint
    requires AllShaped(j.source.requests)
  {
    j.(source := ReadFrom(j.source), readId := j.source.nextId)
  }

  function MakeCancel(j: Joint): Joint
    requires AllShaped(j.source.requests)
  {
    j.(source := CancelReadable(j.source), cancelling := Some(Announced(j.source.phase)))
  }

  /** The reader is released once; the code swallows the error of a release with a read pending. */
  function Release(j: Joint): Joint {
    var c := ReleaseLock(j.source);
    if !j.holds || c.thrown.Some? then j else j.(source := c.stream, holds := false)
  }

  /** The call that a step of the closures from `t` makes: a read, a cancel, or the release. */
  function CallFor(j: Joint, t: Tee): Joint
    requires AllShaped(j.source.requests)
  {
    if j.tee.sourceReads > t.sourceReads then MakeRead(j)
    else if j.tee.sourceCancels > t.sourceCancels then MakeCancel(j)
    else if j.tee.sourceFinished && !t.sourceFinished then Release(j)
    else j
  }

  function AfterTee(j: Joint, e: TeeEvent): Joint
    requires Usable(j.tee) && AllShaped(j.source.requests)
  {
    CallFor(j.(tee := TeeStep(j.tee, e)), j.tee)
  }

  // ---- steps ----------------------------------------------------------------

  datatype JointEvent =
    | AtBranch(isLeft: bool, event: Event)
    | CancelAt(isLeft: bool)
    | AtSource(event: Event)
    | ReadReacts
    | ReadForgotten
    | ClosedReacts
    | CancelReacts(result: Option<Reason>)

  /** What the promise of a read tells the closures. */
  function Reaction(a: Settlement): TeeEvent {
    if a.Failed? then SourceReadFailed(a.reason)
    else if a.Answered? && !a.done then SourceValue(a.items)
    else SourceDone
  }

  /** How a promise settles: `result` if that is still open. */
  function Outcome(signal: Signal, result: Option<Reason>): Option<Reason> {
    match signal
    case Awaited => result
    case Resolved => None
    case Rejected(reason) => Some(reason)
  }

  /** The read of the tee whose promise is settled but has not been reacted to. */
  predicate Pending(j: Joint) {
    j.tee.reading.Awaiting? && j.readId < |j.source.settled|
  }

  /** The end of the source reaches the closures. */
  predicate Ends(j: Joint)
    requires Pending(j)
  {
    Reaction(j.source.settled[j.readId]).SourceDone? && !j.tee.sourceFinished && !j.tee.cancelStarted
  }

  function JointStep(j: Joint, e: JointEvent): Joint
    requires Ready(j)
  {
    match e
    case AtBranch(isLeft, event) => AfterTee(j, BranchEvent(isLeft, event))
    case CancelAt(isLeft) => AfterTee(j, BranchCancel(isLeft))
    case AtSource(event) =>
      if j.holds && ByReader(event) then j else j.(source := ReadableRuns.Step(j.source, event))
    case ReadReacts => ReadReaction(j)
    case ReadForgotten => AfterTee(j, ReadingCleared)
    case ClosedReacts =>
      if j.holds && j.source.closed.Rejected? then AfterTee(j, SourceClosedFailed(j.source.closed.reason)) else j
    case CancelReacts(result) => CancelReaction(j, result)
  }

  function CancelReaction(j: Joint, result: Option<Reason>): Joint
    requires Ready(j)
  {
    if j.cancelling.None? then j
    else AfterTee(j.(cancelling := None), SourceCancelSettled(Outcome(j.cancelling.value, result)))
  }

  function ReadReaction(j: Joint): Joint
    requires Ready(j)
  {
    if Pending(j) then AfterTee(j.(ended := j.ended || Ends(j)), Reaction(j.source.settled[j.readId])) else j
  }

  // ---- the invariant --------------------------------------------------------

  /** The tee holds the lock until it is done with the source, and at most its own read waits. */
  predicate LockFits(j: Joint) {
    && (j.holds <==> !j.tee.sourceFinished)
    && (j.holds ==> j.source.reader.DefaultReader? && |j.source.requests| <= if j.tee.reading.Awaiting? then 1 else 0)
    && (j.holds && j.tee.reading.Awaiting? ==> j.readId + 1 == j.source.nextId)
    && (!j.holds && j.tee.reading.Awaiting? ==> j.readId < |j.source.settled|)
    && (j.tee.cancelStarted ==> !j.source.phase.Readable?)
    && (j.cancelling.Some? ==> j.tee.cancelStarted)
    && (j.holds && Pending(j) ==> NoneDone(j.source.settled, j.readId))
  }

  /** The items of a settled read that the closures have not seen. */
  function Unread(j: Joint): seq<Item> {
    if Pending(j) then j.source.settled[j.readId].Items() else []
  }

  /** What the closures took is what their reads delivered. */
  predicate Accounts(j: Joint) {
    && j.before + j.tee.taken <= Delivered(j.source.settled)
    && (j.holds && !j.tee.cancelStarted ==> Delivered(j.source.settled) == j.before + j.tee.taken + Unread(j))
  }

  /** After the end of the source the closures have taken all that it gave. */
  predicate TookAll(j: Joint) {
    j.ended ==>
      && j.tee.sourceFinished && j.source.phase.Closed?
      && (!j.source.cancelled ==> j.before + j.tee.taken == Delivered(j.source.settled) == j.source.supplied)
  }

  predicate Coupled(j: Joint) {
    Ready(j) && j.tee.byteStream == j.source.byteStream && Told(j.source) && LockFits(j) && Accounts(j)
  }

  predicate JointInv(j: Joint) {
    Coupled(j) && TookAll(j)
  }

  // ---- what a step of the closures changes ----------------------------------

  /** The closures make no call but perhaps the release, and start no read. */
  predicate NoCall(t: Tee, u: Tee) {
    && u.sourceReads == t.sourceReads && u.sourceCancels == t.sourceCancels && u.cancelStarted == t.cancelStarted
    && (t.sourceFinished ==> u.sourceFinished) && (u.reading.Awaiting? ==> t.reading.Awaiting?)
  }

  /** What the calls of the reader depend on is the same. */
  predicate SameReader(t: Tee, u: Tee) {
    u.sourceFinished == t.sourceFinished && u.taken == t.taken && u.byteStream == t.byteStream
  }

  /** A branch's pull starts a read. */
  predicate Reads(t: Tee, u: Tee) {
    && u.sourceReads == t.sourceReads + 1 && u.sourceCancels == t.sourceCancels && SameReader(t, u)
    && t.reading.Idle? && u.reading.Awaiting? && !t.sourceFinished && !t.cancelStarted && !u.cancelStarted
  }

  /** The last branch's cancel cancels the source. */
  predicate Cancels(t: Tee, u: Tee) {
    && u.sourceReads == t.sourceReads && u.sourceCancels == t.sourceCancels + 1 && SameReader(t, u)
    && u.reading == t.reading && !t.sourceFinished && !t.cancelStarted && u.cancelStarted
  }

  lemma BranchCalls(t: Tee, isLeft: bool, e: Event)
    requires Usable(t)
    ensures var u := OnBranch(t, isLeft, e); SameReader(t, u) && (Reads(t, u) || (NoCall(t, u) && u.reading == t.reading))
  {
    hide Inv, ReadableRuns.Step;
  }

  lemma CancelCalls(t: Tee, isLeft: bool)
    requires Usable(t)
    ensures var u := TeeModel.CancelBranch(t, isLeft);
            SameReader(t, u) && u.reading == t.reading && (Cancels(t, u) || NoCall(t, u))
  {
    hide Inv, CancelReadable;
  }

  lemma FinishCalls(t: Tee, failed: Option<Reason>)
    requires Usable(t)
    ensures var u := FinishSource(t, failed);
            NoCall(t, u) && u.reading == t.reading && u.taken == t.taken && u.byteStream == t.byteStream
  {
    hide Inv, TeeModel.CloseBranch, ErrorReadable;
  }

  lemma ValueCalls(t: Tee, value: seq<Item>)
    requires Usable(t) && value != []
    ensures var u := ReadResolved(t, value);
            NoCall(t, u) && u.reading.Handled? && u.byteStream == t.byteStream
            && u.taken == if t.sourceFinished || t.cancelStarted then t.taken else t.taken + value
  {
    hide Inv, Offer, ErrorReadable, ChunkFor;
  }

  // ---- events of the source -------------------------------------------------

  lemma Counted(s: Stream)
    requires Inv(s)
    ensures |s.settled| + |s.requests| == s.nextId
  {
    hide Sound, AllWhole, Conserved, Served;
  }

  lemma DeliveredGrows(a: seq<Settlement>, b: seq<Settlement>)
    requires a <= b
    ensures Delivered(a) <= Delivered(b)
  {
    assert b == a + b[|a|..];
    DeliveredConcat(a, b[|a|..]);
    hide Delivered;
  }

  /** At most the promise of the one waiting read is settled. */
  lemma NextSettled(s: Stream, t: Stream)
    requires Inv(s) && Inv(t) && Undisturbed(s, t) && |s.requests| <= 1
    ensures |t.requests| <= |s.requests|
    ensures t.settled == s.settled
         || (|s.requests| == 1 && t.settled == s.settled + [t.settled[|s.settled|]] && t.requests == []
             && Delivered(t.settled) == Delivered(s.settled) + t.settled[|s.settled|].Items())
  {
    Counted(s);
    Counted(t);
    hide Inv, Delivered;
    if |t.settled| > |s.settled| {
      assert t.settled == s.settled + [t.settled[|s.settled|]];
      DeliveredPush(s.settled, t.settled[|s.settled|]);
    } else {
      assert t.settled == s.settled;
    }
  }

  /** What any event leaves of a stream and its history. */
  predicate Continues(s: Stream, t: Stream) {
    && Inv(t) && Told(t) && t.byteStream == s.byteStream && s.settled <= t.settled
    && Delivered(s.settled) <= Delivered(t.settled) <= t.supplied
    && (!s.phase.Readable? ==> t.phase == s.phase && t.supplied == s.supplied && t.cancelled == s.cancelled)
  }

  lemma StepContinues(s: Stream, e: Event)
    requires Inv(s) && Told(s)
    ensures Continues(s, ReadableRuns.Step(s, e))
  {
    StepKeeps(s, e);
    StepTells(s, e);
    StepAdvances(s, e);
    var t := ReadableRuns.Step(s, e);
    if !s.phase.Readable? {
      ClosedGivesNothing(s, e);
      CancelStays(s, e);
    }
    DeliveredPrefix(t);
    hide ReadableRuns.Step, Gives, Inv, Delivered, Told;
    DeliveredGrows(s.settled, t.settled);
  }

  lemma CancelStays(s: Stream, e: Event)
    requires Inv(s) && !s.phase.Readable?
    ensures ReadableRuns.Step(s, e).cancelled == s.cancelled
  {
    if e.Cancel? {
      hide Inv;
    } else {
      StepTells(s, e);
      hide ReadableRuns.Step, Inv;
    }
  }

  lemma TookAllStays(j: Joint, t: Stream)
    requires TookAll(j) && Continues(j.source, t)
    ensures TookAll(j.(source := t))
  {
    hide Delivered, Inv, Told;
  }

  lemma HeldSame(j: Joint, t: Stream)
    requires LockFits(j) && Accounts(j) && j.holds && t.reader == j.source.reader && t.nextId == j.source.nextId
    requires t.settled == j.source.settled && |t.requests| <= |j.source.requests|
    requires !j.source.phase.Readable? ==> t.phase == j.source.phase
    ensures LockFits(j.(source := t)) && Accounts(j.(source := t))
  {
    hide Delivered, NoneDone;
  }

  lemma HeldAnswered(j: Joint, t: Stream)
    requires LockFits(j) && Accounts(j) && j.holds && t.reader == j.source.reader && t.nextId == j.source.nextId
    requires |j.source.requests| == 1 && |t.settled| == |j.source.settled| + 1 == t.nextId && t.requests == []
    requires t.settled == j.source.settled + [t.settled[|j.source.settled|]] && NoneDone(t.settled, |j.source.settled|)
    requires Delivered(t.settled) == Delivered(j.source.settled) + t.settled[|j.source.settled|].Items()
    requires !j.source.phase.Readable? ==> t.phase == j.source.phase
    ensures LockFits(j.(source := t)) && Accounts(j.(source := t))
  {
    hide Delivered, NoneDone;
  }

  /** While the tee holds the lock, its one read is settled at most once, and told to nobody else. */
  lemma HeldSource(j: Joint, t: Stream)
    requires Inv(j.source) && LockFits(j) && Accounts(j) && j.holds && Undisturbed(j.source, t)
    requires Continues(j.source, t)
    ensures LockFits(j.(source := t)) && Accounts(j.(source := t))
  {
    Counted(j.source);
    ContinuesKeeps(j.source, t);
    Counted(t);
    NextSettled(j.source, t);
    assert !j.source.phase.Readable? ==> t.phase == j.source.phase;
    assert Delivered(j.source.settled) <= Delivered(t.settled);
    hide Inv, Told, Continues;
    if t.settled == j.source.settled {
      HeldSame(j, t);
    } else {
      HeldAnswered(j, t);
    }
    hide LockFits, Accounts, NoneDone, Delivered;
  }

  lemma FreeSource(j: Joint, t: Stream)
    requires LockFits(j) && Accounts(j) && !j.holds && Continues(j.source, t)
    ensures LockFits(j.(source := t)) && Accounts(j.(source := t))
  {
    hide Delivered, Inv, Told;
  }

  lemma ContinuesKeeps(s: Stream, t: Stream)
    requires Continues(s, t)
    ensures Inv(t) && Told(t) && t.byteStream == s.byteStream
  {
    hide Inv, Told, Delivered;
  }

  lemma HeldStep(j: Joint, e: Event)
    requires Inv(j.source) && Told(j.source) && LockFits(j) && Accounts(j) && j.holds && !ByReader(e)
    ensures LockFits(j.(source := ReadableRuns.Step(j.source, e)))
    ensures Accounts(j.(source := ReadableRuns.Step(j.source, e)))
  {
    HeldReader(j);
    hide Inv, LockFits, Accounts, Told, ReadableRuns.Step, Continues, Undisturbed;
    StepContinues(j.source, e);
    SourceUndisturbed(j.source, e);
    HeldSource(j, ReadableRuns.Step(j.source, e));
  }

  lemma AtSourceIs(j: Joint, e: Event)
    requires Ready(j)
    ensures JointStep(j, AtSource(e))
         == if j.holds && ByReader(e) then j else j.(source := ReadableRuns.Step(j.source, e))
  {
    hide Inv, TeeInv, ReadableRuns.Step, AfterTee, ReadReaction, CancelReaction;
  }

  lemma FromSourceKeeps(j: Joint, e: Event)
    requires JointInv(j) && !(j.holds && ByReader(e))
    ensures JointInv(j.(source := ReadableRuns.Step(j.source, e)))
  {
    assert Sound(j.source);
    hide Inv, Sound, TeeInv, LockFits, Accounts, TookAll, Told, ReadableRuns.Step, Continues;
    StepContinues(j.source, e);
    TookAllStays(j, ReadableRuns.Step(j.source, e));
    ContinuesKeeps(j.source, ReadableRuns.Step(j.source, e));
    if j.holds {
      HeldStep(j, e);
    } else {
      FreeSource(j, ReadableRuns.Step(j.source, e));
    }
  }

  lemma SourceKeeps(j: Joint, e: Event)
    requires JointInv(j)
    ensures JointInv(JointStep(j, AtSource(e)))
  {
    AtSourceIs(j, e);
    if !(j.holds && ByReader(e)) {
      FromSourceKeeps(j, e);
    }
    hide JointInv, JointStep, ReadableRuns.Step;
  }

  lemma HeldReader(j: Joint)
    requires LockFits(j) && j.holds
    ensures j.source.reader.DefaultReader?
  {
  }

  // ---- calls of the closures ------------------------------------------------

  /** A default reader waits for nothing on a stream that has ended. */
  lemma NothingWaits(s: Stream)
    requires Inv(s) && s.reader.DefaultReader? && !s.phase.Readable?
    ensures s.requests == []
  {
    hide History;
  }

  /** A read was made, and perhaps answered at once. */
  predicate OneMoreRead(s: Stream, t: Stream) {
    t.reader == s.reader && t.nextId == s.nextId + 1 && s.settled <= t.settled && NoneDone(t.settled, |s.settled|)
  }

  lemma WaitingReadFrame(s: Stream)
    requires AllShaped(s.requests) && s.queue == [] && s.phase.Readable?
    ensures OneMoreRead(s, ReadFrom(s))
  {
    ReadFromWaitingIs(s);
    var t := Joined(s, NewRead(s));
    PullUndisturbed(t);
    assert t.reader == s.reader && t.nextId == s.nextId + 1 && t.settled == s.settled;
    hide ReadFrom, RequestPull, Joined, NewRead, NoneDone;
  }

  lemma EndedReadFrame(s: Stream)
    requires AllShaped(s.requests) && s.queue == [] && !s.phase.Readable?
    ensures OneMoreRead(s, ReadFrom(s))
  {
    var a := if s.phase.Closed? then Finished(DefaultRead(s.nextId))
             else Failed(DefaultRead(s.nextId), s.phase.storedError);
    ReadFromEndedIs(s, a);
    hide ReadFrom;
  }

  lemma ReadFromFrame(s: Stream)
    requires Inv(s) && s.reader.DefaultReader?
    ensures OneMoreRead(s, ReadFrom(s))
  {
    assert AllShaped(s.requests);
    hide Inv, AllShaped, ReadFrom, OneMoreRead;
    if s.queue != [] {
      TakeFrame(s);
    } else if s.phase.Readable? {
      WaitingReadFrame(s);
    } else {
      EndedReadFrame(s);
    }
  }

  lemma TakeFrame(s: Stream)
    requires AllShaped(s.requests) && s.queue != []
    ensures OneMoreRead(s, ReadFrom(s))
  {
    hide AllShaped, CloseReadable, RequestPull;
    var t := TakeEntry(s);
    CloseUndisturbed(t);
    PullUndisturbed(t);
    assert t.reader == s.reader && t.nextId == s.nextId + 1 && t.settled[..|s.settled|] == s.settled;
    assert |t.settled| == |s.settled| + 1 && !t.settled[|s.settled|].done;
    hide TakeEntry;
    var u := ReadFrom(s);
    assert Undisturbed(t, u);
    hide ReadFrom;
  }

  lemma CallsAreSteps(s: Stream)
    requires Inv(s)
    ensures AllShaped(s.requests)
    ensures s.reader.DefaultReader? ==> ReadFrom(s) == ReadableRuns.Step(s, Read)
    ensures CancelReadable(s) == ReadableRuns.Step(s, Cancel)
  {
    assert AllShaped(s.requests);
    hide History, Served, ReadFrom, CancelReadable, AllShaped;
  }

  lemma IdleWaitsForNothing(j: Joint)
    requires LockFits(j) && j.holds && !j.tee.reading.Awaiting?
    ensures j.source.reader.DefaultReader? && j.source.requests == []
  {
  }

  /** A new read is the only one, and what it delivers is still to be taken. */
  lemma ReadFits(j: Joint, u: Tee, t: Stream)
    requires Inv(j.source) && Continues(j.source, t) && LockFits(j) && Accounts(j) && Reads(j.tee, u)
    requires OneMoreRead(j.source, t)
    ensures LockFits(j.(tee := u, source := t, readId := j.source.nextId))
    ensures Accounts(j.(tee := u, source := t, readId := j.source.nextId))
  {
    Counted(j.source);
    Counted(t);
    hide Inv, Delivered;
    assert j.source.requests == [];
    if |t.settled| > |j.source.settled| {
      assert t.settled == j.source.settled + [t.settled[|j.source.settled|]];
      DeliveredPush(j.source.settled, t.settled[|j.source.settled|]);
    } else {
      assert t.settled == j.source.settled;
    }
  }

  lemma ReadCall(s: Stream)
    requires Inv(s) && Told(s) && s.reader.DefaultReader?
    ensures AllShaped(s.requests) && OneMoreRead(s, ReadFrom(s)) && Continues(s, ReadFrom(s))
  {
    CallsAreSteps(s);
    hide *;
    ReadFromFrame(s);
    StepContinues(s, Read);
  }

  lemma CancelCall(s: Stream)
    requires Inv(s) && Told(s)
    ensures AllShaped(s.requests) && Continues(s, CancelReadable(s))
    ensures Undisturbed(s, CancelReadable(s)) && !CancelReadable(s).phase.Readable?
  {
    CallsAreSteps(s);
    hide *;
    CancelFrame(s);
    StepContinues(s, Cancel);
  }

  lemma ReadKeeps(j: Joint, u: Tee)
    requires JointInv(j) && Reads(j.tee, u) && TeeInv(u)
    ensures AllShaped(j.source.requests) && JointInv(MakeRead(j.(tee := u)))
  {
    var s := j.source;
    assert j.holds;
    IdleWaitsForNothing(j);
    ReadCall(s);
    hide Inv, TeeInv, LockFits, Accounts, TookAll, ReadFrom, Told, AllShaped, OneMoreRead;
    ReadFits(j, u, ReadFrom(s));
    TookAllStays(j, ReadFrom(s));
    NotEnded(j);
    hide Reads;
  }

  lemma NotEnded(j: Joint)
    requires TookAll(j) && !j.tee.sourceFinished
    ensures !j.ended
  {
  }

  lemma PendingStays(j: Joint, t: Stream)
    requires LockFits(j) && j.holds && j.tee.reading.Awaiting? && Undisturbed(j.source, t)
    requires j.readId <= |j.source.settled|
    ensures NoneDone(t.settled, j.readId)
  {
    forall i | j.readId <= i < |t.settled|
      ensures !(t.settled[i].Answered? && t.settled[i].done)
    {
      assert i < |j.source.settled| ==> t.settled[i] == j.source.settled[i];
    }
  }

  lemma CancelFits(j: Joint, u: Tee, t: Stream)
    requires Inv(j.source) && Continues(j.source, t) && LockFits(j) && Accounts(j) && Cancels(j.tee, u)
    requires Undisturbed(j.source, t) && !t.phase.Readable?
    ensures LockFits(j.(tee := u, source := t, cancelling := Some(Announced(j.source.phase))))
    ensures Accounts(j.(tee := u, source := t, cancelling := Some(Announced(j.source.phase))))
  {
    assert j.holds;
    NothingWaits(t);
    Counted(t);
    Counted(j.source);
    hide Inv, Delivered, Told;
    if Pending(j.(source := t)) {
      PendingStays(j, t);
    }
  }

  lemma CancelFrame(s: Stream)
    requires Inv(s)
    ensures AllShaped(s.requests)
    ensures Undisturbed(s, CancelReadable(s)) && !CancelReadable(s).phase.Readable?
  {
    assert AllShaped(s.requests);
    hide Inv, AllShaped;
    if s.phase.Readable? {
      CancelIs(s);
      EndedReadsAreNotDone(s.settled, s.requests, ClosedMidElement);
    } else {
      NothingNewDone(s.settled);
      hide CloseReadable;
    }
    hide FinishedAll, NoneDone;
  }

  lemma CancelKeeps(j: Joint, u: Tee)
    requires JointInv(j) && Cancels(j.tee, u) && TeeInv(u)
    ensures AllShaped(j.source.requests) && JointInv(MakeCancel(j.(tee := u)))
  {
    var s := j.source;
    CancelCall(s);
    hide Inv, TeeInv, LockFits, Accounts, TookAll, CancelReadable, Told, AllShaped, Undisturbed;
    CancelFits(j, u, CancelReadable(s));
    NotEnded(j);
    hide Cancels;
  }

  // ---- reactions ------------------------------------------------------------

  /** With no read waiting the release succeeds. */
  lemma ReleaseSucceeds(j: Joint)
    requires Inv(j.source) && j.holds && j.source.reader.DefaultReader? && j.source.requests == []
    ensures Release(j) == j.(source := ReadableRuns.Step(j.source, ReleaseReader), holds := false)
  {
  }

  /** What a step without a call must bring along. */
  predicate Settles(j: Joint, u: Tee) {
    && NoCall(j.tee, u) && TeeInv(u) && u.byteStream == j.tee.byteStream
    && (j.holds ==> j.source.requests == [] || (!u.sourceFinished && u.reading == j.tee.reading))
    && Accounts(j.(tee := u)) && TookAll(j.(tee := u))
  }

  /** A step of the closures without a call, and the release if it ends the source for them. */
  function Settled(j: Joint, u: Tee): Joint {
    if u.sourceFinished && !j.tee.sourceFinished then Release(j.(tee := u)) else j.(tee := u)
  }

  lemma ReleaseFits(j: Joint, u: Tee, t: Stream)
    requires Inv(j.source) && Continues(j.source, t) && LockFits(j) && NoCall(j.tee, u) && j.holds
    requires u.sourceFinished && j.source.requests == [] && Accounts(j.(tee := u))
    ensures LockFits(j.(tee := u, source := t, holds := false)) && Accounts(j.(tee := u, source := t, holds := false))
  {
    Counted(j.source);
    hide Inv, Told, Delivered;
  }

  lemma StayFits(j: Joint, u: Tee)
    requires LockFits(j) && NoCall(j.tee, u) && u.sourceFinished == j.tee.sourceFinished
    requires j.holds ==> j.source.requests == [] || u.reading == j.tee.reading
    ensures LockFits(j.(tee := u))
  {
  }

  lemma ReleaseCall(j: Joint, u: Tee)
    requires Inv(j.source) && Told(j.source) && LockFits(j) && j.holds && j.source.requests == []
    ensures var r := Release(j.(tee := u));
            r == j.(tee := u, source := r.source, holds := false) && Continues(j.source, r.source)
  {
    HeldReader(j);
    hide LockFits, Told;
    ReleaseSucceeds(j.(tee := u));
    StepContinues(j.source, ReleaseReader);
    hide Continues, Release, ReadableRuns.Step, Inv;
  }

  lemma SettleKeeps(j: Joint, u: Tee)
    requires Coupled(j) && Settles(j, u)
    ensures JointInv(Settled(j, u))
  {
    if u.sourceFinished && !j.tee.sourceFinished {
      assert j.holds && j.source.requests == [];
      hide Inv, TeeInv, LockFits, Accounts, TookAll, Told, Release;
      ReleaseCall(j, u);
      var t := Release(j.(tee := u)).source;
      ReleaseFits(j, u, t);
      TookAllStays(j.(tee := u), t);
    } else {
      StayFits(j, u);
      hide Inv, TeeInv, LockFits, Accounts, TookAll, Told;
    }
  }

  // ---- every step -----------------------------------------------------------

  lemma AfterTeeIs(j: Joint, e: TeeEvent)
    requires Usable(j.tee) && AllShaped(j.source.requests)
    ensures var u := TeeStep(j.tee, e);
            && (Reads(j.tee, u) ==> AfterTee(j, e) == MakeRead(j.(tee := u)))
            && (Cancels(j.tee, u) ==> AfterTee(j, e) == MakeCancel(j.(tee := u)))
            && (NoCall(j.tee, u) ==> AfterTee(j, e) == Settled(j, u))
  {
    hide TeeStep, Inv, AllShaped, MakeRead, MakeCancel, Release;
  }

  /** A step that takes nothing and leaves the read as it was. */
  lemma SameSettles(j: Joint, u: Tee)
    requires JointInv(j) && NoCall(j.tee, u) && TeeInv(u) && u.byteStream == j.tee.byteStream
    requires u.taken == j.tee.taken && u.reading == j.tee.reading
    requires u.sourceFinished != j.tee.sourceFinished ==> j.source.requests == []
    ensures Settles(j, u)
  {
    hide Inv, TeeInv, Delivered, Told;
  }

  lemma AfterSettles(j: Joint, e: TeeEvent)
    requires Coupled(j) && Settles(j, TeeStep(j.tee, e))
    ensures AllShaped(j.source.requests) && JointInv(AfterTee(j, e))
  {
    CallsAreSteps(j.source);
    AfterTeeIs(j, e);
    SettleKeeps(j, TeeStep(j.tee, e));
    hide TeeStep, JointInv, TeeInv, Inv, AfterTee, Settled, AllShaped;
  }

  lemma AtBranchKeeps(j: Joint, isLeft: bool, e: Event)
    requires JointInv(j) && Outside(e)
    ensures AllShaped(j.source.requests) && JointInv(AfterTee(j, BranchEvent(isLeft, e)))
  {
    CallsAreSteps(j.source);
    var u := TeeStep(j.tee, BranchEvent(isLeft, e));
    assert u == OnBranch(j.tee, isLeft, e);
    TeeStepKeeps(j.tee, BranchEvent(isLeft, e));
    BranchCalls(j.tee, isLeft, e);
    AfterTeeIs(j, BranchEvent(isLeft, e));
    hide TeeStep, OnBranch, JointInv, TeeInv, Inv, AfterTee, MakeRead, Settled, AllShaped, ReadableRuns.Step;
    if Reads(j.tee, u) {
      ReadKeeps(j, u);
    } else {
      SameSettles(j, u);
      SettleKeeps(j, u);
    }
  }

  lemma CancelAtKeeps(j: Joint, isLeft: bool)
    requires JointInv(j)
    ensures AllShaped(j.source.requests) && JointInv(AfterTee(j, BranchCancel(isLeft)))
  {
    CallsAreSteps(j.source);
    var u := TeeStep(j.tee, BranchCancel(isLeft));
    assert u == TeeModel.CancelBranch(j.tee, isLeft);
    TeeStepKeeps(j.tee, BranchCancel(isLeft));
    CancelCalls(j.tee, isLeft);
    AfterTeeIs(j, BranchCancel(isLeft));
    hide TeeStep, TeeModel.CancelBranch, JointInv, TeeInv, Inv, AfterTee, MakeCancel, Settled, AllShaped,
      ReadableRuns.Step;
    if Cancels(j.tee, u) {
      CancelKeeps(j, u);
    } else {
      SameSettles(j, u);
      SettleKeeps(j, u);
    }
  }

  lemma ForgottenSettles(j: Joint, u: Tee)
    requires JointInv(j) && TeeInv(u)
    requires u == if j.tee.reading.Handled? then j.tee.(reading := Idle) else j.tee
    ensures Settles(j, u)
  {
    hide TeeInv, Inv, Told, Delivered;
  }

  lemma ForgottenIs(t: Tee)
    requires Usable(t)
    ensures TeeStep(t, ReadingCleared) == if t.reading.Handled? then t.(reading := Idle) else t
  {
    hide Inv;
  }

  lemma ForgottenKeeps(j: Joint)
    requires JointInv(j)
    ensures AllShaped(j.source.requests) && JointInv(AfterTee(j, ReadingCleared))
  {
    TeeStepKeeps(j.tee, ReadingCleared);
    ForgottenIs(j.tee);
    ForgottenSettles(j, TeeStep(j.tee, ReadingCleared));
    hide *;
    AfterSettles(j, ReadingCleared);
  }

  lemma ClosedIs(t: Tee, reason: Reason)
    requires Usable(t)
    ensures TeeStep(t, SourceClosedFailed(reason)) == FinishSource(t, Some(reason))
  {
    hide Inv, FinishSource;
  }

  lemma ClosedKeeps(j: Joint)
    requires JointInv(j) && j.holds && j.source.closed.Rejected?
    ensures AllShaped(j.source.requests) && JointInv(AfterTee(j, SourceClosedFailed(j.source.closed.reason)))
  {
    var e := SourceClosedFailed(j.source.closed.reason);
    HeldReader(j);
    assert !j.source.phase.Readable?;
    NothingWaits(j.source);
    TeeStepKeeps(j.tee, e);
    FinishCalls(j.tee, Some(j.source.closed.reason));
    ClosedIs(j.tee, j.source.closed.reason);
    hide TeeStep, FinishSource, JointInv, TeeInv, Inv, AfterTee, AllShaped, Told, LockFits, Accounts, TookAll, Settles;
    SameSettles(j, TeeStep(j.tee, e));
    AfterSettles(j, e);
  }

  lemma CancellingStays(j: Joint)
    requires JointInv(j)
    ensures JointInv(j.(cancelling := None))
  {
    hide Inv, TeeInv, Delivered, Told;
  }

  lemma CancelReactsKeeps(j: Joint, result: Option<Reason>)
    requires JointInv(j) && j.tee.cancelStarted
    ensures AllShaped(j.source.requests) && JointInv(AfterTee(j, SourceCancelSettled(result)))
  {
    var e := SourceCancelSettled(result);
    if j.holds {
      HeldReader(j);
      NothingWaits(j.source);
    }
    TeeStepKeeps(j.tee, e);
    assert TeeStep(j.tee, e) == CancelSettled(j.tee, result);
    assert !j.holds ==> j.tee.sourceFinished;
    hide TeeStep, JointInv, TeeInv, Inv, AfterTee, AllShaped, Told;
    SameSettles(j, TeeStep(j.tee, e));
    AfterSettles(j, e);
  }

  // ---- the reaction to a read -----------------------------------------------

  /** What the closures see of the read is what it delivered. */
  lemma PendingFacts(j: Joint)
    requires JointInv(j) && Pending(j)
    ensures var a := j.source.settled[j.readId];
            && (j.holds ==> j.source.requests == [] && !(a.Answered? && a.done))
            && (j.holds && a.Answered? ==> ValueFits(j.tee, a.items) && Reaction(a) == SourceValue(a.items))
            && (a.Finished? ==> j.source.phase.Closed?)
            && (!a.Answered? ==> a.Items() == [])
  {
    Counted(j.source);
    var a := j.source.settled[j.readId];
    assert WholeAnswer(j.source.phase, j.source.byteStream, a);
    hide Sound, TeeInv, Told, Conserved, Served, Ordered, AllWhole, Accounts, TookAll, Delivered;
  }

  /** Without a cancel a closed stream on which nothing waits has delivered all it was given. */
  lemma ClosedDelivered(s: Stream)
    requires Inv(s) && s.phase.Closed? && s.requests == [] && !s.cancelled
    ensures Delivered(s.settled) == s.supplied
  {
    assert s.queue == [] && Contents(s.queue) == [] && HeadFilled(s.requests) == [];
    hide Delivered, Structure, Ordered, AllWhole, Served;
  }

  /** The read that is being reacted to is taken, or gave nothing. */
  lemma ReactSettles(j: Joint, u: Tee, ended: bool)
    requires JointInv(j) && Pending(j) && TeeInv(u) && u.byteStream == j.tee.byteStream && NoCall(j.tee, u)
    requires u.reading.Handled? && (j.holds ==> j.source.requests == [])
    requires u.taken == if j.tee.sourceFinished || j.tee.cancelStarted then j.tee.taken else j.tee.taken + Unread(j)
    requires ended && !j.ended ==> u.sourceFinished && !j.tee.sourceFinished && !j.tee.cancelStarted && j.source.phase.Closed?
    ensures Settles(j.(ended := ended), u)
  {
    hide TeeInv, Told, Delivered;
    assert j.before + (j.tee.taken + Unread(j)) == j.before + j.tee.taken + Unread(j);
    if ended && !j.ended && !j.source.cancelled {
      ClosedDelivered(j.source);
    }
    hide Inv;
  }

  lemma DoneCalls(t: Tee)
    requires Usable(t) && t.reading.Awaiting?
    ensures var u := TeeStep(t, SourceDone);
            && NoCall(t, u) && u.reading.Handled? && u.taken == t.taken && u.byteStream == t.byteStream
            && (!t.cancelStarted ==> u.sourceFinished)
  {
    FinishCalls(t.(reading := Handled), None);
    hide FinishSource, Inv;
  }

  lemma FailedCalls(t: Tee, reason: Reason)
    requires Usable(t) && t.reading.Awaiting?
    ensures var u := TeeStep(t, SourceReadFailed(reason));
            && NoCall(t, u) && u.reading.Handled? && u.taken == t.taken && u.byteStream == t.byteStream
  {
    FinishCalls(t.(reading := Handled), Some(reason));
    hide FinishSource, Inv;
  }

  /** A value that came after the end, of whatever shape, changes nothing that matters here. */
  lemma ValueReacts(t: Tee, value: seq<Item>)
    requires Usable(t) && t.reading.Awaiting? && (ValueFits(t, value) || t.sourceFinished)
    ensures var u := TeeStep(t, SourceValue(value));
            && NoCall(t, u) && (u.reading.Handled? || (u == t && t.sourceFinished)) && u.byteStream == t.byteStream
            && u.taken == if t.sourceFinished || t.cancelStarted then t.taken else t.taken + value
  {
    if ValueFits(t, value) {
      ValueCalls(t, value);
    }
    hide ReadResolved, Inv;
  }

  lemma ReactCalls(j: Joint)
    requires JointInv(j) && Pending(j)
    ensures var u := TeeStep(j.tee, Reaction(j.source.settled[j.readId]));
            && NoCall(j.tee, u) && u.byteStream == j.tee.byteStream
            && (u.reading.Handled? || (u == j.tee && u.sourceFinished))
            && u.taken == (if j.tee.sourceFinished || j.tee.cancelStarted then j.tee.taken else j.tee.taken + Unread(j))
            && (Ends(j) ==> u.sourceFinished)
  {
    var a := j.source.settled[j.readId];
    PendingFacts(j);
    assert j.holds <==> !j.tee.sourceFinished;
    assert j.tee.taken + [] == j.tee.taken;
    hide TeeStep, TeeInv, Inv, Told, LockFits, Accounts, TookAll;
    match Reaction(a) {
      case SourceValue(value) => ValueReacts(j.tee, value);
      case SourceReadFailed(reason) => FailedCalls(j.tee, reason);
      case SourceDone => DoneCalls(j.tee);
    }
    hide ValueFits;
  }

  lemma EndIsClosed(j: Joint)
    requires JointInv(j) && Pending(j) && Ends(j)
    ensures j.source.phase.Closed?
  {
    PendingFacts(j);
    hide Inv, TeeInv, Told, Accounts, TookAll;
  }

  lemma ReactKeeps(j: Joint)
    requires JointInv(j) && Pending(j)
    ensures AllShaped(j.source.requests)
    ensures JointInv(AfterTee(j.(ended := j.ended || Ends(j)), Reaction(j.source.settled[j.readId])))
  {
    var e, ended := Reaction(j.source.settled[j.readId]), j.ended || Ends(j);
    PendingFacts(j);
    ReactCalls(j);
    if Ends(j) {
      EndIsClosed(j);
    }
    TeeStepKeeps(j.tee, e);
    EndedIsCoupled(j, ended);
    var u := TeeStep(j.tee, e);
    assert !Ends(j) ==> j.(ended := ended) == j;
    hide JointInv, Coupled, TeeInv, Inv, TeeStep, Reaction, Unread, NoCall, Settles, AfterTee, AllShaped;
    if u.reading.Handled? {
      ReactSettles(j, u, ended);
    } else {
      SameSettles(j, u);
    }
    AfterSettles(j.(ended := ended), e);
  }

  lemma EndedIsCoupled(j: Joint, ended: bool)
    requires Coupled(j)
    ensures Coupled(j.(ended := ended))
  {
    hide TeeInv, Inv, Told, Delivered;
  }

  lemma JointStepKeeps(j: Joint, e: JointEvent)
    requires JointInv(j)
    ensures JointInv(JointStep(j, e))
  {
    CallsAreSteps(j.source);
    assert j.cancelling.Some? ==> j.tee.cancelStarted;
    match e {
      case AtBranch(isLeft, event) =>
        if Outside(event) {
          AtBranchKeeps(j, isLeft, event);
        } else {
          NothingKeeps(j, BranchEvent(isLeft, event));
        }
      case CancelAt(isLeft) => CancelAtKeeps(j, isLeft);
      case AtSource(event) => SourceKeeps(j, event);
      case ReadReacts => if Pending(j) { ReactKeeps(j); }
      case ReadForgotten => ForgottenKeeps(j);
      case ClosedReacts => if j.holds && j.source.closed.Rejected? { ClosedKeeps(j); }
      case CancelReacts(result) =>
        if j.cancelling.Some? {
          CancellingStays(j);
          CancelReactsKeeps(j.(cancelling := None), Outcome(j.cancelling.value, result));
        }
    }
    hide JointInv, AfterTee, ReadableRuns.Step, Inv, TeeInv, AllShaped;
  }

  lemma NothingKeeps(j: Joint, e: TeeEvent)
    requires JointInv(j) && TeeStep(j.tee, e) == j.tee
    ensures AllShaped(j.source.requests) && JointInv(AfterTee(j, e))
  {
    CallsAreSteps(j.source);
    hide TeeStep, JointInv, TeeInv, Inv, AllShaped;
  }

  // ---- runs -----------------------------------------------------------------

  lemma AttachHolds(source: Stream)
    requires Inv(source) && source.reader.NoReader?
    ensures JointInv(Attach(source))
  {
    UnlockedHasNoReads(source);
    SplitHolds(source.byteStream);
    AcquireReaderKeeps(source, DefaultReader);
    DeliveredPrefix(source);
    hide Inv, TeeInv, Delivered;
  }

  function RunJoint(j: Joint, events: seq<JointEvent>): (r: Joint)
    requires JointInv(j)
    ensures JointInv(r)
    decreases |events|
  {
    if events == [] then j
    else
      JointStepKeeps(j, events[0]);
      RunJoint(JointStep(j, events[0]), events[1..])
  }

  /** The step of the closures in a step of the whole, if there is one. */
  function TeePart(j: Joint, e: JointEvent): seq<TeeEvent> {
    match e
    case AtBranch(isLeft, event) => [BranchEvent(isLeft, event)]
    case CancelAt(isLeft) => [BranchCancel(isLeft)]
    case AtSource(_) => []
    case ReadReacts => if Pending(j) then [Reaction(j.source.settled[j.readId])] else []
    case ReadForgotten => [ReadingCleared]
    case ClosedReacts =>
      if j.holds && j.source.closed.Rejected? then [SourceClosedFailed(j.source.closed.reason)] else []
    case CancelReacts(result) =>
      if j.cancelling.None? then [] else [SourceCancelSettled(Outcome(j.cancelling.value, result))]
  }

  function TeeParts(j: Joint, events: seq<JointEvent>): seq<TeeEvent>
    requires JointInv(j)
    decreases |events|
  {
    if events == [] then []
    else
      JointStepKeeps(j, events[0]);
      TeePart(j, events[0]) + TeeParts(JointStep(j, events[0]), events[1..])
  }

  lemma AfterTeeFrame(j: Joint, e: TeeEvent)
    requires Usable(j.tee) && AllShaped(j.source.requests)
    ensures AfterTee(j, e).tee == TeeStep(j.tee, e) && AfterTee(j, e).before == j.before
  {
    hide TeeStep, ReadFrom, CancelReadable, ReleaseLock, Inv, AllShaped;
  }

  lemma StepIsTeeStep(j: Joint, e: JointEvent)
    requires JointInv(j)
    ensures JointStep(j, e).before == j.before
    ensures var part := TeePart(j, e);
            JointStep(j, e).tee == if part == [] then j.tee else TeeStep(j.tee, part[0])
  {
    CallsAreSteps(j.source);
    hide AfterTee, ReadableRuns.Step, TeeInv, TeeStep, Inv, AllShaped, Told, Accounts, LockFits, TookAll;
    match e {
      case AtSource(_) =>
      case ReadReacts =>
        if Pending(j) {
          AfterTeeFrame(j.(ended := j.ended || Ends(j)), Reaction(j.source.settled[j.readId]));
        }
      case CancelReacts(result) =>
        if j.cancelling.Some? {
          AfterTeeFrame(j.(cancelling := None), SourceCancelSettled(Outcome(j.cancelling.value, result)));
        }
      case _ =>
        if TeePart(j, e) != [] {
          AfterTeeFrame(j, TeePart(j, e)[0]);
        }
    }
  }

  lemma OneThenMore(t: Tee, part: seq<TeeEvent>, more: seq<TeeEvent>)
    requires TeeInv(t) && |part| <= 1
    ensures var u := if part == [] then t else TeeStep(t, part[0]);
            TeeInv(u) && RunTee(t, part + more) == RunTee(u, more)
  {
    if part == [] {
      assert part + more == more;
    } else {
      TeeStepKeeps(t, part[0]);
      assert (part + more)[0] == part[0] && (part + more)[1..] == more;
    }
    hide TeeStep, TeeInv;
  }

  /** A tee with its source is a tee: whatever holds of every run of a tee holds here. */
  lemma {:induction false} RunIsTeeRun(j: Joint, events: seq<JointEvent>)
    requires JointInv(j)
    ensures RunJoint(j, events).tee == RunTee(j.tee, TeeParts(j, events))
    ensures RunJoint(j, events).before == j.before
    decreases |events|
  {
    hide JointStep, TeePart, TeeStep, Inv, LockFits, Accounts, TookAll, Told, TeeInv;
    if events != [] {
      JointStepKeeps(j, events[0]);
      StepIsTeeStep(j, events[0]);
      PartIsOne(j, events[0]);
      RunIsTeeRun(JointStep(j, events[0]), events[1..]);
      OneThenMore(j.tee, TeePart(j, events[0]), TeeParts(JointStep(j, events[0]), events[1..]));
    }
  }

  lemma PartIsOne(j: Joint, e: JointEvent)
    ensures |TeePart(j, e)| <= 1
  {
  }

  /** A tee of this stream after a run. */
  function Teed(source: Stream, events: seq<JointEvent>): (j: Joint)
    requires Inv(source) && source.reader.NoReader?
    ensures JointInv(j)
  {
    AttachHolds(source);
    RunJoint(Attach(source), events)
  }

  /** In every run: the tee holds the lock of its source exactly until it is done with it - so its
      release, whose error the code would swallow, never fails - and while it does, no read waits
      but its own latest one. */
  lemma ReaderIsReleased(source: Stream, events: seq<JointEvent>)
    requires Inv(source) && source.reader.NoReader?
    ensures var j := Teed(source, events);
            && (j.holds <==> !j.tee.sourceFinished)
            && (j.holds ==> j.source.reader.DefaultReader? && |j.source.requests| <= 1)
            && (j.holds && j.source.requests != [] ==> j.tee.reading.Awaiting? && j.source.requests[0].id == j.readId)
  {
    var j := Teed(source, events);
    Counted(j.source);
    hide Teed, TeeInv, Sound, AllWhole, Conserved, Served, Accounts, TookAll, Told;
  }

  /** In every run: what the closures took is what their reads delivered, in order - all of it but
      for a read not yet reacted to, until the tee is done with the source or cancels it. */
  lemma TakenIsDelivered(source: Stream, events: seq<JointEvent>)
    requires Inv(source) && source.reader.NoReader?
    ensures var j := Teed(source, events);
            && Delivered(source.settled) + j.tee.taken <= Delivered(j.source.settled)
            && (j.holds && !j.tee.cancelStarted ==>
                  Delivered(j.source.settled) == Delivered(source.settled) + j.tee.taken + Unread(j))
  {
    AttachHolds(source);
    RunIsTeeRun(Attach(source), events);
    hide RunJoint, Inv, TeeInv, Told, TookAll, LockFits, Delivered, Unread, TeeParts;
  }

  /** End to end: once the end of a source that was not cancelled reached the tee, what was read of
      it before and what a branch that was neither cancelled nor errored delivered, holds and has
      queued is everything the source was ever given. */
  lemma SourceReachesBranches(source: Stream, events: seq<JointEvent>)
    requires Inv(source) && source.reader.NoReader?
    ensures var j := Teed(source, events);
            j.ended && !j.source.cancelled ==>
              && j.source.phase.Closed? && j.tee.sourceFinished
              && Delivered(source.settled) + j.tee.taken == j.source.supplied
              && (!j.tee.leftCanceled && !j.tee.left.phase.Errored? ==> GivesAll(j.tee.left, j.tee.taken))
              && (!j.tee.rightCanceled && !j.tee.right.phase.Errored? ==> GivesAll(j.tee.right, j.tee.taken))
  {
    AttachHolds(source);
    var parts := TeeParts(Attach(source), events);
    RunIsTeeRun(Attach(source), events);
    assert Teed(source, events).tee == ReachedTee(source.byteStream, parts);
    NothingLostInTheTee(source.byteStream, parts);
    ReachedTakes(source.byteStream, parts);
    hide RunJoint, RunTee, ReachedTee, TakenByTee, Inv, TeeInv, Told, LockFits, Accounts, Delivered, GivesAll, TeeParts,
      Attach;
  }

  /** What a tee has made of its source, which it was attached to in the state `source`. */
  predicate Faithful(source: Stream, j: Joint) {
    && (j.holds <==> !j.tee.sourceFinished)
    && Delivered(source.settled) + j.tee.taken <= Delivered(j.source.settled)
    && (j.ended && !j.source.cancelled ==>
          && Delivered(source.settled) + j.tee.taken == j.source.supplied
          && (!j.tee.leftCanceled && !j.tee.left.phase.Errored? ==> GivesAll(j.tee.left, j.tee.taken))
          && (!j.tee.rightCanceled && !j.tee.right.phase.Errored? ==> GivesAll(j.tee.right, j.tee.taken)))
  }

  lemma TeedIsFaithful(source: Stream, events: seq<JointEvent>)
    requires Inv(source) && source.reader.NoReader?
    ensures Faithful(source, Teed(source, events))
  {
    ReaderIsReleased(source, events);
    TakenIsDelivered(source, events);
    SourceReachesBranches(source, events);
    hide Teed, GivesAll, Delivered, Inv;
  }
}
