/** What every reachable state of the readable half satisfies, and why the inner
    operations - erroring, closing, filling, draining - keep it. */
module ReadableInvariants {
  import opened Options
  import opened ReadableModel

  // ---- what a state holds ---------------------------------------------------

  /** The sum of the entry sizes. */
  function Total(queue: seq<Entry>): real {
    if queue == [] then 0.0 else queue[0].Weight() + Total(queue[1..])
  }

  /** The unread items of the queue, in order. */
  function Contents(queue: seq<Entry>): seq<Item> {
    if queue == [] then [] else queue[0].Rest() + Contents(queue[1..])
  }

  /** The items handed to reads, in the order the reads were answered. */
  function Delivered(settled: seq<Settlement>): seq<Item> {
    if settled == [] then [] else settled[0].Items() + Delivered(settled[1..])
  }

  function HeadFilled(requests: seq<Request>): seq<Item> {
    if requests != [] then requests[0].Filled() else []
  }

  /** Delivered items, then those in the head buffer, then those in the queue. */
  function LedgerOf(settled: seq<Settlement>, requests: seq<Request>, queue: seq<Entry>): seq<Item> {
    Delivered(settled) + HeadFilled(requests) + Contents(queue)
  }

  function Ledger(s: Stream): seq<Item> {
    LedgerOf(s.settled, s.requests, s.queue)
  }

  // ---- structure ------------------------------------------------------------

  /** The kind of read that can wait. */
  datatype Admission = Nothing | Plain | Allocated | Supplied

  function Admits(s: Stream): Admission {
    match s.reader
    case NoReader => Nothing
    case DefaultReader => if s.byteStream && s.autoAllocate > 0 then Allocated else Plain
    case ByobReader => if s.byteStream then Supplied else Nothing
  }

  predicate Admitted(a: Admission, r: Request) {
    match a
    case Nothing => false
    case Plain => r.DefaultRead?
    case Allocated => r.PullInto? && r.auto
    case Supplied => r.PullInto? && !r.auto
  }

  predicate QueueFits(byteStream: bool, queue: seq<Entry>, total: real) {
    AllFit(queue, byteStream) && total == Total(queue)
  }

  /** Only the head buffer holds bytes, and never more than it has room for. */
  predicate RequestsFit(a: Admission, requests: seq<Request>) {
    && AllShaped(requests)
    && (forall i | 0 <= i < |requests| :: Admitted(a, requests[i]))
    && (requests != [] ==> AllWaiting(requests[1..]) && AllUnfilled(requests[1..]))
    && (requests != [] && requests[0].PullInto? ==> |requests[0].filled| <= requests[0].byteLength)
  }

  predicate AllUnfilled(requests: seq<Request>) {
    forall i | 0 <= i < |requests| :: requests[i].Filled() == []
  }

  predicate PhaseFits(s: Stream) {
    && (!s.phase.Readable? ==> s.queue == [])
    && (s.phase.Errored? ==> s.requests == [])
    && (s.phase.Closed? && s.requests != [] ==>
          Admits(s).Supplied? && AllShaped(s.requests) && !MidElement(s))
    && (s.cancelled ==> s.phase.Closed? && s.requests == [])
  }

  predicate ByobFits(byobRequest: Option<nat>, requests: seq<Request>) {
    byobRequest.Some? ==> requests != [] && requests[0].PullInto? && byobRequest.value == requests[0].id
  }

  predicate PullFits(s: Stream) {
    && (s.pullAgain && s.phase.Readable? ==> s.pulling)
    && s.pullCalls == s.pullEnds + (if s.pulling then 1 else 0)
  }

  /** What holds even while the head buffer is being handed back. */
  predicate Buffers(s: Stream) {
    && QueueFits(s.byteStream, s.queue, s.queueTotalSize)
    && RequestsFit(Admits(s), s.requests)
    && PhaseFits(s)
    && ByobFits(s.byobRequest, s.requests)
    && PullFits(s)
  }

  /** What holds even in the middle of the drain loop. */
  predicate Structure(s: Stream) {
    Buffers(s) && AllWaiting(s.requests)
  }

  /** Between steps data and waiting reads do not coexist, and a requested close waits for data. */
  predicate Quiet(s: Stream) {
    && (s.queue == [] || s.requests == [])
    && (s.closeRequested && s.phase.Readable? ==> s.queue != [])
  }

  predicate Sound(s: Stream) {
    Structure(s) && Quiet(s)
  }

  // ---- history --------------------------------------------------------------

  /** Reads are settled once each, in the order they were made. */
  predicate Ordered(settled: seq<Settlement>, requests: seq<Request>, nextId: nat) {
    && |settled| + |requests| == nextId
    && (forall i | 0 <= i < |settled| :: settled[i].request.id == i)
    && (forall i | 0 <= i < |requests| :: requests[i].id == |settled| + i)
  }

  /** An answer carries one chunk, or whole elements that meet the minimum unless the stream
      ended; the end is announced only by a closed stream and an error only by an errored one. */
  predicate WholeAnswer(phase: Phase, byteStream: bool, a: Settlement) {
    && (a.Finished? ==> phase.Closed?)
    && (a.Failed? ==> phase == Errored(a.reason))
    && (a.Answered? ==>
          && (a.done ==> phase.Closed?)
          && (!byteStream ==> |a.items| == 1 && a.request.DefaultRead?)
          && (a.request.DefaultRead? ==> a.items != [] && !a.done)
          && (a.request.PullInto? ==>
                && a.request.Shaped()
                && a.items == a.request.filled
                && |a.items| <= a.request.byteLength
                && WholeElements(a.request)
                && (!a.done ==> a.request.minimum <= |a.items|)))
  }

  predicate AllWhole(phase: Phase, byteStream: bool, settled: seq<Settlement>) {
    forall i | 0 <= i < |settled| :: WholeAnswer(phase, byteStream, settled[i])
  }

  predicate Lossless(s: Stream) {
    !s.phase.Errored? && !s.cancelled
  }

  /** Nothing is lost, repeated or reordered; after an error or a cancel only a suffix is lost. */
  predicate Conserved(s: Stream) {
    && Ledger(s) <= s.supplied
    && (Lossless(s) ==> Ledger(s) == s.supplied)
  }

  predicate History(s: Stream) {
    Ordered(s.settled, s.requests, s.nextId) && AllWhole(s.phase, s.byteStream, s.settled) && Conserved(s)
  }

  /** Demand that a pull could serve has a pull in flight. */
  predicate Served(s: Stream) {
    MayPull(s) && Demand(s) ==> s.pulling
  }

  predicate Inv(s: Stream) {
    Sound(s) && History(s) && Served(s)
  }

  // ---- sums and concatenations ----------------------------------------------

  lemma {:induction false} QueuePush(queue: seq<Entry>, e: Entry)
    ensures Contents(queue + [e]) == Contents(queue) + e.Rest()
    ensures Total(queue + [e]) == Total(queue) + e.Weight()
  {
    if queue == [] {
      assert queue + [e] == [e];
    } else {
      assert (queue + [e])[1..] == queue[1..] + [e];
      QueuePush(queue[1..], e);
    }
  }

  lemma {:induction false} DeliveredConcat(a: seq<Settlement>, b: seq<Settlement>)
    ensures Delivered(a + b) == Delivered(a) + Delivered(b)
  {
    if a == [] {
      assert a + b == b;
    } else {
      assert (a + b)[1..] == a[1..] + b;
      DeliveredConcat(a[1..], b);
    }
  }

  lemma DeliveredPush(settled: seq<Settlement>, a: Settlement)
    ensures Delivered(settled + [a]) == Delivered(settled) + a.Items()
  {
    DeliveredConcat(settled, [a]);
    assert Delivered([a]) == a.Items() + Delivered([a][1..]);
  }

  lemma {:induction false} NothingDelivered(more: seq<Settlement>)
    requires forall i | 0 <= i < |more| :: !more[i].Answered?
    ensures Delivered(more) == []
  {
    if more != [] {
      NothingDelivered(more[1..]);
    }
  }

  /** Settlements without items deliver nothing. */
  lemma DeliveredNothing(settled: seq<Settlement>, more: seq<Settlement>)
    requires forall i | 0 <= i < |more| :: !more[i].Answered?
    ensures Delivered(settled + more) == Delivered(settled)
  {
    NothingDelivered(more);
    DeliveredConcat(settled, more);
  }

  // ---- erroring and closing -------------------------------------------------

  lemma NothingQueued(byteStream: bool, a: Admission)
    ensures QueueFits(byteStream, [], 0.0) && RequestsFit(a, [])
  {
  }

  /** An error keeps what was delivered, and nothing else. */
  lemma ErrorLedger(s: Stream, reason: Reason)
    requires s.phase.Readable?
    ensures Ledger(ErrorReadable(s, reason)) == Delivered(s.settled) <= Ledger(s)
  {
    hide Delivered;
    DeliveredNothing(s.settled, FailedAll(s.requests, reason));
    assert Contents([]) == [];
    hide Contents, FailedAll;
  }

  lemma ErrorHistory(s: Stream, reason: Reason)
    requires PhaseFits(s) && s.phase.Readable?
    ensures History(s) ==> History(ErrorReadable(s, reason))
  {
    ErrorLedger(s, reason);
    hide Ledger, Delivered;
  }

  lemma ErrorKeeps(s: Stream, reason: Reason)
    requires Structure(s) && s.phase.Readable?
    ensures Sound(ErrorReadable(s, reason))
    ensures History(s) ==> History(ErrorReadable(s, reason))
  {
    hide Delivered, Contents, RequestsFit, QueueFits;
    assert Total([]) == 0.0 && QueueFits(s.byteStream, [], 0.0) && RequestsFit(Admits(s), []) by {
      hide *;
      NothingQueued(s.byteStream, Admits(s));
    }
    if s.phase.Readable? {
      ErrorHistory(s, reason);
    }
    hide History, FailedAll;
  }

  lemma EndReadsKeeps(s: Stream)
    requires Structure(s) && s.queue == [] && s.phase.Readable? && HeadFilled(s.requests) == []
    ensures Sound(EndReads(s))
    ensures History(s) ==> History(EndReads(s))
  {
    DeliveredNothing(s.settled, FinishedAll(s.requests));
  }

  /** Closing a stream whose queue is empty: whole elements end it, a partial element errors it. */
  lemma CloseKeeps(s: Stream)
    requires Structure(s) && s.queue == [] && s.phase.Readable?
    ensures Sound(CloseReadable(s).stream)
    ensures History(s) ==> History(CloseReadable(s).stream)
  {
    assert s.requests != [] ==> s.requests[0].Waiting() && Admitted(Admits(s), s.requests[0]);
    if MidElement(s) {
      ErrorKeeps(s, ClosedMidElement);
      hide ErrorReadable, Sound, History;
    } else if HoldsReaderBuffer(s) {
    } else {
      EndReadsKeeps(s);
      hide EndReads, Sound, History;
    }
  }

  // ---- the drain loop -------------------------------------------------------

  /** What the loop leaves alone. */
  predicate SameControls(s: Stream, t: Stream) {
    && t.phase == s.phase && t.closeRequested == s.closeRequested && t.pulling == s.pulling
    && t.started == s.started && t.hasPull == s.hasPull && t.cancelled == s.cancelled
    && t.byteStream == s.byteStream && s.settled <= t.settled && t.supplied == s.supplied
    && t.pullEnds == s.pullEnds && t.pullCalls == s.pullCalls
    && t.autoAllocate == s.autoAllocate && t.highWaterMark == s.highWaterMark
  }

  lemma SplitAt(v: seq<Item>, a: nat, b: nat, rest: seq<Item>)
    requires a <= b <= |v|
    ensures v[a..] + rest == v[a..b] + (v[b..] + rest)
  {
    assert v[a..] == v[a..b] + v[b..];
  }

  lemma ContentsCons(e: Entry, queue: seq<Entry>)
    ensures Contents([e] + queue) == e.Rest() + Contents(queue)
  {
    assert ([e] + queue)[1..] == queue;
  }

  lemma AdvancedContents(queue: seq<Entry>, used: nat)
    requires queue != [] && queue[0].Fits(true) && used <= |queue[0].value| - queue[0].offset
    ensures Contents(Advance(queue, used)) == queue[0].value[queue[0].offset + used..] + Contents(queue[1..])
  {
    ContentsCons(queue[0].(offset := queue[0].offset + used), queue[1..]);
    hide Contents;
  }

  lemma AdvanceContents(queue: seq<Entry>, used: nat)
    requires queue != [] && queue[0].Fits(true) && used <= |queue[0].value| - queue[0].offset
    ensures Contents(queue) == queue[0].value[queue[0].offset..queue[0].offset + used] + Contents(Advance(queue, used))
  {
    AdvancedContents(queue, used);
    SplitAt(queue[0].value, queue[0].offset, queue[0].offset + used, Contents(queue[1..]));
    assert Contents(queue) == queue[0].Rest() + Contents(queue[1..]);
    hide Contents, Advance;
  }

  lemma AdvanceFits(queue: seq<Entry>, used: nat)
    requires queue != [] && AllFit(queue, true) && used <= |queue[0].value| - queue[0].offset
    ensures QueueFits(true, Advance(queue, used), Total(queue) - used as real)
  {
    if queue[0].offset + used < |queue[0].value| {
      assert Advance(queue, used)[1..] == queue[1..];
    }
  }

  /** The head buffer is ready to be handed back as an answer. */
  predicate Complete(s: Stream) {
    HasPullInto(s) && s.requests[0].Shaped() && s.requests[0].minimum <= |s.requests[0].filled|
    && WholeElements(s.requests[0])
  }

  /** Copying keeps the shape of the waiting reads, and the buffer waits on or is complete. */
  lemma CopiedRequests(a: Admission, requests: seq<Request>, entry: Entry)
    requires RequestsFit(a, requests) && AllWaiting(requests) && entry.Fits(true)
    requires requests != [] && requests[0].PullInto?
    ensures var grown := Copied(requests[0], entry);
            var copied := [grown] + requests[1..];
            && RequestsFit(a, copied) && grown.PullInto? && grown.id == requests[0].id
            && |grown.filled| >= |requests[0].filled|
            && |grown.filled| - |requests[0].filled| <= |entry.value| - entry.offset
            && (AllWaiting(copied) || (grown.Shaped() && grown.minimum <= |grown.filled| && WholeElements(grown)))
  {
    assert requests[0].Waiting() && Admitted(a, requests[0]);
    hide FillCount;
  }

  lemma CopyHeadBuffers(s: Stream)
    requires Structure(s) && s.byteStream && s.queue != [] && HasPullInto(s)
    ensures Buffers(CopyHead(s)) && SameControls(s, CopyHead(s))
    ensures AllWaiting(CopyHead(s).requests) || Complete(CopyHead(s))
  {
    var grown := Copied(s.requests[0], s.queue[0]);
    AdvanceFits(s.queue, |grown.filled| - |s.requests[0].filled|);
    CopiedRequests(Admits(s), s.requests, s.queue[0]);
    hide QueueFits, Advance, FillCount, Copied, RequestsFit, AllWaiting;
  }

  lemma FinishBuffers(s: Stream, done: bool)
    requires Buffers(s) && HasPullInto(s) && (s.phase.Closed? ==> |s.requests| == 1)
    ensures Structure(FinishPullInto(s, done)) && SameControls(s, FinishPullInto(s, done))
  {
    hide QueueFits;
  }

  lemma Regroup(a: seq<Item>, b: seq<Item>, c: seq<Item>, d: seq<Item>)
    ensures a + b + (c + d) == a + (b + c) + d
  {
  }

  lemma CopiedPiece(request: Request, entry: Entry, grown: Request, used: nat)
    requires request.PullInto? && request.Waiting() && entry.Fits(true) && grown == Copied(request, entry)
    requires used == |grown.filled| - |request.filled|
    ensures used <= |entry.value| - entry.offset && grown.PullInto?
    ensures grown.filled == request.filled + entry.value[entry.offset..entry.offset + used]
  {
    hide FillCount;
  }

  lemma LedgerWithHead(settled: seq<Settlement>, requests: seq<Request>, queue: seq<Entry>)
    requires requests != [] && requests[0].PullInto?
    ensures LedgerOf(settled, requests, queue) == Delivered(settled) + requests[0].filled + Contents(queue)
  {
    hide Delivered, Contents;
  }

  lemma MovedPiece(d: seq<Item>, filled: seq<Item>, piece: seq<Item>, c: seq<Item>, grown: seq<Item>, all: seq<Item>)
    requires grown == filled + piece && all == piece + c
    ensures d + grown + c == d + filled + all
  {
    Regroup(d, filled, piece, c);
  }

  /** Copying bytes out of the queue moves the boundary between buffer and queue, not the bytes. */
  lemma CopyLedger(settled: seq<Settlement>, requests: seq<Request>, queue: seq<Entry>, grown: Request, used: nat)
    requires requests != [] && requests[0].PullInto? && requests[0].Waiting()
    requires queue != [] && queue[0].Fits(true)
    requires grown == Copied(requests[0], queue[0]) && used == |grown.filled| - |requests[0].filled|
    ensures LedgerOf(settled, [grown] + requests[1..], Advance(queue, used)) == LedgerOf(settled, requests, queue)
  {
    CopiedPiece(requests[0], queue[0], grown, used);
    var d, c := Delivered(settled), Contents(Advance(queue, used));
    var piece := queue[0].value[queue[0].offset..queue[0].offset + used];
    hide *;
    LedgerWithHead(settled, requests, queue);
    LedgerWithHead(settled, [grown] + requests[1..], Advance(queue, used));
    AdvanceContents(queue, used);
    MovedPiece(d, requests[0].filled, piece, c, grown.filled, Contents(queue));
  }

  /** Handing a buffer back moves its bytes from the buffer to the reader. */
  lemma FinishLedger(s: Stream, done: bool)
    requires HasPullInto(s) && AllUnfilled(s.requests[1..])
    ensures Ledger(FinishPullInto(s, done)) == Ledger(s)
  {
    DeliveredPush(s.settled, Answered(s.requests[0], s.requests[0].filled, done));
    hide Contents, Delivered;
  }

  lemma CopyHeadLedger(s: Stream)
    requires Drainable(s) && s.queue != [] && HasPullInto(s)
    ensures Ledger(CopyHead(s)) == Ledger(s)
  {
    var grown := Copied(s.requests[0], s.queue[0]);
    CopyLedger(s.settled, s.requests, s.queue, grown, |grown.filled| - |s.requests[0].filled|);
    hide LedgerOf, Advance, Copied;
  }

  lemma CopyHeadFrame(s: Stream)
    requires Drainable(s) && s.queue != [] && HasPullInto(s)
    ensures Ordered(s.settled, s.requests, s.nextId) ==> Ordered(s.settled, CopyHead(s).requests, s.nextId)
    ensures CopyHead(s).settled == s.settled && CopyHead(s).nextId == s.nextId && SameControls(s, CopyHead(s))
  {
    hide Advance, FillCount;
  }

  lemma CopyHeadHistory(s: Stream)
    requires Drainable(s) && History(s) && s.queue != [] && HasPullInto(s)
    ensures History(CopyHead(s))
  {
    CopyHeadLedger(s);
    CopyHeadFrame(s);
    hide Ledger, AllWhole, CopyHead, Ordered;
  }

  lemma FinishHistory(s: Stream, done: bool)
    requires Buffers(s) && History(s) && HasPullInto(s) && s.byteStream
    requires Complete(s) && !done
    ensures History(FinishPullInto(s, done))
  {
    FinishLedger(s, done);
    hide Ledger, QueueFits, PhaseFits;
  }

  lemma FillHeadKeeps(s: Stream)
    requires Structure(s) && s.byteStream && s.queue != [] && HasPullInto(s)
    ensures Structure(FillHead(s)) && SameControls(s, FillHead(s))
    ensures History(s) ==> History(FillHead(s))
  {
    assert s.phase.Readable?;
    var t := CopyHead(s);
    CopyHeadBuffers(s);
    if History(s) {
      CopyHeadHistory(s);
    }
    hide CopyHead, History, Buffers;
    if !t.requests[0].Waiting() {
      FinishBuffers(t, false);
      if History(s) {
        FinishHistory(t, false);
      }
    }
  }

  lemma Associate(a: seq<Item>, b: seq<Item>, c: seq<Item>)
    ensures a + b + c == a + (b + c)
  {
  }

  lemma TakeLedger(settled: seq<Settlement>, request: Request, queue: seq<Entry>)
    requires queue != []
    ensures Delivered(settled + [Answered(request, queue[0].Rest(), false)]) + Contents(queue[1..])
         == Delivered(settled) + Contents(queue)
  {
    hide Delivered;
    DeliveredPush(settled, Answered(request, queue[0].Rest(), false));
    Associate(Delivered(settled), queue[0].Rest(), Contents(queue[1..]));
  }

  lemma NoFill(settled: seq<Settlement>, requests: seq<Request>, queue: seq<Entry>)
    requires HeadFilled(requests) == []
    ensures LedgerOf(settled, requests, queue) == Delivered(settled) + Contents(queue)
  {
    hide Delivered, Contents;
  }

  /** Answering a read from the queue moves the head entry to the reader. */
  lemma ServeHeadLedger(s: Stream)
    requires s.queue != [] && s.requests != []
    requires HeadFilled(s.requests) == [] && HeadFilled(s.requests[1..]) == []
    ensures Ledger(ServeHead(s)) == Ledger(s)
  {
    var t := ServeHead(s);
    TakeLedger(s.settled, s.requests[0], s.queue);
    NoFill(s.settled, s.requests, s.queue);
    NoFill(t.settled, t.requests, t.queue);
    hide Delivered, Contents, LedgerOf;
  }

  lemma ServeHeadStructure(s: Stream)
    requires Structure(s) && s.queue != [] && s.requests != [] && s.requests[0].DefaultRead?
    ensures Structure(ServeHead(s)) && SameControls(s, ServeHead(s))
  {
    assert Admitted(Admits(s), s.requests[0]);
  }

  lemma ServedWhole(s: Stream)
    requires Structure(s) && s.byteStream && s.queue != [] && s.requests != [] && s.requests[0].DefaultRead?
    ensures HeadFilled(s.requests) == [] && HeadFilled(s.requests[1..]) == []
    ensures WholeAnswer(s.phase, true, Answered(s.requests[0], s.queue[0].Rest(), false))
  {
    assert s.queue[0].Fits(true);
    assert |s.requests| > 1 ==> s.requests[1..][0].Filled() == [];
    hide Total;
  }

  lemma ServeHeadHistory(s: Stream)
    requires Structure(s) && History(s) && s.byteStream
    requires s.queue != [] && s.requests != [] && s.requests[0].DefaultRead?
    ensures History(ServeHead(s))
  {
    hide Ledger;
    ServeHeadLedger(s);
    ServedWhole(s);
    hide WholeAnswer, Structure;
  }

  lemma DrainStepKeeps(s: Stream)
    requires Structure(s) && s.byteStream && s.queue != [] && s.requests != []
    ensures Structure(DrainStep(s)) && SameControls(s, DrainStep(s))
    ensures History(s) ==> History(DrainStep(s))
  {
    if HasPullInto(s) {
      FillHeadKeeps(s);
      hide FillHead, Structure, History, SameControls;
    } else {
      ServeHeadStructure(s);
      if History(s) {
        ServeHeadHistory(s);
      }
      hide ServeHead, Structure, History, SameControls;
    }
  }

  lemma {:induction false} DrainLoopKeeps(s: Stream)
    requires Structure(s) && s.byteStream
    ensures Structure(DrainLoop(s)) && SameControls(s, DrainLoop(s))
    ensures History(s) ==> History(DrainLoop(s))
    ensures DrainLoop(s).queue == [] || DrainLoop(s).requests == []
    decreases |s.queue| + |s.requests|
  {
    if s.queue != [] && s.requests != [] {
      DrainStepProgress(s);
      DrainStepKeeps(s);
      DrainLoopKeeps(DrainStep(s));
      hide DrainStep, Structure, History;
    }
  }
}
