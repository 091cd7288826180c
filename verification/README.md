# Verified model of the stream engine, the installer's disk layer and three protocols

This project models five parts of the system and proves what they promise.

* **Stream engine** (`r4os/web_streams.js`). A subset of the WHATWG Streams Standard. Each entry
  point of a readable stream is a function on one state value that also carries a history: what
  the source supplied, which promises were settled, how often `pull` was called
  (`ReadableModel`). A run is any list of entry points with any arguments (`ReadableRuns`); the
  source's `pull` is recorded where the code calls it, and what the source does inside it happens
  in later steps. `ReadableInvariants`, `ReadableSteps` and `ReadableAdvances` show what each
  function keeps. `ReadableReads` follows what each read asked for, `ReadablePhases` and
  `ReadableViews` say exactly what every call does to the deciding fields and when it is refused.
  `ReadableStates` is the state object itself, updated in place with the code's
  loops; each method is proved to be the function of the same name, and `ReadableDrivers` drives
  the object by any list of events. `ReadableSignals` follows the reader's `closed` promise.
  `StreamQueues` is the ring, `Writable*` the promise chain of a writable stream, `Tee*` the two
  branches of `tee`; both have drivers of their own. `WritableOutcomes` follows the promises of writes,
  `TeeEnds` the end of the source, `TeeCourse` cancels and demand. `TeeSources` joins a tee to the
  stream it reads, with the calls of its reader and the promises it reacts to.
* **Disk layer of the installer** (`r4os/storage_tools/limine/limine.c`). `DiskModel` says what a
  device behind a one-block dirty cache stands for and when a log of old bytes undoes writes.
  `CacheModel` is the cache as functions of a script: every seek, read and write may fail, a failed
  write may be torn and a failed read may leave anything in the buffer. `InstallModel` runs
  operations on it, `InstallFaults` says for which of them undoing is complete, and `BootFaults` for
  which boot images the installer's own last writes are; `UninstallModel` is the undoing with its
  retries. `BlockCaches` is
  the static state updated in place; each method is proved to be the function of the same name.
  `Uninstalls`, `UndoFiles`, `Installs` and `BootSectors` are built on it; `EnrollConfigs` and
  `ChsAddresses` are the pattern search and the address arithmetic.
* **Service inventory** (`Rust/src/services/inventory.rs`): a bounded-retry capture of a table that
  changes between page calls.
* **Evidence handoff** (`Rust/src/services/evidence.rs`, `Examples/DesktopEvidence.c`): an observer
  that stores a token before every action, with crashes, lost replies and an arbitrary broker.
* **Ordered page** (`Rust/src/directory_page.rs`): in-place insertion into the top N.

Five plausible claims are false of the code, each with a concrete input and its exact condition.

* *A failed install is undone completely.* A write that fails part way leaves no undo entry. It is
  undone completely under every script of failures if and only if
  `InstallFaults.Recoverable` (`InstallFaults.UndoneCompletely`), in particular when every write
  lies in one block; `InstallFaults.PartialWriteStays` is an install that is not, and
  `BootFaults.StagesUndone` gives the condition for the installer's own last writes. An
  install that a check refuses, or whose last flush fails, is undone completely whenever the undo
  reports success (`Installs.Install`).
* *An entry the undo gives up spoils only its own bytes.* True, while no flush fails, if those
  entries lie in one block each (`UninstallModel.OthersAreRestored`); `UninstallModel.StrayByte` is
  a run with one that does not.
* *A signature that is there is found.* The search bounds the last byte of a match instead of its
  start (`EnrollConfigs.LastPlaceIsNotSeen`, `EnrollConfigs.FirstMatchFound`).
* *An errored writable stream stays errored.* It can still become closed if and only if its close
  is under way (`WritableRuns.ErroredCanClose`, `WritableRuns.CloseWinsOverError`).
* *A writer's `ready` is pending exactly under backpressure.* True while the stream is writable
  (`WritableRuns.Backpressured`); afterwards see `WritableRuns.ReadyOutsideWritable`,
  `WritableRuns.ReadyRuleHolds` and the run `WritableRuns.ReadyAfterError`.

`dafny verify dfyconfig.toml` checks everything.

## Model

| member | source | states |
|---|---|---|
| ReadableRuns.Conservation | r4os/web_streams.js:122-379 | In every run of a byte or default stream: delivered items, then the bytes in the head buffer, then the queue are exactly what the source supplied by `enqueue` and `respond`, in order; after an error or a cancel the delivered items are a prefix of it |
| ReadableRuns.CloseDeliversEverything | r4os/web_streams.js:152-158 | No read is told "done" (and the stream was not cancelled) before everything the source supplied is with the readers or in the one buffer the source still has to give back |
| ReadableRuns.Fifo | r4os/web_streams.js:221-284 | Default streams, every run: the k-th read that yields a value gets the k-th enqueued chunk; queue and waiting reads are never both non-empty |
| ReadableRuns.QueueAccounted | r4os/web_streams.js:221-284 | Every run: `queueTotalSize` is the sum of the entries, data and waiting reads never coexist, and a requested close is outstanding only while there is data |
| ReadableRuns.ReadsSettleInOrder | r4os/web_streams.js:172-198 | Every read is settled at most once and in call order, settled promises never change, and closed and errored are absorbing: neither phase nor supply changes afterwards |
| ReadableRuns.PullScheduling | r4os/web_streams.js:199-220 | Every run and every next event: on a started, open stream with a `pull`, a waiting read, an unlimited mark, or queued sizes that sum to less than the mark imply that exactly one pull is under way; and a pull starts only then, one at a time |
| ReadableRuns.PullDemand | r4os/web_streams.js:199-207 | The engine's test of the desired size is about the sum of the queued sizes, and what it grants is in flight |
| ReadableRuns.ViewsAreWhole | r4os/web_streams.js:127-137 | Every view handed back holds whole elements and fits its buffer, and holds less than the minimum of its request only if the stream ended and it is marked done; that this minimum is the one the caller asked for is `ReadableReads.BufferReadGetsItsMinimum` |
| ReadableReads.BufferReadGetsItsMinimum | r4os/web_streams.js:286-315 | From any state and in every continuation, an accepted `read(view, {min})` still waits with less than `min` elements of the view (one if no minimum was given), or was answered with at least that, or with "done", or failed; the request keeps the id, the size and the place of the caller's view |
| ReadableReads.DefaultReadGetsItsBuffer | r4os/web_streams.js:256-284 | The same for a read without a buffer: it waits with the buffer of the size the source allocates, or with none |
| ReadableReads.RefusedExactly | r4os/web_streams.js:286-297 | A buffer read is refused exactly for an empty view or none, a minimum that is no positive whole number, or more elements than the view has; else its request is made of the arguments alone |
| ReadableReads.StepAsks | r4os/web_streams.js:122-380 | No step changes the size, minimum, place or id of any read, settled or waiting, or their order, and only a read adds one |
| ReadablePhases.StepFlags | r4os/web_streams.js:172-452 | Every event, from its arguments and the fields before: the phase after it with its error, whether the stream has started, is closing, is cancelled, and who holds the lock |
| ReadablePhases.StepClosed | r4os/web_streams.js:160-198 | Every event: `closed` of a new reader starts as the phase is, releasing rejects it only while open, an ended stream settles it, and a settled one, or one whose reader is gone, never changes |
| ReadableViews.StepViews | r4os/web_streams.js:221-400 | Every event: the source's view of the head buffer comes into being only when asked for while a buffer waits, ends when the source hands over data or gives the buffer back or no read waits any more, and nothing else touches it |
| ReadableViews.AskingAgainIsIdle | r4os/web_streams.js:209-220 | Whether `pullAgain` was set makes no difference: after a pull the next starts exactly if there is demand |
| ReadablePhases.EnqueueRefused | r4os/web_streams.js:221-245 | `enqueue` is refused exactly by a closing or ended stream, by a byte stream for anything but a non-empty view, and by a size that is no number or negative or throws; a refusal changes nothing but, for the size, the error |
| ReadablePhases.CloseRefused | r4os/web_streams.js:320-325 | `close` is refused exactly on a closing or ended stream, fails exactly on a partial element, waits exactly for queued data |
| ReadablePhases.RespondRefused | r4os/web_streams.js:337-347 | `respond` is accepted exactly with an active view, an attached buffer, a whole count that fits what is left of the view, and zero exactly if the stream has closed; a refusal changes nothing |
| ReadablePhases.NewViewRefused | r4os/web_streams.js:348-358 | `respondWithNewView` is accepted exactly for a view that starts at the pending offset of a buffer of the same length, fits, and is empty exactly if the stream has closed |
| ReadablePhases.GivesExactly | r4os/web_streams.js:221-380 | So what each call of the source supplies follows from its arguments and the fields before it |
| ReadablePhases.DrainOne | r4os/web_streams.js:138-151 | The whole loop for one waiting buffer: with too few bytes it keeps waiting with all of them; else it is answered with a prefix of exactly the computed size and the rest stays queued, in order |
| ReadablePhases.FillExactly | r4os/web_streams.js:127-134 | One copy takes all there is below the minimum, and above it the whole elements that fit |
| ReadablePhases.CutoffGreatest | r4os/web_streams.js:127-134 | No greater number of whole elements would fit |
| ReadablePhases.AnswerFits | r4os/web_streams.js:127-151 | An answer out of the queue meets the minimum, fits the buffer and is whole elements |
| ReadablePhases.BufferReadTakesQueued | r4os/web_streams.js:293-314 | A buffer read that finds its minimum queued is answered at once with exactly those first bytes |
| ReadablePhases.ReadTakesHead | r4os/web_streams.js:256-268 | A read without a buffer takes exactly the rest of the head entry |
| ReadableSignals.ClosedTellsThePhase | r4os/web_streams.js:160-198 | Every run: an attached reader's `closed` is open exactly while the stream is readable, fulfilled exactly when it is closed, and rejected exactly with the stored error |
| ReadableRuns.StepKeeps | r4os/web_streams.js:172-400 | Every entry point, in every state and for every argument, keeps the invariant (structure, history, conservation, served demand) |
| ReadableRuns.StepAdvances | r4os/web_streams.js:172-400 | Every step only appends to the settlements and to the supply, accounts for exactly the items it was given, and starts a pull only in turn |
| ReadableRuns.RunExtends | r4os/web_streams.js:172-400 | Over any run the supply grows by exactly what the calls gave, settlements only grow, ids are never reused |
| ReadableModel.DrainStepProgress | r4os/web_streams.js:138-151 | Each turn of the drain loop consumes a whole queue entry or answers a whole request, and leaves the loop's precondition: this is why it terminates |
| ReadableModel.DrainLoopDrainable | r4os/web_streams.js:138-151 | The drain loop ends with an empty queue or no waiting request, and every waiting buffer below its minimum |
| ReadableModel.FillCount | r4os/web_streams.js:127-134 | A copy moves at least one byte when there is one, never overruns buffer or entry, and ends on an element boundary once the minimum is met |
| ReadableModel.NewPullInto | r4os/web_streams.js:286-307 | An accepted `read(view, {min})` yields a waiting, empty request of the next id with whole elements and a reachable minimum; `ReadableReads.RefusedExactly` says which |
| ReadableInvariants.FillHeadKeeps | r4os/web_streams.js:122-137 | Filling the head buffer keeps structure and conservation: bytes move from the queue to the buffer or the reader, in order |
| ReadableInvariants.DrainLoopKeeps | r4os/web_streams.js:138-151 | The whole drain loop keeps structure and conservation and changes none of the control fields |
| ReadableInvariants.CloseKeeps | r4os/web_streams.js:172-188 | Closing keeps the invariant, including the error for an element received only in part |
| ReadableInvariants.ErrorKeeps | r4os/web_streams.js:189-198 | Erroring rejects every waiting read once, in order, and keeps what was delivered a prefix of the supply |
| ReadableSteps.DrainByteQueueKeeps | r4os/web_streams.js:138-159 | Draining followed by the deferred close restores the full invariant |
| ReadableSteps.EnqueueKeeps | r4os/web_streams.js:221-245 | `enqueue` keeps the invariant on all its paths: refused, answered at once, unmeasurable, queued, drained |
| ReadableSteps.RespondPullIntoKeeps | r4os/web_streams.js:361-380 | `respond` keeps the invariant, including the misaligned tail that goes back to the queue and the buffers returned after a close |
| ReadableSteps.RespondKeeps | r4os/web_streams.js:337-347 | `respond(count)` keeps the invariant for every argument |
| ReadableSteps.RespondWithNewViewKeeps | r4os/web_streams.js:348-358 | `respondWithNewView` keeps the invariant for every argument |
| ReadableSteps.ControllerCloseKeeps | r4os/web_streams.js:320-325 | `close` keeps the invariant whether it takes effect, waits for the queue, is refused, or fails |
| ReadableSteps.ReadFromKeeps | r4os/web_streams.js:256-284 | `read()` keeps the invariant on all its paths |
| ReadableSteps.ReadIntoKeeps | r4os/web_streams.js:286-315 | `read(view, {min})` keeps the invariant on all its paths |
| ReadableSteps.CancelReadableKeeps | r4os/web_streams.js:246-255 | `cancel` keeps the invariant; every waiting read is told "done" |
| ReadableSteps.PullResolvedKeeps | r4os/web_streams.js:209-213 | The reaction to a fulfilled `pull` restores "demand is served" |
| ReadableStates.FillThenConsume | r4os/web_streams.js:145-150 | Filling and handing back the buffer before the bytes leave the queue (the order of the code) gives the state of the opposite order |
| ReadableStates.ReadableState.constructor | r4os/web_streams.js:545-554 | A new state object is the initial state of the model |
| ReadableStates.ReadableState.FinishPullInto | r4os/web_streams.js:122-126 | The in-place update is the model's step |
| ReadableStates.ReadableState.RejectReads | r4os/web_streams.js:195-195 | The loop rejects every waiting read once, in order |
| ReadableStates.ReadableState.ErrorReadable | r4os/web_streams.js:189-198 | Drops the queue, rejects every waiting read in order and then the attached reader's `closed`; does nothing to a stream that is not readable |
| ReadableStates.ReadableState.FinishReads | r4os/web_streams.js:184-184 | The loop resolves every waiting read once as done, in order |
| ReadableStates.ReadableState.CloseReadable | r4os/web_streams.js:172-188 | Errors the stream on a partial element, else closes it: waiting reads finish unless a buffer is to be given back, and the attached reader's `closed` is fulfilled |
| ReadableStates.ReadableState.SettleClosed | r4os/web_streams.js:160-171 | Settles the `closed` promise of the attached reader, if there is one and if it is still open |
| ReadableStates.ReadableState.FillPullInto | r4os/web_streams.js:127-137 | Copies the computed bytes into the head buffer, hands it back at its minimum, and returns how many were used |
| ReadableStates.ReadableState.ServeDefault | r4os/web_streams.js:142-145 | A waiting read without a buffer gets the whole head entry |
| ReadableStates.ReadableState.ServePullInto | r4os/web_streams.js:146-151 | One turn of the loop for a buffer is the model's turn |
| ReadableStates.ReadableState.DrainByteQueue | r4os/web_streams.js:138-159 | The `while` loop and the deferred close together are the model's step; the loop terminates |
| ReadableStates.ReadableState.CallPull | r4os/web_streams.js:204-216 | The in-place update is the model's step, whose demand `ReadableRuns.PullScheduling` states from the fields |
| ReadableStates.ReadableState.RequestPull | r4os/web_streams.js:217-220 | The in-place update is the model's step |
| ReadableStates.ReadableState.PullResolved | r4os/web_streams.js:209-213 | The in-place update is the model's step |
| ReadableStates.ReadableState.PullRejected | r4os/web_streams.js:214-214 | The in-place update is the model's step |
| ReadableStates.ReadableState.StartResolved | r4os/web_streams.js:558-558 | The in-place update is the model's step |
| ReadableStates.ReadableState.Enqueue | r4os/web_streams.js:221-245 | The in-place update, with what it throws, is the model's step |
| ReadableStates.ReadableState.ControllerClose | r4os/web_streams.js:320-325 | The in-place update, with what it throws, is the model's step |
| ReadableStates.ReadableState.GetByobRequest | r4os/web_streams.js:384-394 | The in-place update is the model's step |
| ReadableStates.ReadableState.CarryTail | r4os/web_streams.js:367-374 | The bytes after the last whole element move from the head buffer to the queue |
| ReadableStates.ReadableState.RespondPullInto | r4os/web_streams.js:361-380 | The in-place update, with what it throws, is the model's step |
| ReadableStates.ReadableState.Respond | r4os/web_streams.js:337-347 | The checks in the code's order (inactive request, detached buffer, count, state), then the model's step |
| ReadableStates.ReadableState.RespondWithNewView | r4os/web_streams.js:348-358 | The checks in the code's order, comparing offset, buffer length and byte length with the pending view, then the model's step |
| ReadableStates.ReadableState.AcquireReader | r4os/web_streams.js:407-450 | A second reader, and a buffer reader of a stream that is no byte stream, are refused; the new reader's `closed` starts out as the phase says |
| ReadableStates.ReadableState.ReleaseLock | r4os/web_streams.js:428-435 | A reader with waiting reads cannot be released; releasing rejects its open `closed` |
| ReadableStates.ReadableState.ReadFrom | r4os/web_streams.js:256-284 | The in-place update is the model's step |
| ReadableStates.ReadableState.ReadInto | r4os/web_streams.js:286-315 | The refusals in the code's order, then the model's step; the minimum it waits for is the caller's (`ReadableReads.BufferReadGetsItsMinimum`) |
| ReadableStates.ReadableState.StartReadInto | r4os/web_streams.js:293-314 | The in-place update, with the error of a read that was queued, is the model's step |
| ReadableStates.ReadableState.CancelReadable | r4os/web_streams.js:246-255 | Drops the queue and closes a readable stream; the answer is fulfilled or rejected at once by the phase, and stays open only where the source's cancel is called |
| ReadableDrivers.Dispatch | r4os/web_streams.js:172-452 | One event on the object, by the method the code would run, is the step of the model, and everything the methods rely on holds again |
| ReadableDrivers.Drive | r4os/web_streams.js:122-452 | A new object after any list of calls is in the state of the run: conservation, the pull bound and the told phase hold of its fields |
| StreamQueues.Perform | r4os/web_streams.js:20-42 | Any list of `push`, `shift`, `peek` and `clear` on the ring is answered as an unbounded sequence would answer it |
| StreamQueues.PushedWindow | r4os/web_streams.js:23-33 | Filling the slot after the window, wrapped or not, appends to the sequence and keeps exactly its slots filled |
| StreamQueues.ShiftedWindow | r4os/web_streams.js:34-41 | Emptying the first slot of the window drops the head of the sequence, and the next window starts where the code says |
| StreamQueues.StreamQueue.constructor | r4os/web_streams.js:21-21 | An empty ring |
| StreamQueues.StreamQueue.Peek | r4os/web_streams.js:22-22 | The head of the sequence, or nothing |
| StreamQueues.StreamQueue.Grow | r4os/web_streams.js:24-29 | Moving the wrapped window into the larger array keeps the sequence; capacity stays zero or eight times a power of two |
| StreamQueues.StreamQueue.Push | r4os/web_streams.js:23-33 | Appends to the sequence; exactly the slots of the live window hold references |
| StreamQueues.StreamQueue.Shift | r4os/web_streams.js:34-41 | Removes and returns the head and releases its slot |
| StreamQueues.StreamQueue.Clear | r4os/web_streams.js:42-42 | Empties the sequence |
| WritableRuns.Serialised | r4os/web_streams.js:741-783 | Every run: the sink is called for the writes in submission order and for close only after every accepted write; operations settle in that order too |
| WritableRuns.CallsStartAlone | r4os/web_streams.js:754-757 | Every step: the sink is called only when every earlier operation has settled and the stream is writable |
| WritableRuns.ErroredIsFinal | r4os/web_streams.js:728-740 | Once errored, the stream is never writable again and the sink is never called again |
| WritableRuns.Backpressured | r4os/web_streams.js:708-727 | Every run, while writable: the total is the sum of the sizes of unsettled writes, and an attached writer's `ready` is pending exactly when that sum reaches the high-water mark |
| WritableRuns.ReadyOutsideWritable | r4os/web_streams.js:713-740 | Every run, outside `writable`: the total is 0, and `ready` is pending if and only if a writer was attached or a running write was fulfilled since, or the stream closed without ever erroring at a mark of at most 0 |
| WritableRuns.ReadyRuleHolds | r4os/web_streams.js:708-740 | So "`ready` is pending exactly when the total reaches the mark" holds of a run if and only if it is writable, or (positive mark) nothing disturbed it, or (mark 0) it never errored or something did |
| WritableRuns.WriterIsTold | r4os/web_streams.js:728-783 | Every run: an attached writer's `closed` is open exactly while the stream is writable, rejected with the stored error of an errored stream, and fulfilled when it closed without an error |
| WritableOutcomes.PromisesTellTheAnswers | r4os/web_streams.js:754-782 | Every run: the i-th settled operation has exactly the i-th result the sink gave; those never begun are rejected, with the error before them in the chain or the stored error |
| WritableOutcomes.FulfilledBySink | r4os/web_streams.js:754-782 | Every run: a write's or close's promise is fulfilled only if the sink was called for it and fulfilled it |
| WritableOutcomes.StepCondition | r4os/web_streams.js:728-783 | Every event: which one errors or closes the stream, and with which error, from its arguments and the fields before |
| WritableOutcomes.StepWriterClosed | r4os/web_streams.js:728-740 | Every event: `closed` of a new writer starts as the condition is, detaching rejects it only while open, the end settles it, and a settled one never changes |
| WritableOutcomes.WriteRefused | r4os/web_streams.js:741-753 | Exactly when a write is refused and why; an accepted one adds a link with its size at the end of the chain |
| WritableOutcomes.CloseRefused | r4os/web_streams.js:769-776 | Exactly when `close` is refused and why; an accepted one adds the last link |
| WritableOutcomes.AttachRefused | r4os/web_streams.js:784-792 | A writer is attached exactly to a stream that has none |
| WritableRuns.ReadyAfterError | r4os/web_streams.js:713-740 | A concrete run, mark 2: an errored stream, a total of 0, and yet `ready` pending |
| WritableRuns.ErroredCanClose | r4os/web_streams.js:777-778 | An errored stream can still become closed by some continuation if and only if its sink close is running or already fulfilled |
| WritableRuns.CloseWinsOverError | r4os/web_streams.js:777-778 | A concrete run that errors the stream and ends with it closed |
| WritableRuns.ErroredStaysErrored | r4os/web_streams.js:728-783 | An errored stream whose close is not under way stays errored in every run |
| WritableRuns.StepKeeps | r4os/web_streams.js:708-792 | Every call, chain link and settlement keeps the invariant |
| WritableStates.WritableState.constructor | r4os/web_streams.js:868-874 | A new state object is the initial state of the model, with `start` as the first link |
| WritableStates.WritableState.UpdateWriterReady | r4os/web_streams.js:713-727 | The in-place update is the model's step |
| WritableStates.WritableState.ErrorWritable | r4os/web_streams.js:728-740 | Errors the stream once, drops the total, and rejects the writer's `ready` if pending and its `closed` |
| WritableStates.WritableState.WriteWritable | r4os/web_streams.js:741-768 | The in-place update, with the refusal, is the model's step |
| WritableStates.WritableState.CloseWritable | r4os/web_streams.js:769-783 | The in-place update, with the refusal, is the model's step |
| WritableStates.WritableState.Begin | r4os/web_streams.js:754-757 | The callback of a link: skipped after a rejection, refused on an errored stream, else the sink is called |
| WritableStates.WritableState.React | r4os/web_streams.js:758-782 | The reaction to a settled link: its promise, the total and `ready` after a write, the closed state and the writer's `closed` after a close, the error after a rejection; that each promise tells the sink's answer is `WritableOutcomes.PromisesTellTheAnswers` |
| WritableDrivers.Dispatch | r4os/web_streams.js:708-792 | One call or one link of the chain on the object is the step of the model |
| WritableDrivers.Drive | r4os/web_streams.js:708-792 | A new object after any list of events is in the state of the run: its sink calls are the writes in order and close last, and its total and `ready` are right while it is writable |
| TeeRuns.BothBranchesGetAll | r4os/web_streams.js:588-661 | Every run: a branch that is not cancelled was given exactly the chunks taken from the source, a cancelled one a prefix; readers see a prefix of that; the source is cancelled at most once and only after both branches were |
| TeeRuns.NothingLostInTheTee | r4os/web_streams.js:614-648 | Every run, also after the source ended: what a branch that is neither cancelled nor errored delivered, holds and queues is exactly what was read from the source, and "done" comes only after all of it |
| TeeRuns.CancelsComplete | r4os/web_streams.js:599-626 | Every run: a cancel of a branch is open until the source is done with, and after that only while the source's own cancel is |
| TeeRuns.EnqueueAccepts | r4os/web_streams.js:644-645 | An open branch never refuses a value the tee offers it, and stays open |
| TeeEnds.EndReachesBranches | r4os/web_streams.js:614-638 | Every run: once the source is done with, a branch that is not cancelled is errored, or closed with nobody waiting, or about to close with data queued and nobody waiting |
| TeeEnds.SourceEnds | r4os/web_streams.js:614-632 | The end itself, from every reached state: each branch that is not cancelled closes, after its queued data, and tells every waiting read; on a partial element it errors; a failure errors it with its reason; a cancelled branch is untouched |
| TeeEnds.CloseBranchEnds | r4os/web_streams.js:627-632 | The normal end at one open branch, case by case |
| TeeEnds.FailureStays | r4os/web_streams.js:617-619 | After a failure both branches that were not cancelled stay errored with its reason in every continuation |
| TeeEnds.SourceEndReachesBranches | r4os/web_streams.js:614-648 | The same for a tee of a real stream: when its end reaches the tee, every surviving branch is at its end |
| TeeEnds.PullReads | r4os/web_streams.js:633-636 | A pull of a branch reads the source once, unless a read is under way, which then serves both |
| TeeCourse.StepTee | r4os/web_streams.js:600-648 | Every event: which branches are cancelled, when the source is cancelled or done with, and how the promise that the cancels share settles, once |
| TeeCourse.CancelReachesSource | r4os/web_streams.js:600-612 | Every run: while the source is open it is cancelled exactly when both branches are, and once |
| TeeCourse.StepReading | r4os/web_streams.js:633-648 | Every event: the shared read is answered once and then forgotten, and its value is taken unless the source was done with or cancelled before |
| TeeCourse.BranchesAsk | r4os/web_streams.js:633-661 | Every run: a branch that takes data has a pull under way whenever somebody waits, and unless it is a byte stream also whenever its queue is empty |
| TeeCourse.ReadsOnDemand | r4os/web_streams.js:633-661 | A tee reads its source only then: a byte source only for a waiting read, any other one chunk ahead of the faster branch |
| TeeRuns.TeeStepKeeps | r4os/web_streams.js:600-659 | Every event of a branch or of the source keeps the tee's invariant |
| TeeStates.TeeState.constructor | r4os/web_streams.js:588-661 | Two fresh branches with the strategy of their kind |
| TeeStates.TeeState.CloseBranch | r4os/web_streams.js:627-632 | Close, then `respond(0)` to a pending buffer; a failure errors the branch |
| TeeStates.TeeState.FinishSource | r4os/web_streams.js:614-626 | Once: errors or closes the branches that are not cancelled, and fulfils the cancels unless the source is being cancelled; what this means at each branch is `TeeEnds.SourceEnds` |
| TeeStates.TeeState.ReadResolved | r4os/web_streams.js:636-646 | A value goes to the branches that are not cancelled; a refusal fails both |
| TeeStates.TeeState.PullBranch | r4os/web_streams.js:633-636 | One shared read of the source at a time |
| TeeStates.TeeState.CancelSourceWhenUnused | r4os/web_streams.js:600-612 | The source is cancelled when both branches are, once; the answer is fulfilled at once only when the source has ended |
| TeeStates.TeeState.CancelSettled | r4os/web_streams.js:604-608 | The source's own cancel settled: the source is done with and the cancels settle alike |
| TeeStates.TeeState.CancelLeft | r4os/web_streams.js:652-652 | Cancelling the left branch leaves the right one untouched |
| TeeStates.TeeState.CancelRight | r4os/web_streams.js:656-656 | Cancelling the right branch leaves the left one untouched |
| TeeDrivers.Dispatch | r4os/web_streams.js:588-661 | One event at a branch object or at the source is the step of the model |
| TeeDrivers.Drive | r4os/web_streams.js:588-661 | A tee and its two branch objects after any list of events are in the state of the run: nothing is lost in either branch, and the source is cancelled at most once, after both |
| ReadableFrames.SourceUndisturbed | r4os/web_streams.js:122-400 | While a default reader holds the lock, no event but its own calls changes the lock or the ids of reads, and no answer with a value is marked done |
| TeeSources.JointStepKeeps | r4os/web_streams.js:588-661 | A tee together with the stream it reads: every event at a branch or the source and every reaction to a promise of the reader keeps the invariant |
| TeeSources.RunIsTeeRun | r4os/web_streams.js:588-661 | Every run of a tee with its source is a run of the tee, so whatever holds of those holds here |
| TeeSources.ReaderIsReleased | r4os/web_streams.js:613-626 | Every run, from any unlocked stream: the tee holds the lock exactly until it is done with the source, so its release, whose error the code swallows, never fails; and no read waits but its own latest one |
| TeeSources.TakenIsDelivered | r4os/web_streams.js:633-648 | Every run: what the closures took is what their reads delivered, in order, all of it but for a read not yet reacted to, until the tee is done or cancels the source |
| TeeSources.SourceReachesBranches | r4os/web_streams.js:588-661 | End to end: once the end of a source that was not cancelled reached the tee, what was read before and what each branch that was neither cancelled nor errored delivered, holds and has queued is everything the source was ever given |
| TeeCourse.CancelAsked | r4os/web_streams.js:600-604 | The second cancel makes the reader cancel the source; a source that has ended answers at once by its phase |
| TeeCourse.CancelAnswered | r4os/web_streams.js:604-608 | That answer, or else that of the source's own cancel, settles the cancels of the branches |
| TeeSourceDrivers.TeeOfSource.constructor | r4os/web_streams.js:588-599 | `tee()` on an unlocked stream object: it takes the lock and starts with two fresh branches |
| TeeSourceDrivers.TeeOfSource.Release | r4os/web_streams.js:613-613 | Releases the reader once and swallows the error of a release with a read pending |
| TeeSourceDrivers.TeeOfSource.React | r4os/web_streams.js:600-659 | One event or reaction on the closures, the branch objects and the source object is the step of the model, with the read, cancel or release it makes |
| TeeSourceDrivers.Drive | r4os/web_streams.js:588-661 | A tee of a stream object after any events is in the state of the run, and what it has made of its source holds of the objects |
| DiskModel.ApplyReversed | r4os/storage_tools/limine/limine.c:328-334 | Applying the reversed log leaves at every byte the oldest value logged for it |
| DiskModel.WriteUndoable | r4os/storage_tools/limine/limine.c:467-522 | A write that logs the logical bytes it replaces keeps every byte undoable, whether or not the dirty block reached the device |
| DiskModel.UndoRestores | r4os/storage_tools/limine/limine.c:524-574 | Dropping the cache and applying the reversed log gives every byte outside the failed range its original value |
| CacheModel.FlushFacts | r4os/storage_tools/limine/limine.c:266-285 | Under any script of failures flushing keeps every logical byte, even when torn; it succeeds exactly when none of its accesses fails, and then the device equals the logical content and the cache is clean |
| CacheModel.CacheFacts | r4os/storage_tools/limine/limine.c:287-312 | Under any script caching a block keeps every logical byte; it succeeds exactly when the block lies inside the device and none of its accesses fails, and then that block is cached and coherent |
| CacheModel.ReadFacts | r4os/storage_tools/limine/limine.c:445-465 | A successful read of any alignment and number of blocks gives the logical bytes; no read changes one; only a failing access or the end of the device makes it fail |
| CacheModel.WriteFacts | r4os/storage_tools/limine/limine.c:498-522 | A write succeeds exactly when its range fits and none of its accesses fails, and then changes exactly its range to the data; a failed one leaves each byte old or, before the last block of the range, new |
| CacheModel.LoggedFacts | r4os/storage_tools/limine/limine.c:467-522 | A successful logged write appends exactly the bytes it replaced; a failed one logs nothing and changes at most bytes before the last block of its range |
| CacheModel.OneBlockWrite | r4os/storage_tools/limine/limine.c:498-522 | A failed write that lies in one block has changed nothing |
| CacheModel.LoggedOneBlock | r4os/storage_tools/limine/limine.c:467-522 | The same with the log entry being taken |
| InstallModel.AllKeeps | r4os/storage_tools/limine/limine.c:1170-1190 | Over any operations under any script: the log undoes every byte up to the first failure, the device is the image of the writes so far, and a failure spoils only bytes before the last block of that one write that no earlier write had saved |
| InstallFaults.UndoneCompletely | r4os/storage_tools/limine/limine.c:501-574 | Exact condition: a failed operation is undone completely under every script if and only if each reachable write would, before the last block of its range, change only bytes an earlier write has saved; otherwise some single failure leaves a byte changed |
| InstallFaults.RecoverableRestores | r4os/storage_tools/limine/limine.c:524-574 | The half for all scripts: under the condition replaying the log gives back the whole device |
| InstallFaults.NotRestored | r4os/storage_tools/limine/limine.c:501-520 | The other half: for each byte that breaks the condition, a script whose one failure leaves that byte changed after the undo |
| InstallFaults.OneBlockWritesRestore | r4os/storage_tools/limine/limine.c:501-522 | In particular operations whose writes each lie in one block are always undone completely |
| InstallFaults.PartialWriteStays | r4os/storage_tools/limine/limine.c:501-520 | A concrete run that is not undone: a device of two 512-byte sectors, a write of 513 bytes over its zeros, and one failing seek |
| BlockCaches.BlockCache.constructor | r4os/storage_tools/limine/limine.c:233-264 | A clean cache of block 0 and an empty log |
| BlockCaches.BlockCache.FlushCache | r4os/storage_tools/limine/limine.c:266-285 | In place what the model computes under the same script; no logical byte changes; on success the device is the logical content |
| BlockCaches.BlockCache.CacheBlock | r4os/storage_tools/limine/limine.c:287-312 | In place what the model computes under the same script |
| BlockCaches.BlockCache.DeviceRead | r4os/storage_tools/limine/limine.c:445-465 | The block-by-block loop returns what the model computes: the logical bytes on success |
| BlockCaches.BlockCache.DeviceWrite | r4os/storage_tools/limine/limine.c:467-522 | Saving the old bytes and the copy loop are the model's logged write, or the bare write while uninstalling; a failed write inside one block leaves every logical byte as it was |
| BlockCaches.BlockCache.WriteBytes | r4os/storage_tools/limine/limine.c:501-520 | The block-by-block copy loop writes what the model computes, also up to the access that fails |
| Uninstalls.ReverseUninstallData | r4os/storage_tools/limine/limine.c:328-334 | The log in place becomes its reverse |
| UninstallModel.EntryBytes | r4os/storage_tools/limine/limine.c:538-553 | One entry with both tries: written means exactly its bytes were, given up means that while no flush failed nothing outside its range changed |
| UninstallModel.GivenUpAfterTwo | r4os/storage_tools/limine/limine.c:538-553 | An entry that fits is given up only after at least two failing accesses, and a failure of one access is mended by flush, fresh cache and second try |
| UninstallModel.EveryEntryTried | r4os/storage_tools/limine/limine.c:536-556 | Every entry is tried, whatever became of those before: at most half as many are given up as accesses fail |
| UninstallModel.OneFailureIsMended | r4os/storage_tools/limine/limine.c:524-574 | If at most one access fails, and not the very last one, which no retry follows, the undo of a log that fits succeeds |
| UninstallModel.OthersAreRestored | r4os/storage_tools/limine/limine.c:536-574 | While no flush fails and every entry given up lies in one block, each byte that none of those covers is what the whole log leaves there |
| UninstallModel.StrayByte | r4os/storage_tools/limine/limine.c:287-312 | That condition is needed: a concrete log of two entries and two failing accesses after which a byte that no entry covers has changed, because a failed read leaves its garbage in a cache that still counts as the old block |
| UninstallModel.UndoneBytes | r4os/storage_tools/limine/limine.c:524-574 | A result of true means the device is the log applied in order |
| Uninstalls.Replay | r4os/storage_tools/limine/limine.c:538-553 | In place: the first try, after a failure the flush, the dropped cache and the second try, exactly as the model computes them under the same script |
| Uninstalls.ReplayLog | r4os/storage_tools/limine/limine.c:536-556 | The loop tries every entry and reports exactly whether one was given up and whether a flush failed |
| Uninstalls.Uninstall | r4os/storage_tools/limine/limine.c:524-574 | With any seek, read or write failing at any point, torn writes and garbage in the cache: the state is the one the model computes, true means the device equals the log applied in order, and a device on which nothing fails, or a single access other than the very last one, gives true for a log that fits |
| Installs.Perform | r4os/storage_tools/limine/limine.c:445-522 | One device operation in place is the operation of the model, with its log and its result |
| Installs.RunOperations | r4os/storage_tools/limine/limine.c:1170-1190 | The operations in place up to the first failure are the run of the model |
| Installs.Install | r4os/storage_tools/limine/limine.c:1192-1213 | After a failed or refused install, if the undo reports success: the whole device is the original if a check refused, the flush failed or the failed operation lies in one block, in general if and only if the run restores, and always outside the failed write's bytes before its last block; a single failing access during the undo does not keep it from succeeding; after a successful one the device is the image of the writes and the kept log would restore it |
| Installs.SpoiledInstall | r4os/storage_tools/limine/limine.c:501-574 | A real install, with its undo reporting success, ends with a changed device under each such script |
| Installs.UninstallLater | r4os/storage_tools/limine/limine.c:742-760 | A later program that loads a file and uninstalls: success means the file parses and the device is that log applied |
| Installs.InstallAndUninstall | r4os/storage_tools/limine/limine.c:742-760 | Install, store, load into a fresh program, uninstall: success means the device is byte for byte the original, and a reliable device with at most 256 non-empty writes gives success |
| UndoFiles.StoreThenLoad | r4os/storage_tools/limine/limine.c:342-430 | A stored log of at most 256 non-empty entries loads back identical |
| UndoFiles.LoadThenStore | r4os/storage_tools/limine/limine.c:382-430 | A file that loads starts with exactly what storing the loaded log writes: nothing else is accepted |
| UndoFiles.FieldsOfImage | r4os/storage_tools/limine/limine.c:342-380 | Byte by byte: the number of entries, and for every entry its place, its length and its bytes, one after the other |
| UndoFiles.EncodedByte | r4os/storage_tools/limine/limine.c:342-380 | Each number is stored lowest byte first |
| UndoFiles.StoreUninstallData | r4os/storage_tools/limine/limine.c:342-380 | Writes the image of the log; fails exactly when an entry holds no bytes |
| UndoFiles.LoadUninstallData | r4os/storage_tools/limine/limine.c:382-443 | Succeeds exactly on parseable files and then holds the parsed log |
| BootSectors.InstalledBytes | r4os/storage_tools/limine/limine.c:1170-1190 | With stage 2 clear of sector 0: bytes 218-223 and 440-509 as saved, the location of stage 2 at 0x1a4, every other byte of sector 0 from the image, stage 2 in place, no other byte changed |
| BootSectors.Stage2Found | r4os/storage_tools/limine/limine.c:1182-1184 | The location read back from the boot sector is where stage 2 was written |
| BootSectors.BootCodeSurvives | r4os/storage_tools/limine/limine.c:1170-1190 | Wherever stage 2 goes, the boot code is the image's if and only if stage 2 agrees with it on every byte of boot code it covers; the saved bytes are put back in any case |
| BootFaults.StagesUndone | r4os/storage_tools/limine/limine.c:1170-1190 | The exact condition for the installer's own last writes, for any block size of at least a sector and stage 2 anywhere: a failure is undone completely under every script if and only if stage 2 does not fit, or changes no byte outside sector 0 before its last block; otherwise some script leaves a byte changed |
| BootFaults.StagesRecoverable | r4os/storage_tools/limine/limine.c:1170-1190 | Of those operations stage 2 is the only one that can spoil anything, and this is exactly when |
| BootFaults.StagesSpoiled | r4os/storage_tools/limine/limine.c:1170-1190 | With 512-byte sectors and stage 2 right after sector 0, one byte of it before its last sector that differs from the device gives a script after which the undo leaves the device changed |
| BootSectors.StagesAreOperations | r4os/storage_tools/limine/limine.c:1170-1190 | The final steps are such a list of operations, so every claim about undoing one holds for them |
| BootSectors.PutBack | r4os/storage_tools/limine/limine.c:1186-1190 | The saved timestamp and table are written back over the boot sector |
| BootSectors.InstallStages | r4os/storage_tools/limine/limine.c:1170-1193 | The reads, writes and flush through the cache give exactly that device, with five log entries |
| ChsAddresses.DecodesOrSaturates | r4os/storage_tools/limine/limine.c:151-172 | Decoding the three bytes gives back every LBA below 1024*255*63; every other one saturates to the last address |
| ChsAddresses.FieldsFit | r4os/storage_tools/limine/limine.c:151-172 | The three values are bytes, and the sector is never zero |
| EnrollConfigs.FindChecksum | r4os/storage_tools/limine/limine.c:1292-1332 | The rewinding loop terminates and finds the first signature whose last byte lies below the limit, none exactly when there is none, and the 128 bytes after a hit lie in the file |
| EnrollConfigs.LastPlaceIsNotSeen | r4os/storage_tools/limine/limine.c:1312-1312 | A signature followed by exactly its digest is there and is not found: the limit bounds the last byte, not the first |
| EnrollConfigs.FirstMatchFound | r4os/storage_tools/limine/limine.c:1292-1332 | Of a file with a first match: the search returns it if and only if it ends early enough, and otherwise returns nothing |
| EnrollConfigs.LocatesUnique | r4os/storage_tools/limine/limine.c:1312-1332 | What the search may return is determined by the file |
| EnrollConfigs.Enroll | r4os/storage_tools/limine/limine.c:1334-1338 | Replaces exactly the digest after the first visible signature |
| EnrollConfigs.EnrollAgain | r4os/storage_tools/limine/limine.c:1334-1338 | A later enrolment or reset finds the same place, and the last one wins |
| Inventories.Inventory | Rust/src/services/inventory.rs:100-162 | Three attempts of page loops, which terminate against any provider, compute the recursive definition |
| Inventories.CheckRows | Rust/src/services/inventory.rs:130-136 | The loop accepts exactly strictly ascending continuations and ends at the last id |
| Inventories.InventorySound | Rust/src/services/inventory.rs:100-162 | Against any provider: strictly ascending ids, and the rows are the concatenation of consecutive pages of one revision that promise exactly that many |
| Inventories.InventoryIsTheTable | Rust/src/services/inventory.rs:100-162 | However the table changes between calls: if pages hold rows of the revision they name, the result is exactly the table of the named revision |
| Inventories.BusyExactlyWhenAllRestart | Rust/src/services/inventory.rs:101-116 | The inventory reports busy if and only if every attempt was told to start again |
| Inventories.AgainExactly | Rust/src/services/inventory.rs:108-116 | An attempt asks for another if and only if, after pages that it took, a call was answered with "restart" or "busy"; the next one starts with the call after it |
| Inventories.CapturedAfterRestarts | Rust/src/services/inventory.rs:101-162 | A table that stays from the start of any of the attempts on is captured, after as many restarts |
| Inventories.DefectivePage | Rust/src/services/inventory.rs:117-160 | A page with any of the listed defects makes the provider invalid |
| Inventories.PassedOn | Rust/src/services/inventory.rs:108-150 | Any other error code is passed on, and refused storage is reported as such |
| Inventories.StableTableIsCaptured | Rust/src/services/inventory.rs:100-162 | Once the table stays and storage suffices, one attempt captures it completely, whatever the page sizes |
| EvidenceRuns.HistoryLawful | Examples/DesktopEvidence.c:12-60 | Every history of one begin and any resumes, with crashes and lost replies anywhere, obeys the rule of each single event |
| EvidenceRuns.StoredNeverChanges | Rust/src/services/evidence.rs:83-97 | Broker, request, epoch and intent of stored tokens never change, nor does a stored non-zero serial or valid process |
| EvidenceRuns.SentWasStored | Examples/DesktopEvidence.c:12-60 | Every request carries exactly the token stored last before it; offers and acknowledgements have a serial; nothing is reserved after anything was sent |
| EvidenceRuns.BeginCompletes | Examples/DesktopEvidence.c:24-39 | With storage and broker working a first session stores and sends in this order: intent, Reserve, serial, Offer, canonical token, ACK |
| EvidenceRuns.ResumeCompletes | Examples/DesktopEvidence.c:41-60 | A session that resumes a reservation asks first and offers it under the stored serial |
| EvidenceRuns.ResumeCommits | Examples/DesktopEvidence.c:55-56 | Where the broker already has the offer a resumed session stores the token it names and acknowledges it, without offering again |
| EvidenceRuns.ResumeObserves | Examples/DesktopEvidence.c:55-59 | In any other phase, and for an offer with another result, it only looks |
| EvidenceRuns.ResumeGivesUp | Examples/DesktopEvidence.c:45-46 | Without an accepted status nothing is stored or sent any more |
| EvidenceRuns.BeginStops | Examples/DesktopEvidence.c:24-39 | A first session that has come past its i-th event has met what that event waited for |
| EvidenceRuns.BeginReturns | Examples/DesktopEvidence.c:24-39 | A first session returns what the first failed save, lost reply or other answer says |
| EvidenceRuns.ResumeReturns | Examples/DesktopEvidence.c:41-60 | So does a resumed session that finds a reservation |
| EvidenceRuns.ResumeCommitReturns | Examples/DesktopEvidence.c:41-60 | So does one that finds an offer |
| EvidenceRuns.BeginSavesFirst | Examples/DesktopEvidence.c:24-31 | Bad arguments leave no trace; otherwise the token with the given identity, no serial and no process is stored before anything is sent, and an unconfirmed save ends the session |
| EvidenceRuns.ReplyTaken | Rust/src/services/evidence.rs:44-134 | Exactly which requests may be sent and which replies are taken |
| EvidenceRuns.BeginLawful | Examples/DesktopEvidence.c:24-39 | A first session alone obeys the rule, for any answers |
| EvidenceRuns.ResumeLawful | Examples/DesktopEvidence.c:41-60 | A resume continues any lawful history lawfully, for any answers |
| EvidenceObservers.Observer.Request | Rust/src/services/evidence.rs:44-134 | One request: refused by the client, lost, answered badly, or accepted; only an accepted reply overwrites the last one |
| EvidenceObservers.Observer.CommitOffer | Examples/DesktopEvidence.c:12-22 | The statements, overwriting the saved token in place, leave the events and return code of the model |
| EvidenceObservers.Observer.Begin | Examples/DesktopEvidence.c:24-39 | The statements, overwriting the saved token in place, leave the events and return code of the model |
| EvidenceObservers.Observer.Resume | Examples/DesktopEvidence.c:41-60 | The statements, overwriting the canonical token in place, leave the events and return code of the model |
| EvidenceDrivers.Drive | Examples/DesktopEvidence.c:12-60 | One observer that begins and any number that resume from what storage holds, each crashing anywhere, leave exactly the history of the model, and it is lawful |
| OrderedPages.OrderedPage.constructor | Rust/src/directory_page.rs:78-86 | An empty page |
| OrderedPages.NewPage | Rust/src/directory_page.rs:78-86 | A page exists for every size but zero |
| OrderedPages.OrderedPage.Offer | Rust/src/directory_page.rs:87-100 | The in-place shift inserts at the stable place and gives back the value that does not fit; exactly the first `count` slots own a value |
| OrderedPages.OfferSequence | Rust/src/directory_page.rs:87-100 | Offering a sequence in place computes the recursive definition |
| OrderedPages.PageIsTheStableTop | Rust/src/directory_page.rs:87-100 | After any offers, for any strict weak order, the page is the first N elements of the stable sort of everything offered |
| OrderedPages.StableSortUnique | Rust/src/directory_page.rs:87-100 | There is only one stable sort, so the page is determined |
| OrderedPages.OfferIsInsertAndCut | Rust/src/directory_page.rs:87-100 | On a page that is a prefix of the sorted values an offer has the effect of inserting into all of them and cutting |
| OrderedPages.OffersConserved | Rust/src/directory_page.rs:87-100 | Kept and returned values together are the multiset of offered values |

## Left out

- Pipes, async iteration, `ReadableStream.from`, `TransformStream` and its `capacityWaiters`, property descriptors and constructor checks.
- A `size` callback that re-enters the stream; sizes are exact real numbers, so rounding of doubles is not modelled.
- The order of promise callbacks inside one turn of the event loop: each callback is a step of its own, and steps may interleave in any way. `start` may be fulfilled or rejected at any time, which allows more runs than the engine has.
- ReadableStates.ReadableState.ReadFrom: the wake-up of a `TransformStream` that waits for capacity is left out with that class.
- ReadableStates.ReadableState.CancelReadable: how the source's own cancel settles is left out; the answer only says whether it was called.
- Ring buffers inside the state objects: the state classes hold sequences, and `StreamQueues` proves separately that the ring behaves as one.
- A source that detaches or alters the bytes of a pending buffer before its offset, and old `byobRequest` objects kept after they were replaced.
- ReadableStates.ReadableState.Respond: whether the buffer was detached is an input; what else a detached buffer does is left out.
- ReadableStates.ReadableState.RespondWithNewView: the replacement is taken to carry over the bytes before the pending offset.
- ReadableModel.Item: chunks and bytes are one abstract type; byte values and the element encoding of views are not interpreted.
- The sink's and source's own abort and cancel algorithms, and abort signals.
- Positions on the device are unbounded integers; a position that wraps 64 bits is past the end of any device that can be opened. Files are sequences of bytes without buffering by the C library, `set_pos` for a 32-bit `long` and the probing of the block size are not modelled.
- The sanity checks, the GPT conversion and the choice of a location are an arbitrary list of reads and writes, with `refused` saying that one of them ended the install; contents that depend on earlier reads are covered because the list is arbitrary. Argument parsing, messages, memory allocation and the random disk ID are not modelled.
- Installs.Install: does not restore bytes that a failed write put before the last block of its range, because the code logs a write only after it succeeded; `InstallFaults.UndoneCompletely` says when that matters. A refusal between two operations is a refusal after a shorter list.
- UndoFiles.LoadUninstallData: says nothing about the log after a failed load, because the program ends then. Numbers are little-endian; opening, closing and full disks are left out.
- EnrollConfigs.Enroll: file errors and the checks of the command line are left out.
- Inventories: result codes and flag bits are distinct names instead of numbers. `total` below 2^64 is the range of its field.
- EvidenceModel: result codes, phases and header fields are classes of values instead of numbers; the broker's own rules, reading and releasing a lease are left out. Storage is atomic per token, as the interface demands of its caller.
- OrderedPages: the comparison is a pure function.
- Facades that only forward to foreign calls, startup checks and handle wrappers: nothing there spans operations.
