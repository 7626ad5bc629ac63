# A model of the request multiplexer

`ext/oxphp_fiber.c` runs many PHP requests on one thread. Nearly everything a request touches is there once
per thread (session, ini set, output stack, body, execution timer, epoll instance), so the file is a set of
protocols that move each of those in and out of requests. This project models those protocols and proves what
they promise over every run. The accept loop of `src/main.rs` is modelled beside them.

Each module has the same shape. A `State` holds what the code updates, one function says what each C function
does to it, `Do` is any step of the protocol (user code included, as a step that may do anything) and `After` a
whole run. Theorems are about `After`. A class holds the same state as fields and its methods, written with the
source's own loops and branches, are proved equal to those functions. A step that is not enabled is not taken, so
a run is any sequence of steps.

| file | what it covers |
|---|---|
| `Basics.dfy` | what the modules share |
| `ProbeTable.dfy` | the open-addressed tables: linear probing, doubling at half load, backward-shift erase |
| `Claims.dfy` | connection claims on such a table, and the sweep that erases while it iterates |
| `IoReadiness.dfy` | descriptor registrations against the kernel's interest set: park, rollback, mute, collect |
| `SessionSlot.dfy` | one open session per worker, and the line of those that wait for it |
| `SessionHandler.dfy` | the save handler that a parked session is open with, and its references |
| `ExecTimer.dfy` | one thread timer for the deadlines of many requests |
| `FiberLists.dfy` | the active and the spare list, relinked in place |
| `Isolation.dfy` | what a request takes along as it parks and finds as it resumes |
| `FilterStorage.dfy` | the generation counter over storage that cannot be taken along |
| `IniTravel.dfy` | ini directives that travel with a request, and those that stay |
| `PutEnv.dfy` | environment variables put back as their request ends |
| `BodyOwnership.dfy` | who closes a body, under address reuse and repeated parses |
| `Verdict.dfy` | what a request is filed as, and the breaker that counts failures |
| `Drains.dfy` | bounded loops against user code that never gives in |
| `AcceptLoop.dfy` | connection permits and the stall log |

## What does not hold

Some properties hold only under a condition. For each there is a lemma with an input where it fails and one that
says exactly when it holds:

- A deadline still ahead is taken for one that has run out exactly where the thread has no timer
  (`TakenForElapsedIff`, `TimerIsNeeded`).
- A resume asserts that no registry of shutdown functions stands on the thread. PHP run outside every request, or
  after a request's registry was freed, can leave one, and its references are then with nobody (`RunLosesIff`,
  `RegisteredBetweenSlices`). The same lemma covers a request torn down while parked, whose header list and tracked
  arrays are not released.
- A deadline in a later window excuses no failure that is filed. A request ended for suspending itself once too often
  is filed only when its fiber stops, which can be after its shutdown functions and everything else it still runs: a
  deadline in any of those makes it neutral (`RefusedRequestIff`, `LaterDeadlineExcusesRefusal`). Where it parks again
  before that, a deadline that ends the window it parks in makes it neutral up to the flush and not past it
  (`RefusalIsExcusedIff`, `RefusalExcused`).
- A reset of the filter storage that a reader refuses leaves the next request on another's input exactly when there
  is any (`StartIsCleanIff`, `ResumeIsCleanIff`, `ReaderLeaks`).
- Waking a waiter has no effect when its every entry is muted and none had settled it (`WakeReleasesIff`,
  `AllMutedIsNotWoken`).
- A request behind a waiter opens its session exactly by the one path that does not ask the line
  (`OvertakesIff`, `BargingOvertakes`).
- The end of a request destroys an upload hash exactly if no parse made another over it while it was not kept, and
  closes a claimed body exactly if none was put in its place while no record could be had (`EndReleasesIff`,
  `UnkeptHashIsLost`, `ForgottenBodyIsLeft`).
- A new body is claimed exactly if no claim on a closed one stands (`NewBodyIs`,
  `BodyGoesUnclaimed`).

## Model

| member | source | states |
|---|---|---|
| `Probing.MaskedArithmetic` | ext/oxphp_fiber.c:6869-6897 | unsigned 32-bit subtraction and increment under a power-of-two mask are the cyclic distance and step, wrap-around included |
| `Probing.CountIsSize` | ext/oxphp_fiber.c:6900-6923 | the count of used slots is the size of the map the table stores |
| `Probing.FreeEndsProbe` | ext/oxphp_fiber.c:6934-6947 | a free slot met by the probe means the key is nowhere in the table |
| `Probing.ShiftSkip` | ext/oxphp_fiber.c:6949-6969 | a key that the distance test leaves in place did not probe through the hole |
| `Probing.ShiftMove` | ext/oxphp_fiber.c:6949-6969 | a key that the distance test pulls back leaves every other probe path whole |
| `Probing.ShiftDone` | ext/oxphp_fiber.c:6949-6969 | at the first free slot the table is well formed again for the map without the erased key |
| `ProbeTables.Table.constructor` | ext/oxphp_fiber.c:1833-1837 | a table starts empty with no slots |
| `ProbeTables.Table.CountIsEntries` | ext/oxphp_fiber.c:6885-6898 | the count kept beside the slots is the number of entries |
| `ProbeTables.Table.SlotsAreEntries` | ext/oxphp_fiber.c:6885-6898 | slots and entries match in both directions |
| `ProbeTables.Table.Reserve` | ext/oxphp_fiber.c:6900-6923 | room for one more at half load, nothing lost in rehashing, nothing changed when refused |
| `ProbeTables.Table.Put` | ext/oxphp_fiber.c:6925-6932 | the map with the key set, or unchanged when growth was refused |
| `ProbeTables.Table.Find` | ext/oxphp_fiber.c:6934-6947 | finds the slot of the key if and only if the map has the key; the probe ends |
| `ProbeTables.Table.Overwrite` | ext/oxphp_fiber.c:7224-7239 | an entry changes owner where it stands and nothing else does |
| `ProbeTables.Table.Erase` | ext/oxphp_fiber.c:6949-6969 | the map without that key and with every other, the slots below the hole changed only as a wrapped shift changes them |
| `ProbeTables.Table.Clear` | ext/oxphp_fiber.c:7306-7312 | the slots of an empty table are given up |
| `Claims.RunHalfLoad` | ext/oxphp_fiber.c:7158-7181 | the load is at or below half after any operations |
| `Claims.RunHolds` | ext/oxphp_fiber.c:7183-7244 | after any operations a lookup gives what was last stored for the key and not forgotten or released since; an acquisition is refused exactly for a key nobody holds with the table at half load and unable to grow |
| `Claims.ConnectionClaims.constructor` | ext/oxphp_fiber.c:7131-7133 | no claim stands at first |
| `Claims.ConnectionClaims.Owner` | ext/oxphp_fiber.c:7219-7222 | the holder of a connection, or none |
| `Claims.ConnectionClaims.Acquire` | ext/oxphp_fiber.c:7224-7239 | the connection is the asker's, whoever held it before; refused exactly when a new entry needs room and the table cannot grow |
| `Claims.ConnectionClaims.Forget` | ext/oxphp_fiber.c:7241-7244 | that claim goes and no other |
| `Claims.ConnectionClaims.TaggedHeldByOther` | ext/oxphp_fiber.c:7246-7256 | true if and only if some tagged claim has another holder |
| `Claims.ConnectionClaims.ReleaseFiber` | ext/oxphp_fiber.c:7276-7298 | the sweep removes every entry of the fiber and keeps every other, wrapped shifts included, and ends |
| `Claims.ConnectionClaims.ResetIfEmpty` | ext/oxphp_fiber.c:7306-7312 | the slots are given up exactly when no claim is left |
| `Claims.ConnectionClaims.Replay` | ext/oxphp_fiber.c:7183-7312 | over any operations the table is the plain map |
| `IoReadiness.Recovered` | ext/oxphp_fiber.c:6976-6983 | the descriptor is recoverable from a muted entry |
| `IoReadiness.RollbackTakesOut` | ext/oxphp_fiber.c:6986-6998 | a rollback takes out what the park registered and nothing else |
| `IoReadiness.RefusedParkLeavesKernel` | ext/oxphp_fiber.c:7019-7046 | a park refused at any entry leaves the kernel's interest set as it was found |
| `IoReadiness.AcceptedParkWatches` | ext/oxphp_fiber.c:7019-7046 | an accepted park watches every unmuted entry for its fiber and nothing else |
| `IoReadiness.RunKeepsInv` | ext/oxphp_fiber.c:6976-7061 | over every interleaving of park, unpark, mute, silent close and reuse, what the kernel watches has the same owner in the table |
| `IoReadiness.UnparkedIsForgotten` | ext/oxphp_fiber.c:7052-7061 | after any run an unparked fiber is named by neither the table nor the kernel, muted entries included |
| `IoReadiness.WatchLasts` | ext/oxphp_fiber.c:6976-6983 | no removal takes out another waiter's registration: a watch lasts to its close or its own waiter's giving it up |
| `IoReadiness.ScatterIsMute` | ext/oxphp_fiber.c:7490-7512 | scattering events changes registrations by mutings alone |
| `IoReadiness.ScatterKeepsInv` | ext/oxphp_fiber.c:7490-7512 | no batch of events upsets what table and kernel agree on |
| `IoReadiness.CollectedExactly` | ext/oxphp_fiber.c:7516-7542 | collected are exactly the waiters ready or out of time, up to a full batch |
| `IoReadiness.CollectedInOrder` | ext/oxphp_fiber.c:7520-7541 | the batch is filled in list order |
| `IoReadiness.EventIsTaken` | ext/oxphp_fiber.c:7490-7512 | what one event changes, and all that it leaves |
| `IoReadiness.EntryHears` | ext/oxphp_fiber.c:7490-7512 | what any batch makes of an entry, by the events for it alone |
| `IoReadiness.CollectsRight` | ext/oxphp_fiber.c:7435-7542 | who is collected and how it is marked, read off the events, the deadlines and a failed wait |
| `IoReadiness.FailureReleasesAll` | ext/oxphp_fiber.c:7449-7482 | a wait that failed as a whole makes every waiter with a descriptor due |
| `IoReadiness.WakeReleasesIff` | ext/oxphp_fiber.c:7063-7075 | waking has its effect exactly when an entry is unmuted or was settled already |
| `IoReadiness.AllMutedIsNotWoken` | ext/oxphp_fiber.c:7063-7075 | a waiter with only muted entries that waking does not release |
| `IoReadiness.Poller.constructor` | ext/oxphp_fiber.c:1833-1837 | nothing watched at first |
| `IoReadiness.Poller.DropRegistration` | ext/oxphp_fiber.c:6976-6983 | removes the registration only if it is this owner's |
| `IoReadiness.Poller.ParkRollback` | ext/oxphp_fiber.c:6986-6998 | undoes the first entries of a park |
| `IoReadiness.Poller.Watch` | ext/oxphp_fiber.c:7019-7046 | one descriptor is registered in both places or in neither |
| `IoReadiness.Poller.Park` | ext/oxphp_fiber.c:7019-7046 | all entries are registered, or none and the kernel is as before |
| `IoReadiness.Poller.Unpark` | ext/oxphp_fiber.c:7052-7061 | every entry of the fiber is given up and its wait forgotten |
| `IoReadiness.Poller.BeginWait` | ext/oxphp_sapi.c:1507-1543 | a wait is recorded only if every entry could be watched |
| `IoReadiness.Poller.WakeIo` | ext/oxphp_fiber.c:7063-7075 | the loop over the entries makes the waiter due exactly if one is unmuted or had settled it, and changes nothing watched |
| `IoReadiness.Poller.FailWaits` | ext/oxphp_fiber.c:7473-7481 | the loop over the active waiters and their entries marks every one unusable |
| `IoReadiness.Poller.Scatter` | ext/oxphp_fiber.c:7490-7512 | the event's conditions are its entry's, which is muted and no longer watched exactly if it asked for none of them; every other entry is as it was |
| `IoReadiness.Poller.ScatterEvents` | ext/oxphp_fiber.c:7435-7513 | after a batch every entry is what the events for it alone make it |
| `IoReadiness.Poller.PickDue` | ext/oxphp_fiber.c:7516-7542 | the due waiters in list order, each stamped with whether its time ran out |
| `IoReadiness.Poller.CollectReady` | ext/oxphp_fiber.c:7435-7542 | a waiter is collected exactly if the last event for an entry has something it asked for with none before that muted it, or its deadline has passed, or the wait failed; unless the batch is full; and it is marked expired exactly if it was its deadline alone |
| `SessionSlot.OneSessionAtATime` | ext/oxphp_fiber.c:6003-6104 | in every run at most one session is open, the waiter count is the length of the line, and places are distinct |
| `SessionSlot.SessionReturns` | ext/oxphp_fiber.c:6003-6026 | whatever runs between, a request has its session open as it resumes exactly if it was open as it parked, and holds the slot all the while exactly then |
| `SessionSlot.WaitNeededMeans` | ext/oxphp_fiber.c:6030-6050 | a request waits exactly while another holds the slot or stands ahead of it |
| `SessionSlot.OvertakesIff` | ext/oxphp_fiber.c:6030-6104 | over every run, while a waiter keeps its place, a request behind it opens, at once or after a wait of its own, exactly at the steps at which it goes past the line |
| `SessionSlot.BargingOvertakes` | ext/oxphp_sapi.c:5853-5912 | a run of an empty worker, each wait begun where one is needed, in which the open that does not ask the line passes a waiter |
| `SessionSlot.Worker.constructor` | ext/oxphp_fiber.c:1833-1837 | an empty worker |
| `SessionSlot.Worker.NeedsWait` | ext/oxphp_fiber.c:6030-6050 | the walk over the active fibers answers the question the line is about |
| `SessionSlot.Worker.TakePlace` | ext/oxphp_fiber.c:6057-6062 | a place is taken once, at the end of the line |
| `SessionSlot.Worker.GiveBackPlace` | ext/oxphp_fiber.c:6064-6069 | a place is given back once |
| `SessionSlot.Worker.FirstInLine` | ext/oxphp_fiber.c:6081-6104 | the least place, or nobody exactly when the line is empty |
| `SessionSlot.Worker.EndSlice` | ext/oxphp_fiber.c:6003-6026 | the holder after a slice is its fiber if it parked with its session open |
| `SessionSlot.Worker.RunSlice` | ext/oxphp_fiber.c:6500-6554 | a slice of any user code is the run of the protocol that its calls come to: starts, waits that open in turn, cannot wait or are given up, and closes |
| `SessionSlot.Worker.Ask` | ext/oxphp_sapi.c:5853-5912 | what one call comes to, and the state after it; a wait that opens asks the line before its place goes and not again |
| `SessionSlot.Worker.OpenInTurn` | ext/oxphp_sapi.c:5868-5911 | the place given back and the session opened in one step |
| `SessionSlot.Worker.CannotWait` | ext/oxphp_sapi.c:5889-5895 | the place given back, and the session opened exactly if no other request holds the slot |
| `SessionSlot.Worker.HandOff` | ext/oxphp_fiber.c:6081-6104 | wakes in line order while the slot is free, the first in line first, no more slices than stood in line on entry; stops before that only with the slot held, the line empty or its first not asleep |
| `SessionHandler.ReferencesBalance` | ext/oxphp_fiber.c:5666-5810 | in every run each reference is counted where it is held, none dropped twice, none left with no session parked |
| `SessionHandler.ParkedSessionReturns` | ext/oxphp_fiber.c:5887-5947 | whatever runs between, the session is back with the handler it was parked with |
| `SessionHandler.ThreadConfigurationReturns` | ext/oxphp_fiber.c:5887-5968 | after the slice the thread has its earlier configuration if the request's handler is the pinned one but for the class name, and the request's if not |
| `SessionHandler.LiftChooses` | ext/oxphp_fiber.c:5887-5924 | the same choice as a session is parked again, and what is given up by it |
| `SessionHandler.SettleChooses` | ext/oxphp_fiber.c:5949-5968 | and as it is closed or its request ends |
| `SessionHandler.SessionIsItsOwn` | ext/oxphp_fiber.c:5887-6026 | a request is entered with its own session or none, and no slice leaves one on the thread |
| `SessionHandler.OrphanGivesUp` | ext/oxphp_fiber.c:5980-6001 | a session that is nobody's is given up with the class name's reference and nothing else |
| `SessionHandler.NewCallbackIsNoticed` | ext/oxphp_fiber.c:5762-5775 | comparing addresses never takes a handler made in the slice for the pinned one |
| `SessionHandler.WithoutOwnReferences` | ext/oxphp_fiber.c:5739-5775 | without the pin's own references it would |
| `SessionHandler.RecordUntouched` | ext/oxphp_fiber.c:5926-5968 | a parked record stays as it is until its fiber is entered |
| `SessionHandler.PinsSurvive` | ext/oxphp_fiber.c:5739-5760 | what is pinned stays the object pinned |
| `SessionHandler.Module.IsUnchanged` | ext/oxphp_fiber.c:5762-5775 | the comparison finds them the same exactly if they differ in the class name at most |
| `SessionHandler.Module.Release` | ext/oxphp_fiber.c:5782-5810 | the loop over the slots and then the class name gives up every reference the handler holds, freeing an object with its last one |
| `SessionHandler.Module.Share` | ext/oxphp_fiber.c:5739-5752 | the loop over the slots takes one reference for each |
| `SessionHandler.Module.Lift` | ext/oxphp_fiber.c:5887-5924 | the three ways a session comes off the thread |
| `SessionHandler.Module.Restore` | ext/oxphp_fiber.c:5926-5947 | the thread's handler is set aside and the session's put on |
| `SessionHandler.Module.Settle` | ext/oxphp_fiber.c:5949-5968 | what was set aside goes back, unless the request configured its own |
| `SessionHandler.Module.ReleaseOrphan` | ext/oxphp_fiber.c:5980-6001 | a session that belongs to nobody is given up |
| `SessionHandler.Module.EnterSlice` | ext/oxphp_fiber.c:6500-6515 | the session side of a resume |
| `SessionHandler.Module.EndSlice` | ext/oxphp_fiber.c:6003-6026 | the session side of the end of a slice |
| `ExecTimer.DeadlineAfter` | ext/oxphp_fiber.c:6257-6268 | a deadline exactly for limits the engine arms for, that many times a thousand million nanoseconds ahead |
| `ExecTimer.LimitIsKept` | ext/oxphp_fiber.c:6257-6413 | in every run from where a request is begun under a limit or sets one: no timeout before limit times 10^9 nanoseconds have passed, one on every entry after that until it is answered, none after a drain kill, and the engine names that limit |
| `ExecTimer.SliceIsTimed` | ext/oxphp_fiber.c:6270-6345 | within a slice the timer runs out at the deadline, later by no more than passed before it was armed |
| `ExecTimer.BaselineIs` | ext/oxphp_fiber.c:6294-6413 | every request begins under the limit the boot ran under |
| `ExecTimer.KilledIs` | ext/oxphp_fiber.c:6302-6345 | a drain's mark stays with its request and is nobody else's |
| `ExecTimer.TimeoutsAreTheRequestsOwn` | ext/oxphp_fiber.c:6257-6413 | in every run the timer is armed only in the slice of the request whose deadline it carries, and a timeout is raised in no other |
| `ExecTimer.ElapsedIsRaisedOnEntry` | ext/oxphp_fiber.c:6302-6345 | a deadline that has run out is raised as its request next runs, and dropped exactly under a drain kill |
| `ExecTimer.UnansweredIsDue` | ext/oxphp_fiber.c:6347-6382 | one that ran out in a slice and was not answered is due as the slice ends, also when the signal was dropped on disarm |
| `ExecTimer.ElapsedIsNotLost` | ext/oxphp_fiber.c:6302-6382 | from the end of a slice through any run to the next one: a deadline is raised there exactly if it has run out unanswered and no drain kill came |
| `ExecTimer.AnswerTakesOne` | ext/oxphp_fiber.c:6347-6382 | an answer takes one raised deadline, never two |
| `ExecTimer.RunKeepsInv` | ext/oxphp_fiber.c:6294-6413 | the clocks agree in every run with a plain account of deadlines owed |
| `ExecTimer.TakenForElapsedIff` | ext/oxphp_fiber.c:6347-6382 | a deadline still ahead is filed as due exactly where there is no timer |
| `ExecTimer.TimerIsNeeded` | ext/oxphp_fiber.c:6347-6382 | a state without a timer where it happens, which no run with a timer comes to |
| `ExecTimer.DeadlineFits` | ext/oxphp_fiber.c:6257-6268 | nanoseconds stay in 64 bits |
| `ExecTimer.ThreadTimer.Set` | ext/oxphp_fiber.c:6270-6292 | arms or disarms and says what was left |
| `ExecTimer.ThreadTimer.Enter` | ext/oxphp_fiber.c:6302-6345 | the switch into a request |
| `ExecTimer.ThreadTimer.Leave` | ext/oxphp_fiber.c:6347-6382 | the switch out of it |
| `ExecTimer.ThreadTimer.ChangeLimit` | ext/oxphp_fiber.c:6384-6399 | a limit changed inside a slice |
| `FiberLists.IdSource.Take` | ext/oxphp_fiber.c:4397 | no id is handed out twice |
| `FiberLists.Fiber.ClearSuspend` | ext/oxphp_fiber.c:4363-4373 | no reference to a descriptor outlives a suspension |
| `FiberLists.Scheduler.constructor` | ext/oxphp_fiber.c:1833-1837 | both lists empty |
| `FiberLists.Scheduler.Append` | ext/oxphp_fiber.c:4434-4442 | the doubly linked list with the fiber last |
| `FiberLists.Scheduler.Unlink` | ext/oxphp_fiber.c:6717-6722 | the doubly linked list without the fiber, the others in order |
| `FiberLists.Scheduler.Pick` | ext/oxphp_fiber.c:4385-4395 | a spare fiber before a new one |
| `FiberLists.Scheduler.Create` | ext/oxphp_fiber.c:4377-4445 | one more active fiber under an unused id, lists well formed, disjoint and counted |
| `FiberLists.Scheduler.Spawn` | ext/oxphp_fiber.c:7993-8059 | the same for a task, refused exactly at capacity with nothing changed |
| `FiberLists.Scheduler.Retire` | ext/oxphp_fiber.c:6713-6730 | off the active list and first on the spare one, completed and with no descriptor |
| `FiberLists.Scheduler.Find` | ext/oxphp_fiber.c:8435-8438 | the walk finds the fiber of an id if and only if it is active |
| `FiberLists.Scheduler.PollCompleted` | ext/oxphp_fiber.c:8332-8363 | the first completed task, or none exactly when none is |
| `FiberLists.Scheduler.Release` | ext/oxphp_fiber.c:8429-8462 | recycles exactly an active, completed fiber; otherwise changes nothing |
| `FiberLists.Scheduler.Cancel` | ext/oxphp_fiber.c:8464-8477 | known if and only if active, and no other is asked |
| `FiberLists.Scheduler.FreeActive` | ext/oxphp_fiber.c:2681-2686 | the active fibers in order, none read after it was freed |
| `FiberLists.Scheduler.FreeSpare` | ext/oxphp_fiber.c:2690-2697 | the spare fibers in order, none read after it was freed |
| `FiberLists.Scheduler.Destroy` | ext/oxphp_fiber.c:2666-2701 | session holder, other active fibers, spare fibers; both lists left empty |
| `FiberLists.EachFreedOnce` | ext/oxphp_fiber.c:2666-2701 | that order frees every fiber of either list once |
| `Isolation.RoundTrip` | ext/oxphp_fiber.c:4668-5118 | whatever stood on the thread, what is put back is what was taken, beside the environment as it stands |
| `Isolation.FindsWhatItLeft` | ext/oxphp_fiber.c:6466-6554 | for every schedule and any code between, a resumed request finds output, errors, shutdown functions, arrays, names, headers, body and flags as it left them, the absent absent |
| `Isolation.StepConserves` | ext/oxphp_fiber.c:4668-5118 | each step's references: held before and taken equal held after, given up and lost |
| `Isolation.RunAccounts` | ext/oxphp_fiber.c:4668-5118 | over every run each reference taken was given up, is held, or is lost |
| `Isolation.ExactlyOnePlace` | ext/oxphp_fiber.c:4668-5118 | an object with one reference outstanding is on the thread or with one fiber, never both |
| `Isolation.RunLosesIff` | ext/oxphp_fiber.c:5074-5088 | a run loses a reference exactly if a step finds a registry or upload hash standing, or tears down what it does not release |
| `Isolation.TimelyRunLosesNothing` | ext/oxphp_fiber.c:5074-5088 | with no registration outside a request the registry is empty at every resume |
| `Isolation.RegisteredBetweenSlices` | ext/oxphp_fiber.c:5074-5088 | a registration between slices breaks the resume's assertion |
| `Isolation.AdmitConserves` | ext/oxphp_fiber.c:6108-6186 | what a new request starts from and what is given up for it |
| `Isolation.EveryRequestStartsClean` | ext/oxphp_fiber.c:6108-6186 | after any run a new request has status 200, no headers, no last error, no body and no arrays but the environment's, the same as any other that starts |
| `Isolation.EndLeavesNone` | ext/oxphp_fiber.c:6658-6711 | an ended request leaves its body, its arrays and what a script reads of them to nobody |
| `Isolation.EndConserves` | ext/oxphp_fiber.c:6658-6711 | what an ended request leaves and gives up |
| `Isolation.GivenUpCounts` | ext/oxphp_fiber.c:4933-5066 | the releases of a resume, in order, are what the account says |
| `Isolation.Thread.TakeSlots` | ext/oxphp_fiber.c:4776-4782 | five arrays leave, the environment's stays |
| `Isolation.Thread.PutSlots` | ext/oxphp_fiber.c:4932-4939 | five arrays come back over what stands, which is released |
| `Isolation.Thread.CopySymbols` | ext/oxphp_fiber.c:4794-4804 | six entries are copied, an absent one as absent |
| `Isolation.Thread.PutSymbols` | ext/oxphp_fiber.c:4957-4973 | six entries come back, an absent one deleted |
| `Isolation.Thread.Save` | ext/oxphp_fiber.c:4668-4869 | the whole save |
| `Isolation.Thread.Restore` | ext/oxphp_fiber.c:4871-5118 | the whole restore, with what it releases in order |
| `FilterStorage.OwnOrEmpty` | ext/oxphp_fiber.c:4504-4537 | with no reset refused, no request runs on storage another one filled |
| `FilterStorage.KeepsItsOwnIff` | ext/oxphp_fiber.c:4925-4927 | a resumed request has its storage as it left it if nobody reset it, and none otherwise |
| `FilterStorage.StartIsCleanIff` | ext/oxphp_fiber.c:4504-4537 | a start is clean exactly if no reader is up or nothing of another's stands |
| `FilterStorage.ResumeIsCleanIff` | ext/oxphp_fiber.c:4925-4927 | and a resume |
| `FilterStorage.ReaderLeaks` | ext/oxphp_fiber.c:4508-4520 | a parked reader hands the next request its input |
| `FilterStorage.Storage.ResetStorage` | ext/oxphp_fiber.c:4504-4537 | unless refused, nothing is left to read and no parked request goes with the generation |
| `FilterStorage.Storage.Begin` | ext/oxphp_fiber.c:5150-5157 | a new request has none of another's exactly if no reader keeps it; the invariant is kept if none does |
| `FilterStorage.Storage.Suspend` | ext/oxphp_fiber.c:4864-4868 | the invariant is kept and the storage is the parked request's under its mark |
| `FilterStorage.Storage.Continue` | ext/oxphp_fiber.c:4925-4927 | a resumed request runs on its own or on none exactly if no reader keeps another's, and finds what it left if its generation stands |
| `IniTravel.EverySliceSeesItsOwn` | ext/oxphp_fiber.c:3242-3316 | in every run a slice has startup's travelling directives overlaid by its own request's changes only |
| `IniTravel.NamesAre` | ext/oxphp_fiber.c:2820-2879 | which directives are the worker's and which travel, by name and handler |
| `IniTravel.ParkMovesExactly` | ext/oxphp_fiber.c:3102-3140 | in every run a park puts back exactly those that travel, and takes along exactly those of them that differ from startup's value |
| `IniTravel.ParkAndResume` | ext/oxphp_fiber.c:3242-3316 | park and resume are the identity on that view whatever ran between |
| `IniTravel.EndPutsBack` | ext/oxphp_fiber.c:3353-3359 | the last request out leaves startup's values but for the worker's own; any request's end leaves the travelling ones so |
| `IniTravel.WorkerScopedStays` | ext/oxphp_fiber.c:2820-2825 | what the worker keeps moves on no park, resume or end |
| `IniTravel.Thread.constructor` | ext/oxphp_fiber.c:3242-3245 | startup's values, nothing modified |
| `IniTravel.Thread.TakeEntry` | ext/oxphp_fiber.c:3102-3140 | one entry kept if changed, and put back if it moves |
| `IniTravel.Thread.RunPass` | ext/oxphp_fiber.c:3176-3222 | the pass over the modified set, in any order |
| `IniTravel.Thread.ApplyKept` | ext/oxphp_fiber.c:3283-3316 | kept values go back on, each remembering the value it replaces |
| `IniTravel.Thread.StartRequest` | ext/oxphp_fiber.c:3592-3600 | a request starts after a sweep |
| `IniTravel.Thread.ParkRequest` | ext/oxphp_fiber.c:3242-3245 | a park keeps and puts back |
| `IniTravel.Thread.ResumeRequest` | ext/oxphp_fiber.c:3283-3316 | a resume sweeps and applies |
| `IniTravel.Thread.EndRequest` | ext/oxphp_fiber.c:3353-3359 | an end puts back all it may |
| `PutEnv.EnvironmentIs` | ext/oxphp_fiber.c:3388-3473 | in every run the environment is boot's overlaid by the settings that stand |
| `PutEnv.EndLeavesOthersOnly` | ext/oxphp_fiber.c:3454-3473 | as a request ends, what differs from boot is another's still in flight |
| `PutEnv.ReleaseLeavesBoot` | ext/oxphp_fiber.c:3401-3408 | after the release the environment is what boot left |
| `PutEnv.RunKeepsInv` | ext/oxphp_fiber.c:3388-3473 | every entry's undo value is boot's |
| `PutEnv.SettingIs` | ext/oxphp_fiber.c:3415-3418 | a setting's name and value are recovered from it |
| `PutEnv.FindEquals` | ext/oxphp_fiber.c:3415-3418 | the scan for the first equals sign |
| `PutEnv.Scheduler.constructor` | ext/oxphp_fiber.c:3388-3393 | serving starts from boot's environment with an empty table |
| `PutEnv.Scheduler.SetVariable` | ext/oxphp_fiber.c:3410-3430 | a putenv() and the note taken of it, failing ones included |
| `PutEnv.Scheduler.Note` | ext/oxphp_fiber.c:3420-3430 | the owner is recorded, or forgotten outside every request and on failure |
| `PutEnv.Scheduler.EndEntry` | ext/oxphp_fiber.c:3462-3471 | one entry kept if another's in flight, destroyed otherwise |
| `PutEnv.Scheduler.EndRequest` | ext/oxphp_fiber.c:3454-3473 | the walk over the table |
| `PutEnv.Scheduler.Release` | ext/oxphp_fiber.c:3401-3408 | the table destroyed |
| `BodyOwnership.EndReleasesIff` | ext/oxphp_fiber.c:6658-6659 | over every run, records had or not: the end closes a body once exactly if it is open, claimed and not forgotten, destroys a hash once exactly if it was made and not overwritten, and gives back every reference |
| `BodyOwnership.EndReleasesOnce` | ext/oxphp_fiber.c:2347-2392 | where records can be had and a call keeps the hash that stands, every claimed body still open and every hash, once each |
| `BodyOwnership.SupersedeKeepsBoth` | ext/oxphp_fiber.c:2347-2379 | a call with a record to be had keeps the body and the hash that stand, and the parse that follows overwrites none |
| `BodyOwnership.ClosesBodiesOnly` | ext/oxphp_fiber.c:2255-2282 | over every run, what a claim closes was made as a body, never a stream at a reused address; no stream is closed and no hash destroyed twice |
| `BodyOwnership.ReadHookReadsNothing` | ext/oxphp_fiber.c:1945-1980 | the read hook reads through no address that may be stale |
| `BodyOwnership.NewBodyIs` | ext/oxphp_fiber.c:1945-1980 | a new body becomes the claim exactly if none stands or the claimed one is open |
| `BodyOwnership.BodyGoesUnclaimed` | ext/oxphp_fiber.c:1955-1963 | a run in which the script has closed the claimed body and the next one goes unclaimed |
| `BodyOwnership.RunKeepsInv` | ext/oxphp_fiber.c:1895-2392 | in every run what is held was claimed as a body and is kept once, with one reference for each place |
| `BodyOwnership.RunHolds` | ext/oxphp_fiber.c:1895-2392 | in every run held is exactly what was claimed and not forgotten, and made and not overwritten |
| `BodyOwnership.UnkeptHashIsLost` | ext/oxphp_fiber.c:2347-2367 | a run in which a hash whose record could not be had is lost to the next parse |
| `BodyOwnership.ForgottenBodyIsLeft` | ext/oxphp_fiber.c:1959-1979 | a run in which a body replaced without a record stays open and is closed by nobody |
| `BodyOwnership.Thread.LiveBody` | ext/oxphp_fiber.c:1895-1900 | the stream behind a resource, while there is one |
| `BodyOwnership.Thread.DropRef` | ext/oxphp_fiber.c:1908-1913 | one reference given back, nothing closed |
| `BodyOwnership.Thread.Unkept` | ext/oxphp_fiber.c:2317-2328 | the walk for what is kept already |
| `BodyOwnership.Thread.KeepParse` | ext/oxphp_fiber.c:2317-2345 | kept once each; refused exactly if a record is needed and cannot be had |
| `BodyOwnership.Thread.Adopt` | ext/oxphp_fiber.c:1945-1980 | the claim taken, moved or left |
| `BodyOwnership.Thread.SupersedeParse` | ext/oxphp_fiber.c:2347-2379 | what stands is kept and a dead claim cleared, unless a record is needed and cannot be had |
| `BodyOwnership.Thread.ReleaseBody` | ext/oxphp_fiber.c:2255-2282 | closed through the claim, if anything is behind it |
| `BodyOwnership.Thread.ReleaseRecord` | ext/oxphp_fiber.c:2394-2412 | one record, what is current left to its owner |
| `BodyOwnership.Thread.EndRequest` | ext/oxphp_fiber.c:5363-5381 | the records and then what is current |
| `Verdict.CancelledIff` | ext/oxphp_fiber.c:4112-4148 | for every request: filed as cancelled exactly if a claim stands, a deadline ended the first window to fail, or another cancellation interrupted it; a refusal counts from where the ended fiber stops |
| `Verdict.EarlierFailureStands` | ext/oxphp_fiber.c:4027-4050 | whatever follows a failure that is filed, every mark and the outcome come out as if no deadline had run out since |
| `Verdict.HandlerFailureStands` | ext/oxphp_fiber.c:3916-3966 | a handler that came apart before its deadline is filed as if it had none, claims and cancellations included |
| `Verdict.ShutdownFailureStands` | ext/oxphp_fiber.c:4027-4038 | and so is a shutdown function |
| `Verdict.RefusedRequestIff` | ext/oxphp_fiber.c:1614-1676 | a request ended for refusals whose fiber stops after all its windows has failed, and is neutral exactly where a drain, a claim, another cancellation or a deadline in any window would make it so |
| `Verdict.LaterDeadlineExcusesRefusal` | ext/oxphp_fiber.c:4027-4038 | the handler is ended so, a shutdown function runs out of time, and the request is neutral |
| `Verdict.RefusalIsExcusedIff` | ext/oxphp_fiber.c:1671-1676 | in a window where the ended fiber parks again, the refusal is excused exactly by a deadline that ends that window before the flush |
| `Verdict.RefusalExcused` | ext/oxphp_fiber.c:3916-3937 | a request where it happens |
| `Verdict.OutcomeIs` | ext/oxphp_fiber.c:6595-6641 | for every request, when it counts as failed, as clean and as neither, read off what happened in it |
| `Verdict.FirstFailureIsNamed` | ext/oxphp_fiber.c:3500-3512 | the failure that is named is the first window to bail out, the flush left out |
| `Verdict.CounterIs` | ext/oxphp_fiber.c:6595-6641 | the counter is the number of counted failures since the last clean request |
| `Verdict.NeutralIsIgnored` | ext/oxphp_fiber.c:6595-6641 | neutral requests neither add nor clear |
| `Verdict.RetiresIff` | ext/oxphp_sapi.c:6884 | the breaker trips exactly when the last three requests that say anything failed |
| `Verdict.Fiber.constructor` | ext/oxphp_fiber.c:4403-4411 | no mark stands at first |
| `Verdict.Fiber.Recover` | ext/oxphp_fiber.c:1098-1111 | a report raised while frames are given back stands only with a fatal |
| `Verdict.Fiber.FileBailout` | ext/oxphp_fiber.c:3500-3512 | a bailout is a failure, and a cancellation if the deadline had run out and nothing had failed |
| `Verdict.Fiber.RunEarly` | ext/oxphp_fiber.c:4027-4050 | a window before the flush |
| `Verdict.Fiber.AnswerClaim` | ext/oxphp_fiber.c:4112-4117 | the claim is answered once |
| `Verdict.Fiber.Flush` | ext/oxphp_fiber.c:4132-4148 | the flush fails nothing and its claim is dropped |
| `Verdict.Fiber.RunLate` | ext/oxphp_fiber.c:3500-3519 | a window past the flush |
| `Verdict.Fiber.Serve` | ext/oxphp_fiber.c:3850-4340 | the windows in their order |
| `Verdict.Breaker.Finalize` | ext/oxphp_fiber.c:6595-6641 | counted, ignored or cleared |
| `Drains.Discard` | ext/oxphp_fiber.c:1282-1296 | the slot ends empty after at most sixteen clears and one forced drop, forced exactly for a longer chain |
| `Drains.FindClosable` | ext/oxphp_fiber.c:2218-2246 | the first closable handle of the table |
| `Drains.CloseInputs` | ext/oxphp_fiber.c:2198-2250 | at most one close more than entries on entry whatever user code does, and no closable handle left if each close leaves fewer than it found |
| `Drains.RetiringProgresses` | ext/oxphp_fiber.c:2178-2196 | a close that retires its handle and opens none on the same body does |
| `Drains.Enter` | ext/oxphp_fiber.c:1707-1775 | whenever it returns the fiber is not suspended, uncompleted and without a reason; it returns exactly if the fiber ever stops so |
| `Drains.EndAfterRefusals` | ext/oxphp_fiber.c:1614-1676 | past thirty-two refusals the fiber is ended until it stops, and marked completed if it is no longer suspended |
| `AcceptLoop.LogIsBracketed` | src/main.rs:607-699 | connections never exceed permits, warnings are the interval apart, each closed by one resume line before the next |
| `AcceptLoop.ConnectionsAre` | src/main.rs:607-699 | in every run the connections with a permit or in hand are those accepted less those closed and those in hand as the loop stopped |
| `AcceptLoop.StallIsMeasured` | src/main.rs:636-697 | an accept takes a permit if there is one and parks if not; the next close hands its permit over and reports the time since that accept, exactly if the stall was reported |
| `AcceptLoop.OpenOnlyWhileParked` | src/main.rs:664-694 | a warning stands open only while the loop is parked in its stall, or was stopped there |
| `AcceptLoop.StopLeavesOpenIff` | src/main.rs:678-682 | stopping leaves one open exactly from there |
| `AcceptLoop.LongStallIsReported` | src/main.rs:640-677 | a stall that outlasts the interval has its warning, made while it was on |
| `AcceptLoop.ReportedAtOnceIff` | src/main.rs:651-656 | a stall is reported at once exactly if no warning was made within the interval |
| `AcceptLoop.Loop.constructor` | src/main.rs:607-609 | nothing warned at first |
| `AcceptLoop.Loop.OnAccept` | src/main.rs:636-677 | a connection takes a permit, or the stall is held back or reported |
| `AcceptLoop.Loop.OnTimer` | src/main.rs:659-677 | the rest of the interval is over and the stall is reported |
| `AcceptLoop.Loop.OnRelease` | src/main.rs:678-697 | the permit goes to the connection in hand and a reported stall is closed |

## Left out

- ProbeTables.Table.Reserve: refuses to grow past 2^31 slots, where the source's 32-bit doubling would wrap; no
  worker holds that many descriptors or connections.
- IoReadiness.Poller.Closed: the kernel keys a registration by descriptor and open file, so a duplicated descriptor
  outlives a close; the interest set here is keyed by descriptor alone.
- IniTravel.Thread.RunPass: every handler accepts. A handler that refuses a value, bails out or runs user code in the
  middle of a pass is not modelled.
- IniTravel.Thread.ApplyKept: as for the pass, a kept value is never refused on resume.
- PutEnv.Scheduler.SetVariable: the environment is the process's, and other threads may change it; one thread is
  modelled.
- BodyOwnership.Thread.EndRequest: what closing a stream runs of the script's own code is not modelled, nor the
  closing of php://input handles beside it, which is bounded in `Drains`.
- Isolation.Thread.Restore: what releasing a neighbour's leftovers runs of user code in the middle of a restore is not
  modelled; the parked exception capture, the stream error state of PHP 8.6 and the server's own context are left to
  the bridge, which is not part of this model.
- Isolation.Thread.Save: the URL rewriter's two records are one cell, and SID is a cell that is empty or not.
- SessionHandler.Module.Settle: the path that hands the holder's session back at the end of serving leaves its record
  as it stands; a handler moves as one record rather than field by field.
- ExecTimer.ThreadTimer.Enter: the engine's own re-arming for the hard timeout inside its timeout handler is not
  modelled.
- ExecTimer.DeadlineFits: for a clock that has been up for less than 500 years.
- FiberLists.Scheduler.Destroy: the count goes down with the holder rather than being cleared at the end only; what a
  fiber's unwind runs is not modelled.
- FiberLists.IdSource.Take: ids are unbounded; 64 bits are not exhausted.
- AcceptLoop.LongStallIsReported: a timer that is due fires before time goes on; timer granularity is not modelled.
- Drains.Enter: a fiber that suspends itself for ever keeps the loop for ever, as the source says; what it does is a
  finite sequence of stops, and running out of it is the answer `Spinning`.
- The idle backoff timer, the event loop's own order of work within a tick, and promise polling: easy members, or not
  in the files modelled.
- PHP's own internals: VM stack rewind, generators, the collector, the symbol table beyond the six names.
- The hooks in `ext/oxphp_sapi.c`, but for the three places cited, and the Rust bridge.
- Allocation failure, but for table growth and the record of a replaced parse.
- The server's listeners, TLS, plugins, signals and its drain loop.
