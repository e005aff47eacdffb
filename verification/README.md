# Eslang: a verified model of its runtime

Eslang runs Erlang-style processes as C++ coroutines in one thread. This project models the
four parts of the runtime that everything else relies on, and proves what each of them is for.

**The coroutine machine** (`Scripts`, `LateEnds`, `Coroutines`, `ProcessTasks`). A process is a
root promise and a heap-linked chain of awaited method tasks and generators. The context only
ever resumes the deepest frame; a method that ends runs its parent, and a generator that yields
after a suspension runs its consumer from inside its own yield. Bodies are finite scripts (act,
wait, call, yield, for-each). `Scripts` says what a script means with plain nested calls and a
plain pull iterator; `Coroutines` does it with promises on the heap; `ProcessTasks.RunToEnd`
shows that repeated resumes do exactly what the plain semantics says. There is one exception,
which the code does have: a generator that suspends after its last yield and then ends resumes
nobody. The resume then returns a null wait for a task that is not done, and the context, which
tests only for done, dereferences it (eslang/Context.cpp:31-41): undefined behaviour. `LateEnds`
decides from the script alone whether that happens, and `RunToEnd` completes if and only if it
does not.

**The context** (`Scheduler`, `RunLoop`, `Contexts`). `Scheduler` is the state of the context and
the steps that change it: pids with versioned tombstones, the work queue with resume stamps,
posted continuations, the deferred destroys, kill links, death notices, mailboxes and throttled
sends. What a process does when it is resumed is any list of commands. `RunLoop` composes the
steps into the run loop, and `Contexts` is the context in its own form, a class that updates its
fields, each method of which is proved to do what `RunLoop` says. `Effects` and `Commands` say what
each command of a body, each resume, each item of the queue and each callback does, in terms of
what can be observed, and `Outcomes` what that leads to over whole runs. `PidTable`, `Links`,
`Stamps`, `Delivery`, `Conservation`, `BackPressure`, `Throttles` and `Futures` hold one invariant
each and prove that every step keeps it; `Runs` puts them together for every step of every run, and
`LostWakeups` follows the senders that share a mailbox through a run.

**Promises and mailboxes** (`Mailboxes`). The re-armable one-shot promise with its single
continuation, and the queue with its throttle threshold, as classes proved against functions
that the context uses.

**The socket process** (`Sockets`, `SocketEvents`, `SocketProcesses`). One reader, one writer and one
promise that both signal, against an environment that completes reads and writes, delivers messages
and runs posted continuations in any order.

Where a claim of the code's comments is not quite what the code does, the code is followed:

- A generator "just runs the parent" on a yield, but nothing runs the parent at its end
  (eslang/ProcessTask.h:157-203); see `LateEnds` and `ProcessTasks.LateEndIsLost`.
- A promise holds one continuation, and a second registration overwrites the first
  (eslang/Future.h:93-98). So with two senders that wait for room in one mailbox a wake-up gets
  lost: `LostWakeups.LostExactly` says exactly when, `LostWakeups.LostForEver` that the sender is
  then never resumed, and `LostWakeups.OneIsLost` is a run in which it happens.
- The socket loop takes a message from each of its two slots but writes only one
  (eslang_io/Tcp.cpp:214-223); `Sockets.DropsExactly` and `Sockets.BothSlotsLose`.

## Model

| member | source | states |
|---|---|---|
| Scripts.ForEachIsPullLoop | eslang/ProcessTask.h:295-341 | draining a generator event by event is a loop that pulls until the next yield: the consumer gets exactly the yielded values, in order, each before the next is asked for, then one false |
| Scripts.CallInlines | eslang/ProcessTask.h:228-242 | awaiting a method task does what its statements would do in its place: it gets the caller's value and leaves its result to the caller |
| Scripts.ForEachOfNothing | eslang/ProcessTask.h:295-341 | a generator starts with the consumer's value; one that yields nothing is run for what it does, and then gives one false |
| Scripts.ForEachOfYield | eslang/ProcessTask.h:295-341 | what a generator does before a yield is done when it is pulled, the loop body gets the value, and the loop goes on with the rest of the generator, whose own variable the body does not touch |
| LateEnds.AnalysisExact | eslang/ProcessTask.h:157-203 | the check of a script, which does not run it, tells for every input whether some generator suspends between its last yield and its end |
| Coroutines.AppendMeans | eslang/ProcessTask.h:114-136 | the code compiled from a body means what the body means, then what follows it |
| Coroutines.WrapPrefix | eslang/ProcessTask.h:157-186 | whatever an awaited coroutine does before its next yield is what the whole chain above it does next |
| Coroutines.ForEachMeans | eslang/ProcessTask.h:322-338 | a for-each over a generator just created means the loop that pulls that generator |
| Coroutines.UpdateProcessPromise | eslang/ProcessTask.cpp:7-19 | the walk down a chain ends, attaches every frame to the process and leaves the last one to be resumed next |
| Coroutines.UpdateSuspend | eslang/ProcessTask.cpp:22-38 | suspending links child and parent both ways, and attaches a chain that was not attached as its parent is |
| Coroutines.SuspendOn | eslang/ProcessTask.h:239-242 | the chain of a body and the chain it awaits become one chain at rest, with the deepest frame known to the process if it is attached |
| Coroutines.AwaitSuspend | eslang/IWaiting.h:27-34 | a wait that is not ready puts the whole chain at rest on its last frame, which is the next to be resumed |
| Coroutines.StartCall | eslang/ProcessTask.h:228-242 | a method task awaited where it is started does what a plain call does, whether it completes eagerly or suspends |
| Coroutines.PullFrom | eslang/ProcessTask.h:274-298 | one pull of a generator and the rest of its for-each do what the pull iterator does |
| Coroutines.LetGo | eslang/ProcessTask.h:168-183 | a yield clears the wait and unlinks generator and consumer, so that the generator can be pulled again from inside |
| Coroutines.YieldValue | eslang/ProcessTask.h:162-195 | a yield gives its value to the consumer that called, or runs the suspended consumer by stack inversion; either way what follows is what the pull iterator does next |
| Coroutines.Finish | eslang/ProcessTask.h:123-134 | the end of a method hands its value to its parent; a generator whose consumer is suspended on it is lost, and what it would have done next is the false after a late end |
| Coroutines.Execute | eslang/ProcessTask.h:162-203 | a resumed frame does a prefix of what its chain still had to do, up to the next wait, yield or end, and leaves the links of the chain in order |
| ProcessTasks.ProcessTask.Resume | eslang/ProcessTask.cpp:62-80 | returns a wait exactly when the process suspended: children and parents are then inverse along a chain without repetition, every frame below the root carries the process, the next child is the last frame, and its wait is the one returned; otherwise the process is done and did all it had to do, or it is not done, lost at a late end |
| ProcessTasks.RunToEnd | eslang/ProcessTask.cpp:62-80 | for every script: the process completes if and only if no generator ends late, its acts and waits are then those of plain nested calls and pull iterators in the same order; otherwise the resume that comes to the first late end returns no wait though the process is not done |
| ProcessTasks.LateEndIsLost | eslang/ProcessTask.h:196-198 | a for-each over a generator that only waits is such a script |
| Mailboxes.AllPosted | eslang/Future.h:66-109 | over any use of a promise, every continuation registered is posted exactly once, in order, or still held, if and only if nobody registers over one still held |
| Mailboxes.GuardKept | eslang/Slot.h:31-56 | a mailbox that holds a continuation is full and its promise unset, and pushing, popping and processing drop nothing |
| Mailboxes.EslangPromise.Process | eslang/Future.h:73-82 | rethrows a stored exception and leaves the promise as it is, or else clears it |
| Mailboxes.EslangPromise.SetContinuation | eslang/Future.h:93-98 | posts at once if the promise is set, else holds the continuation in place of any earlier one |
| Mailboxes.MessageQueue.PushBack | eslang/Slot.h:31-37 | adds the message behind all others, in either representation |
| Mailboxes.MessageQueue.PopFront | eslang/Slot.h:44-56 | takes the oldest message, and signals the promise exactly when nine are left |
| PidTable.TableKept | eslang/Context.cpp:92-136 | every step keeps each index live or tombstoned with the newest pid issued for it, and each pid issued in the table, doomed or destroyed, and only one of these |
| Runs.PidsAtEveryStep | eslang/Context.cpp:119-136 | at every step of every run an index is in the table or has one tombstone, never both, and the next pid was never issued before |
| PidTable.GoneForGood | eslang/Context.cpp:92-102 | no step brings back into the table a pid that has left it |
| Runs.GoneInEveryRun | eslang/Context.cpp:92-102 | a pid that has left the table is in it at no later step of the run, so no stale address, resume item or link reaches a later process of its index |
| PidTable.FindProcExact | eslang/Context.cpp:92-102 | comparing only the version finds exactly the process with that pid |
| PidTable.LoopEnds | eslang/Context.cpp:164 | as many tombstones as indices means that no process is in the table, and conversely |
| Links.LinksKept | eslang/Context.h:64-72 | every step keeps that while one process is in the table, whoever was linked to take it along exists and names it (what is linked: `Effects.LinkMeans`, `Effects.SpawnMeans`) |
| Links.LinkedTogether | eslang/Context.h:139-155 | where nothing awaits destruction, whoever was linked to take another along is in the table if that other is; if each was to take the other, both are or neither |
| Links.DrainExact | eslang/Context.cpp:104-136 | draining ends, and removes exactly the live processes that kill links reach from the doomed ones, neither more nor fewer |
| Effects.LinkMeans | eslang/Context.h:64-72 | a link makes each of the two take the other along, links nobody else and changes nothing else |
| Effects.SpawnMeans | eslang/Context.h:84-95 | a spawn makes one new process, at the index of the last tombstone one version on or else at a new index, queues its first resume, and links it with its parent as asked and with nobody else |
| Commands.LinkToMeans | eslang/Context.h:64-72 | the body that links with a live process goes on with both linked |
| Commands.SpawnsMeans | eslang/Context.h:139-155 | `spawn` links nobody, `spawnLink` parent and child both ways, `spawnLinkNotify` the child to its parent, and the child notifies the given address |
| Outcomes.LinkedEverAfter | eslang/Context.h:64-72 | in every run: once a body has linked with a live process, the two are both in the table or both gone whenever nothing awaits destruction, for ever |
| Outcomes.SpawnedEverAfter | eslang/Context.h:139-155 | in every run: so are parent and child after `spawnLink`; after `spawnLinkNotify` the child dies with its parent, and when it is gone it has sent one notice to the given address |
| RunLoop.DestroyPending | eslang/Context.cpp:176-181 | each destroy brings live processes and pending destroys together down by one |
| Stamps.StampsKept | eslang/Context.cpp:29-61 | every step keeps the stamps of queue items and continuations right |
| Runs.WakeupsAtEveryStep | eslang/Context.cpp:41-42 | at every step of every run a live process has one item with its pid and resume count in the queue if it has not started or is yielding, none if not, and so never two |
| Stamps.CountsGrow | eslang/Context.cpp:26-30 | each step that resumes a process adds exactly one to its resume count, no other step changes a count, and a wait is only changed by the process itself |
| Runs.StaleInEveryRun | eslang/Context.cpp:54-61 | in every run, an item or continuation made at some step has no effect at any step after its process was resumed again or left the table |
| Stamps.ContinuationMeets | eslang/Context.cpp:54-61 | a continuation that is not stale finds its process waiting for a promise |
| Futures.AwaitedKept | eslang/Context.cpp:54-61 | every step keeps that whoever waits for a promise outside has one continuation, there or posted, and none in a mailbox |
| Outcomes.AwaitedAtEveryStep | eslang/Context.cpp:54-61 | at every step of every run, whoever waits for a promise outside, alone or with slots, has exactly one continuation with its resume count, held there or posted |
| Outcomes.SetWakes | eslang/Future.h:93-109 | so it can be woken: setting the promise posts the continuation, and running that resumes the body from its wait |
| Commands.WaitMeans | eslang/Context.cpp:41-61 | a body that yields is queued behind everything with its resume count; one that awaits a promise leaves its continuation there; one that sleeps leaves nothing |
| Commands.RouseMeans | eslang/Context.cpp:15-30 | a resume counts once, keeps the letter of a `sendThrottled`, and changes no contents and nobody else's wait |
| Commands.WakeMeans | eslang/Context.cpp:45-61 | a posted continuation, or the timer of a process that sleeps, resumes that process unless it is dead or was resumed since |
| Commands.ElseMeans | eslang_io/Tcp.cpp:268-276 | what else a callback does: sets a promise, sends, spawns, or spawns a process that dies with a listener |
| Stamps.OnlyOneRuns | eslang/Context.cpp:15-41 | no two live processes have a body that runs at once |
| Effects.TakeAllMeans | eslang/Waiting.h:104-122 | a receive takes the oldest message of every listed slot that has one, in the order of the slots, and touches no other mailbox |
| Commands.ReceiveMeans | eslang/Waiting.h:84-122 | a receive takes so and goes on if any of its slots has a message, and else waits on them, and for its promise if it has one |
| Commands.GoOnMeans | eslang/Waiting.h:118-148 | so does a resumed receive; a plain one raises if it finds nothing; a resumed `sendThrottled` comes to its test again |
| Outcomes.ReceivedEverAfter | eslang/Waiting.h:104-122 | in every run, what a receive finds in its slots has been received, in their order, at every later state |
| Delivery.ReceiversKept | eslang/Waiting.h:84-128 | every step keeps that whoever is suspended on a set of slots has nothing in any of them |
| Runs.ReceiversAtEveryStep | eslang/Waiting.h:124-127 | so it is at every step of every run |
| Commands.ItemMeans | eslang/Context.cpp:147-160 | the first item is taken off the queue: a letter is delivered, resuming who waits for it, or dropped if its process is gone; a resume is obeyed, or dropped if stale |
| Commands.KillMeans | eslang/Process.cpp:10 | `queueKill` takes a live process out of the table to be destroyed, and does nothing to any other |
| Commands.EndsMeans | eslang/Context.cpp:31-38 | a body that ends, throws, or cannot obey a command is destroyed |
| Commands.SendMeans | eslang/Context.h:171-175 | `send` puts its letter behind everything in the queue at once; awaited, it then yields if and only if more than ten items are queued |
| Outcomes.SentEverAfter | eslang/Context.h:171-175 | in every run, what `send` sends has been sent, at its place in the order, at every later state |
| Outcomes.FirstInFirstOut | eslang/Context.cpp:164-169 | n rounds of the loop take up the first n items of the queue and leave the others in order, before all that is queued since |
| Outcomes.PrepareMeans | eslang/Context.h:45-62 | the processes spawned before the loop is entered start in that order, each with its mailboxes |
| Conservation.MailKept | eslang/Context.cpp:142-160 | every step keeps, for each address of a live process: messages received, then those in the mailbox, then those in the queue, are those sent, in order |
| Conservation.NoticesKept | eslang/Context.cpp:114-116 | every step keeps that each destroyed process has sent one notice to each address it was to notify, and no other has sent any |
| Commands.ThrottledMeans | eslang/Context.h:158-162 | `sendThrottled` yields first, with its letter pending, if and only if more than ten items are queued |
| Commands.ThrottleMeans | eslang/Context.h:162-168 | it then waits if and only if the receiver is live and its mailbox holds ten messages or more; otherwise its letter is queued, once, and the body goes on |
| Outcomes.SentAsBegun | eslang/Context.h:157-169 | in every run, as long as a process lives: the letters of the `sendThrottled` it has begun are those these have sent, each once and in order, and then the one it is still in |
| BackPressure.PressureKept | eslang/Context.h:157-169 | every step keeps the bounds on the queue, the blocked and the yielding senders of each address that only awaited throttled sends use |
| BackPressure.PressurePasses | eslang/Context.h:159-162 | a sender that finds at most ten items in the queue keeps those bounds, whatever is queued already |
| BackPressure.PressureYields | eslang/Context.h:159-161 | so does one that yields instead, as what is ahead of it is counted |
| BackPressure.BackPressureBound | eslang/Context.h:22-34 | an address that is only sent to by awaited throttled sends from k processes never has more than 19 + k messages in its mailbox and the queue together |
| Throttles.ThrottlesKept | eslang/Context.h:162-166 | every step keeps that the continuation of the only sender waiting for room is held by the mailbox or posted, and that no waiting sender has one anywhere else |
| Throttles.CarriedOn | eslang/Slot.h:44-56 | every step but that of a sender coming to wait keeps every continuation held or posted, but the one it runs, and brings forth none but that of the process it suspends |
| Throttles.NoLostWakeup | eslang/Slot.h:44-56 | a sender whose continuation is held or posted has its wake-up posted if the mailbox has room; if not posted, the promise is unset and holds it |
| Throttles.KnownExactly | eslang/Future.h:93-98 | whatever step the context takes, with any number of senders: the continuation of a sender that waits for room stays held or posted if and only if no other sender comes to wait there while it is not posted |
| Throttles.LostStays | eslang/Context.h:162-166 | no step resumes a sender whose continuation is lost, or finds the continuation again |
| Runs.InvKept | eslang/Context.cpp:162-187 | every step of the context keeps all invariants |
| Runs.GoesOn | eslang/Waiting.h:142-148 | a plain receive that is resumed finds its message and does not raise |
| Runs.EveryRun | eslang/Context.cpp:162-187 | at the top of the loop, after any run from any start, all invariants hold, no body runs and nothing awaits destruction |
| Runs.RoundIsSteps | eslang/Context.cpp:162-187 | a run of the loop is a sequence of enabled steps to the top of every round, and on through each callback and each destroy of the round, so that what holds at every step holds there |
| Runs.KilledInEveryRound | eslang/Context.cpp:176-181 | in every run, a round removes exactly the live processes that kill links reach from those doomed in it |
| Runs.LinkedInEveryRun | eslang/Context.cpp:176-181 | the same at the top of the loop in every run |
| Runs.ConservedAtEveryStep | eslang/Context.cpp:142-160 | at every step of every run no message is lost, duplicated or reordered on its way to a live process |
| Runs.ConservedInEveryRun | eslang/Waiting.h:142-148 | the same at the top of the loop, and no plain receive ever raised that its message was not ready |
| Runs.RunReturns | eslang/Context.cpp:164-181 | the loop stops exactly when no process is in the table; every process ever spawned has then been destroyed exactly once and has sent its notices |
| Runs.BoundedAtEveryStep | eslang/Context.h:157-169 | the bound of 19 + k at every step of every run |
| Runs.WokenAtEveryStep | eslang/Context.h:162-166 | no lost wake-up of a lone throttled sender at any step of any run |
| LostWakeups.LostExactly | eslang/Context.h:162-166 | in every run, with any number of senders: from the moment a sender comes to wait for room until it is resumed or dies, its continuation is held or posted, and posted if there is room, if and only if no other sender has come to wait there while it was not posted |
| LostWakeups.LostForEver | eslang/Context.h:162-166 | in every run, a sender whose continuation is lost is never resumed again |
| LostWakeups.OneIsLost | eslang/Context.h:162-166 | a run with two senders at one mailbox that has room, the first of which is lost for ever |
| Contexts.Context.FindProc | eslang/Context.cpp:92-102 | finds the process exactly if it is in the table |
| Contexts.Context.AddToDestroy | eslang/Context.cpp:129-136 | moves a live process out of the table and leaves a tombstone, and does nothing for any other pid |
| Contexts.Context.Spawn | eslang/Context.h:84-95 | puts the new process at the next pid and queues its first resume |
| Contexts.Context.ThrottleLoop | eslang/Context.h:162-167 | each round of the throttled send does what the model's does (`Commands.ThrottleMeans`): it waits for the mailbox or sends |
| Contexts.Context.ResumeTask | eslang/Context.cpp:15-66 | a resume does nothing to a dead process, and else does what the run loop of the model says (`Commands.RouseMeans`, `Commands.GoOnMeans`) |
| Contexts.Context.Receive | eslang/Context.cpp:68-78 | a push resumes at once the process that waited for the slot, and only that one |
| Contexts.Context.ProcessQueueItem | eslang/Context.cpp:147-160 | takes the first item off the queue and does exactly what it asks for |
| Contexts.Context.DestroyFront | eslang/Context.cpp:104-117 | dooms those the process takes along, sends its notices, posts what its mailboxes hold and forgets it |
| Contexts.Context.Run | eslang/Context.cpp:162-187 | returns exactly when every index is tombstoned, after the rounds that the model's loop makes |
| Contexts.Launch | eslang/Context.cpp:162-187 | when the loop of a whole run returns, every process ever spawned has been destroyed, once |
| SocketEvents.EverythingRecorded | eslang_io/Tcp.cpp:139-190 | in every run the process has read exactly the chunks that came and was sent exactly the messages that came, in order; it knows of EOF, and of an error, if and only if there was one; and each write but one outstanding is over |
| SocketEvents.NoWriteAfterError | eslang_io/Tcp.cpp:208-224 | in every run, nothing is written after an error |
| SocketEvents.EndsNext | eslang_io/Tcp.cpp:201-226 | in every run, after an error the next resume from the promise or by a message fails, and after EOF without error the next resume ends; a send that is done leaves no chunk pending |
| Sockets.ReadsForwarded | eslang_io/Tcp.cpp:139-170 | chunks are forwarded in the order read; until EOF or an error either a read is outstanding or a chunk is pending, not both; when the loop has ended every chunk has been forwarded once |
| Sockets.WokenAndNeverSpins | eslang_io/Tcp.cpp:172-225 | at most one write is outstanding; suspended on its promise with EOF, a chunk, an error or a finished write pending, the process has a current wake-up posted; its loop never goes round for ever |
| Sockets.WritesInOrder | eslang_io/Tcp.cpp:208-224 | each slot is emptied in order, of what each await finds the first slot's message is written or else the second's; so what one slot is sent is written in order if the other is not used, and in any case every message is written, waits, or was dropped |
| Sockets.DropsExactly | eslang_io/Tcp.cpp:214-223 | in every run a message is dropped if and only if some await found one in both slots, and then it is the second slot's |
| Sockets.BothSlotsLose | eslang_io/Tcp.cpp:214-223 | and that happens, in a run of five events |
| SocketProcesses.SocketProcess.RunLoop | eslang_io/Tcp.cpp:201-226 | the loop on its own fields does what the model's loop does |
| SocketProcesses.SocketProcess.OnRead | eslang_io/Tcp.cpp:139-170 | so does the read callback, in both modes |
| SocketProcesses.SocketProcess.OnWrite | eslang_io/Tcp.cpp:176-190 | so does the write callback (`SocketEvents.EverythingRecorded` says what that records) |
| SocketProcesses.Live | eslang_io/Tcp.cpp:193-226 | a whole life of a socket process, whatever happens to it |

## Left out

- Coroutine frames: the compiled rest of a body is a value that the machine passes beside the
  promises, and an idle generator is owned by the body that pulls it; what the heap holds is the
  promises and their links.
- Bodies that branch on data, leave a for-each early, or keep a method task and await it later:
  its readiness is tested where it is started.
- Exceptions inside nested coroutines: a throw ends a body, and the process is doomed.
- What happens after a late end, where the context reads the wait through a null pointer.
- The processes of the context are lists of commands, not the scripts of the coroutine machine;
  the two parts meet at the waits that a resume returns.
- Contexts.Context.Run: the environment is a finite list of choices, so that runs are finite.
- Contexts.RunningProcess keeps its mailboxes and their promises as values; the classes of
  `Mailboxes` are proved against the same functions, but are not objects of the context.
- A sender woken by the destruction of the receiver reads a promise that is gone; that read finds
  nothing here.
- Timers other than those of `sleep`: `timedRecv` passes a time point as a duration
  (eslang/Process.h:78-80), and timer callbacks carry no stamp.
- The const `findProc` (eslang/Context.cpp:80-90), which lacks the test for an empty slot, is
  taken to be the other one.
- A process constructor that throws, which leaves its index reserved: spawns succeed.
- The types of messages, slots and processes, and logging.
- What the io service runs is chosen by the environment: any posted continuation, any timer of a
  sleeping process, and promises that something outside sets.
- Sockets.WritesInOrder: nothing is claimed of messages once the process has failed.
- How a socket is started, accepted, encrypted or closed, and the bytes of a buffer; HTTP.
- Liveness of programs: a process may wait for ever.
