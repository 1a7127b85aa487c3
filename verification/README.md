# Verified model of the OMX bridge core

This Dafny project models the parts of the bridge whose contracts speak of every run or of every input, and proves
them: the life of a job under concurrent claims, callbacks, cancellations, notifications, clean-ups, shutdowns and
crashes; the two bounded captures of command output; the shared store of pending notifications; the machine that
ends a spawned command; the canonical JSON behind request idempotency; the quoted command line of the tmux runner;
the wait for a job; the keyed promise lock; and retention.

`dafny verify dfyconfig.toml` checks all of it.

## How it is modelled

- **Job protocol** (`JobModel`, `JobProtocol`, `JobInvariants`, `JobStarts`, `JobLoad`, `JobOrder`, `JobKeys`,
  `JobTheorems`, `JobExecutions`, `JobOutcomes`, `JobRecovery`, `JobProgress`, `JobLocks`, `JobRuns`, `JobPaths`,
  `JobLiveness`, `JobShutdown`, `JobDuplicate`). A step is one stretch of code between two awaits that has an
  effect: a directory read, the read of one file, an atomic replacement, an unlink. The state holds the stored jobs, the
  locks and mutexes, `inFlight`, `shuttingDown` and every pending continuation as a task. Any number of tasks interleave in any
  order. A crash drops all tasks and locks and may change the configuration; a restart recovers before it serves.
  The store is what readers see: a file that `isBridgeJob` refuses is as good as absent from the moment it is written, and
  `JobTheorems.LostForGood` shows that moving it away later takes nothing else. Locks are granted in any order;
  `JobLocks` shows that the order of the promises is one of these.
  `listAll` is not a snapshot: it reads the directory once and then every file at its own time. The saving of a
  notification outcome reads outside the job lock and checks nothing, and clean-up unlinks without a lock, as in the
  code. History fields (the jobs ever stored, the first terminal report of each, all notices, all starts) serve the
  statements and influence no step. `JobExecutions`, `JobOutcomes` and `JobRecovery` speak of the events of a run instead
  of the history, and `JobLiveness` of steps that lead somewhere: what must be able to happen, can.
- **Classes** stand where the source updates an object in place: `StreamCapture.Capture`, `JobRepository.Repository`,
  `NotificationProcesses.Store` (several over one `StoreFile`), `ExecHandlers.SpawnedCommand`, `KeyedLock.Locks`. Each of
  their methods states its whole new state, as a function of the old one, and the properties are proved about these
  functions. The loops of `buildTruncationMarker`, `dedupe`, the ring, `writeFully`, retention, the option parser and
  `waitForJobCompletion` are methods with loops.
- **Values** stand where the source computes: output capture on code units, canonical printing, quoting.
- **References** stand beside what computes: `ExecVerdicts` tells the report of a command from its events alone, without
  the variables of its handlers; `JsonReader` reads JSON text (RFC 8259) and knows nothing of the printer.
- Strings are sequences of characters, or of UTF-16 code units where surrogates matter; instants, durations and
  ids are numbers, where an id stands for its place in the collation order.

## What came out

- A callback that the bridge accepted is recognised when it is sent again exactly when its body carries no own
  property that holds undefined over a stored value, and no explicit null in its execution part (`JobModel.Replayable`).
  Documentation (`docs/routing-contract.md:7`) promises recognition for every omission. But the comparison in
  `isEquivalentCallbackReplay` looks at own properties, and request classes compiled for ES2022 have all declared
  properties as own ones: `JobModel.BareReportIsNotReplayed` is the plainest body that fails, a status and nothing else.
  And a null passes validation and is stored, while the reader of the file refuses it: after the body of
  `JobModel.NullDurationIsNotReplayed` the job is gone. The model follows the code.
- In the same way an explicit null in `requestId`, `source`, `sourceName`, `originRoutingKey`, `notifyUrl` or `metadata`
  of a create request is stored in a file that no reader accepts (`JobTheorems.NullRequestIsLost`).
- Clean-up can delete a job between the read and the save of its notification outcome. The save then brings the job
  back, and if its request was submitted again meanwhile, two stored jobs have one request key. `JobDuplicate` gives
  such a run; `JobKeys.KeysExact` says for every step, and `JobTheorems.KeysOverRuns` for every run, exactly when it
  happens, and why.
- Around a digit boundary the truncation marker of an exec stream can leave no room. For a narrow band of stream
  lengths the rendered output then depends on how the stream was cut into chunks; `OutputCapture.ChunkingMatters` gives
  the band, in both directions, and `OutputCapture.ChunkingMattersExample` a stream in it.

## Model

| member | source | states |
|---|---|---|
| `JobModel.UpdateShape` | src/jobs/job-runner.service.ts:312-391 | only a claim makes a job running and only a requeue makes it queued; no update touches identity, order or notification fields; only a run's end, a collection and recovery change execution properties that the server owns; only a callback with an explicit null in its execution part leaves a file that no reader accepts; what the updates store is in the next two rows |
| `JobOutcomes.UpdateDelivers` | src/jobs/job-runner.service.ts:344-408 | an update that ends a job leaves it, field by field, as its contender delivers it, and says for what is not given whether it is kept or cleared |
| `JobOutcomes.UpdateGoesOn` | src/jobs/job-runner.service.ts:312-405 | an update that does not end a job changes nothing but status and start, or the session |
| `JobModel.AcceptedCallbackReplays` | src/jobs/jobs.service.ts:136-239 | an accepted callback is recognised as its own replay if and only if its body is replayable, and its job can be read at all if and only if no property of its execution part is an explicit null |
| `JobModel.ReplayChangesNothing` | src/jobs/jobs.service.ts:221-239 | a callback to a job that has ended is recognised as a replay if and only if its body is replayable and writing it would change nothing but the finish time; every other one conflicts |
| `JobModel.BareReportIsNotReplayed` | src/jobs/dto/job-callback.dto.ts:32-55 | the body that validation builds when a sender gives nothing but a status is accepted, and then not recognised as its own replay |
| `JobModel.NullDurationIsNotReplayed` | src/jobs/jobs.service.ts:214-224 | a body without any undefined property, but with a null duration, is accepted and equals what it wrote, which cannot be read, so that its second delivery finds no job |
| `JobInvariants.TaskFramed` | src/jobs/job-queue.repository.ts:262-274 | a task that writes only what it holds the locks for leaves every other pending task correct |
| `JobInvariants.CasWriteDisk` | src/jobs/job-queue.repository.ts:77-92 | after a transition every stored terminal job still equals its first terminal report and every history its notices |
| `JobInvariants.PersistWriteDisk` | src/jobs/job-notify.service.ts:70-88 | the unchecked save of a notification outcome keeps the same, also when it writes a deleted job back |
| `JobInvariants.DeleteOneDisk` | src/jobs/job-queue.repository.ts:193-195 | clean-up, working on a stale listing without a lock, unlinks only jobs with a terminal report |
| `JobInvariants.ClaimPickShape` | src/jobs/job-runner.service.ts:301-311 | a claimer gives up, or goes for the first queued job of its listing that is not in flight; `JobLiveness.ClaimsWhenThereIsRoom` says which |
| `JobInvariants.CoreKept` | src/jobs/job-runner.service.ts:118-475 | every step of every task keeps the invariant of disk, locks and pending continuations |
| `JobStarts.MoveLegal` | src/jobs/job-queue.repository.ts:70-92 | what any step can do to one stored job: a compare-and-set update, one that a callback spoils, a notification save, a deletion after the end, or nothing |
| `JobStarts.OnlyWritesTouchFiles` | src/jobs/job-queue.repository.ts:70-92 | nothing but a save, a transition write and an unlink touches a job file |
| `JobStarts.RequeueWriteTokens` | src/jobs/job-runner.service.ts:384-391 | a requeue happens during shutdown and puts back a job that nobody has started or may start |
| `JobStarts.RunDecideTokens` | src/jobs/job-runner.service.ts:344-361 | beginning an execution uses up the one right to start the job |
| `JobStarts.TokensKept` | src/jobs/job-runner.service.ts:222-408 | every step keeps that at most one continuation may start a job, and none once it was started |
| `JobLoad.ClaimerCountsAll` | src/jobs/job-runner.service.ts:301-310 | what a claimer counts from its listing and `inFlight` covers every job that occupies a slot, although files were read at different times |
| `JobLoad.LoadKept` | src/jobs/job-runner.service.ts:287-334 | every step keeps both admission limits and what listings in progress must still find |
| `JobOrder.FreshKept` | src/jobs/job-runner.service.ts:287-334 | no queued job that a claimer has read is in flight, outside shutdown |
| `JobOrder.ClaimsInOrder` | src/jobs/job-runner.service.ts:305-311 | in a state that meets the invariants, outside shutdown, the claimed job precedes every other queued job of the listing by queue order, creation and id |
| `JobKeys.WriteBackKeys` | src/jobs/job-notify.service.ts:70-88 | saving a deleted job back is harmless if and only if its request key is not in use |
| `JobKeys.KeysExact` | src/jobs/jobs.service.ts:34-45 | for every step, the keys of stored jobs and of pending creations stay in order if and only if it does not write back a job whose key is taken |
| `JobKeys.UniqueExact` | src/jobs/job-queue.repository.ts:70-75 | for every step, stored keys stay unique if and only if it does not add a readable job beside another stored one of its key |
| `JobKeys.EscapeStep` | src/jobs/jobs.service.ts:258-268 | the one way in which a creation misses a stored job of its key: a late notification save wrote the job back after the search had passed it |
| `JobKeys.CopiesKept` | src/jobs/job-notify.service.ts:70-88 | while clean-up spares jobs with a save in flight, every copy about to be saved belongs to a stored job |
| `JobTheorems.InvRun` | src/jobs/job-runner.service.ts:54-475 | the whole invariant holds in every reachable state |
| `JobTheorems.AtMostOneStart` | src/jobs/job-runner.service.ts:344-408 | over every interleaving, crash and restart, no job's execution begins twice |
| `JobExecutions.OneStepBegins` | src/jobs/job-runner.service.ts:344-408 | the same of the events of a run, without the history: two steps that begin the execution of one job are one step |
| `JobTheorems.StepByStep` | src/jobs/job-queue.repository.ts:77-98 | from every reachable state the only moves of a job, as readers see it: created queued, claimed, requeued in shutdown before any start, ended, gone after the end or when a callback spoils its file, or written back as it ended |
| `JobTheorems.TerminalResultIsFinal` | src/jobs/job-queue.repository.ts:77-98 | after the first terminal write a job is absent or has exactly that status, output, exit code, execution record, finish time and session, for ever |
| `JobTheorems.FieldsFollowStatus` | src/jobs/jobs.service.ts:64-85 | in every reachable state a job that has not ended holds no output, exit code or finish time, and a start time exactly while it runs; one that has ended has a finish time |
| `JobOutcomes.EndedJobsAreDelivered` | src/jobs/job-runner.service.ts:362-379 | in every reachable state a stored job that has ended holds, field by field, what a contender delivered that an earlier event brought (the outcome or failure of a run, a collection, a callback, a cancellation or recovery) and that found the job queued or running when it wrote |
| `JobRecovery.NoRunningJobIsLost` | src/jobs/job-runner.service.ts:287-379 | in every reachable serving state a stored running exec job is carried on by a pending task of this process, which is claiming it, giving it back, running it or ending it |
| `JobRecovery.RestartIsThorough` | src/jobs/job-runner.service.ts:118-144 | recovery ends a running job if and only if it is not a tmux job with a live session, and a process begins to serve only when no other job is left running |
| `JobRecovery.RestartEndsInterruptedJobs` | src/jobs/job-runner.service.ts:118-144 | from every crash to the next begin of service: a job that was running is left as it was if its session is live, is collected, or ends as failed with an execution error, marked as recovered, without exit code and stdout; an exec job always does the last |
| `JobTheorems.LostForGood` | src/jobs/job-queue.repository.ts:276-336 | a file that was written unreadable is never replaced by a readable one, so that moving it away takes nothing else |
| `JobTheorems.NullRequestIsLost` | src/jobs/job-queue.repository.ts:357-392 | a job created with an explicit null in an optional member is accepted and never seen by any reader |
| `JobTheorems.AcceptedCallbackIsIdempotent` | src/jobs/jobs.service.ts:136-158 | in every later state the callback that was stored is recognised as a replay if and only if the job is still there and the body was replayable; right after the first delivery only the body decides; a body with an explicit null in its execution part leaves no job |
| `JobTheorems.LimitsHold` | src/jobs/job-runner.service.ts:287-334 | beyond what a restart found, running and in-flight jobs stay within `maxConcurrency`, active ones within `maxActiveJobs`, and runs in progress are of different jobs in flight |
| `JobTheorems.LimitsHoldAcrossRestarts` | src/jobs/jobs.service.ts:47-53 | with one configuration both limits hold in every state of every run |
| `JobTheorems.LimitsHoldSinceStart` | src/jobs/job-runner.service.ts:287-334 | whatever the configurations were, a serving process began to serve with one step, and beyond the load that step found both limits hold |
| `JobTheorems.ClaimsGoInOrder` | src/jobs/job-runner.service.ts:305-311 | in every reachable state outside shutdown a claimer goes for the queued job that precedes every other queued one it has listed |
| `JobLiveness.ClaimsWhenThereIsRoom` | src/jobs/job-runner.service.ts:301-311 | in every reachable state a claimer that has listed the jobs goes for one if and only if there is no shutdown, fewer jobs than `maxConcurrency` are in flight or listed as running, each counted once, and a queued one is listed that is not in flight |
| `JobLiveness.QueuedJobGetsToRun` | src/jobs/job-runner.service.ts:287-361 | from every reachable state with nothing pending, a free slot and a queued job there are steps after which this job, or one that precedes it, is running, in flight and executing |
| `JobLiveness.RunEndsTheJob` | src/jobs/job-runner.service.ts:344-408 | from every reachable state with one run pending there are steps after which its outcome has taken effect, its slot is free and, if the job has ended, a notification of it is pending |
| `JobShutdown.ShutdownLasts` | src/jobs/job-runner.service.ts:54-55 | in every run the process is shutting down exactly from the step that asks it to stop until it crashes |
| `JobShutdown.ShutdownStartsNothing` | src/jobs/job-runner.service.ts:287-361 | from then on no step begins an execution, takes a slot or makes a claimer go for a job |
| `JobShutdown.ClaimedJobGoesBack` | src/jobs/job-runner.service.ts:312-391 | from every such state in which only a claimed job that has not begun is pending, there are steps after which it is queued again, with nothing else in the store changed and its slot or the claim mutex free |
| `JobTheorems.HistoryIsComplete` | src/jobs/job-notify.service.ts:70-88 | a stored job's history is the last ten outcomes persisted for it, in order and none lost, its outcome the last one, and its indexes count up to ten |
| `JobLiveness.OutcomeIsRecorded` | src/jobs/job-notify.service.ts:70-88 | from every reachable state with nothing pending there are steps after which the outcome of a notification is that of its job and the last of its history, and nothing else of the store has changed |
| `JobTheorems.ActiveJobsAreKept` | src/jobs/job-queue.repository.ts:170-195 | clean-up never unlinks an active job, however the job moved since the listing: a step makes an active job disappear if and only if it writes a callback that spoils its file |
| `JobLiveness.CleanupRemoves` | src/jobs/job-queue.repository.ts:170-195 | a clean-up that has chosen among the ended jobs can remove exactly these |
| `JobTheorems.KeysOverRuns` | src/jobs/jobs.service.ts:34-45 | over every run from the start: stored and pending keys are in order throughout if and only if no step writes back a job whose key is taken; stored keys are unique throughout if and only if no save writes a job back beside a stored one of its key, and none creates a job beside one that was written back after its creator had searched; the first condition implies the second |
| `JobTheorems.OneJobPerRequest` | src/jobs/jobs.service.ts:258-268 | in runs where clean-up spares jobs with a save in flight no step clashes, so that no two stored jobs have one source and request id |
| `JobLiveness.AdmissionDecides` | src/jobs/jobs.service.ts:42-53 | a creation goes on to count if and only if its listing holds no job of its key, and to save if and only if its second listing holds fewer than `maxActiveJobs` queued and running jobs; otherwise it changes no file |
| `JobLiveness.RequestIsAdmitted` | src/jobs/jobs.service.ts:34-90 | from every reachable state with nothing pending, a request of a new key below that limit can be admitted, and the store then holds one job more, queued and as requested |
| `JobLiveness.OutsideEndsTheJob` | src/jobs/jobs.service.ts:136-211 | from every reachable state with nothing pending, a callback or cancellation can end an active job as it says, with a notification pending |
| `JobLiveness.RestartComesToServe` | src/jobs/job-runner.service.ts:118-144 | from every reachable state of a process that does not serve yet, with nothing pending, it can come to serve with every interrupted job ended by recovery and every other job as it was |
| `JobProgress.LocksHaveOwners` | src/jobs/job-queue.repository.ts:262-274 | in every reachable state the job locks, persist locks and both mutexes are exactly those that pending tasks hold and still need, each held by one task |
| `JobProgress.NobodyIsStuck` | src/jobs/job-queue.repository.ts:262-274 | in every reachable state, what a pending task waits for ends, after two locks at most, with a task that waits for nothing and can take its next step |
| `JobProgress.JobLockIsBrief` | src/jobs/job-queue.repository.ts:77-92 | a job lock is held for two steps of its holder at most |
| `JobLocks.LocksAreCalls` | src/jobs/job-queue.repository.ts:262-274 | where job and persist locks are taken in the order of the promises, a task holds a lock if and only if its call is running in the promise lock |
| `JobLocks.TurnIsFree` | src/jobs/job-notify.service.ts:90-106 | whenever the promise lock lets a call go ahead, its lock is free in the protocol, so that every such run is one that the protocol covers |
| `JobLocks.NobodyIsStuckInLine` | src/jobs/job-queue.repository.ts:262-274 | taking turns blocks nobody: a pending task can take its next step in turn, or one ahead of it in at most two lines can |
| `JobDuplicate.DuplicateIsReachable` | src/jobs/job-notify.service.ts:70-88 | without that condition a run from the initial state ends with two such jobs |
| `JobRepository.Repository.Transition` | src/jobs/job-queue.repository.ts:77-92 | a transition happens if and only if the stored status is expected, replaces exactly that job, and returns what is stored |
| `JobRepository.Repository.ListAll` | src/jobs/job-queue.repository.ts:113-149 | the listing holds every job once, sorted by queue order, creation and id |
| `JobRepository.Repository.CountActive` | src/jobs/job-queue.repository.ts:156-159 | the count is the number of queued and running jobs |
| `JobRepository.ExpiredIsPrefix` | src/jobs/job-queue.repository.ts:179-185 | in age order the jobs past their time are a beginning of the list |
| `JobRepository.DoomedExactly` | src/jobs/job-queue.repository.ts:187-191 | a terminal job is deleted if and only if its time is past or the limit is filled by younger ones |
| `JobRepository.ChooseDeletions` | src/jobs/job-queue.repository.ts:179-191 | the two loops choose exactly a beginning of the age order |
| `JobRepository.DeletedAreDue` | src/jobs/job-queue.repository.ts:170-191 | a job's file is chosen if and only if the job has ended and its time is past or so many ended jobs outlive it that the limit is filled, stated on the files alone |
| `JobRepository.Repository.CleanupTerminalJobs` | src/jobs/job-queue.repository.ts:170-212 | exactly the due files go and every other stays, deleted and retained add up to the terminal jobs, retained is within the limit, and the report lists the deleted jobs in order |
| `KeyedLock.MutualExclusionInOrder` | src/jobs/job-queue.repository.ts:262-274 | in every run two calls for one key never overlap, and none overtakes an earlier one |
| `KeyedLock.StartsWhenFirst` | src/jobs/job-queue.repository.ts:266-269 | a waiting call may start if and only if all earlier calls for its key are done, whether or not they threw |
| `KeyedLock.EntryWhileBusy` | src/jobs/job-queue.repository.ts:270-273 | the map has an entry for a key if and only if a call for it waits or runs |
| `KeyedLock.NeverStuck` | src/jobs/job-notify.service.ts:90-106 | the first call of a busy key can start, or is running and can leave |
| `KeyedLock.Locks.Enter` | src/jobs/job-queue.repository.ts:263-266 | a call takes the last promise of its key as the one to await and leaves its own |
| `KeyedLock.Locks.Leave` | src/jobs/job-queue.repository.ts:270-273 | a finished call resolves its promise and drops the entry only if that is still its own |
| `StreamCapture.Layout.ExpectedSize` | src/jobs/tmux-capture-wrapper.ts:61-78 | the bounded image of a stream is the stream when it fits; otherwise it fills the cap with a beginning of the stream, the marker and an end of it, and as much of the one as of the other, up to one byte |
| `StreamCapture.AcceptedCaps` | src/jobs/tmux-capture-wrapper.ts:44-45 | with the runner's marker the wrapper accepts exactly the caps of more than 31 bytes |
| `StreamCapture.FullRound` | src/jobs/tmux-capture-wrapper.ts:131-143 | overwriting a full ring from its oldest byte drops as many bytes as it adds |
| `StreamCapture.Capture.WriteFullyAt` | src/jobs/tmux-capture-wrapper.ts:54-59 | partial writes add up to one positioned write of all data |
| `StreamCapture.Capture.SetTail` | src/jobs/tmux-capture-wrapper.ts:146-154 | the ring starts over with the last bytes of a buffer, in memory and in the file |
| `StreamCapture.Capture.AppendTail` | src/jobs/tmux-capture-wrapper.ts:120-144 | the ring holds the last bytes of everything put into it, in memory and in the file, whatever the chunk |
| `StreamCapture.Capture.BeginTruncation` | src/jobs/tmux-capture-wrapper.ts:98-110 | the head shrinks to its share and the ring takes over the end of what was stored |
| `StreamCapture.Capture.Append` | src/jobs/tmux-capture-wrapper.ts:80-96 | after every chunk the capture represents exactly the concatenation so far |
| `StreamCapture.Capture.Materialize` | src/jobs/tmux-capture-wrapper.ts:112-118 | finalisation writes the marker and the ring, in order, behind the head |
| `StreamCapture.Capture.Finish` | src/jobs/tmux-capture-wrapper.ts:165-173 | the log ends as the bounded image of the whole stream and the tail file is gone |
| `StreamCapture.Capture.ReaderAgrees` | src/jobs/tmux-session-runner.service.ts:560-592 | between appends the separate reader sees byte for byte what finalisation would write |
| `StreamCapture.CaptureStream` | src/jobs/tmux-capture-wrapper.ts:61-173 | for every chunking, the final file and every view of the reader are the bounded image of what had arrived, and both files together never exceed the cap, after each single write, truncation and unlink |
| `OutputCapture.Omitted` | src/jobs/omx-exec.service.ts:417-428 | the printed count is the least one that is enough for the marker that prints it |
| `OutputCapture.BuildTruncationMarker` | src/jobs/omx-exec.service.ts:417-428 | the loop ends for every total and positive limit, with that marker |
| `OutputCapture.SelfConsistentCounts` | src/jobs/omx-exec.service.ts:417-428 | at most two counts describe themselves, neighbours across a digit boundary; the loop finds the lower |
| `OutputCapture.TwoCountsExample` | src/jobs/omx-exec.service.ts:417-428 | two counts do occur: 99 and 100 for a stream of 171 characters and a limit of 100 |
| `OutputCapture.MarkerSpanMonotone` | src/jobs/omx-exec.service.ts:417-428 | a longer stream never gets a shorter marker, and one more character at most one more digit |
| `OutputCapture.MarkerSays` | src/jobs/omx-exec.service.ts:417-428 | the marker says in decimal notation how many characters are left out |
| `OutputCapture.AppendHolds` | src/jobs/omx-exec.service.ts:342-397 | what a capture stores of a stream, chunk by chunk; only the length of the tail can depend on the chunks |
| `OutputCapture.ExpectedSize` | src/jobs/omx-exec.service.ts:399-415 | the output is exactly as long as the limit, around a marker whose number is what is left out, with halves that differ by at most one |
| `OutputCapture.Rendered` | src/jobs/omx-exec.service.ts:342-415 | for every chunking and limit the output is the specified one, or an end of the stream within the limit |
| `OutputCapture.ChunkingMatters` | src/jobs/omx-exec.service.ts:342-415 | the output depends on the chunks if and only if the length is in the narrow band |
| `OutputCapture.ChunkingMattersExample` | src/jobs/omx-exec.service.ts:342-415 | the band is not empty: 101 characters and a limit of 29 give 29 characters of output in one chunk and a single one in two chunks |
| `NotificationStore.DedupeMeaning` | omx-dispatch/notification-store.ts:365-378 | deduplication keeps exactly the newest notification of every job, ties going to the later one, in order |
| `NotificationStore.DedupedInOrder` | omx-dispatch/notification-store.ts:365-378 | a deduplicated queue ascends by time, ties by job, and holds no job twice |
| `NotificationStore.DedupedUnique` | omx-dispatch/notification-store.ts:365-378 | that meaning determines the result |
| `NotificationStore.DedupeAgain` | omx-dispatch/notification-store.ts:100-103 | deduplicating a deduplicated queue with new entries equals deduplicating everything at once |
| `NotificationStore.DedupeByMap` | omx-dispatch/notification-store.ts:365-378 | the loop over a map and the sort compute it |
| `NotificationEviction.ForgottenForGood` | omx-dispatch/notification-store.ts:380-389 | an evicted entry never deserves to come back, whatever arrives next |
| `NotificationProcesses.Store.Load` | omx-dispatch/notification-store.ts:64-89 | loading leaves the newest entries within the limit in file and local queue, rewrites the file only if it shrinks, and counts what it drops |
| `NotificationProcesses.Store.Enqueue` | omx-dispatch/notification-store.ts:91-129 | enqueueing deduplicates the file with the new entry, keeps the newest within the limit, counts what it drops, and returns the size |
| `NotificationProcesses.Store.DrainForJob` | omx-dispatch/notification-store.ts:149-184 | draining one job removes that job alone from file and local queue, or leaves everything alone when it is not there |
| `NotificationProcesses.Store.DrainAll` | omx-dispatch/notification-store.ts:186-204 | draining returns the deduplicated queue and empties file and queue |
| `NotificationRuns.Conservation` | omx-dispatch/notification-store.ts:64-204 | over every run of any processes, enqueued = pending + returned + dropped + superseded, as multisets, with dropped summed over the processes |
| `NotificationRuns.ReturnedOnce` | omx-dispatch/notification-store.ts:149-204 | no notification is returned by two drains |
| `NotificationRuns.LossesAreDue` | omx-dispatch/notification-store.ts:365-389 | superseded means a kept one of the same job is not older, dropped means the limit is filled by later ones |
| `NotificationRuns.DrainTakesOne` | omx-dispatch/notification-store.ts:149-184 | draining a job returns its newest notification if and only if it has one, and touches no other job |
| `NotificationRuns.EvictsLikeABatch` | omx-dispatch/notification-store.ts:91-129 | until something is drained the evicting file equals the newest entries of the whole history deduplicated at once |
| `NotificationRuns.LoadMirrors` | omx-dispatch/notification-store.ts:64-89 | after loading, the local queue is the file |
| `NotificationRuns.MirrorKept` | omx-dispatch/notification-store.ts:91-204 | for a process alone with its file every operation keeps the local queue equal to it |
| `ExecHandlers.SpawnedCommand.On` | src/jobs/omx-exec.service.ts:74-268 | every handler, for every answer of the system, changes the shared variables as one step of the event machine does |
| `ExecSafety.SettlesOnce` | src/jobs/omx-exec.service.ts:91-119 | over every order of events a command settles at most once |
| `ExecSafety.SignalsAreOrderly` | src/jobs/omx-exec.service.ts:202-242 | attempted signals are a prefix of SIGTERM, SIGKILL, and none follows settling or giving up the group |
| `ExecSafety.StoppedMeansGone` | src/jobs/omx-exec.service.ts:129-156 | a cancelled or timed-out result comes only after the child closed and its group was seen gone or sent SIGKILL, where there is a group to ask about |
| `ExecSafety.SettledIsQuiet` | src/jobs/omx-exec.service.ts:91-129 | after settling nothing is owned and no timer or listener is left |
| `ExecSafety.ClosedGetsSettled` | src/jobs/omx-exec.service.ts:129-156 | once its child has closed a command is settled, or its group is polled and the kill timer runs; that timer then settles it whatever the system answers, and so does a poll that finds the group gone |
| `ExecSafety.CloseAndKillSettle` | src/jobs/omx-exec.service.ts:175-242 | from every reachable state the close of the child and then the kill timer settle the command |
| `ExecReports.ReportIsExplained` | src/jobs/omx-exec.service.ts:91-200 | every result is made by one event for the reason it gives and stays; its stdout is rendered from the chunks before that event, its stderr from chunks, messages and refused signals up to it, and it is marked as truncated if and only if one of these texts is over the limit |
| `ExecVerdicts.ReportFollowsEvents` | src/jobs/omx-exec.service.ts:91-200 | the whole report follows from the events up to the one that settles, whatever the variables of the handlers are: status and error type from refused signals, a spawn error, the caller's wish, the time limit, a failed input or the code of the first close, in this order of precedence; `timedOut` if and only if the time had run out; both outputs from chunks and messages |
| `ExecVerdicts.UnaskedCloseSettles` | src/jobs/omx-exec.service.ts:175-200 | a command that neither was aborted nor ran out of time settles with its first close |
| `ExecVerdicts.SignalsAreSent` | src/jobs/omx-exec.service.ts:202-268 | a command that is aborted or out of time before it settles is sent SIGTERM if it has a process, and SIGKILL when the kill timer fires while its group is still owned |
| `StableJsonProof.PrintIsEmit` | src/jobs/jobs.service.ts:348-361 | printing depends on the normal form alone: sorting keys commutes with printing values |
| `StableJsonReading.EmitRead` | src/jobs/jobs.service.ts:348-361 | a reader of JSON text gets every normal form back from its text, and finds what follows it |
| `StableJsonReading.EmitInjective` | src/jobs/jobs.service.ts:348-361 | no two normal forms have the same text, quoting and escapes included |
| `StableJsonMeaning.PrintSaysValue` | src/jobs/jobs.service.ts:348-361 | read by that reader, the text of a value says the value, up to members that are undefined and undefined that reads as null, with the keys of every object in ascending order of code units |
| `StableJsonMeaning.EscapeForm` | src/jobs/jobs.service.ts:348-361 | a character is quoted in two characters where it has a short escape, in six with small hexadecimal digits where it is another control character or a lone surrogate, and as it is otherwise |
| `StableJsonNormal.NormSame` | src/jobs/jobs.service.ts:348-361 | values have one normal form if and only if they are equal up to key order and undefined members |
| `StableJsonNormal.PrintCanonical` | src/jobs/jobs.service.ts:348-361 | two values print equally if and only if they are equal up to key order and undefined members |
| `RequestFingerprint.AcceptedRetries` | src/jobs/jobs.service.ts:294-340 | a retry passes if and only if the stored fingerprint is its own or the stored payload asks for the same; the legacy branch admits nothing more |
| `RequestFingerprint.AcceptedRetriesOfIntactJobs` | src/jobs/jobs.service.ts:278-340 | for a job with no fingerprint or one of its own payload, old or new, a retry passes if and only if it asks for the same |
| `RequestFingerprint.FingerprintSaysRequest` | src/jobs/jobs.service.ts:278-361 | what is hashed is JSON text that says what the request asks for, member by member, with `exec` for a request without a mode |
| `RequestFingerprint.PrintIsWellPaired` | src/jobs/jobs.service.ts:342-361 | every hashed text is well-formed UTF-16, so encoding it loses nothing |
| `ShellWords.QuoteRoundTrip` | src/jobs/tmux-session-runner.service.ts:802-804 | a shell reads a quoted value as that value, in any context |
| `ShellWords.CommandLineRoundTrip` | src/jobs/tmux-session-runner.service.ts:402-431 | a shell reads a line of quoted and bare words as exactly these words, and the file to read |
| `RunnerScript.ReadOptions` | src/jobs/tmux-capture-wrapper.ts:28-34 | the option loop reads key and value in pairs up to the separator and refuses anything else |
| `RunnerScript.ParseRecovers` | src/jobs/tmux-capture-wrapper.ts:24-37 | the first separator is the script's own, and options, command and arguments come back, even where they look like options |
| `RunnerScript.ExecLineRoundTrip` | src/jobs/tmux-session-runner.service.ts:396-433 | the generated line makes the shell start the wrapper with exactly the intended arguments, and read the prompt |
| `RunnerScript.OptionsFound` | src/jobs/tmux-session-runner.service.ts:402-424 | every option has the value that the script set |
| `RunnerScript.WrapperRecovers` | src/jobs/tmux-capture-wrapper.ts:24-42 | the wrapper accepts the arguments if and only if there is a command and both numbers are positive, and then has the same values |
| `RunnerScript.OptionsAreTheFiles` | src/jobs/tmux-session-runner.service.ts:396-424 | every option that the wrapper has read is the file of the session that it stands for, and both numbers and the command are those of the script |
| `WaitLoop.Clamp` | omx-dispatch/job-operations.ts:254-259 | a finite value within the bounds is rounded down, one outside becomes the nearer bound, and without one the fallback is taken; the result is in the bounds |
| `WaitLoop.Wait.ReportIsSensible` | omx-dispatch/job-operations.ts:170-222 | completed if and only if the status is terminal, never together with timed out, and the notification is missing if and only if completed without one |
| `WaitLoop.WaitForJobCompletion` | omx-dispatch/job-operations.ts:161-239 | the wait ends with the first round that decides, for that round's reason, within limit / interval + 2 rounds and with no more sleep than the timeout |

## Left out

- JobProtocol: the services are not classes; a step system on values covers the interleavings, and what a single object
  would show (promise identity, timers, logging) is not there.
- JobProtocol: collections, callbacks, cancellations and notification retries may happen at any time while the process
  serves, which is more than the code's timers allow; recovery's transitions may overlap; statements hold for these runs
  as well.
- JobProtocol: jobs without a stored queue order (written by older versions), failed writes, files that are no JSON and the
  working-directory check of a new job are not modelled; one process serves the directory at a time.
- JobTheorems.OneJobPerRequest: holds for runs in which clean-up spares jobs with a save in flight, because without that
  it is false, as JobDuplicate.DuplicateIsReachable shows; JobTheorems.KeysOverRuns has the exact conditions.
- JobLocks: the create mutex and the claim mutex are granted in any order there, too.
- JobProgress: that a task which can take its next step is given the chance to, and that a command or a terminal session
  ends, is up to the scheduler and the system.
- JobRepository: every file there can be read, and reading a directory and its files is one step there; `JobProtocol` has
  unreadable files, and the two reads apart. Timestamps are the instants that uniform ISO strings denote.
- StreamCapture: the process tree, metadata file and signals of the wrapper; the reader's UTF-8 decoding and its cut to a
  number of characters, so the reader's limit is taken to be at least the cap.
- NotificationStore: malformed lines, failed reads and writes with their fallbacks, and statistics; the file lock is taken
  to exclude other processes, and its stale-lock handling is not modelled. Ids that compare equal in the collation order
  are equal.
- ExecMachine: durations, the environment and the working directory of the command; that a listener registered once fires
  once is used for closing, timeout and abort only, so the statements also cover repeated errors.
- StableJson: numbers that are not integers, and values that JSON cannot hold.
- RequestFingerprint: the hash is any function without collisions.
- ShellWords: an unquoted character outside letters, digits, `-`, `_`, `.` and `/` makes a line unreadable instead of being
  expanded; the lines before the exec line are not modelled.
- RunnerScript: the size check of the cap against the marker is `StreamCapture.Layout.Accepted`.
- WaitLoop: the least poll interval is positive, as its configuration requires; failing requests are not modelled.
- HTTP, validation, authentication, file modes, links and ownership, tmux liveness, message delivery and configuration:
  plumbing over libraries or facts about the operating system, which would add only easy members.
