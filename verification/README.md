# ContextMatrix chat backend: a verified model

This project models, in Dafny, the machinery that keeps a chat session together: the host
that starts, feeds, redacts and buries one container per session, and the worker inside it
that reads frames, runs epochs of a model conversation and masks secrets.

Two forms stand side by side.

* **Code.** Classes and methods in the shape of the Go code: `Tracking.Tracker`,
  `Host.ChatHost` (handleChatStart, Launch, waitAndCleanup, the shutdown kill loop),
  `Messages.MessageServer` (stdinLock, DropSession, handleMessage, handleChatEnd),
  `Inbox.ChatInbox`, `Epochs.EpochLoop`, `Bridge.McpBridge`, `Redactor.RedactorWatcher`,
  `LineWriting.LineWriter`, `RoleOrder.RoleOrderFallback`, and the file readers and writers of
  `EnvFile` and `Resume`. Each method is proved against an outright statement of what it does.
* **Step machines.** Where goroutines and handlers interleave, every access to shared state is
  one step, program counters are part of the state, and the answers of Docker, the file
  system, the network and the clock are part of a step's label. `Lifecycle`, `Delivery`,
  `Epochs`, `Bridge` and `Redactor` are such machines, with any number of requests, runs and
  callers. A theorem about a machine is a statement about every reachable state of every run.

`HostSteps`, `Messages` and `Bridge` show that a machine's steps taken in a row come to what the
code does; `EndToEnd` and `Sessions` show that the lifecycle provides the environment message
delivery assumes, run the two as one machine, and join delivery to the worker's inbox.

## What the proofs turned up

* **The start window.** Two starts of one session ID are not kept apart by the program, except
  while one of them has the tracker entry. For each of the three things a session has (keys, LLM
  token, run dir) the proofs give the exact set of points of handleChatStart, `Lifecycle.Needed`,
  at which a start has to keep others of its session out, by whatever means the caller has: from
  the mkdir to the last step of the failure cleanup that touches the thing, leaving out the three
  steps that own the tracker entry. Leave out any one point, and there is a run in which a start
  standing there fails and takes what another start has got running on. Keeping starts apart until
  Launch returns is therefore too early for all three: the cleanup of a start that failed in
  Launch comes later (`internal/webhook/chat.go:328-335`, `internal/webhook/chat.go:127`). What
  needs none of this: tracker ownership, that a session nobody works on holds nothing, that lines
  are bridged before OnExit, and a complete shutdown.
* **The session ID ".".** The guard (`internal/webhook/chat.go:47-50`) accepts it, and it is the
  one accepted ID that names no run dir of its own: `filepath.Join` makes it the run-dir base. A
  start of "." that fails after its mkdir, the exit of such a session and its shutdown sweep
  remove the run dirs of all sessions, even if no two starts ever overlap. So run dirs are
  isolated if and only if starts are kept apart *and* no start of "." is let in; a caller can
  check `sid != "."` beforehand.
* **The lost clear.** A clear that is both read and signalled between `releaseClear` and the drain
  of stale signals leaves the next epoch held with no signal. That is the only way: while an
  epoch runs, a hold has its signal under way if and only if no clear was missed so.
* **Duplicate acknowledgements and single writers.** A 200 for a duplicate is sound as long as no
  DropSession comes between the two handlers' *stdinLock calls*; that their Lock calls both
  come after it does not help. By the same window, two handlers of one session can get to its
  stdin at once if and only if a DropSession came between their stdinLock calls.
* **The over-long token.** The redactor masks all recorded tokens if and only if each fits a
  64 KiB scanner line. One that does not makes the whole read fail, and the next tick unmasks
  tokens that were masked before; that is the only way the masked set shrinks.
* **Wait's promise.** The comment at `internal/chatwork/inbox.go:98-100` says queued messages are
  always delivered before ErrInboxClosed. While the inbox is held and closed they are not;
  the model follows the code (`internal/chatwork/inbox.go:105-118`).

## Model

| member | source | states |
|---|---|---|
| Tracking.Tracker.AddIfUnderLimit | internal/executor/tracker.go:48-63 | admits a run exactly when its session is untracked and there is room, and changes nothing otherwise |
| Tracking.Tracker.Get | internal/executor/tracker.go:65-72 | finds exactly the tracked run of the session |
| Tracking.Tracker.RemoveRun | internal/executor/tracker.go:76-82 | drops the run and its reason together |
| Tracking.Tracker.List | internal/executor/tracker.go:87-97 | every tracked run exactly once, nothing else |
| Tracking.Tracker.RecordReason | internal/executor/tracker.go:109-118 | records a reason for tracked runs only |
| Tracking.RegistryStaysSound | internal/executor/tracker.go:29-34 | admissions, removals and reasons keep the limit, and keep reasons to tracked runs |
| Tracking.ReopenedRunInheritsNoReason | internal/executor/tracker.go:106-118 | a newly admitted run of a session starts with no recorded reason |
| LifecycleOwnership.EveryTrackedRunHasOneOwner | internal/executor/docker.go:262-275 | in every run, overlapping starts included: a Launch past admission or a supervisor before its Remove owns the tracker entry, one to one; the limit holds; reasons and outcome labels were set while that very run was tracked |
| LifecycleOwnership.RemoveTakesOnlyTheCallersRun | internal/executor/docker.go:384 | whatever step makes a tracked entry go away belongs to the run it takes out, although Remove is by session ID |
| LifecycleOwnership.NoContainerLeaks | internal/executor/docker.go:243-290 | an existing container is in the hands of its handler or supervisor; 202 is answered exactly for the handed-over ones |
| LifecycleResources.StepKeepsRes | internal/webhook/chat.go:110-335 | thing by thing: with its points covered, each step of any handler, supervisor, pump or shutdown keeps it matched to the one life of the session that may touch it |
| LifecycleBacking.StepKeepsHeld | internal/webhook/chat.go:110-335 | however starts overlap, each step keeps every run dir, token and key with a life of its session that has yet to release it |
| LifecycleTheorems.IdleSessionsAreUntouched | internal/webhook/chat.go:118-130 | however starts overlap: a session that is neither tracked nor being started has no live token or key and nothing it made under the run-dir base (which for "." is the base itself, and may stand for other sessions' sake) |
| SessionIds.RefusedIds | internal/webhook/chat.go:47-50 | refused are exactly the empty ID, IDs other than their own filepath.Base, and those that hold '/', '\\' or ".." |
| SessionIds.OwnDirExactlyWhenNotDot | internal/webhook/chat.go:47-50 | with the ID split into path elements as filepath.Join does: an accepted ID names a directory below the base, and one that holds no other accepted ID's, if and only if it is not "." |
| SessionIds.RemoveRunDirTakesWhatIsBelow | internal/cli/serve.go:328-329 | removing the run dir of an ID takes exactly the run dirs at or below it |
| LifecycleTheorems.ApartMeansKept | internal/webhook/chat.go:110-349 | thing by thing: with starts kept apart at its points (and, for run dirs, "." kept out) every running container has its own, across unboundedly many reopenings |
| LifecycleTheorems.SerialStartsAreIsolated | internal/webhook/chat.go:110-349 | with all points covered and "." kept out: a started container has its own run dir, token and all keys, and a session nobody works on has none of the three |
| LifecycleOverlap.OverlappingStartsInterfere | internal/webhook/chat.go:110-335 | for every uncovered point and everything it matters to: a run in which a start standing there fails and takes it from a running container of its session |
| LifecycleOverlap.BaseStartInterferes | internal/webhook/chat.go:110-130 | with "." let in, a run in which a failing start of it takes a running session's run dir, whatever points are covered |
| LifecycleOverlap.FailedBaseStartTakesEveryRunDir | internal/webhook/chat.go:127-130 | such a run with no two starts at once: "s" is running, "." is answered 502, and no session has a run dir |
| LifecycleOverlap.KeptExactlyWhenApart | internal/webhook/chat.go:66-347 | thing by thing, running containers keep theirs in every run if and only if all its points are covered (and, for run dirs, "." is kept out) |
| LifecycleOverlap.LaunchReturnIsTooEarly | internal/webhook/chat.go:327-335 | keeping starts apart until Launch returns is not enough for any of the three |
| LifecycleOverlap.IsolatedExactlyWhenHandlersAreSerial | internal/webhook/chat.go:47-347 | running containers keep all three in every run if and only if every point past the conflict check that does not own the tracker entry is covered and "." is kept out |
| LifecycleTheorems.BridgedLinesPrecedeOnExit | internal/executor/docker.go:367-382 | however starts overlap: every bridged line, flushed last lines included, comes before its run's OnExit, unless the drain bound fired on that run |
| LifecycleTheorems.BridgedLinesAreMasked | internal/webhook/chat.go:223-230 | with the points of the keys covered such a line also finds all its run's keys registered |
| LifecycleOverlap.MaskedExactlyWhenHandlersAreSerial | internal/webhook/chat.go:206-333 | lines are masked in every run if and only if the points of the keys are covered |
| LifecycleTheorems.CleanShutdownIsComplete | internal/cli/serve.go:273-312 | however starts overlapped, once shutdown is through with no handler left: every run listed was killed, had finished, or its own kill was refused; no run dir is left |
| Host.ChatHost.HandleChatStart | internal/webhook/chat.go:47-362 | the exact answer (`StartCodeMeaning`), the exact host afterwards, whatever it held before and with all that "." takes, and whether a container is left |
| Host.StartCodeMeaning | internal/webhook/chat.go:47-347 | what each answer stands for: 400 the refused IDs, outright; then 429 a full tracker, 409 a tracked session, 500 missing configuration or a failed mkdir, resume write or registration, 502 Docker's failures; else 202 |
| Host.LaunchAnswers | internal/webhook/chat.go:327-347 | 429 stands for a run that was created and attached but not admitted, 502 for every other failure of Launch |
| Host.StartIsAllOrNothing | internal/webhook/chat.go:118-130 | with nothing under the ID before, 202 has acquired dir, token, keys and slot; another answer leaves the host as it was if and only if the start was turned away before the mkdir, the ID is not ".", or no other session has a run dir |
| Host.ChatHost.StartWithDir | internal/webhook/chat.go:110-349 | the part from the mkdir on: all acquired, or the run dir (for "." the base with all in it), token and keys gone |
| Host.ChatHost.StartInDir | internal/webhook/chat.go:118-346 | the part under the deferred removal: all acquired, or undone up to the run dir |
| Host.ChatHost.StartWithToken | internal/webhook/chat.go:147-347 | a failed Launch has its keys and token taken back and is answered 429 or 502 by its cause |
| Host.ChatHost.RegisterKeys | internal/webhook/chat.go:206-289 | the five registrations come to exactly the session's non-empty secrets |
| Lifecycle.AllSecretsMeaning | internal/webhook/chat.go:206-289 | those are the life's own, one of every kind that is not blank |
| Host.ChatHost.Launch | internal/executor/docker.go:220-295 | which answer each failure gets; on failure the tracker is as before and no container is left |
| Host.ChatHost.WaitAndCleanup | internal/executor/docker.go:325-385 | an exit removes everything filed under the session, nothing else unless the ID is ".", which takes every run dir; the reason is read first |
| Host.ChatHost.Stop | internal/executor/docker.go:396-410 | marks exactly the tracked run ended, and stops its container if Docker goes along |
| Host.ChatHost.Kill | internal/executor/docker.go:414-427 | marks exactly the tracked run killed, and ends its container if Docker goes along |
| Host.ChatHost.KillAll | internal/cli/serve.go:293-312 | every tracked run is marked killed, not running unless Docker refused, without run dir; no other container is touched, and no other run dir unless "." is among the tracked |
| Host.LifeLeavesNoTrace | internal/cli/serve.go:140-146 | a start followed by its exit gives the host back exactly as it was, if and only if the ID is not "." or no other session has a run dir |
| HostSteps.StartsAlike | internal/webhook/chat.go:57-362 | the machine's handler steps, each enabled, in a row answer and leave what HandleChatStart answers and leaves |
| HostSteps.ExitsAlike | internal/executor/docker.go:336-384 | the machine's supervisor steps, each enabled, in a row leave what WaitAndCleanup leaves |
| Messages.MessageServer.StdinLock | internal/webhook/handler.go:294-298 | one mutex per session until dropped; a new one is no other session's |
| Messages.MessageServer.DropSession | internal/webhook/handler.go:306-307 | takes away that session's mutex only |
| Messages.MessageServer.HandleMessage | internal/webhook/chat.go:468-534 | 404 untracked, 200 recorded before, 202, 413 or 500 by the write; 202 has written a clear frame for "/clear" and otherwise the message with its ID and content, and has recorded the ID; any other answer has changed neither |
| Messages.MessageServer.HandleChatEnd | internal/webhook/chat.go:415-451 | the exact answer; a tracked run has its stdin closed and is stopped, even if the close fails; an untracked session is left alone; nothing is written or recorded |
| Messages.MessageServer.CloseStdin | internal/webhook/chat.go:424-426 | closes that run's stdin only, with the mutex held |
| Messages.EndsAlike | internal/webhook/chat.go:415-426 | the machine's steps in a row answer as HandleChatEnd does and write and record nothing |
| Messages.DeliversAlike | internal/webhook/chat.go:468-534 | the machine's steps in a row answer, write (a clear frame for "/clear", else the message's ID and content) and record what HandleMessage does |
| DeliveryProofs.WritesCarryTheirRequests | internal/webhook/chat.go:475-505 | every write of every run: a clear frame if and only if its sender's content is "/clear", else its sender's very ID and content |
| DeliveryProofs.LiveRunHasOneWriter | internal/webhook/handler.go:294-308 | until a run's DropSession all its handlers have one and the same mutex, so its stdin has one user at a time |
| DeliveryMutexes.SameMutexExactlyWithoutDrop | internal/webhook/handler.go:294-307 | two handlers of a session have the same mutex if and only if no DropSession came between their stdinLock calls |
| DeliveryMutexes.OverlapMeansADropBetween | internal/webhook/chat.go:423-426 | in every reachable state: two handlers of a session at its stdin at once had a DropSession between their stdinLock calls |
| DeliveryMutexes.OverlapExactlyAcrossADrop | internal/webhook/chat.go:489-504 | two waiting handlers of a session with different messages can come to overlap if and only if a DropSession came between their stdinLock calls |
| DeliveryProofs.WrittenAtMostOnce | internal/webhook/chat.go:492-529 | no message ID is written twice for a session, whatever exits and reopenings come between |
| DeliveryProofs.AcceptedMeansWritten | internal/webhook/chat.go:504-534 | a handler answers 202 if and only if it wrote the message, and writes at most once |
| DeliveryProofs.DuplicateMeansWritten | internal/webhook/chat.go:492-501 | a 200 means the message was written, if no DropSession came between the stdinLock calls |
| DeliveryProofs.DuplicateIsSoundExactlyWhenNobodyIsWriting | internal/webhook/chat.go:492-511 | a duplicate found under the lock is truly written if and only if nobody has it recorded and neither written nor undone; who does took its mutex across a DropSession |
| DeliveryOverlap.WritersOverlapAfterDrop | internal/webhook/handler.go:303-308 | a run in which two handlers are at one exiting run's stdin at once |
| DeliveryOverlap.FalseDuplicateAcrossDrop | internal/webhook/chat.go:489-526 | a run in which a message never written is acknowledged as a duplicate |
| Inbox.ChatInbox.Push | internal/chatwork/inbox.go:62-67 | appends and leaves a wake token |
| Inbox.ChatInbox.CloseInbox | internal/chatwork/inbox.go:69-74 | closes and leaves a wake token |
| Inbox.ChatInbox.Drain | internal/chatwork/inbox.go:84-96 | hands out the whole queue in order, or nothing while held |
| Inbox.ChatInbox.WaitTurn | internal/chatwork/inbox.go:101-123 | one turn of Wait: the oldest message if deliverable, else closed, else park; nothing else changes |
| Inbox.ChatInbox.OnClear | internal/chatwork/inbox.go:131-136 | drops the queue and holds the inbox |
| Inbox.ChatInbox.ReleaseClear | internal/chatwork/inbox.go:144-153 | releases the hold, wakes, and reports whether the inbox was closed with nothing pending |
| Inbox.Pump | internal/chatwork/inbox.go:33-60 | over a whole input: the queue is what survives the clears, held and signalled exactly if there was a clear |
| Inbox.SurvivorsFollowTheLastClear | internal/chatwork/inbox.go:49-52 | of any input, exactly the messages after the last clear survive, in order |
| Inbox.NoClearDropsNothing | internal/chatwork/inbox.go:46-47 | without a clear nothing is dropped |
| Epochs.EpochLoop | internal/chatwork/run.go:258-292 | later epochs start with no history and the primer; a next one starts exactly after a cleared run, unless the inbox was closed with nothing pending |
| EpochQueue.EndsAtAClearExactlyWhenSpent | internal/chatwork/inbox.go:144-153 | at a clear the session ends if and only if the inbox is closed and nothing is pending |
| EpochQueue.EndAtAClearLeavesNothing | internal/chatwork/run.go:274-284 | a session that ends at a clear leaves no message behind: all that were pushed have been delivered, or dropped by a clear |
| EpochQueue.MessagesAreConserved | internal/chatwork/inbox.go:62-126 | in every interleaving the pushed messages are exactly those delivered, dropped and pending; delivery is in order, no repeats |
| EpochQueue.ClearsAreBoundaries | internal/chatwork/run.go:274-284 | nothing pushed before a clear is delivered after it; nothing pushed after it reaches the epoch it was read in |
| EpochSignals.NoLostWakeup | internal/chatwork/inbox.go:101-126 | a parked consumer with something to wake for can be woken now, or by a ping still owed |
| EpochSignals.HeldIsSignalledExactlyUnlessMissed | internal/chatwork/run.go:192-221 | in a running epoch a hold has its signal under way if and only if no clear fell wholly into the gap before it |
| EpochSignals.HeldEpochCanBeReleased | internal/chatwork/run.go:266-291 | from every held and signalled state the worker reaches the release by enabled steps of its own |
| EpochSignals.UnmissedHoldCanBeReleased | internal/chatwork/run.go:266-291 | in every reachable running epoch that is held with no clear missed, the hold can so be released |
| EpochSignals.ClearInTheGapIsLost | internal/chatwork/run.go:280-290 | a run in which the next epoch's consumer is parked behind a hold nobody is signalled about |
| EpochSignals.ClearSignalsAddUp | internal/chatwork/inbox.go:48-57 | every clear frame is taken, drained, coalesced, in the channel or about to be sent; epochs never outnumber clears by more than one |
| EndToEnd.LifecycleIsADeliveryEnvironment | internal/cli/serve.go:140-146 | every run of the host lifecycle, seen from outside, is a run of the environment message delivery is proved in |
| Sessions.HostIsNeverHeldUp | internal/executor/docker.go:325-384 | lifecycle and delivery as one machine: whatever message handlers are at, no step of the host is blocked by them |
| Sessions.HalvesAreRuns | internal/webhook/handler.go:294-320 | each half of a run of the one machine is a run of its own machine, so what is proved of either holds together |
| Sessions.StdinHasOneUserUntilExit | internal/webhook/handler.go:291-307 | from a run's admission until its supervisor gets past the deletion of the mutex, all handlers at its stdin have one mutex and are there one at a time, whatever starts, exits and reopenings intervene |
| EndToEnd.ModelSeesOnlyAcknowledgedMessages | internal/webhook/chat.go:475-534 | each message the model gets has the ID and content of the request of exactly one handler, which wrote it and answers 202; no such request says "/clear" |
| EndToEnd.ModelSeesAcknowledgedMessagesOnceInOrder | internal/webhook/chat.go:504-534 | any two of them come in the order their writes took the stdin lock, from different handlers, and no ID twice |
| Bridge.McpBridge.Reconnect | internal/mcpbridge/bridge.go:157-173 | replaces only the session that failed; who finds it replaced goes on with the new one |
| Bridge.McpBridge.CallTool | internal/mcpbridge/bridge.go:147-176 | answers, attempts, replacement and close for each combination of outcomes |
| Bridge.ReconnectsAlike | internal/mcpbridge/bridge.go:157-173 | the machine's locked section in a row does what Reconnect does |
| Bridge.ReconnectIsSingleFlight | internal/mcpbridge/bridge.go:157-176 | for any number of callers: replaced only by a caller that saw that session poisoned; one replacement, one successful dial, one close per session |
| Bridge.HealthySessionStays | internal/mcpbridge/bridge.go:152-158 | a session nobody found poisoned is never replaced, re-dialled for or closed on replacement |
| Bridge.AtMostTwoAttempts | internal/mcpbridge/bridge.go:152-175 | two attempts at most, the second on another session |
| Redactor.ReadLines | internal/chatwork/redactor.go:106-124 | the non-empty lines in order, and whether a line was too long |
| Redactor.NonEmptyMeaning | internal/chatwork/redactor.go:117-121 | those are taken line by line: cutting the lines up anywhere cuts them up at the same place |
| Redactor.RedactorWatcher.Reload | internal/chatwork/redactor.go:84-102 | what is masked and which time is stamped after a reload, missing or unreadable file included |
| Redactor.RedactorWatcher.Tick | internal/chatwork/redactor.go:145-166 | reloads exactly when a stat succeeds and shows another time |
| Redactor.MatchingStampMeansCurrent | internal/chatwork/redactor.go:72-102 | whatever writers do between stat, read and stamp: a stamp equal to the file's time means the redactor has what the file says now |
| Redactor.OneQuietTickCatchesUp | internal/chatwork/redactor.go:137-151 | one undisturbed tick brings a watcher that is between reloads up to date |
| Redactor.AllMaskedExactlyWhenTokensFit | internal/chatwork/redactor.go:94-123 | all recorded tokens are masked if and only if each fits a scanner line |
| Redactor.FetchedGrowsExactlyWhenReadable | internal/chatwork/redactor.go:94-96 | of two readings of the growing file, the later one masks all the earlier one did if and only if it can be read through, or the earlier could not, or had nothing |
| Redactor.MaskedSetGrowsExactlyWhenReadable | internal/chatwork/redactor.go:84-102 | between any two points of any run: what was masked still is, if and only if the later redactor's tokens all fit, or the earlier one's did not, or were the session's own keys |
| Redactor.LongTokenUnmasksAnother | internal/chatwork/redactor.go:94-97 | for every token and every over-long one: a run in which the first is masked, and unmasked by the tick after the second arrives |
| Redactor.OverlongTokenUnmasks | internal/chatwork/redactor.go:94-97 | a concrete such run |
| Redactor.MaskedSetNeverShrinks | internal/chatwork/credhelper.go:93-110 | with tokens that fit, what is masked stays masked, in every interleaving |
| LineWriting.LineWriter.Write | internal/executor/docker.go:595-613 | any chunk leaves the writer where the whole stream so far puts it, within the cap, and returns the chunk's length |
| LineWriting.LineWriter.AppendBounded | internal/executor/docker.go:617-625 | the buffer is the truncated unfinished segment |
| LineWriting.LineWriter.FlushLine | internal/executor/docker.go:627-634 | emits the buffered line without its trailing carriage returns |
| LineWriting.LineWriter.Flush | internal/executor/docker.go:637-641 | what has been emitted is then exactly the stream's lines |
| LineWriting.Pump | internal/executor/docker.go:299-318 | for every chunking of a stream the lines are those of the whole stream |
| LineWriting.SplitIsFaithful | internal/executor/docker.go:583-585 | the split that defines those lines cuts at every newline and loses nothing |
| LineWriting.StreamMeaning | internal/executor/docker.go:583-641 | terminated lines deliver one line each, in order, and an unterminated last one exactly if it is not empty |
| LineWriting.DeliveredMeaning | internal/executor/docker.go:615-634 | what is delivered is the start of its line; missing are only what lies past the cap and carriage returns before that |
| LineWriting.TrimCRsMeaning | internal/executor/docker.go:632 | trimming removes carriage returns from the end only, and all of them |
| EnvFile.Open | internal/secrets/secrets.go:28-62 | missing, unreadable, over-long and readable files, to the map of their definitions |
| EnvFile.OpenMeaning | internal/secrets/secrets.go:28-62 | a missing file is empty; any other failure to read, and a line that does not fit, is an error; all other lines are parsed, each less one carriage return, the unterminated last one too |
| EnvFile.EntryMeaning | internal/secrets/secrets.go:43-55 | a line defines a key exactly if it is the key, free of '=', then '=' and the value, and is no comment |
| EnvFile.LastDefinitionWins | internal/secrets/secrets.go:43-55 | a key is read exactly if some line defines it, with the value of the last one that does |
| LineScanner.ScanWhole | internal/secrets/secrets.go:41-59 | the lines of any text up to the first that does not fit, each less one carriage return, an unterminated last one included; it fails exactly if one does not fit |
| EnvFile.WriteEnvFile | internal/secrets/secrets.go:73-86 | writes one line per key, in the order of `SortedAscends`, whatever order the map yields them in |
| EnvFile.OutputDependsOnlyOnTheMap | internal/secrets/secrets.go:71-72 | rewrites are byte-identical |
| EnvFile.RoundTripExactlyWhenStorable | internal/secrets/secrets.go:43-86 | Open gives back what WriteEnvFile was given if and only if keys are plain and values single-line, without trailing carriage return, in lines that fit |
| EnvFile.LexLeMeaning | internal/secrets/secrets.go:81 | the order keys are compared by: a prefix, or the smaller character where the two first differ |
| EnvFile.SortedAscends | internal/secrets/secrets.go:81 | the sorted keys ascend in that order, each as often as it was given |
| Resume.WriteResumeJSONL | internal/webhook/chat.go:386-403 | one encoded line per turn, in order |
| Resume.LoadResume | internal/chatwork/resume.go:60-93 | turns in order with blank lines skipped; a bad line fails the load before an over-long one does |
| Resume.LoadMeaning | internal/chatwork/resume.go:73-92 | of any text: a line that is not blank and does not decode, before the first that does not fit, is a bad line; only without one does a line that does not fit fail the scan; else the load succeeds |
| Resume.DecodeMeaning | internal/chatwork/resume.go:73-86 | one turn for every line that is not blank, in order, unless one of them does not decode |
| Resume.RoundTripExactlyWhenLinesFit | internal/chatwork/resume.go:54-92 | for a codec that inverts: the same turns come back if and only if every line fits 1 MiB |
| Resume.SeedHistory | internal/chatwork/resume.go:22-49 | the history that `SeedMeaning` describes; none for a missing transcript |
| Resume.SeedMeaning | internal/chatwork/resume.go:29-42 | exactly the turns with content and one of the four roles give a message each, in order, with their content, in the user's name for user turns, the assistant's for assistant_text and the system's for the rest |
| Resume.SeedIsInOrder | internal/chatwork/resume.go:29-42 | splitting a transcript anywhere splits its history at the same place |
| Resume.SeededHistoryAssistantFirst | internal/chatwork/resume.go:34-41 | a seeded history is assistant-first if and only if the first turn anybody speaks in is the assistant's |
| RoleOrder.LeadingAssistant | internal/chatwork/roleorder.go:90-104 | the position of the first non-system message if it is an assistant turn, else -1 and there is none |
| RoleOrder.RoleOrderFallback.Send | internal/chatwork/roleorder.go:45-86 | the calls made, the answer returned and when it engages (`ResolveMeaning`); the caller's array is untouched |
| RoleOrder.ResolveMeaning | internal/chatwork/roleorder.go:45-86 | resent are exactly the assistant-first requests without details that are refused with 400 while not engaged; engaged, they are relabelled at once; it engages when a resend is accepted |
| RoleOrder.FlipChangesOneRole | internal/chatwork/roleorder.go:51-53 | the resend differs in exactly one role and is not assistant-first |
| RoleOrder.StrictGatewayIsServed | internal/chatwork/roleorder.go:55-85 | against a gateway refusing exactly assistant-first requests: every request without reasoning details succeeds in at most two calls, at most one of them is ever refused |
| RoleOrder.LenientGatewaySeesIdenticalCalls | internal/chatwork/roleorder.go:59-67 | against a gateway that never answers those with 400 the wrapper is invisible |

## Left out

- LifecycleTheorems.SerialStartsAreIsolated: assumes of callers what the program does not enforce, that starts of one session are kept apart and "." is not started; LifecycleOverlap.IsolatedExactlyWhenHandlersAreSerial shows both are needed. LifecycleTheorems.ApartMeansKept and LifecycleTheorems.BridgedLinesAreMasked each assume the part they need.
- Files that a session of "." and one named "resume.jsonl" would share, and the other sessions' transcripts that a container of "." gets to see.
- Docker making a bind source that has gone missing between the mkdir and the create.
- LifecycleTheorems.CleanShutdownIsComplete: a shutdown that timed out with handlers still running gets no promise.
- LifecycleOwnership.EveryTrackedRunHasOneOwner: does not say a recorded reason was meant for the run it labels, because Stop and Kill look the run up and set the reason in two steps.
- EpochSignals.HeldEpochCanBeReleased: gives an enabled path to the release, not that a scheduler takes it.
- EndToEnd.ModelSeesAcknowledgedMessagesOnceInOrder: the pipe between host and worker is taken to deliver a prefix of what was written.
- Host.ChatHost.HandleChatStart: env and bind assembly, task-skills, request decoding and the container ID in the response are not modelled; a missing LLM proxy counts as a missing endpoint, which is answered alike.
- Messages.MessageServer.HandleChatEnd: that Stop is called by session ID, and may so reach a later run of it, is not captured.
- Redactor.MaskedSetNeverShrinks: masking itself (redact.New, Apply) is not part of this model; what is kept is the set of secrets.
- EnvFile.WriteEnvFile: the temporary file, chmod and rename are not modelled, only the text.
- Resume.RoundTripExactlyWhenLinesFit: the JSON codec is a parameter.
- The machines are datatypes and pure step functions rather than objects: the Go objects are shared between goroutines, and it is their interleaving that the machines are about. The classes above state the sequential code; aliasing of Run pointers between tracker and handlers is not captured.
- Expiry in the dedup cache: it is a set with an atomic check-and-record and rollback that never forgets.
- The bytes of two overlapping writes to one stdin: a write succeeds or fails as a whole.
- RemoveAll and ContainerRemove are taken to succeed.
- The /chat/end handler's Stop, and Stop and Kill from elsewhere, appear in the lifecycle as a reason set at any time and a container that exits at any time.
- An old epoch's watcher whose cancel comes after the next epoch has begun: its context is no longer anybody's.
- Sessions dialled after Bridge.Close, and tool adapters, schemas and result conversion.
- Clear frames and messages that the frame reader rejects; the frame codec itself.
- Wall-clock time: the drain bound, poll interval and kill timeouts fire at any moment.
- The credential fetch loop, image listing, orphan cleanup, configuration, metrics and command-line wiring: small and locally obvious.
