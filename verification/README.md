# Verified model of Crush's session, workspace, credential and output protocols

This project models the stateful cores of Crush, a terminal coding agent, in Dafny and proves
what they promise. The `.dfy` files stand on their own; `dafny verify dfyconfig.toml` checks
them all.

* **Prompt dispatch.** `AgentState.dfy` has one function per lock section of `sessionAgent`.
  `SessionAgent.dfy` holds the object whose methods are proved against these functions.
  `DispatchProtocol.dfy` interleaves the sections of any number of prompts, of Cancel (in two
  steps, because accepting and closing do not take the dispatch mutex), and of what
  `coordinator.run` and `backend.runAgent` do around a run. `AgentInvariants.dfy`,
  `DispatchInvariants.dfy` and `DispatchMoves.dfy` carry the invariants, and
  `DispatchTheorems.dfy`, `SessionTheorems.dfy` (one session against the others) and
  `QueueTheorems.dfy` (fate and order of queued prompts, marks) the results. `RunGate.dfy` is
  SendMessage against Workspace.Shutdown.
* **Workspace lifecycle.** `BackendState.dfy` (lock sections as functions), `Backend.dfy`
  (Backend, Workspace and clientState as objects), `BackendProtocol.dfy` (creates with slow
  work between two sections, teardowns in flight, timers that fire after Stop),
  `BackendTheorems.dfy` and `LifecycleTheorems.dfy` (one claim, one create, one latch).
* **OAuth refresh across processes.** `TokenRefresh.dfy` (the decisions and the method) and
  `TokenProtocol.dfy` (processes, disk, lock and a provider that rotates refresh tokens, which
  is section 4.14.2 of RFC 9700 on top of section 6 of RFC 6749). `RecentModels.dfy` is the
  bounded list of recent models.
* **Conversation repair.** `Conversation.dfy` (stored and provider messages, the loops),
  `ConversationTheorems.dfy`, `MediaTheorems.dfy` and `HistoryTheorems.dfy` (what is said).
* **Output and storage.** `RunStream.dfy` is the stdout reconciler of `crush run`;
  `ConnectionPool.dfy` the pool of database connections with its data-directory lock.

`Common.dfy` has shared helpers. A run is a sequence of states and events; every statement
about runs holds for all of them, of any length and with any number of prompts, clients or
processes.

## Findings

* A prompt with a RunID that ends before the RunComplete defer is installed gets no terminal
  event when it was handed off, was cancelled at that point, or was started in-process;
  `DispatchTheorems.FinishedMeansOneEvent` gives the exact condition.
* The comment at internal/backend/backend.go:466-469 says that the latch cannot flip during a
  slow create. Backend.Shutdown (backend.go:1002) can flip it; nothing in the repository calls
  that method, so this needs an outside caller. The re-check beneath the comment handles the
  case, and `BackendTheorems.LatchedCreatesRegisterNothing` covers it.
* A login whose token expires earlier than a token that another process holds and that the
  provider no longer accepts can lead that process to present a rotated refresh token. The condition
  on logins is exact (`TokenProtocol.LoginConditionIsExact`). A rotation whose write is lost
  does the same (`TokenProtocol.LostWriteLeadsToReuse`).
* Files of queued prompts that are folded into a turn of a text-only model are not stripped
  (`MediaTheorems.TextOnlyStepIsCleanUnlessFolded`).
* A config file whose list of recent models repeats one among its first five entries may keep
  the repetition for good (`RecentModels.RepetitionStays`).

`Findings.dfy` has a concrete run for each of the first four: `PromptWithoutEvent`,
`InProcessWithoutEvent`, `HandedOffWithoutEvent`, `LatchDuringCreate`, `EarlyLogin`, `LostWrite`
and `FoldedImage`.

## Model

| member | source | states |
|---|---|---|
| SessionAgentClass.AcceptedRun.Close | internal/agent/agent.go:286-296 | Only the first call of a handle releases the reservation, and the last reservation of a session takes its mark along; a later call changes nothing. |
| SessionAgentClass.SessionAgent.BeginAccepted | internal/agent/agent.go:307-317 | Counts one more accepted run of the session and returns an open handle with the next sequence number. |
| SessionAgentClass.SessionAgent.EndAccepted | internal/agent/agent.go:332-342 | Counts one accepted run less; the session's cancel mark goes with the last one. |
| SessionAgentClass.SessionAgent.CanceledBySeq | internal/agent/agent.go:498-504 | True exactly if the session has a non-zero mark and the sequence is untracked (0) or at most the mark. |
| SessionAgentClass.SessionAgent.EnqueueCall | internal/agent/agent.go:368-385 | The call joins the tail of the queue without its hook and handle, and keeps the handle's sequence. |
| SessionAgentClass.SessionAgent.EnterRun | internal/agent/agent.go:593-655 | Run's dispatch section: cancelled on entry exactly if the session's mark covers the handle; else queued at the tail exactly if the call's own session is busy; else registered as that session's active run. The reservation is released in each case. |
| SessionAgentClass.SessionAgent.CompareAndDelete | internal/csync/maps.go:66-80 | The active entry is removed exactly if it is the caller's own. |
| SessionAgentClass.SessionAgent.CompletionDel | internal/agent/agent.go:1258-1263 | The session's active entry goes; on the caller's own entry this is CompareAndDelete, and a later CompareAndDelete of any run finds nothing to remove. |
| SessionAgentClass.SessionAgent.DrainQueueForStep | internal/agent/agent.go:404-430 | Splits the queue, in order, by mark and RunID: folded are the uncovered calls without RunID, announced the covered ones with one, kept the uncovered ones with one; nothing else of the agent changes. |
| SessionAgentClass.SessionAgent.PublishCanceledQueueDrops | internal/agent/agent.go:440-463 | One cancelled RunComplete for every dropped call with a RunID, in order, none for the others. |
| SessionAgentClass.SessionAgent.DropCovered | internal/agent/agent.go:1290-1313 | Exactly the calls that the session's mark covers are dropped, those with a RunID are announced, and the kept ones are written back exactly if there is a mark and a queue. |
| SessionAgentClass.SessionAgent.HandOff | internal/agent/agent.go:1287-1363 | The whole handoff section: covered calls go, those with a RunID announced; the first of the rest gets a fresh reservation; with no rest the mark goes unless a run is accepted. |
| SessionAgentClass.SessionAgent.ClearIdle | internal/agent/agent.go:1314-1330 | With nothing queued, the queue entry goes, and the mark goes only if no accepted run is left. |
| SessionAgentClass.SessionAgent.ClearQueueAndNotify | internal/agent/agent.go:469-476 | The queue is emptied and every RunID in it is announced as cancelled. |
| SessionAgentClass.SessionAgent.ClearQueue | internal/agent/agent.go:2060-2065 | The same through the public entry point. |
| SessionAgentClass.SessionAgent.Cancel | internal/agent/agent.go:2004-2058 | Stops the context of the session's own active run and of no other, raises the mark to the generator if a run of the session is accepted, empties the session's queue, and leaves other sessions alone. |
| AgentInvariants.BeginAcceptedKeeps | internal/agent/agent.go:307-317 | A new handle keeps the counts, sequences and marks consistent, and its number was not in use. |
| AgentInvariants.CloseHandleKeeps | internal/agent/agent.go:319-342 | Closing a handle keeps them too, and a mark survives while any handle of its session is open. |
| AgentInvariants.EnterRunKeeps | internal/agent/agent.go:593-655 | The dispatch section keeps them. |
| AgentInvariants.HandoffKeeps | internal/agent/agent.go:1287-1363 | The handoff section keeps them. |
| DispatchInvariants.RunKeeps | internal/agent/agent.go:593-655 | Every reachable state of the dispatch protocol satisfies the invariant: counts, marks, queues, run identities, places of prompts and terminal events fit together. |
| DispatchMoves.StepMoves | internal/agent/agent.go:404-430 | Every step moves every prompt along one of the allowed transitions between pending, waiting, running and finished. |
| DispatchTheorems.CancelCoversEarlierPrompts | internal/agent/agent.go:2004-2058 | Once Cancel of a session started, no prompt of it accepted before is made active or folded in any later step of any run; a run registered at that moment has its context cancelled; after Cancel it no longer waits in a queue. |
| DispatchTheorems.CancelSparesLaterPrompts | internal/agent/agent.go:484-504 | A prompt accepted with a handle is neither cancelled on entry nor dropped as long as no later Cancel of its session starts and its queue is not cleared. |
| DispatchTheorems.DrainEndsUntrackedUnderMark | internal/agent/agent.go:490-504 | At a drain a queued prompt with a RunID ends exactly if it is untracked and its session has a mark; a tracked one always stays. |
| DispatchTheorems.DroppedWasCovered | internal/agent/agent.go:404-430 | A prompt leaves a queue unrun only if the mark covers it or its queue is cleared. |
| DispatchTheorems.PlaceIsReal | internal/agent/agent.go:368-430 | The recorded place of a prompt is where it is: with one goroutine, in one turn, in one queue slot, or nowhere because it is finished. |
| DispatchTheorems.PromptsAreConserved | internal/agent/agent.go:593-655 | In every reachable state a prompt is in exactly one place, at most one RunComplete was published for it, and none unless it is finished. |
| DispatchTheorems.RunIDsAreNeverFolded | internal/agent/agent.go:396-403 | A prompt with a RunID is never folded into another turn. |
| DispatchTheorems.FateHistory | internal/agent/agent.go:758-790 | A prompt is recorded as lost or refused exactly if such a step happened to it. |
| DispatchTheorems.FinishedMeansOneEvent | internal/backend/agent.go:87-122 | A finished prompt with a RunID whose goroutine is gone had exactly one RunComplete, and none if and only if it was refused synchronously or ended before the RunComplete defer on a path the fallback does not cover. |
| DispatchTheorems.AcceptCountsAndMarks | internal/agent/agent.go:307-342 | acceptedRuns equals the number of open handles, marks and sequences stay at most the generator, and no tracked queued call is at or below the mark. |
| DispatchTheorems.MarkStaysWhileOpen | internal/agent/agent.go:319-342 | A mark that covers an open handle still covers it after any step that leaves the handle open. |
| DispatchTheorems.OneStreamingRun | internal/agent/agent.go:625-655 | At most one run per session is registered, and the session's entry is that run's. |
| DispatchTheorems.CleanupSparesNewerRuns | internal/agent/agent.go:656-662 | Neither the completion Del nor the deferred cleanup of one goroutine removes an entry that another one registered. |
| DispatchTheorems.CompletionDelIsConditional | internal/agent/agent.go:1258-1263 | In every run the unconditional completion Del removes exactly the goroutine's own entry: it has the effect of the conditional deletion. |
| DispatchTheorems.BusyHasOwner | internal/agent/agent.go:656-662 | A busy session has a goroutine that still owes the cleanup of its entry. |
| SessionTheorems.OwnSessionDecides | internal/agent/agent.go:593-655 | In every run a prompt that enters Run ends if a cancel of its session covers it, else waits at the tail exactly if its own session has a registered run, and else becomes that session's registered run. |
| SessionTheorems.StoppedByOwnCancel | internal/agent/agent.go:2014-2022 | In every run the context of a run is cancelled if and only if a Cancel of the run's own session started while the run was registered. |
| SessionTheorems.SessionsDoNotInterfere | internal/agent/agent.go:344-362 | A step about one session leaves the queue, active entry, mark and reservations of every other session as they are and moves none of its prompts or goroutines. |
| QueueTheorems.DrainDecidesEach | internal/agent/agent.go:404-430 | At a step drain every queued prompt is decided: covered ones end, with an event if they have a RunID; of the others, those without a RunID are folded and those with one wait on. |
| QueueTheorems.HandOffDecidesEach | internal/agent/agent.go:1287-1363 | When a turn completes, covered prompts end, the first of the rest is handed off with a fresh reservation, the others wait on in order; with no rest the mark goes unless a reservation is open. |
| QueueTheorems.ClearingEndsEach | internal/agent/agent.go:465-476 | A Cancel or ClearQueue ends every queued prompt of the session, with an event exactly if it has a RunID. |
| QueueTheorems.NoOvertaking | internal/agent/agent.go:364-385 | A prompt that joins the queue behind another is not handed off before it: as long as both wait, their order stays, and the later one goes only if the earlier one ends. |
| QueueTheorems.MarkGoesWithLastHandle | internal/agent/agent.go:319-342 | A step that closes the last open reservation of a session leaves it without a mark. |
| QueueTheorems.CancelMarkIsExact | internal/agent/agent.go:2029-2050 | After a Cancel the mark is the generator read at its start, or the old one if that is later, exactly if a reservation of the session was open at the start; else it is the old one. |
| QueueTheorems.IdleCancelChangesNothing | internal/agent/agent.go:2004-2012 | A Cancel of a session without active run, open reservation or queued prompt changes nothing of the agent. |
| RunGate.GateOpensUntilShutdown | internal/backend/agent.go:48-57 | In every run a SendMessage is dispatched if no Shutdown started before it reached the gate, and turned away otherwise. |
| RunGate.NoDispatchAfterClosing | internal/backend/agent.go:48-60 | After closing is set no run is dispatched: every later SendMessage is turned away. |
| RunGate.NoRunOutlivesCleanup | internal/backend/backend.go:242-257 | From the moment any Shutdown starts the embedded cleanup, no dispatched run is left. |
| RunGate.ReleasedExactlyOnce | internal/backend/agent.go:48-60 | Each reservation is released at most once, and exactly once when its SendMessage was refused or its goroutine is over. |
| RunGate.Workspace.PassGate | internal/backend/agent.go:50-57 | The decision on closing and the wait-group ticket are the protocol's one step, and its result says whether the protocol dispatched the send. |
| RunGate.Workspace.RunDone | internal/backend/agent.go:88-88 | A returning run gives its ticket back as the protocol's step does, and the counter never goes negative. |
| RunGate.Workspace.MarkClosing | internal/backend/backend.go:243-245 | Shutdown's first section is the protocol's step, and every send that then reaches the gate is turned away. |
| BackendClass.Workspace.RegisterClient | internal/backend/backend.go:693-718 | A fresh timer-held claim object, unless open streams hold the claim; the current session is carried over. |
| BackendClass.Workspace.Attach | internal/backend/backend.go:583-597 | A stream is added to the client's claim and its timer goes; without a claim one is made. |
| BackendClass.Workspace.ExpireHold | internal/backend/backend.go:722-736 | A timer removes only the claim object it was armed for, still timer-held and without streams. |
| BackendClass.Workspace.ReleaseHold | internal/backend/backend.go:738-763 | A claim without streams goes; one with streams is marked released. |
| BackendClass.Workspace.DetachStream | internal/backend/backend.go:765-798 | One stream less; the last one starts the grace timer, or removes the claim if it was released or there is no grace. |
| BackendClass.Workspace.DropClient | internal/backend/backend.go:648-659 | RetireClient's work on one workspace. |
| BackendClass.Backend.AdmitLocked | internal/backend/backend.go:617-625 | Refuses every client after the latch, and retired clients always. |
| BackendClass.Backend.AttachClient | internal/backend/backend.go:570-598 | Attaches on a mapped workspace, or reports that there is none and changes nothing. |
| BackendClass.Backend.RetireClient | internal/backend/backend.go:637-660 | The client is retired and loses its claim on every mapped workspace; the result is exactly the set of workspaces it was last on. |
| BackendClass.Backend.BeginCreate | internal/backend/backend.go:359-395 | First section of a create: refused, joined to the indexed workspace with its claim registered, or one more pending create; an admitted create disarms the idle timer. |
| BackendClass.Backend.FinishCreate | internal/backend/backend.go:462-500 | Second section: refused, joined to a workspace that won the race, or the new workspace mapped, indexed and claimed at once. |
| BackendClass.Backend.SettleCreate | internal/backend/backend.go:397-411 | The deferred section: pending drops and idleness is decided. |
| BackendClass.Backend.ScheduleShutdownIfIdleLocked | internal/backend/backend.go:857-872 | Only an empty server with nothing pending is latched or gets its timer armed. |
| BackendClass.Backend.Teardown | internal/backend/backend.go:811-834 | Removes the workspace from map and index only if it has no claims, then decides on idleness; the caller is told to run the shutdown function exactly if the removal left an idle server that has one and does not linger. |
| BackendClass.Backend.MaybeShutdown | internal/backend/backend.go:890-903 | The idle timer's callback clears the timer and latches exactly if no workspace is live and no create is pending. |
| BackendClass.Backend.ShutdownIfIdle | internal/backend/backend.go:1022-1040 | Grants exactly if no workspace is live and no create is pending, and latches exactly if it grants. |
| BackendProtocol.RunKeeps | internal/backend/backend.go:345-903 | Every reachable state satisfies the invariant on workspaces, claims, index, teardowns, pending creates, timer and latch. |
| BackendTheorems.ServerNeverExitsUnderWorkspace | internal/backend/backend.go:857-903 | When anything but an explicit Shutdown sets the latch, no workspace is live and no create is pending, in that state and in every later one. |
| BackendTheorems.LatchedCreatesRegisterNothing | internal/backend/backend.go:462-500 | After any latch no section of any create changes the workspaces or the claims, even for creates already in their slow init. |
| BackendTheorems.MapChanges | internal/backend/backend.go:811-834 | A workspace leaves the map only through its own teardown and only without claims; it enters only as the fresh workspace of a create. |
| BackendTheorems.NoneStolenNoneOrphaned | internal/backend/backend.go:799-834 | A workspace with a claim stays mapped through every step; a mapped one without claims has a teardown in flight. |
| BackendTheorems.RemovedStaysRemoved | internal/backend/backend.go:562-598 | A removed workspace is never mapped again and never gains a claim again. |
| BackendTheorems.OneLiveWorkspacePerPath | internal/backend/backend.go:476-495 | pathIndex and the workspace map are inverse on live workspaces in every reachable state. |
| BackendTheorems.CreateReturnsClaimedWorkspace | internal/backend/backend.go:367-500 | A create that succeeds, in either section, returns the indexed live workspace of its path, with the caller registered and the requested channels; a refused one changes no workspace. |
| BackendTheorems.ClaimShapeHolds | internal/backend/backend.go:693-798 | Every claim has open streams and no timer, or a timer and no streams. |
| BackendTheorems.StreamsAreConserved | internal/backend/backend.go:570-798 | Each event changes the open streams of a client on a workspace by exactly its own attach, detach or retirement, and by nothing else. |
| BackendTheorems.StreamKeepsWorkspace | internal/backend/backend.go:562-598 | A workspace with an open stream stays mapped with that claim until the client detaches or retires. |
| BackendTheorems.ExpiryIsExact | internal/backend/backend.go:722-736 | A firing timer removes a claim if and only if it is the claim object it was armed for and no stream is open on it. |
| BackendTheorems.StaleTimersSpareReArmedClaims | internal/backend/backend.go:686-708 | A claim re-armed by a create survives every timer armed before, even one that had already fired. |
| BackendTheorems.ReArmIsFresh | internal/backend/backend.go:693-718 | Re-arming installs a new claim object; joining open streams keeps the object. |
| BackendTheorems.RetireBeatsCreate | internal/backend/backend.go:627-660 | After RetireClient, whatever creates of the client were under way or arrive later, it holds no claim anywhere as long as it opens no stream. |
| BackendTheorems.IdleAccountingIsExact | internal/backend/backend.go:857-903 | pending counts the creates in flight; an armed timer means no live workspace and no pending create; after the first admitted create an idle server has an armed timer or a set latch. |
| LifecycleTheorems.LatchHistory | internal/backend/backend.go:857-903 | The latch is set if and only if some earlier step decided to stop: an explicit Shutdown, a request or the idle timer on a server without live workspace and create, or the section that left a non-lingering server so. |
| LifecycleTheorems.IdleDecisionLatches | internal/backend/backend.go:1014-1040 | A granted request and a firing idle timer latch, and every later create is refused in both sections and changes nothing; on a server that is not idle the latch stays as it was. |
| LifecycleTheorems.LingeringArms | internal/backend/backend.go:857-872 | With lingering, the section that leaves the server idle arms the timer and does not latch. |
| LifecycleTheorems.RetiredHistory | internal/backend/backend.go:637-645 | A client is refused as retired if and only if its RetireClient came before. |
| LifecycleTheorems.CreateAnswers | internal/backend/backend.go:359-500 | Every create gets, from either section, the right answer: refused by latch or retirement, joined to the live workspace of the path if the channels agree and refused if not, and else the slow init or a fresh workspace. |
| LifecycleTheorems.LifeOfAClaim | internal/backend/backend.go:562-798 | In every run each step changes each client's claim on each workspace exactly as its table says: identity, streams, timer, released mark and session, for create, attach, detach with and without grace, release, expiry and retirement. |
| LifecycleTheorems.StreamlessClaimsExpire | internal/backend/backend.go:713-736 | Every claim without open streams has a callback in flight that was armed for it. |
| LifecycleTheorems.TeardownIsExact | internal/backend/backend.go:811-834 | A teardown takes its workspace off the map if and only if nobody holds a claim on it by then, and no other workspace. |
| TokenRefresh.NewerDiskToken | internal/config/store.go:745-780 | The disk token is returned if and only if there is one, its access token differs, it expires no earlier than the caller's, and it does not lack a refresh token that the caller's has. |
| TokenRefresh.ConfigStore.RefreshOAuthTokenLocked | internal/config/store.go:602-682 | What one refresh leaves in memory, presents, writes and reports, in every combination of lock, disk contents and exchange results. |
| TokenRefresh.RefreshDecides | internal/config/store.go:602-682 | What one refresh takes up, presents, writes and reports, case by case, in terms of what the disk holds and how much lifetime is left: more than 30 seconds and more than a tenth. |
| TokenRefresh.RefreshIsMonotone | internal/config/store.go:602-682 | One refresh presents nothing without the lock and at most two tokens with it, never takes up a token that expires earlier except one just issued, and writes only what was issued to it. |
| TokenProtocol.NoRotatedTokenIsPresented | internal/config/store.go:576-682 | With any number of processes, the provider accepts the token presented at every exchange; it is the one on disk, or one that expires later; reuse is never detected. |
| TokenProtocol.TheDiskTokenIsPresented | internal/config/store.go:637-651 | If every login so far expired no earlier than the disk token, the token presented is the one on disk. |
| TokenProtocol.OneExchangeWhileValid | internal/config/store.go:576-682 | After a successful exchange no process that entered with another token exchanges while the new token stays valid. |
| TokenProtocol.LateReaderAdopts | internal/config/store.go:637-651 | Such a process, once it reads the disk under the lock, ends with the new token in memory. |
| TokenProtocol.RetryIsUnreachable | internal/config/store.go:656-669 | While the lock is respected the second exchange of a refresh never happens. |
| TokenProtocol.LoginConditionIsExact | internal/config/store.go:515-527 | In every reachable state a login under the lock is harmless, that is, each token that another process holds or that a process waits to refresh expires no later than the login's or is still accepted, if and only if no continuation at all presents a rotated token. |
| TokenProtocol.EarlyExpiringLoginIsSkipped | internal/config/store.go:775-778 | On the direct way a peer whose refresh token was rotated away presents it under the lock after a login if and only if the login's token expires earlier than the peer's stale one. |
| TokenProtocol.LostWriteLeadsToReuse | internal/config/store.go:672-681 | If the write after a rotation fails, the next process presents the rotated token. |
| RecentModels.RecentModelsRefineHistory | internal/config/store.go:884-918 | From an empty list, after any selections, the list is the five first distinct valid selections of the whole history, latest first, without other fields. |
| RecentModels.OneSelection | internal/config/store.go:884-918 | An incomplete selection changes nothing; a complete one comes first, with the entries of other models behind it in their order, five entries at most. |
| RecentModels.FollowsFromCleanStart | internal/config/store.go:884-918 | From a list in a config file this holds at every time, the time before the first selection included, if and only if that list has at most five entries and no repetition. |
| RecentModels.FirstSelectionDecides | internal/config/store.go:884-918 | After the first valid selection it holds if and only if the keys kept behind that selection do not repeat. |
| RecentModels.FollowsOnceSelected | internal/config/store.go:884-918 | For every list, over-long or with repetitions: every history with a valid selection repairs it if and only if no valid selection keeps a repetition behind it. |
| RecentModels.RepairedExactlyIfFirstFiveDiffer | internal/config/store.go:884-918 | If the first five entries are valid, every such history repairs the list if and only if those five do not repeat. |
| RecentModels.RepetitionStays | internal/config/store.go:884-918 | A list with one model twice keeps the repetition however often another model is selected. |
| Conversation.PreparePrompt | internal/agent/agent.go:1576-1654 | The history and the files, from the reminder, each message's contribution in order, and the attachments; HistoryTheorems.HistoryIs and HistoryTheorems.AttachmentsFollowTheModel pin down what they are. |
| Conversation.CollectIds | internal/agent/agent.go:1588-1603 | The ids of calls in assistant messages and of results in tool messages. |
| Conversation.Convert | internal/agent/agent.go:1605-1637 | What the loop appends for one stored message, which HistoryTheorems.HistoryIs shows to be the reference for that message. |
| Conversation.AttachedFiles | internal/agent/agent.go:1639-1651 | The non-text attachments, for a model with images only. |
| Conversation.FilterFileParts | internal/agent/agent.go:1659-1668 | All parts but files, in order. |
| Conversation.FilterOrphanedToolResults | internal/agent/agent.go:1675-1702 | The tool message without results whose call is unknown, or nothing if no part is left. |
| Conversation.SyntheticToolResultsForOrphanedCalls | internal/agent/agent.go:1711-1736 | A tool message with one interrupted result per unanswered call, or nothing. |
| Conversation.WorkaroundProviderMediaLimitations | internal/agent/agent.go:2203-2287 | The loop computes the rewritten conversation for every provider and model. |
| Conversation.SplitMedia | internal/agent/agent.go:2225-2270 | One tool message is split into its text form and its decoded files. |
| ConversationTheorems.ToolCallClosure | internal/agent/agent.go:1588-1637 | For every message list the call ids of the history are those of the session, and its result ids are the same set. |
| ConversationTheorems.CallsAreKept | internal/agent/agent.go:1620-1637 | The calls of the history are the stored ones, in order and multiplicity. |
| ConversationTheorems.ResultMultiplicity | internal/agent/agent.go:1588-1637 | How often each id occurs among the results of the history, for every message list: as stored if it has a call, never without one, as called if no result is stored. |
| ConversationTheorems.OneResultPerCall | internal/agent/agent.go:1588-1637 | If no stored call and no stored result has an id twice, calls and results of the history have the same ids, each exactly once. |
| ConversationTheorems.SyntheticResultsFollowTheirCalls | internal/agent/agent.go:1704-1736 | An assistant message with unanswered calls is followed at once by a tool message that answers exactly those, in order. |
| ConversationTheorems.NoAnswerIsLost | internal/agent/agent.go:1670-1702 | Every stored result that has a call is in the history, with its content and in order. |
| ConversationTheorems.UserFilesFollowTheModel | internal/agent/agent.go:1620-1629 | A model with images gets all non-text files of the user messages in order; one without gets none. |
| MediaTheorems.ResultIdsAreKept | internal/agent/agent.go:2203-2287 | The sequences of tool-result ids and of tool-call ids are kept. |
| MediaTheorems.OtherMessagesAreKept | internal/agent/agent.go:2216-2221 | Every non-tool message is kept, unchanged and in order; without image support nothing is added. |
| MediaTheorems.WorkaroundIsIdempotent | internal/agent/agent.go:2203-2287 | Applying the workaround twice is applying it once. |
| MediaTheorems.MediaIsConserved | internal/agent/agent.go:2240-2284 | For a model with images, user files and decodable tool media reach the model once each, in the original order. |
| MediaTheorems.TextOnlyLeavesFiles | internal/agent/agent.go:2229-2243 | For a text-only model on another provider exactly the file parts that were there before remain. |
| MediaTheorems.TextOnlyStepIsCleanUnlessFolded | internal/agent/agent.go:837-847 | A step of such a model sends no file and no media part if and only if no folded queued prompt carries a non-text file. |
| MediaTheorems.WhoGetsTheWorkaround | internal/agent/agent.go:2203-2210 | Anthropic, Bedrock and Bedrock Europe get every conversation as it is; the workaround goes message by message. |
| MediaTheorems.EveryPartIsReplaced | internal/agent/agent.go:2225-2284 | For another provider each part of a tool message becomes, in its place, what it should, with the fixed texts; the decoded files follow in one user message, named after their calls. |
| HistoryTheorems.HistoryIs | internal/agent/agent.go:1576-1637 | For every message list the history is the opening and then, message by message, a one-pass reference that knows nothing of skipping, converting, stripping and repairing. |
| HistoryTheorems.EveryWordIsThere | internal/message/content.go:532-605 | The text and reasoning of the history are, in order, the opening's, every user's text and every assistant's trimmed text and reasoning; nothing is lost or added. |
| HistoryTheorems.EveryMessageStands | internal/agent/agent.go:1605-1637 | Every user message with a part stands in the history exactly once, in order, and every assistant message too, left out exactly if it has no call, no text and no reasoning; there are no others. |
| HistoryTheorems.AttachmentsFollowTheModel | internal/agent/agent.go:1639-1651 | The files of the prompt are, for a model with images, the non-text attachments in order; for another model there are none. |
| RunStream.RunStreamState.HandleEvent | internal/cmd/run.go:340-447 | The effect of one event on cursor, output and verdict, for every event and state; an event that ends the run fails the command exactly as it should, and then prints nothing. |
| RunStream.FirstStopDecides | internal/cmd/run.go:340-447 | For every stream and trace the verdict follows from the trace alone: the first event that ends the run or shrinks a message decides; a RunComplete fails the command exactly if it has an error and was not cancelled; a failing event prints nothing. |
| RunStream.OnlyOwnEventsMatter | internal/cmd/run.go:358-363 | With a RunID, the outcome and output of any trace are those of the run's own events alone. |
| RunStream.StdoutIsComplete | internal/cmd/run.go:355-421 | Without a RunID, growing snapshots of one message and its RunComplete put exactly the final text on stdout, minus a white-space prefix, whatever foreign events come between. |
| RunStream.StdoutWithRunID | internal/cmd/run.go:384-421 | With a RunID nothing is printed before the run's RunComplete, which prints its whole text without leading blanks and tabs, or nothing if that is white space. |
| RunStream.TrimsLeadingBlanks | internal/cmd/run.go:365-368 | Leading blanks and tabs are trimmed, all of them and nothing else. |
| RunStream.StdoutOfManyMessages | internal/cmd/run.go:355-421 | The same for any number of messages whose growing snapshots interleave: stdout is a sequence of pieces, those of each message make up its last snapshot, those of the last one its final text, each without a white-space prefix. |
| ConnectionPoolClass.ConnPool.Connect | internal/db/connect.go:83-172 | Shares a pooled connection, or takes the lock and opens a new one; each failing step undoes the earlier ones. |
| ConnectionPoolClass.ConnPool.OpenConn | internal/db/connect.go:114-168 | The steps on a path that is not pooled, with lock and connection accounted for on every failure. |
| ConnectionPoolClass.ConnPool.Prepare | internal/db/connect.go:144-168 | A failing ping, goose or migration closes the connection and releases the lock. |
| ConnectionPoolClass.ConnPool.Release | internal/db/connect.go:177-203 | One reference less; the last one removes the entry, closes the connection and releases the lock. |
| ConnectionPool.PoolBalance | internal/db/connect.go:83-203 | After any Connects and matched Releases a path is pooled exactly while it has references, a connection is open exactly while one entry owns it, and a lock is held exactly while one entry owns it. |
| ConnectionPool.NothingLeaks | internal/db/connect.go:177-203 | Nothing is closed or released twice, and once all references are gone everything opened is closed and every lock is released, exactly once. |
| ConnectionPool.LockPerEntry | internal/db/connect.go:101-172 | A Connect of a pooled path takes no lock; another takes at most one, only if asked and not skipped, and keeps it exactly if it succeeds. |
| ConnectionPool.ConnectAnswers | internal/db/connect.go:83-203 | In every run a Connect of a path with references is shared, any other succeeds exactly if no step fails and else reports the first failing one; one reference comes or goes, and no other path changes. |
| Findings.PromptWithoutEvent | internal/backend/agent.go:98-98 | A run: an accepted prompt with a RunID is cancelled before Run, its goroutine ends, and nothing was published. |
| Findings.InProcessWithoutEvent | internal/agent/coordinator.go:223-251 | A run: the same for a prompt that is started in-process and fails before Run. |
| Findings.HandedOffWithoutEvent | internal/agent/agent.go:693-706 | A run: a queued prompt with a RunID is handed off, its session lookup fails, and nothing was published. |
| Findings.LatchDuringCreate | internal/backend/backend.go:462-472 | A run: Shutdown sets the latch while a create is in its slow init, and the create registers nothing. |
| Findings.EarlyLogin | internal/config/store.go:775-778 | A run: after a login with a token that expires before a peer's stale one, that peer presents its rotated refresh token. |
| Findings.LostWrite | internal/config/store.go:672-681 | A run: the write after an exchange fails and another process presents the rotated token. |
| Findings.FoldedImage | internal/agent/agent.go:837-847 | A conversation: an image in a folded prompt is sent to a text-only model. |

## Left out

- Summarize and auto-summarize: they check, dequeue and re-queue without the dispatch mutex, and the dispatch results do not hold there.
- ClearQueue: it takes no dispatch mutex in the source; in the dispatch protocol it is one atomic step.
- Order of queued prompts: QueueTheorems.NoOvertaking speaks of one stay in the queue; a handed-off prompt that finds the session busy joins the tail again.
- Progress: a stream error returns before the handoff and leaves the queue as it is, so nothing is claimed about queued prompts always running.
- DispatchTheorems.CancelSparesLaterPrompts: states nothing about prompts that come without a reservation; DispatchTheorems.DrainEndsUntrackedUnderMark shows how any mark of the session covers them.
- DispatchTheorems.FinishedMeansOneEvent: speaks of goroutines that are gone; on the error path the RunComplete goes out while the run's active entry is still registered, so "finished" means that the turn's stream ended.
- Publishing: the RunCompletes of dropped queued prompts are published outside the queue section in the source; here they belong to that section's step. Delivery to subscribers is not modelled.
- acceptSeqGen: an unbounded number here, so the wrap-around of the 64-bit counter is not modelled.
- clearPendingCancel: nothing in the repository calls it.
- CancelAll, and the nested cleanup of CancelFunc objects beyond their identity.
- BackendClass.Workspace.ExpireHold: the source compares pointers to claim objects; the contract compares the identities that stand for them.
- Grace timers: which timer armed an entry is not compared in the source either, so a late timer may shorten the second grace of the same entry; nothing is claimed about the length of a grace.
- Workspace shutdown hooks: two teardowns of one workspace can both proceed, so nothing is claimed about the hook running once.
- Validation of client ids, paths and channels overrides, and the session that a client has open, which is only carried over.
- TokenProtocol.NoRotatedTokenIsPresented: assumes fresh tokens whose expiry does not decrease at an exchange, no reply or write lost after a rotation, and logins that are harmless and take the lock, which the source does unless the lock stays taken for too long; TokenProtocol.LostWriteLeadsToReuse and TokenProtocol.LoginConditionIsExact show what happens otherwise. "Fresh" also excludes a login token with an empty refresh token, which newerDiskToken skips as well.
- TokenProtocol.OneExchangeWhileValid: assumes, as do TokenProtocol.LateReaderAdopts and TokenProtocol.TheDiskTokenIsPresented, that the logins before expired no earlier than the token then on disk.
- TokenProtocol: a refresh runs at most once per process at a time, as the single-flight group arranges; the group itself is not modelled, nor are the signals between SignalAuthComplete and WaitForTokenChange.
- Config files: reading, merging and reloading them is one step that takes the disk token into memory.
- Conversation: the text of a user message with parts, trimming of non-empty text, and base64 are parameters; reasoning metadata is one opaque field; the full wording of the reminder is shortened.
- RunStream: characters stand for bytes, so cutting a text inside a multi-byte character is not visible; the spinner and the surrounding select loop are left out.
- RunStream.StdoutOfManyMessages: fixes the order of the pieces of each message, not how the pieces of different messages interleave.
- ConnectionPool: absolute paths are given; SQLite, goose and the lock file are steps that succeed or fail; ResetPool and ConnectReadOnly are left out.
- Model streaming, providers, HTTP, SSE, SQL, MCP, LSP, the user interface, metrics and shell expansion: foreign calls.
