# A verified model of anyclaw's session machinery

anyclaw supervises agent subprocesses and connects them to chat channels. Its managers are event
loops: each handler runs to completion, and what varies is which event comes next, what an agent
answers, the order a hash map is read in, and the clock. This project models those handlers as steps
of state machines, proves that objects updated in place perform exactly these steps, and proves what
holds over every run.

| file | contents |
|---|---|
| `Messages.dfy`, `PlatformCommands.dfy` | payloads, how batches are merged, `/new` and `/cancel` |
| `SessionQueue.dfy` | the per-session queue, as a class |
| `History.dfy` | the log of everything the agents manager does, and what can be read off it |
| `AgentSlots.dfy` | the session maps of one agent and the operations that rewrite them |
| `Agents.dfy`, `AgentsManager.dfy` | the agents manager as steps on values, and as the object that performs them |
| `AgentsProtocol.dfy` | FIFO conservation, bounded prompting, results before completions |
| `SessionViews.dfy`, `AgentsFates.dfy` | what becomes of every message: the manager as any one session sees it, and the small machine it then is |
| `AgentsReplay.dfy`, `AgentsSuppression.dfy` | replay suppression and crash notices |
| `AgentsOutcomes.dfy` | the slot every answer of an agent leaves, field by field, and the batches prompted with |
| `Signals.dfy`, `AgentsSignals.dfy` | what the agents manager tells the channels manager: exactly which events, in every run |
| `AgentsIndex.dfy` | agreement of the two session indexes, and recovery that forgets nothing |
| `AgentsForgetting.dfy` | exactly when a step makes an agent's slot forget a session |
| `AgentsMute.dfy` | sessions that come back under an id nobody has indexed |
| `AckLifecycle.dfy`, `AckRouting.dfy` | what the channels manager tells a channel and which channel it tells, and both managers together |
| `JsonRpc.dfy`, `NdJson.dfy` | JSON-RPC messages as JSON objects, and the line codec |
| `Backoff.dfy` | restart delays, crash-loop detection, and the restart rate over a run |
| `ContextStore.dfy` | the bounded group-chat buffer |
| `PendingTables.dfy`, `Connections.dfy`, `Permissions.dfy` | requests and permissions, answered at most once |

A handler exists twice. A function on values says what it does, with the agent's answers, the hash
map's order and the prompt's outcome as parameters; a method updates fields with the program's own
branches and loops, and its postcondition equates the new state with that function of the old one.
The theorems are about runs of the functions and so about every run of the objects. Specifications
read a log, `history`, in which each effect is one entry; it is never consulted by a handler.

## What the code does differently from what it says

- A finished prompt is never removed from `active_prompts`. The comment at
  `crates/anyclaw-agents/src/session_recovery.rs:71` says sessions with an active prompt are skipped
  when a crash is announced; in fact every session prompted since the slot's last crash is skipped,
  also one that is idle again and hears nothing at all (`CrashNoticeExactlyWhen`,
  `IdleSessionMissesNotice`).
- Restoring sessions after a crash rewrites `session_map` but not `reverse_map`. The indexes stay in
  agreement exactly under the condition in `RestoreAgrees`; a session that comes back under an id
  nobody has indexed is live, but mute until an agent's answer names the id again
  (`RestoredUnderNewIdIsMute`).
- Messages are lost in three places. `/new` and `/cancel` discard the message `mark_idle` returns
  (`CommandDrops`). A completion whose session no slot owns discards everything that waited
  (`WaitingDrops`), which after an expiry is always the case (`ExpiryDropsAll`). And a batch whose
  prompt fails is gone: after a completion there is only a log line
  (`crates/anyclaw-agents/src/incoming.rs:493-507`). `StepIsAfter` says exactly what is lost where.
- A failed prompt and a discarded batch both leave the session active. If no other prompt of it is
  running it is stuck: no message that then waits is ever prompted with. A command does not release
  it either; each one that ends its turn drops the oldest waiting message, and only one that finds
  nothing waiting frees the session (`StuckSession`, `StuckAfterStepIff`).
- A session can be forgotten altogether. A `/new` gives up the live session before the agent has
  granted another, and a heal gives up the stale id before it has one; an agent that is merely
  disconnected and can neither resume nor load loses it that way (`ForgetsExactlyWhen`,
  `DisconnectedAgentForgets`).
- Merging keeps the earliest metadata when a queue is flushed and the latest one after a completion
  (`MetadataMeaning`).
- A crash tracker whose short window is longer than its long one forgets crashes it should still
  count (`PruningIsInvisibleIff`); the configuration accepts any short window.
- Whether a stream is accepted can depend on how it is cut into chunks, because a line's CR counts
  towards the limit only while its LF is missing. That is so exactly for streams that only the CRs of
  their lines take over the limit (`DependsOnChunksIff`); all others are accepted in every cut or
  refused in every cut (`AcceptedInAnyChunksIff`, `RefusedInAnyChunksIff`).
- A present but null `params`, `result` or `data` does not survive a round trip (`MessageRoundTrip`).
- If two agents have a permission request pending under one id, the first of them gets the answer,
  whichever it was meant for. Answers arrive exactly when no two slots have an id pending in common
  (`AnswerGoesTo`, `AnswersArriveIff`). Pending requests survive a crash, so an answer can also reach a
  process that never asked; `ReachesAskerIff` says exactly when it reaches the one that did.
- An error the channels manager delivers itself, such as the one for a `/new` the agent refuses, is
  not preceded by response_started. The first message of a dispatch is so preceded exactly under the
  condition in `FirstMessageAnnouncedIff`.
- Whether a completion is preceded by a result made for it depends on results streamed since the
  session's last answered prompt, not since its last completion: the completion a `/cancel` makes up
  does not count (`CompletionIsReported`, `CompletionsExactly`).
- A channel that is away when the first update of a response arrives never hears that the response
  started (`MissedStart`).

## Model

| member | source | states |
|---|---|---|
| SessionQueues.SessionQueue.Push | crates/anyclaw-agents/src/session_queue.rs:34-50 | A message for an idle session is dispatched and makes it active; for an active one it goes to the end of that session's queue |
| SessionQueues.SessionQueue.MarkIdle | crates/anyclaw-agents/src/session_queue.rs:52-64 | Takes the oldest waiting message and keeps the session active; with none waiting the session becomes idle |
| SessionQueues.SessionQueue.IsActive | crates/anyclaw-agents/src/session_queue.rs:76-78 | Answers whether the session is active, in both directions |
| SessionQueues.SessionQueue.PushOnly | crates/anyclaw-agents/src/session_queue.rs:80-92 | Appends without activating and reports whether the session was idle |
| SessionQueues.SessionQueue.FlushPending | crates/anyclaw-agents/src/session_queue.rs:94-115 | Empties an idle session's queue into one batch with all content in order and the first metadata present; does nothing for an active one |
| SessionQueues.SessionQueue.DrainQueued | crates/anyclaw-agents/src/session_queue.rs:117-123 | Returns everything waiting, oldest first, and empties that queue only |
| SessionQueues.IdleThenDrain | crates/anyclaw-agents/src/incoming.rs:467-476 | Marking idle and then draining empties the queue, in order, and leaves the session active exactly when something came out |
| SessionQueues.FlushMeaning | crates/anyclaw-agents/src/session_queue.rs:94-115 | Flushing an idle session gives all that waits, in order, with the first metadata there is, and leaves the session active with nothing waiting |
| SessionQueues.PushAllAppends | crates/anyclaw-agents/src/session_queue.rs:34-50 | What is pushed to an active session waits behind what waited, and no other session is touched |
| SessionQueues.IdleGivesAll | crates/anyclaw-agents/src/session_queue.rs:52-64 | Marking idle again and again gives everything that waits, oldest first, then frees the session, and touches no other |
| SessionQueues.OneAtATime | crates/anyclaw-agents/src/session_queue.rs:34-64 | Of any messages pushed to an idle session the first is dispatched, the others come out one at a time in the order they came, and then the queue is as it was before |
| Messages.FlattenConcat | crates/anyclaw-agents/src/session_queue.rs:103-106 | Merging two runs of messages one after the other merges their concatenation |
| Messages.MetadataMeaning | crates/anyclaw-agents/src/session_queue.rs:104-110 | A flushed batch carries the earliest metadata there is; a batch after a completion the latest |
| Messages.NoMetadata | crates/anyclaw-agents/src/incoming.rs:473-475 | A batch has no metadata exactly when no merged message has any |
| Messages.ChannelNameMeaning | crates/anyclaw-sdk-types/src/session_key.rs:18-20 | The channel's name is the part of a key that has no colon and ends the key or stands before one |
| PlatformCommands.MatchMeaning | crates/anyclaw-agents/src/platform_commands.rs:31-39 | A text is a command exactly when it is `/new` or `/cancel`, alone or followed by `@` and anything |
| PlatformCommands.CommandMeaning | crates/anyclaw-agents/src/commands.rs:730-737 | A message is a command exactly when it is one text part, and that is the command alone or followed by `@` and anything |
| PlatformCommands.CoalescingIsPlain | crates/anyclaw-agents/src/commands.rs:305-311 | No merge of messages that are not commands is a command, empty messages included |
| PlatformCommands.SingletonSource | crates/anyclaw-agents/src/commands.rs:730-737 | A merged batch of one part came from one message with exactly that part |
| AgentSlots.FindsFirst | crates/anyclaw-agents/src/slot.rs:112-114 | An index is found exactly when it is the first slot of that name, and none exactly when there is none |
| AgentSlots.FindSlotFrom | crates/anyclaw-agents/src/slot.rs:112-114 | The slot found is the first of that name, and none is found only if there is none |
| AgentSlots.OwnerFrom | crates/anyclaw-agents/src/incoming.rs:478-483 | The owner found is the first slot holding the session, and none is found only if no slot holds it |
| AgentSlots.DrainedRestores | crates/anyclaw-agents/src/session_recovery.rs:285-313 | Draining the live sessions and trying a restore, else starting afresh, is the whole recovery, and the try fails exactly when nothing is stale or the agent does not answer |
| AgentsManagers.AgentsManager.constructor | crates/anyclaw-agents/src/manager.rs:461-518 | The manager after start: nothing queued, prompted or streamed, each slot with its default session indexed both ways |
| AgentsManagers.AgentsManager.FindSlotByName | crates/anyclaw-agents/src/slot.rs:112-114 | The search loop finds the first slot of that name |
| AgentsManagers.AgentsManager.FindOwnerName | crates/anyclaw-agents/src/incoming.rs:478-483 | The search loop finds the name of the first slot holding the session, or the empty name |
| AgentsManagers.AgentsManager.CreateIn | crates/anyclaw-agents/src/commands.rs:228-246 | Returns an existing session unchanged; otherwise a session the agent grants enters both indexes, and a refusal changes nothing |
| AgentsManagers.AgentsManager.RecoverAs | crates/anyclaw-agents/src/session_recovery.rs:390-395 | A resumed session leaves the stale ones and enters both indexes |
| AgentsManagers.AgentsManager.ForgetAndCreate | crates/anyclaw-agents/src/session_recovery.rs:473-494 | The fallback of a heal gives up the stale id first and then asks for a new session |
| AgentsManagers.AgentsManager.Heal | crates/anyclaw-agents/src/session_recovery.rs:321-511 | Resume, else load, else create, with the outcomes ResumedOutcome, LoadedOutcome, CreatedOutcome and UnaskedOutcome state field by field; success leaves the session live |
| AgentsManagers.AgentsManager.SendSyntheticChunk | crates/anyclaw-agents/src/commands.rs:550-570 | Announces a dispatch and delivers one chunk, nothing without a sender |
| AgentsManagers.AgentsManager.SendSyntheticResponse | crates/anyclaw-agents/src/commands.rs:572-599 | A chunk, a result and then the completion, in this order |
| AgentsManagers.AgentsManager.MarkIdleIgnoringResult | crates/anyclaw-agents/src/commands.rs:517 | The message taken off the queue is discarded |
| AgentsManagers.AgentsManager.PlatformCommandHandler | crates/anyclaw-agents/src/commands.rs:495-548 | `/new` and `/cancel` with each of their outcomes |
| AgentsManagers.AgentsManager.Prompt | crates/anyclaw-agents/src/commands.rs:294-493 | Unknown agent, command, heal and failed send each end as in the program; a sent prompt adds one running task |
| AgentsManagers.AgentsManager.Flush | crates/anyclaw-agents/src/commands.rs:273-292 | What is flushed is announced and prompted with, nothing happens otherwise |
| AgentsManagers.AgentsManager.HandleEnqueue | crates/anyclaw-agents/src/commands.rs:143-170 | Commands bypass the queue, messages for busy sessions wait, others are flushed at once |
| AgentsManagers.AgentsManager.HandleCreateSession | crates/anyclaw-agents/src/commands.rs:118-142 | Heals when a stale id is known and creates otherwise, and answers with the session's id |
| AgentsManagers.AgentsManager.HandleFork | crates/anyclaw-agents/src/commands.rs:601-645 | A granted fork is indexed both ways under its own key and its id is the answer; every refusal changes nothing |
| AgentsManagers.AgentsManager.Forward | crates/anyclaw-agents/src/incoming.rs:113-147 | Suppressed, unmapped and sender-less updates go nowhere; a forwarded result is remembered as streamed |
| AgentsManagers.AgentsManager.ForwardError | crates/anyclaw-agents/src/incoming.rs:150-182 | A malformed update of a mapped session becomes an error result |
| AgentsManagers.AgentsManager.Notify | crates/anyclaw-agents/src/session_recovery.rs:54-96 | The loop sends one error result to each session without a remembered prompt, then forgets the prompts |
| AgentsManagers.AgentsManager.DrainStale | crates/anyclaw-agents/src/session_recovery.rs:199-207 | Whatever the order, the stale map is merged over the live one with the attempted id replaced, and emptied |
| AgentsManagers.AgentsManager.TryRestore | crates/anyclaw-agents/src/session_recovery.rs:135-283 | On any slot: succeeds exactly when a session is stale and the agent answers the resume, or else the load, it supports; then the stale sessions join the live ones, a load suppresses them all, and a failure changes nothing |
| AgentsManagers.AgentsManager.StartAfresh | crates/anyclaw-agents/src/session_recovery.rs:302-313 | A new default session replaces the reverse index, a failure drops the connection |
| AgentsManagers.AgentsManager.DrainLive | crates/anyclaw-agents/src/session_recovery.rs:289-292 | Live sessions override stale ones of the same key and become stale, and replay suppression ends |
| AgentsManagers.AgentsManager.RestoreOrStart | crates/anyclaw-agents/src/session_recovery.rs:285-315 | Drain, restore, else start afresh |
| AgentsManagers.AgentsManager.Crash | crates/anyclaw-agents/src/session_recovery.rs:15-28 | A crash loop disables the slot; otherwise notices go out before the respawn and the restore |
| AgentsManagers.AgentsManager.ExpireSession | crates/anyclaw-agents/src/incoming.rs:395-408 | In every slot the session moves from both live indexes to the stale ones |
| AgentsManagers.AgentsManager.MergeWaiting | crates/anyclaw-agents/src/incoming.rs:466-476 | The merged batch has all content in order and the last metadata present |
| AgentsManagers.AgentsManager.DispatchNext | crates/anyclaw-agents/src/incoming.rs:466-509 | Everything waiting is dispatched as one batch, or dropped when no slot owns the session |
| AgentsManagers.AgentsManager.HandlePromptCompletion | crates/anyclaw-agents/src/incoming.rs:363-510 | Drains arrived updates, expires, reports a result if none was streamed, then the completion, then the next dispatch; CompletionIsReported and SignalsExactly say what that sends |
| AgentsManagers.AgentsManager.HandleEvent | crates/anyclaw-agents/src/manager.rs:543-578 | One turn of the loop is one step, the exit of a disabled agent is ignored |
| AgentsManagers.AgentsManager.RunLoop | crates/anyclaw-agents/src/manager.rs:543-578 | After any events the object is where the run is, and the protocol holds for every session |
| AgentsProtocol.PromptKeeps | crates/anyclaw-agents/src/commands.rs:294-493 | A prompt keeps the protocol of every session, whether the lookup, the heal and the send succeed or not |
| AgentsProtocol.HandOverKeeps | crates/anyclaw-agents/src/commands.rs:273-292 | So does handing over what has just left the queue, as long as the session has room for one more prompt |
| AgentsProtocol.CommandKeeps | crates/anyclaw-agents/src/commands.rs:495-548 | `/new` and `/cancel` keep the protocol of every session, although they free the session while its prompt runs |
| AgentsProtocol.CompletionKeeps | crates/anyclaw-agents/src/incoming.rs:363-510 | A completion keeps it, whatever messages and crashes are drained first |
| AgentsProtocol.CrashKeeps | crates/anyclaw-agents/src/session_recovery.rs:15-28 | A crash keeps it and leaves queue, running prompts and commands alone |
| AgentsProtocol.StepKeeps | crates/anyclaw-agents/src/manager.rs:543-578 | Every step keeps the protocol of every session |
| AgentsProtocol.ProtocolHolds | crates/anyclaw-agents/src/manager.rs:543-578 | In every reachable state, for every session: accepted messages are the removed ones followed by the waiting ones, in order; what was prompted is what was handed over; running prompts are at most the commands processed plus one while active; at every earlier point results were no fewer than completions, streamed results counted; no batch was a command; and a session with waiting messages is active |
| AgentsFates.HealSucceeds | crates/anyclaw-agents/src/session_recovery.rs:321-511 | A missing session is healed exactly when the agent is connected and answers the resume, or the load, or the create that applies |
| AgentsFates.PromptReaches | crates/anyclaw-agents/src/commands.rs:294-493 | A batch reaches the agent, with one more prompt running, exactly when the agent is known and connected, the session is live or healed, and the request is written; otherwise no session sees a change |
| AgentsFates.HandOverView | crates/anyclaw-agents/src/commands.rs:273-292 | What is handed over ends as prompted with or as lost, by that same condition, and the session is active either way |
| AgentsFates.CommandDrops | crates/anyclaw-agents/src/commands.rs:502-542 | A command that ends its session's turn drops exactly the oldest waiting message and frees the session exactly when there is none; a failed one drops nothing, and no other session sees a change |
| AgentsFates.NewDrops | crates/anyclaw-agents/src/commands.rs:502-522 | A granted `/new` ends its session's turn, a refused one changes nothing any session sees |
| AgentsFates.CancelDrops | crates/anyclaw-agents/src/commands.rs:523-542 | A `/cancel` ends its session's turn exactly when the session is live and connected and the notification is written |
| AgentsFates.WaitingDrops | crates/anyclaw-agents/src/incoming.rs:466-509 | After a completion nothing waits: what waited is prompted with, lost by a failed prompt, or dropped exactly when the owner's name is empty, because no slot owns the session or the owner has no name |
| AgentsFates.CompletionDrops | crates/anyclaw-agents/src/incoming.rs:363-510 | A completion ends one prompt and starts the session's next turn, by the owner and the slots it leaves; an equation, for every session |
| AgentsFates.ExpiredIsUnowned | crates/anyclaw-agents/src/incoming.rs:395-408 | After an expiry no slot owns the session |
| AgentsFates.ExpiryDropsAll | crates/anyclaw-agents/src/incoming.rs:395-509 | An expiry therefore drops exactly what waited, and leaves the session active exactly when something did |
| AgentsFates.MessageView | crates/anyclaw-agents/src/commands.rs:162-169 | A message waits for a busy session and is handed over at once, alone or with what waited, for an idle one |
| AgentsFates.RejectedExactlyWhen | crates/anyclaw-agents/src/commands.rs:143-170 | The sender is answered with an error exactly for a command to an unknown agent, a /new the agent refuses, and a message to an idle session whose prompt fails |
| AgentsFates.StepIsAfter | crates/anyclaw-agents/src/manager.rs:543-578 | One step of the manager is, for every session, one step of the session's machine: it fixes what leaves the queue, in what order, how each message ends, the running prompts and whether the session is active |
| AgentsFates.RunIsReplay | crates/anyclaw-agents/src/manager.rs:543-578 | Over every run each session behaves like that machine |
| AgentsFates.EveryMessageAccountedFor | crates/anyclaw-agents/src/manager.rs:543-578 | Over every run the accepted messages are, in order, those prompted with, lost by a failed prompt or dropped, and then those still waiting |
| SessionViews.AfterIsSound | crates/anyclaw-agents/src/session_queue.rs:34-124 | Each step of the machine accounts for every message, keeps sessions with waiting messages active, and bounds running prompts by commands plus activity |
| SessionViews.StuckExactlyWhen | crates/anyclaw-agents/src/session_queue.rs:52-64 | A session becomes stuck exactly by a failed prompt or a dropped batch with no other prompt running, and gets out exactly by a command that ends its turn with nothing waiting |
| SessionViews.BecomingStuckLoses | crates/anyclaw-agents/src/incoming.rs:466-509 | Becoming stuck costs everything that was to be handed over, as one batch |
| SessionViews.StuckMessagesAreDoomed | crates/anyclaw-agents/src/session_queue.rs:52-64 | Whatever comes, what waits for a stuck session leaves only by being dropped, oldest first, and until all has left the session stays stuck |
| SessionViews.StuckUntilCommand | crates/anyclaw-agents/src/session_queue.rs:52-64 | Without a command nothing leaves a stuck session's queue at all |
| AgentsFates.StuckAfterStepIff | crates/anyclaw-agents/src/manager.rs:543-578 | In every reachable state, exactly when the next event leaves a session stuck |
| AgentsFates.StuckSession | crates/anyclaw-agents/src/commands.rs:502-542 | From every reachable stuck state and over every run, commands included, no message that waits there is ever prompted with: they are dropped one by one, oldest first, and until all have left the session stays stuck |
| AgentsFates.StuckSessionWaits | crates/anyclaw-agents/src/commands.rs:143-170 | And while no command for the session arrives, nothing of it is handed over or dropped |
| AgentsFates.FailedPromptLeavesStuck | crates/anyclaw-agents/src/commands.rs:273-292 | In every reachable state, a message for an idle session whose prompt fails is lost, and leaves the session stuck if no other prompt is running |
| AgentsFates.FailedPromptSticks | crates/anyclaw-agents/src/commands.rs:273-292 | So nothing later is handed over while no command for the session arrives |
| AgentsFates.FailedTurnSticks | crates/anyclaw-agents/src/incoming.rs:466-509 | The completion of a session's only prompt leaves it stuck as well, with the whole waiting batch lost, when that batch fails or has no owner |
| AgentsFates.PromptsAreBounded | crates/anyclaw-agents/src/commands.rs:384-490 | Over every run the prompts in flight for a session are at most the command messages received for it, plus one while it is active |
| AgentsReplay.StepBooks | crates/anyclaw-agents/src/manager.rs:543-578 | Every step keeps each slot's two remembered sets equal to what the log says of that slot |
| AgentsReplay.ReplayIsSuppressed | crates/anyclaw-agents/src/incoming.rs:113-142 | Over every run no update was forwarded for an id restored by session/load and since neither prompted nor wiped by a crash |
| AgentsReplay.ForwardedExactlyWhen | crates/anyclaw-agents/src/incoming.rs:113-142 | In every reachable state an update goes out exactly when a sender is attached, its id is mapped and it is not waiting for its first prompt |
| AgentsReplay.DeliveryResumes | crates/anyclaw-agents/src/commands.rs:317-326 | After a prompt, even one that could not be sent, updates for the session's id go out again |
| AgentsReplay.CrashNoticeExactlyWhen | crates/anyclaw-agents/src/session_recovery.rs:70-79 | In every reachable state a live session is told of a crash exactly when its id was never prompted since the slot's previous crash |
| AgentsReplay.FirstPrompt | crates/anyclaw-agents/src/commands.rs:164-168 | In any state, a message for an idle live session of a connected agent is prompted at once; its id is remembered as prompted and no longer suppressed, and no other slot changes |
| AgentsReplay.LastAnswer | crates/anyclaw-agents/src/incoming.rs:363-510 | In any state, a completion without an expiry and with nothing waiting leaves its session idle and every slot unchanged, remembered prompts included |
| AgentsReplay.IdleSessionMissesNotice | crates/anyclaw-agents/src/session_recovery.rs:71-79 | From every reachable state, a live idle session that is prompted and answered is idle again and would be skipped by a crash notice |
| AgentsOutcomes.ResumedOutcome | crates/anyclaw-agents/src/session_recovery.rs:321-398 | A granted resume of a stale session leaves the id the agent gives in both indexes and replay suppression as it was, and answers with that id |
| AgentsOutcomes.LoadedOutcome | crates/anyclaw-agents/src/session_recovery.rs:399-471 | A granted load without a resume leaves the loaded id in both indexes and among the suppressed ids, so the next update for it is not forwarded |
| AgentsOutcomes.CreatedOutcome | crates/anyclaw-agents/src/session_recovery.rs:473-511 | A session that is not brought back gives up its stale id; a live one is the answer as it is, a granted one enters both indexes, a refused one leaves none |
| AgentsOutcomes.UnaskedOutcome | crates/anyclaw-agents/src/session_recovery.rs:321-360 | A stale session the agent could resume or load stays as it is while there is no connection to ask over |
| AgentsOutcomes.ForkOutcome | crates/anyclaw-agents/src/commands.rs:601-645 | A fork is made exactly when the agent can fork, the session is live and the agent grants it, under the key of the session's channel, "fork" and the new id |
| AgentsOutcomes.NewOutcome | crates/anyclaw-agents/src/commands.rs:502-522 | After `/new` neither index knows the old session, both know the new one exactly if it was granted, and nothing else in any slot has changed |
| AgentsOutcomes.ExpiredOutcome | crates/anyclaw-agents/src/incoming.rs:395-408 | An expired session leaves both indexes of every slot that had it and is stale there under the id it had; other slots are as they were |
| AgentsOutcomes.CrashOutcomeIs | crates/anyclaw-agents/src/session_recovery.rs:15-315 | The slot after a crash, field by field: disabled; down with its prompts forgotten; restored with every session it knew, the one asked about under the id the agent gave and all of them suppressed after a load; fresh with its default session; or down again |
| AgentsOutcomes.StartOutcome | crates/anyclaw-agents/src/manager.rs:415-451 | A started slot is connected and enabled, has its default session in both indexes and nothing else live |
| AgentsOutcomes.DrainedAsReceived | crates/anyclaw-agents/src/incoming.rs:363-394 | A message drained by a completion is handled as the loop would handle it, unless it is the exit of a disabled agent |
| AgentsOutcomes.DrainConcat | crates/anyclaw-agents/src/incoming.rs:363-394 | Drained messages are handled in the order they came |
| AgentsOutcomes.MessageBatch | crates/anyclaw-agents/src/commands.rs:273-292 | From every reachable state, a message for an idle session is prompted with as it came, content and metadata |
| AgentsOutcomes.WaitingBatch | crates/anyclaw-agents/src/incoming.rs:466-500 | From every reachable state, what waits when a prompt ends is prompted with as one batch: all content in order, with the last metadata there is |
| AgentsSuppression.StepReleases | crates/anyclaw-agents/src/commands.rs:317-326 | Only a crash of the slot, or a prompt of a session that has the id, ends the suppression of an id |
| AgentsSuppression.SuppressedUntilReleased | crates/anyclaw-agents/src/incoming.rs:113-125 | Updates for an id a reachable state suppresses are not forwarded, over every run, until one of these happens |
| AgentsSuppression.LoadSuppresses | crates/anyclaw-agents/src/session_recovery.rs:453-459 | After a CreateSession answered by a load, nothing is forwarded for the loaded id, over every run, until it is prompted or the slot crashes |
| AgentsSuppression.CrashLoadSuppresses | crates/anyclaw-agents/src/session_recovery.rs:199-283 | After a crash answered by a load, the same for every session of the slot |
| AgentsSignals.StepTells | crates/anyclaw-agents/src/manager.rs:543-578 | Each step adds, for every session, exactly the events StepSignals lists, and remembers exactly the sessions with a result streamed since their last answer |
| AgentsSignals.AlwaysStreams | crates/anyclaw-agents/src/incoming.rs:126-147 | Over every run the remembered sessions are those the log shows a forwarded result for since their last answered prompt |
| AgentsSignals.SignalsExactly | crates/anyclaw-agents/src/manager.rs:543-578 | From every reachable state the next event sends, about every session, exactly these events in this order with a sender and none without, and the log only grows |
| AgentsSignals.CompletionIsReported | crates/anyclaw-agents/src/incoming.rs:410-464 | The completion of a running prompt with nothing drained or waiting sends a result and then SessionComplete, or SessionComplete alone exactly if a result was forwarded since the session's last answered prompt |
| AgentsSignals.CompletionsExactly | crates/anyclaw-agents/src/incoming.rs:410-464 | Over every run with a sender, as many completions are sent for a session as running prompts of it ended plus /cancel commands that found nothing to cancel |
| AgentsIndex.RegisterAgrees | crates/anyclaw-agents/src/commands.rs:242-246 | Registering an id keeps the indexes in agreement exactly when no other live session of the slot holds it |
| AgentsIndex.HealAgrees | crates/anyclaw-agents/src/session_recovery.rs:321-511 | Healing keeps them in agreement for answers no other session holds |
| AgentsIndex.ForgetAgrees | crates/anyclaw-agents/src/commands.rs:504-507 | Forgetting a session for `/new` keeps them in agreement and makes no id taken |
| AgentsIndex.ExpireAgrees | crates/anyclaw-agents/src/incoming.rs:395-408 | Expiry keeps them in agreement |
| AgentsIndex.RestorableIsEnough | crates/anyclaw-agents/src/session_recovery.rs:199-207 | The condition on what the untouched reverse index must hold suffices for a restore |
| AgentsIndex.RestorableIsNeeded | crates/anyclaw-agents/src/session_recovery.rs:199-207 | A restore that ends in agreement met that condition |
| AgentsIndex.RestoreAgrees | crates/anyclaw-agents/src/session_recovery.rs:285-315 | A crash recovery keeps the indexes in agreement exactly when a successful restore meets that condition; a fresh or failed start always does |
| AgentsIndex.UsuallyOnlyEcho | crates/anyclaw-agents/src/session_recovery.rs:149-212 | When neither left-over stale ids nor a changed id are indexed, the condition is: nothing stale was left over and the agent echoed the id |
| AgentsMute.StepMute | crates/anyclaw-agents/src/manager.rs:543-578 | No step indexes an id, or forwards an update for an unindexed one, unless an agent's answer in that step names it |
| AgentsMute.RunMute | crates/anyclaw-agents/src/manager.rs:543-578 | So over every run |
| AgentsMute.RestoredUnderNewIdIsMute | crates/anyclaw-agents/src/session_recovery.rs:199-212 | A session restored under an id the reverse index does not know is live, and over every later run no update for the id is forwarded until an agent's answer names it again |
| AgentsIndex.RestoreForgetsNothing | crates/anyclaw-agents/src/session_recovery.rs:285-315 | A live id overrides a stale one; after a restore the live map is the merged map with exactly the attempted id replaced, otherwise the merged map stays stale, whatever the agent answers and whichever entry came first |
| AgentsIndex.StepAgrees | crates/anyclaw-agents/src/manager.rs:543-578 | Each step keeps all slots' indexes in agreement when the ids it brings are fresh and its restores safe |
| AgentsIndex.IndexesAgree | crates/anyclaw-agents/src/manager.rs:543-578 | Over every such run each live session is found again from its id and no two sessions of a slot share an id |
| AgentsIndex.CrashRemembers | crates/anyclaw-agents/src/session_recovery.rs:15-28 | A crash, whatever comes of it, makes no slot forget a session |
| AgentsIndex.StepRemembers | crates/anyclaw-agents/src/manager.rs:543-578 | No crash and no step about another session makes a slot forget a session that was live or stale; AgentsForgetting covers the steps about the session itself |
| AgentsForgetting.HealForgetsIff | crates/anyclaw-agents/src/session_recovery.rs:321-511 | A heal forgets its session exactly when that was only stale, nothing brings it back, and the heal did not fail at once for want of a connection to resume or load over |
| AgentsForgetting.NewForgetsIff | crates/anyclaw-agents/src/commands.rs:503-508 | A /new forgets its session exactly when no stale id is left and no new session is granted |
| AgentsForgetting.PromptForgetsIff | crates/anyclaw-agents/src/commands.rs:313-315 | A prompt forgets its session exactly in the slot that it has to heal and whose heal forgets it |
| AgentsForgetting.StepForgetsIff | crates/anyclaw-agents/src/manager.rs:543-578 | For every step, session and slot, whether the slot forgets a session it knew, as an equivalence |
| AgentsForgetting.ForgetsExactlyWhen | crates/anyclaw-agents/src/manager.rs:543-578 | The same from every reachable state |
| AgentsForgetting.DisconnectedAgentForgets | crates/anyclaw-agents/src/session_recovery.rs:473-493 | Asking for a stale session of a disconnected agent that can neither resume nor load forgets it, whatever the agent would have answered |
| AgentsForgetting.RefusedNewForgets | crates/anyclaw-agents/src/commands.rs:503-508 | A /new the agent refuses forgets a live session |
| AckLifecycles.ChannelsManager.HandleDeliverMessage | crates/anyclaw-channels/src/manager.rs:402-444 | The first routed update since the dispatch is announced if the channel is connected, and counts as announced even if it is not; then the update itself is sent |
| AckLifecycles.ChannelsManager.HandleSessionComplete | crates/anyclaw-channels/src/manager.rs:446-460 | A routed and connected channel is told of the completion, and nothing else changes |
| AckLifecycles.ChannelsManager.HandleDispatchStarted | crates/anyclaw-channels/src/manager.rs:462-477 | The session is no longer acknowledged, and its channel gets the ack and then the typing indicator |
| AckLifecycles.ChannelsManager.SendNotification | crates/anyclaw-channels/src/manager.rs:424-442 | One notification for the session's own channel and id, none without route or connection; NotificationsGoHome says which channel that is |
| AckLifecycles.ChannelsManager.CreateRoute | crates/anyclaw-channels/src/manager.rs:945-1006 | A route, once there, is never replaced; a new one is announced to its connected channel |
| AckLifecycles.ChannelsManager.RefuseSession | crates/anyclaw-channels/src/manager.rs:1008-1050 | When no session is granted the connected channel gets an error result without a session id, and no route is made |
| AckLifecycles.ChannelsManager.RejectMessage | crates/anyclaw-channels/src/manager.rs:899-928 | A rejected message is answered with an error result on the session's own route, and acknowledges nothing |
| AckLifecycles.ChannelsManager.DeliverDirectly | crates/anyclaw-channels/src/manager.rs:279-305 | A direct delivery reaches a routed and connected channel, and acknowledges nothing |
| AckLifecycles.ChannelsManager.RunLoop | crates/anyclaw-channels/src/manager.rs:1255-1294 | After any events, from the agents manager, from channels and from elsewhere, the object is where the run is |
| AckLifecycles.AckedMeaning | crates/anyclaw-channels/src/manager.rs:411-413 | A session is acknowledged exactly when a routed update arrived since its last dispatch |
| AckLifecycles.EmittedResponse | crates/anyclaw-channels/src/manager.rs:402-444 | Of all events only an update of an unacknowledged session brings a response_started, directly before itself |
| AckLifecycles.ResponseStartsOnce | crates/anyclaw-channels/src/manager.rs:402-444 | Over every run, what a channel saw since the last dispatch is every message that found it connected, in order, with one response_started directly before the first routed update exactly when that update found it connected, and none otherwise |
| AckLifecycles.FirstMessageAnnouncedIff | crates/anyclaw-channels/src/manager.rs:899-925 | Over every run, the first message of a dispatch is directly preceded by response_started exactly when the first routed update found the channel connected and nothing of the manager's own was delivered before it |
| AckLifecycles.SteadyResponse | crates/anyclaw-channels/src/manager.rs:402-444 | With route and connection in place since the dispatch the channel sees every message, and one response_started directly before the first update; it comes before everything exactly when nothing of the manager's own came first |
| AckLifecycles.SteadyMissesNothing | crates/anyclaw-channels/src/manager.rs:424-442 | With route and connection in place no message is missed, rejections and direct deliveries included, and the first update counts |
| AckLifecycles.MissedStart | crates/anyclaw-channels/src/manager.rs:411-422 | In every run, a channel away for the first update after a dispatch and back for the second sees that update without a response_started |
| AckLifecycles.RejectionHasNoStart | crates/anyclaw-channels/src/manager.rs:899-925 | In every run with route and connection in place, a rejection right after a dispatch is delivered without a response_started, which then comes with the next update |
| AckLifecycles.StartThenUpdate | crates/anyclaw-channels/src/manager.rs:411-442 | Over every run a response_started is directly followed by an update for the same session, slot and id |
| AckRouting.StateMeaning | crates/anyclaw-channels/src/manager.rs:945-1006 | A session's route is that of its first creation, and a slot is connected exactly when its last connection event was up |
| AckRouting.SentExactly | crates/anyclaw-channels/src/manager.rs:402-477 | Over every run, each event adds exactly the notifications that the events before it call for: kind, order, slot and session id |
| AckRouting.NotificationsGoHome | crates/anyclaw-channels/src/manager.rs:424-442 | Over every run, each notification about a session went to the slot and id of the session's first route while that slot was up, or is the refusal of a session without a route and went without an id to the slot that asked |
| Signals.HistoryCounts | crates/anyclaw-agents/src/incoming.rs:410-464 | The events sent for a session carry as many completions and results as its log counts |
| ReplyOrder.ArrivedInOrder | crates/anyclaw-agents/src/incoming.rs:410-464 | Results are no fewer than completions in whatever part of those events has arrived |
| ReplyOrder.ToldCounts | crates/anyclaw-channels/src/manager.rs:402-460 | A channel connected for every result that arrives is told of each of them and of each result the channels manager makes itself, and of no more completions than arrived |
| ReplyOrder.CompletionAfterResult | crates/anyclaw-agents/src/manager.rs:543-578 | With both managers running and the events between them arbitrarily delayed, a channel connected for every result has at no time been told of more completions than results |
| ReplyOrder.RefusedNewIsRejected | crates/anyclaw-agents/src/commands.rs:503-508 | A /new the agent refuses is answered with an error and sends the channels manager no event |
| JsonRpc.ValuesConcat | crates/anyclaw-jsonrpc/src/types.rs:16-70 | The values given for a member in a joined object are those of its two parts, in order |
| JsonRpc.RequestIff | crates/anyclaw-jsonrpc/src/types.rs:16-30 | An object is read as a given request exactly when it gives version, id, method and params once each as the request has them, an absent or null one counting as none; other members do not matter |
| JsonRpc.ResponseIff | crates/anyclaw-jsonrpc/src/types.rs:32-48 | An object that is no request is read as a given response exactly when version, id, result and error are given as the response has them |
| JsonRpc.ErrorIff | crates/anyclaw-jsonrpc/src/types.rs:50-60 | An object is read as a given error exactly when it gives its code, message and data |
| JsonRpc.PositionalReading | crates/anyclaw-jsonrpc/src/types.rs:62-70 | An array is read as the object with its four items under the members' names in their declared order, and not at all if it has another length |
| JsonRpc.ErrorRoundTrip | crates/anyclaw-jsonrpc/src/types.rs:50-60 | A printed error object is read back as it was, up to null data |
| JsonRpc.RequestReadBack | crates/anyclaw-jsonrpc/src/types.rs:16-30 | Every printed request is read back as that request with a null params gone |
| JsonRpc.ResponseReadBack | crates/anyclaw-jsonrpc/src/types.rs:32-48 | A printed response is never read as a request, and is read back with null payloads gone |
| JsonRpc.MessageRoundTrip | crates/anyclaw-jsonrpc/src/types.rs:62-70 | Printing and reading gives a message back exactly when it has no null payload, and never changes its kind |
| NdJson.Decode | crates/anyclaw-jsonrpc/src/codec.rs:32-77 | Every call terminates, and returns and leaves in the buffer what one step on the old buffer gives; DecodesLine says what that is for each line |
| NdJson.Encode | crates/anyclaw-jsonrpc/src/codec.rs:83-88 | Appends the printed message and one LF |
| NdJson.LineCarries | crates/anyclaw-jsonrpc/src/codec.rs:38-60 | A line that ends in CR carries what the text before the CR is read as, any other line what its whole text is read as |
| NdJson.DecodesLine | crates/anyclaw-jsonrpc/src/codec.rs:32-77 | A call on a buffer that starts with such a line, ending in LF or CRLF, returns its message and leaves the rest, or goes on with the rest when there is none |
| NdJson.FirstLf | crates/anyclaw-jsonrpc/src/codec.rs:34 | The position found holds the first LF, or is the length when there is none |
| NdJson.LinesConcat | crates/anyclaw-jsonrpc/src/codec.rs:32-77 | Splitting a joined stream is splitting its first part and then its unfinished line with the second |
| NdJson.PrependLine | crates/anyclaw-jsonrpc/src/codec.rs:32-77 | A line in front of a stream within the limits is read before everything else |
| NdJson.DrainMeaning | crates/anyclaw-jsonrpc/src/codec.rs:32-77 | Decoding until more bytes are needed yields the messages of the buffer's lines and leaves the unfinished last line |
| NdJson.ChunkIndependence | crates/anyclaw-jsonrpc/src/codec.rs:32-77 | For every split of a stream within the limits into chunks, the messages and the buffer are those of splitting the whole stream on LF, dropping one CR and skipping blank and foreign lines |
| NdJson.AcceptedInAnyChunksIff | crates/anyclaw-jsonrpc/src/codec.rs:43-73 | A stream is read without an error however it is cut exactly when its raw lines, CR included, and its unfinished last line are within the limit |
| NdJson.OverlongIsRefused | crates/anyclaw-jsonrpc/src/codec.rs:62-73 | Every other stream has a cut into two chunks that ends in an error |
| NdJson.DrainSucceedsIff | crates/anyclaw-jsonrpc/src/codec.rs:32-77 | Decoding a buffer ends in an error exactly when a line without its CR, or the unfinished last line, is over the limit |
| NdJson.RefusedInAnyChunksIff | crates/anyclaw-jsonrpc/src/codec.rs:43-73 | A stream ends in an error however it is cut exactly in that case |
| NdJson.DependsOnChunksIff | crates/anyclaw-jsonrpc/src/codec.rs:43-73 | Acceptance depends on the cut exactly for streams that only the CRs of their lines take over the limit |
| NdJson.MaximalCrlfLineDependsOnChunks | crates/anyclaw-jsonrpc/src/codec.rs:43-73 | An instance: a maximal line ending in CRLF is accepted in one piece and refused when its LF comes later |
| NdJson.StreamLines | crates/anyclaw-jsonrpc/src/codec.rs:83-88 | A stream of encoded messages and noise lines, each ending in LF or CRLF, is within the limits, ends in a complete line and carries exactly the messages |
| NdJson.ItemLine | crates/anyclaw-jsonrpc/src/codec.rs:57-60 | An encoded message is read back from its line, a noise line carries nothing |
| NdJson.EncodeDecodeRoundTrip | crates/anyclaw-jsonrpc/src/codec.rs:28-89 | Encoded messages, mixed with noise, with each line ending in LF or CRLF, and cut into any chunks, are read back exactly, in order, with an empty buffer |
| Backoff.DoublingIsNext | crates/anyclaw-core/src/backoff.rs:28-33 | Doubling and capping the n-th delay of the closed form gives the next one |
| Backoff.NonDecreasingIff | crates/anyclaw-core/src/backoff.rs:28-33 | Delays never shrink exactly when the base does not exceed the cap |
| Backoff.DoubledBound | crates/anyclaw-core/src/backoff.rs:30 | The doubled value stays within twice the larger of base and cap |
| Backoff.ExponentialBackoff.constructor | crates/anyclaw-core/src/backoff.rs:18-25 | Starts at the base with no attempts |
| Backoff.ExponentialBackoff.NextDelay | crates/anyclaw-core/src/backoff.rs:28-33 | The n-th call since the reset returns the base for n = 0 and min(base * 2^n, max) after |
| Backoff.ExponentialBackoff.Reset | crates/anyclaw-core/src/backoff.rs:36-39 | Starts the sequence over |
| CrashTracking.RetainedCount | crates/anyclaw-core/src/backoff.rs:85-86 | What one pruning removes is outside every window that is not longer, from then on |
| CrashTracking.PruningIsInvisible | crates/anyclaw-core/src/backoff.rs:83-110 | At every later instant the pruned list counts like the full crash history |
| CrashTracking.PruningIsInvisibleIff | crates/anyclaw-core/src/backoff.rs:83-110 | That holds of all histories exactly when the short window is not the longer one |
| CrashTracking.CountIsSize | crates/anyclaw-core/src/backoff.rs:95-99 | The count is the size of the set of crashes within the window |
| CrashTracking.CrashTracker.RecordCrash | crates/anyclaw-core/src/backoff.rs:83-90 | One more crash is recorded, and the list is what pruning at every crash leaves |
| CrashTracking.CrashTracker.CountWithin | crates/anyclaw-core/src/backoff.rs:95-99 | The loop counts the timestamps within the window |
| CrashTracking.CrashTracker.IsCrashLoop | crates/anyclaw-core/src/backoff.rs:93-110 | For a short window that is not longer, a crash loop exactly when the number of crashes since the reset within one of the windows reaches that window's limit |
| CrashTracking.CrashTracker.Reset | crates/anyclaw-core/src/backoff.rs:112-115 | Forgets all crashes |
| SlotLifecycles.RecentTimes | crates/anyclaw-core/src/backoff.rs:95-99 | All crashes from one within the window on are counted |
| SlotLifecycles.RecentCount | crates/anyclaw-core/src/backoff.rs:83-110 | They are counted on the pruned list too |
| SlotLifecycles.RestartRateBound | crates/anyclaw-core/src/slot_lifecycle.rs:46-55 | Over every run, crashes recorded and judged within one window, the last of them answered by a restart, are fewer than that window's limit, for both windows |
| SlotLifecycles.RecentCallsCounted | crates/anyclaw-core/src/backoff.rs:83-110 | After any calls in order, the pruned list counts as many crashes as the set of recent calls has members |
| SlotLifecycles.RestartedExactlyWhen | crates/anyclaw-core/src/slot_lifecycle.rs:46-55 | Over every run, a crash is answered by a restart exactly when fewer crashes than the limit, itself included, lie within the window, for both windows |
| SlotLifecycles.SlotLifecycle.RecordCrashAndCheck | crates/anyclaw-core/src/slot_lifecycle.rs:46-55 | Restarts after the next delay exactly when too few calls are recent for both windows, and otherwise disables without using up a delay |
| ContextStore.ContextTable.StoreContext | crates/anyclaw-core/src/sqlite_session_store.rs:187-226 | Inserts with the next id and trims the group; a zero limit changes nothing |
| ContextStore.ContextTable.TakeContext | crates/anyclaw-core/src/sqlite_session_store.rs:228-271 | Returns the group's messages in id order and deletes exactly those rows |
| ContextStore.NewerIsLater | crates/anyclaw-core/src/sqlite_session_store.rs:209-219 | With growing ids, the newer rows of a group are the later ones |
| ContextStore.TrimKeepsLast | crates/anyclaw-core/src/sqlite_session_store.rs:209-219 | The delete keeps the last messages of its group up to the limit and all of every other group |
| ContextStore.WithoutGroup | crates/anyclaw-core/src/sqlite_session_store.rs:261-265 | Deleting a group empties it and leaves the others as they were |
| ContextStore.StoreRefines | crates/anyclaw-core/src/sqlite_session_store.rs:187-226 | A store appends to its group and cuts it to the last messages, and touches no other group |
| ContextStore.TableRefinesFifo | crates/anyclaw-core/src/sqlite_session_store.rs:187-271 | For every interleaving of stores and takes, with any limits, each group's rows are those of a queue bounded to its last messages |
| PendingTables.Conservation | crates/anyclaw-agents/src/incoming.rs:266-275 | Every registration is pending, answered or overwritten, with multiplicity |
| PendingTables.NothingOverwritten | crates/anyclaw-agents/src/incoming.rs:266-275 | A request is overwritten exactly when its key was registered while pending |
| PendingTables.KeysComeFromRequests | crates/anyclaw-agents/src/incoming.rs:266-275 | What is pending under a key was registered under it |
| PendingTables.AnsweredAtMostOnce | crates/anyclaw-agents/src/commands.rs:69-87 | With distinct keys each request is pending or answered exactly once, and nothing else is |
| PendingTables.EmptyIgnoresAnswers | crates/anyclaw-sdk-channel/src/harness.rs:79 | Once nothing is pending, further answers change nothing |
| Connections.OwnIdsStep | crates/anyclaw-agents/src/connection.rs:344-347 | Each step keeps every waiter under its own id, while fewer than 2^63 ids are issued |
| Connections.OneStageStep | crates/anyclaw-agents/src/connection.rs:141-152 | Each step keeps every waiter in exactly one stage: without an id, holding one, stored, or resolved once |
| Connections.OnlyOwnNumber | crates/anyclaw-agents/src/connection.rs:145-148 | A response reaches a stored waiter only by its own non-negative number |
| Connections.RequestsCorrelate | crates/anyclaw-agents/src/connection.rs:339-357 | In every interleaving of senders and reader: no id is used twice, stored ids lie between 1 and the counter, each waiter is resolved at most once and only by its own id |
| Connections.ResolvesExactlyWhen | crates/anyclaw-agents/src/connection.rs:141-152 | A response resolves somebody exactly when it carries a stored number; text, missing, negative and unknown ids resolve nobody |
| Connections.AgentConnection.AllocateId | crates/anyclaw-agents/src/connection.rs:344 | The atomic step hands out the counter and advances it modulo 2^64 |
| Connections.AgentConnection.InsertPending | crates/anyclaw-agents/src/connection.rs:347 | The waiter is stored under its id |
| Connections.AgentConnection.HandlePendingResponse | crates/anyclaw-agents/src/connection.rs:141-152 | Removes and returns the waiter of that number, or changes nothing |
| Permissions.Holder | crates/anyclaw-agents/src/commands.rs:69-70 | The slot found is the first with the request pending, and none is found only if there is none |
| Permissions.SpellsIff | crates/anyclaw-agents/src/incoming.rs:223 | A number has exactly one spelling without leading zeros, which is the one used; so different numbers never share a key |
| Permissions.KeyIff | crates/anyclaw-agents/src/incoming.rs:216-227 | A request is known by its own id unless that is missing or empty, else by its JSON-RPC id: a number in decimal, text as it is, nothing as the empty text |
| Permissions.AskIsPending | crates/anyclaw-agents/src/incoming.rs:266-275 | A routed request is pending under the text it is known by, with the JSON-RPC id the answer must carry, and nothing else is touched |
| Permissions.PermissionDesk.HandlePermissionRequest | crates/anyclaw-agents/src/incoming.rs:209-297 | A request whose session is indexed and which the channels sender takes is stored; another one is answered at once if the agent is connected |
| Permissions.PermissionDesk.RespondPermission | crates/anyclaw-agents/src/commands.rs:65-87 | The first slot with the request pending gets its answer, no other slot changes |
| Permissions.SlotRuns | crates/anyclaw-agents/src/commands.rs:65-87 | Each slot's table is the run of its own operations, and its answers are those sent and those dropped without a connection |
| Permissions.RegistersAreAsks | crates/anyclaw-agents/src/incoming.rs:266-275 | The requests stored in a slot are exactly the routed ones |
| Permissions.AnsweredAtOnce | crates/anyclaw-agents/src/incoming.rs:276-296 | A request that cannot be routed is answered at once exactly when the agent is connected, and otherwise ignored |
| Permissions.RequestsAccountedFor | crates/anyclaw-agents/src/incoming.rs:249-296 | For all inputs, every request received is pending, answered, dropped without a connection, overwritten by one of the same id, answered at once or ignored, with multiplicity |
| Permissions.PermissionsAnsweredOnce | crates/anyclaw-agents/src/incoming.rs:249-296 | With distinct ids every received request is at every point exactly one of pending, answered with its own JSON-RPC id, dropped, answered at once or ignored, and nothing else is answered |
| Permissions.AnswerGoesTo | crates/anyclaw-agents/src/commands.rs:69-87 | An answer changes a slot exactly when that is the first with the id pending |
| Permissions.SameIdGoesToFirstSlot | crates/anyclaw-agents/src/commands.rs:69-87 | Of two slots with the same id pending, an answer goes to the first and the other keeps waiting |
| Permissions.AnswersArriveIff | crates/anyclaw-agents/src/commands.rs:69-87 | Every answer reaches whoever waits for it exactly when no two slots have an id pending in common |
| Permissions.AnswersReachAsker | crates/anyclaw-agents/src/commands.rs:65-87 | Over every run in which no two slots use one id, every answer reaches the slot that asked |
| Permissions.PermissionDesk.SetConnection | crates/anyclaw-agents/src/session_recovery.rs:98-133 | A respawned agent is a new process, and every pending request stays pending |
| Permissions.ReachesAskerIff | crates/anyclaw-agents/src/commands.rs:65-87 | Over every run, an answer reaches the process that asked exactly when no earlier slot has the id pending, the agent is connected, and it was not respawned since it last asked under the id |
| ChannelHarness.Harness.FlushPermission | crates/anyclaw-sdk-channel/src/harness.rs:118-134 | Writes the response with the stored JSON-RPC id once, ignores unknown requests |
| ChannelHarness.Harness.DispatchRequest | crates/anyclaw-sdk-channel/src/harness.rs:183-190 | Stores a request that has a JSON-RPC id |
| ChannelHarness.Harness.MainLoop | crates/anyclaw-sdk-channel/src/harness.rs:47-73 | The table after the main loop is that of its inputs |
| ChannelHarness.Harness.DrainLoop | crates/anyclaw-sdk-channel/src/harness.rs:79-89 | Takes late answers until nothing is pending or none are left |
| ChannelHarness.Harness.RunLoops | crates/anyclaw-sdk-channel/src/harness.rs:47-89 | Stopping the drain early loses nothing: the outcome is that of all inputs and answers |
| ChannelHarness.HarnessAnswersOnce | crates/anyclaw-sdk-channel/src/harness.rs:47-89 | Through both loops each request that can be answered is pending or answered exactly once, with its own JSON-RPC id |
| ChannelHarness.OpenIff | crates/anyclaw-sdk-channel/src/harness.rs:47-73 | After the main loop a request waits exactly when it came in and no answer or newer request under its id came after it |
| ChannelHarness.HarnessAnswersIff | crates/anyclaw-sdk-channel/src/harness.rs:47-89 | With distinct ids, when both loops are over a request was answered exactly when an answer came after it, in time or late |

## Left out

- Slots are values in a field of the manager, replaced when a handler changes one; in the program they are owned by the manager's vector, so nothing else can alias them.
- Whether a crash is answered by a restart is an input of the agents manager's crash step; the tracker that decides it is modelled on its own, in SlotLifecycles, and the manager's resets of the restart delay are not modelled.
- AgentsManager.Prompt: does not build the prompt text; tool context, reply context and the timestamps written to the session store are formatting or persistence.
- AgentsManager.Forward: does not model the fields added to a forwarded update, the buffered command list or the notifier that resets the idle timeout; the content of an update is reduced to whether it is a result.
- AgentsManager.HandlePromptCompletion: does not model the cancel notification after an idle timeout, stop reasons or whether a result reports an error, which change no state modelled here.
- AgentsIndex.IndexesAgree: asks for fresh ids and restorable crashes, because the code does not keep the indexes in agreement otherwise; RestoreAgrees and RegisterAgrees give the exact conditions.
- Events to the channels manager: an attached sender is taken to succeed. Without one nothing is sent, and that is modelled.
- The legacy SendPrompt command, session/push, session/list, the CancelSession command and file system requests of agents: they touch neither the queue nor the completions.
- Shutdown, keepalive, metrics, and the store of persisted sessions behind the stale sessions known at start.
- Liveness: a queued message is not promised to be prompted. StuckSession proves of which ones it never is; whether a running prompt is ever answered is up to the agent.
- AckLifecycles.ChannelsManager.HandleDispatchStarted: does not model the peer id and channel name carried by the ack and the typing indicator.
- AckLifecycles.ChannelsManager.RunLoop: does not model the permission prompts a channel is sent, nor access control and the permission timeout of the channels manager.
- NdJson.EncodeDecodeRoundTrip: JSON text itself is a pair of functions, and what is assumed of it is a condition on each message: its text parses back to the same value, is one non-empty line and does not end in CR.
- NdJson.ChunkIndependence: after an error the reader stops; how the framing layer treats a broken or a closed stream is not modelled.
- JSON numbers with a fraction are kept apart from integers and never printed by a message's own fields; the ids and codes of messages are 64-bit.
- ContextStore.TableRefinesFifo: row ids are unbounded, and the two statements of each operation are one step, as the connection's mutex makes them.
- Backoff.ExponentialBackoff.NextDelay: durations and the attempt counter are unbounded; DoubledBound says how large the doubled value gets.
- CrashTracking.CrashTracker.RecordCrash: the total crash counter is unbounded, and the clock is a parameter that must not run backwards.
- Connections.RequestsCorrelate: a failed write leaves its waiter stored, as in the program; connection loss, which drops all waiters, is not a step.
- Permissions.PermissionsAnsweredOnce: descriptions and options, and the option an answer selects, are not modelled.
- Message metadata is reduced to two of its fields, since only its presence matters to merging.
- Configuration, path and host validation, container and process management, the file system sandbox, and tool descriptions: library wrappers or single checks.
