# Verified model of the voice console

Dafny proofs about the protocols of the Hermes voice console: how runs are submitted,
streamed, fanned out and recovered; how realtime mutations are forwarded at most once; how
a snapshot and an event replay keep the page equal to the durable log; how the manual
microphone behaves under late replies; and how an answer becomes speech in the browser.

Asynchronous code is modelled as a state machine: the code between two awaits is one atomic
step, and every theorem about a component quantifies over all finite sequences of its steps,
with Hermes, the network and the clock answering as they please. Beside each state machine
stands the class whose fields the source updates; its methods are proved to take exactly
the steps of the machine, so what is proved of the machine holds of the object.

| file | what it models |
|---|---|
| `run_store.dfy` | the durable table of runs, its lock and fence queries, acknowledgements and cleanup |
| `run_lifecycle.dfy` | every run as one cell: start, post, stream, reconcile, approve, stop, acknowledge, restart |
| `run_coordinator.dfy` | the coordinator object, one method per stretch between awaits |
| `fan_out.dfy` | the bounded event ring and the bounded subscriber queues of one active run |
| `realtime_store.dfy` | the request ledger and the session table |
| `proxy.dfy` | forwarding mutations over both tables |
| `replay.dfy` | the server's snapshot and polling loop over an append-only, expiring log |
| `control_client.dfy` | the browser's control client: dedupe window and pending commands |
| `projection.dfy` | the event reducer, the snapshot projection and the merge with history |
| `channel.dfy` | the last three end to end |
| `manual_turn.dfy` | microphone, turn mode, captures, recovery latch and epoch fence |
| `manual_controls.dfy` | what each callback and reply does to those controls |
| `realtime_session.dfy` | the controller object of the same |
| `sentences.dfy` | cutting an answer into sentences |
| `speech.dfy` | the frame producer and the cancelled-turn set |
| `playback.dfy` | the browser's clip queue and promise chain |
| `speech_playback.dfy` | producer and queue end to end |
| `downsampler.dfy` | the streaming microphone downsampler |
| `sequences.dfy`, `options.dfy` | shared sequence facts and the optional value |

`dafny verify dfyconfig.toml` checks everything.

## What the proofs found

The code is modelled as it is. Where a natural promise does not hold, there is a lemma with
the failing input and an exact condition:

- An approval in flight across `acknowledge_unrecoverable` sets the acknowledged run running
  again, because the acknowledgement writes the stored row and not the in-memory record, so
  two runs can lock one conversation. It is safe if and only if no approval is in flight
  (`RunLifecycle.AcknowledgementSafeIff`, `RunLifecycle.AcknowledgementLocksIff`).
- A capture that starts while a turn-mode request is pending can end with the recovery latch
  set and the microphone open (`ManualTurn.StartSafeIff`).
- Before `connect` resolves, the microphone can be open in manual mode although nothing is
  being captured; that cannot happen on a connection if and only if it is not opened in
  manual mode (`ManualTurn.ConnectSafeIff`).
- A slow overlapping duplicate overwrites a stored reply; a stored reply is final if and only
  if no other call with its key is in flight (`Proxy.StoredReplyIsFinalIff`).
- A subscriber of a recovered run that asks for 0, or for a past number while the ring is
  still empty, gets neither the missing events nor a gap snapshot
  (`FanOut.StartsWhereAskedIff` gives the exact condition).
- A subscriber with exactly one free slot is handed the terminal event without the end
  marker and stays attached (`FanOut.SlowReaderEndsIff`).
- The client's dedupe window outlives a snapshot: after a reconnect with a snapshot that lags
  behind, an event that was delivered before is dropped and the page misses it
  (`Channel.StaleSnapshotLosesEvent`). The page receives everything if and only if each event
  is outside the window when it arrives (`Channel.HeardAllIff`).
- The server forgets a cancelled turn once 256 different turns have been cancelled after it,
  and not before (`Speech.CancelSticksIff`).
- The reducer's comment promises that replayed ids are ignored. An event's replay is ignored
  if and only if fewer than 2000 events were folded after it
  (`Projection.FoldedIgnoredIff`).
- A turn that ends in an error after it began keeps the browser's queue until something
  cancels it, and the next turn is not heard (`SpeechToPlayback.NextTurnPlaysIff`).

## Model

| member | source | states |
|---|---|---|
| RunLifecycle.OneLockPerConversation | backend/voice_console/run_coordinator.py:81-163 | In every run of starts, events, reconciliations, approvals, stops, acknowledgements and restarts (no approval in flight across an unrecoverable acknowledgement): two non-terminal runs of one conversation and owner are the same run; each start posts to Hermes at most once; at most one terminal event is emitted; a set terminal_at means a terminal status |
| RunLifecycle.EveryRunIsGood | backend/voice_console/run_coordinator.py:65-444 | The invariant behind it holds in every reachable state: every cell sound, one lock per conversation and owner, run ids unique |
| RunLifecycle.CellStaysSound | backend/voice_console/run_coordinator.py:65-444 | Every stretch of code between two awaits keeps one run's invariant, whatever else is in flight for it |
| RunLifecycle.CellEvolves | backend/voice_console/run_store.py:233-263 | No step changes whose run it is or takes it out of a terminal status |
| RunLifecycle.RunIdsComeFromAcceptance | backend/voice_console/run_coordinator.py:148-151 | Only an accepted submission gives a run its run id |
| RunLifecycle.RestartKeepsGood | backend/voice_console/run_coordinator.py:431-444 | A restart in any state keeps every invariant |
| RunLifecycle.StartDecides | backend/voice_console/run_coordinator.py:83-101 | A start inserts its submitting run if and only if its id is new, no acceptance_unknown run of the owner is on the target, and every run of the owner in the conversation is terminal; else nothing changes |
| RunLifecycle.PostDecides | backend/voice_console/run_coordinator.py:116-121 | A post is made exactly by a start that has not posted |
| RunLifecycle.StartFailureDecides | backend/voice_console/run_coordinator.py:132-146 | An ambiguous submission leaves acceptance_unknown without terminal_at, so both locks stay; any other failure leaves rejected with terminal_at |
| RunLifecycle.AcceptanceDecides | backend/voice_console/run_coordinator.py:148-163 | An acceptance records the run id, the status running and the first event's number, and registers an in-memory run that consumes the stream |
| RunLifecycle.AcceptanceIsUnique | backend/voice_console/run_coordinator.py:148-148 | A run id that another run already has abandons the start, and any other is recorded |
| RunLifecycle.StreamEventDecides | backend/voice_console/run_coordinator.py:274-311 | A streamed event takes the next sequence number; the row becomes completed, failed or cancelled exactly on the matching terminal event, with terminal_at exactly then, and waiting or running on the approval events |
| RunLifecycle.StreamEventEnds | backend/voice_console/run_coordinator.py:165-180 | A terminal event, and no other, ends the task and takes the run off the registry |
| RunLifecycle.StreamEndDecides | backend/voice_console/run_coordinator.py:181-198 | A stream that is lost, or ends before a terminal event, is reconciled |
| RunLifecycle.ReconcileDecides | backend/voice_console/run_coordinator.py:200-272 | A lookup answer makes the run unrecoverable, completed, cancelled or failed exactly when it says so, with the failure text and terminal_at that go with it; otherwise the status stays, and every answer but an unknown status and giving up is numbered |
| RunLifecycle.ReconcileEnds | backend/voice_console/run_coordinator.py:200-272 | Polling goes on exactly after an unknown status, and a terminal answer, and no other, takes the run off the registry |
| RunLifecycle.CallBegins | backend/voice_console/run_coordinator.py:384-415 | An approval or a stop waits with the in-memory run exactly when the run is registered and the owner's |
| RunLifecycle.ApprovalDecides | backend/voice_console/run_coordinator.py:399-406 | A granted approval sets a run that has not ended running, with the next number; a refused one, or one of a run that has ended, changes nothing |
| RunLifecycle.StopDecides | backend/voice_console/run_coordinator.py:416-422 | A stop that Hermes takes is numbered and leaves the status to the stream |
| RunLifecycle.AcknowledgementDecides | backend/voice_console/run_coordinator.py:424-429 | An acknowledgement takes effect exactly for the owner of a run in that status, and an unrecoverable one drops the registry entry either way |
| RunLifecycle.RestartDecides | backend/voice_console/run_coordinator.py:431-444 | A restart drops exactly the rows that have been terminal for longer than the retention, and every call in flight |
| RunLifecycle.PostsOnlyWhenStarting | backend/voice_console/run_coordinator.py:102-121 | The only step that posts for a run is its own start that has not posted yet; recovery, reconciliation and every other call never post |
| RunLifecycle.TerminalIsFinal | backend/voice_console/run_coordinator.py:274-311 | Once a run is terminal no late event, approval, stop result, acknowledgement or restart changes its status; its row can only disappear |
| RunLifecycle.CleanupSparesLocks | backend/voice_console/run_store.py:327-363 | A restart's cleanup never deletes a run that still locks its conversation, and reactivates exactly those that are running or waiting for approval with a run id |
| RunLifecycle.AlwaysUnconfirmed | backend/voice_console/run_coordinator.py:132-146 | In every run, without any assumption: a run Hermes never confirmed has no run id, no in-memory run and no terminal_at |
| RunLifecycle.UnknownUntilAcknowledged | backend/voice_console/run_store.py:313-344 | An acceptance_unknown run keeps its whole row, across restart and cleanup, until its owner acknowledges it; meanwhile no start of the same owner and target inserts a run |
| RunLifecycle.LateApprovalReopens | backend/voice_console/run_coordinator.py:384-406 | The counterexample: an approval in flight across the acknowledgement sets the acknowledged run running again, with terminal_at set |
| RunLifecycle.AcknowledgementSafeIff | backend/voice_console/run_coordinator.py:427-429 | Acknowledging an unrecoverable run leaves terminal_at honest in every continuation if and only if no approval of that run is waiting for Hermes |
| RunLifecycle.AcknowledgementLocksIff | backend/voice_console/run_coordinator.py:427-429 | It leaves every conversation locked by at most one run of its owner, in every continuation, if and only if no approval of that run is waiting for Hermes |
| RunLifecycle.TwoRunsLock | backend/voice_console/run_coordinator.py:384-429 | The counterexample: another run starts in the conversation, then the late approval reopens the first |
| RunStore.ConsoleStore.InsertRun | backend/voice_console/run_store.py:200-231 | Inserts a submitting row without run id and changes nothing else |
| RunStore.ConsoleStore.UpdateRun | backend/voice_console/run_store.py:233-263 | Changes exactly the named fields of one row; the error cases (row gone, run id of another row) change nothing |
| RunStore.ApplyDecides | backend/voice_console/run_store.py:233-263 | A change writes the fields it names, and the time when terminal, and leaves the rest |
| RunStore.RecoverableIff | backend/voice_console/run_coordinator.py:433-435 | Recovery takes up submitting, running and waiting runs with a run id, and no others |
| RunStore.ConsoleStore.ActiveRunForConversation | backend/voice_console/run_store.py:286-299 | Finds a locking run if and only if there is one for this conversation and owner |
| RunStore.ConsoleStore.AcceptanceUnknownFor | backend/voice_console/run_store.py:313-325 | Finds an acceptance_unknown run if and only if there is one for this owner and target |
| RunStore.ConsoleStore.AcknowledgeUnknown | backend/voice_console/run_store.py:338-344 | Succeeds exactly for the owner of an acceptance_unknown run, which becomes failed and terminal; otherwise nothing changes |
| RunStore.ConsoleStore.AcknowledgeUnrecoverable | backend/voice_console/run_store.py:346-355 | Succeeds exactly for the owner of an unrecoverable run, which becomes failed and terminal; otherwise nothing changes |
| RunStore.ConsoleStore.CleanupTerminal | backend/voice_console/run_store.py:357-363 | Deletes exactly the rows whose terminal_at is older than the limit, and counts them |
| RunCoordinator.Coordinator.BeginStart | backend/voice_console/run_coordinator.py:81-101 | Inserts if and only if no acceptance_unknown run fences the owner and target and no run locks the conversation; no other run changes |
| RunCoordinator.Coordinator.SendPost | backend/voice_console/run_coordinator.py:116-121 | The post takes exactly its lifecycle step |
| RunCoordinator.Coordinator.StartRaises | backend/voice_console/run_coordinator.py:132-146 | An ambiguous failure leaves acceptance_unknown, any other a rejected, terminal run; no other run changes |
| RunCoordinator.Coordinator.Accept | backend/voice_console/run_coordinator.py:148-163 | Records the run id, registers the run and emits its first event, exactly as the lifecycle step says; a run id that is already taken abandons the start |
| RunCoordinator.Coordinator.EmitKind | backend/voice_console/run_coordinator.py:274-311 | _emit on the row, the in-memory record and the registry: the lifecycle's Emit for this run, no other run changes |
| RunCoordinator.Coordinator.OnStreamEvent | backend/voice_console/run_coordinator.py:165-180 | One streamed event is one lifecycle step |
| RunCoordinator.Coordinator.OnStreamEnd | backend/voice_console/run_coordinator.py:181-198 | The end or loss of the stream is one lifecycle step |
| RunCoordinator.Coordinator.OnLookup | backend/voice_console/run_coordinator.py:200-272 | One turn of the reconcile loop is one lifecycle step |
| RunCoordinator.Coordinator.Settle | backend/voice_console/run_coordinator.py:313-326 | _terminal and the lookup failure: status first, then the event |
| RunCoordinator.Coordinator.BeginApprove | backend/voice_console/run_coordinator.py:384-388 | An approval is sent only for the owner's registered run |
| RunCoordinator.Coordinator.OnApproved | backend/voice_console/run_coordinator.py:399-406 | The approval's answer is dropped when the in-memory record is terminal, and emitted otherwise |
| RunCoordinator.Coordinator.BeginStop | backend/voice_console/run_coordinator.py:408-415 | A stop of the owner's run remembers the in-memory run if there is one |
| RunCoordinator.Coordinator.OnStopped | backend/voice_console/run_coordinator.py:416-422 | The stop's answer is emitted on the in-memory run that was found before the await |
| RunCoordinator.Coordinator.AcknowledgeUnknown | backend/voice_console/run_coordinator.py:424-425 | One lifecycle step, successful exactly for the owner of an acceptance_unknown run |
| RunCoordinator.Coordinator.AcknowledgeUnrecoverable | backend/voice_console/run_coordinator.py:427-429 | The registry entry goes first, whatever the store then says; a run id that no row has changes nothing |
| RunCoordinator.Coordinator.Recover | backend/voice_console/run_coordinator.py:431-444 | Cleanup, then an in-memory run in reconciliation for exactly the recoverable rows; every run thereby takes the restart step of its cell |
| RunCoordinator.Coordinator.TakesMachineStep | backend/voice_console/run_coordinator.py:65-444 | When every run of the object is a cell of the machine, a method that takes a run's own step takes the machine's step |
| RunCoordinator.Coordinator.AcceptTakesMachineStep | backend/voice_console/run_coordinator.py:148-163 | The same for an acceptance, whose run id may be taken |
| RunCoordinator.Coordinator.StartTakesMachineStep | backend/voice_console/run_coordinator.py:81-101 | The same for a start and its two fences |
| RunCoordinator.Coordinator.RecoverTakesMachineStep | backend/voice_console/run_coordinator.py:431-444 | The same for a recovery |
| RunCoordinator.TakenIsRunIdTaken | backend/voice_console/run_coordinator.py:148-148 | The table's unique column is the machine's test for a run id that is taken |
| RunCoordinator.FencesAreMirrored | backend/voice_console/run_coordinator.py:83-93 | The table's two queries are the machine's two fences |
| FanOut.SubscribersMissNothing | backend/voice_console/run_coordinator.py:274-352 | Over every interleaving of emits, subscriptions, reads and drops: each subscriber is handed one gap-free run of sequence numbers, which reaches the latest while it is attached, and no queue exceeds 64 items |
| FanOut.ResumesAfterLastSequence | backend/voice_console/run_coordinator.py:328-352 | A subscriber that joins a non-empty ring with 1 <= last_sequence <= the latest and gets no snapshot is handed last_sequence + 1, last_sequence + 2, ... for ever after |
| FanOut.StartsWhereAskedIff | backend/voice_console/run_coordinator.py:332-349 | Without a snapshot the run starts right after last_sequence if and only if: the ring is non-empty, last_sequence is not in the future, and 0 is only asked while event 1 is still there; or the ring is empty and last_sequence is the latest |
| FanOut.SnapshotIff | backend/voice_console/run_coordinator.py:332-347 | The first item is a snapshot of the run's status and latest number if and only if events after last_sequence have left the ring or more than 62 are to be replayed |
| FanOut.ReplayedAre | backend/voice_console/run_coordinator.py:334-350 | What is replayed is the last of the ring's events with a higher number, 62 at most, in order |
| FanOut.OpenedHolds | backend/voice_console/run_coordinator.py:328-352 | A fresh queue holds the snapshot, if one is due, and the replayed events, and nothing else |
| FanOut.EmitDecides | backend/voice_console/run_coordinator.py:274-298 | An event enters the ring with its kind and the next number; the oldest leaves a full ring |
| FanOut.EmitHands | backend/voice_console/run_coordinator.py:299-310 | Every subscriber with room is handed the event, exactly the full ones are dropped, and every other queue is left alone |
| FanOut.TakeDecides | backend/voice_console/run_coordinator.py:331-331 | Reading takes the oldest waiting item of one queue |
| FanOut.RecoveredRunSkips | backend/voice_console/run_coordinator.py:332-352 | The counterexample otherwise: a recovered run with an empty ring hands a subscriber with a past number nothing, and no snapshot |
| FanOut.EndMarkerIff | backend/voice_console/run_coordinator.py:299-310 | After a terminal event a queue is handed the event and the end marker if and only if it has two free slots; with one it gets the event alone |
| FanOut.SlowReaderEndsIff | backend/voice_console/run_coordinator.py:299-310 | A reader that has not read n events learns that the run has ended if and only if n < 63; at exactly 63 it stays attached and waits for an end marker that never comes |
| FanOut.OpenedIsComplete | backend/voice_console/run_coordinator.py:331-350 | A fresh queue is handed at most 63 items, so no put overflows it, and it is complete up to the latest event |
| FanOut.AfterIsTail | backend/voice_console/run_coordinator.py:334-336 | The events after a number are the right tail of a consecutive ring |
| FanOut.PendingIsTail | backend/voice_console/run_coordinator.py:334-348 | What is replayed is consecutive, ends at the latest event and has at most 62 events |
| FanOut.RingKeeps | backend/voice_console/run_coordinator.py:275-277 | The bounded ring stays consecutive and ends at the latest number |
| FanOut.NotifiedIsHanded | backend/voice_console/run_coordinator.py:299-310 | A queue with room is handed exactly the new event (and the end marker if that fits) |
| FanOut.EmitKeepsQueue | backend/voice_console/run_coordinator.py:299-310 | An emit keeps every queue complete; a full one is dropped and keeps its gap-free run |
| FanOut.TakeKeepsQueue | backend/voice_console/run_coordinator.py:300-304 | Reading an item does not change what has been handed over |
| FanOut.BaseIsFixed | backend/voice_console/run_coordinator.py:328-352 | Where a queue starts never changes |
| FanOut.StaysGood | backend/voice_console/run_coordinator.py:274-382 | The ring and queue invariant holds in every continuation |
| FanOut.ActiveRun.PutNowait | backend/voice_console/run_coordinator.py:300-304 | Puts if and only if there is room, and reports a full queue |
| FanOut.ActiveRun.Notify | backend/voice_console/run_coordinator.py:300-310 | One subscriber's puts after an event |
| FanOut.ActiveRun.Broadcast | backend/voice_console/run_coordinator.py:299-310 | Every subscriber is notified, and exactly the full ones are dropped |
| FanOut.ActiveRun.EmitEvent | backend/voice_console/run_coordinator.py:274-311 | Ring, row, record, queues and subscribers all take the Emit step; nothing changes for a missing row beyond the ring |
| FanOut.ActiveRun.SubscribeFrom | backend/voice_console/run_coordinator.py:328-352 | Opens the queue with the snapshot and the replayed events of the Subscribe step |
| FanOut.ActiveRun.TakeNext | backend/voice_console/run_coordinator.py:331-331 | Hands out the oldest waiting item |
| FanOut.ActiveRun.Discard | backend/voice_console/run_coordinator.py:379-382 | Detaches one subscriber |
| RealtimeStore.ClaimKeepsOneRow | backend/voice_console/realtime/store.py:78-115 | At most one row per (owner, target, request id), stronger than the declared primary key |
| RealtimeStore.NewIffUnused | backend/voice_console/realtime/store.py:84-115 | "new" is answered if and only if no row has this owner, target and request id |
| RealtimeStore.ClaimDecides | backend/voice_console/realtime/store.py:84-108 | A request id that is in use answers with its state for the same resource, operation and payload, and is a conflict for any other |
| RealtimeStore.ClaimInserts | backend/voice_console/realtime/store.py:109-115 | Only a new claim changes the ledger: one pending row without a reply |
| RealtimeStore.SetDecides | backend/voice_console/realtime/store.py:128-148 | A state is set with its reply on one row, and nothing is inserted |
| RealtimeStore.RecordDecides | backend/voice_console/realtime/store.py:182-229 | A session is refused exactly when its id has another identity or its identity another id; a known one is refreshed, a new one inserted |
| RealtimeStore.UpdateDecides | backend/voice_console/realtime/store.py:243-252 | State, time and, if given, the cursor of one session |
| RealtimeStore.PurgeIff | backend/voice_console/realtime/store.py:64-71 | Opening the database forgets exactly the requests untouched for 30 days and the closed sessions untouched for 30 days |
| RealtimeStore.ClaimIsImmutable | backend/voice_console/realtime/store.py:128-148 | No ledger operation changes the operation or fingerprint a row was claimed with |
| RealtimeStore.RecordKeepsOneSession | backend/voice_console/realtime/store.py:182-229 | At most one session per (owner, target, conversation, create request) |
| RealtimeStore.IdentityIsImmutable | backend/voice_console/realtime/store.py:182-252 | No session operation changes whose a session is |
| RealtimeStore.RealtimeMappingStore.constructor | backend/voice_console/realtime/store.py:64-71 | Opening the database drops exactly the expired requests and the expired closed sessions |
| RealtimeStore.RealtimeMappingStore.ClaimRequest | backend/voice_console/realtime/store.py:78-115 | Conflict, existing state or new, with the insert, as the table function says; the tables' invariant is kept |
| RealtimeStore.RealtimeMappingStore.SetRequestState | backend/voice_console/realtime/store.py:117-148 | An unconditional update of one row's state and response |
| RealtimeStore.RealtimeMappingStore.RecordSession | backend/voice_console/realtime/store.py:182-229 | Refused exactly when the session belongs to another request or the request to another session; else inserted or updated |
| RealtimeStore.RealtimeMappingStore.RequireSession | backend/voice_console/realtime/store.py:231-241 | Found if and only if it is the owner's session on this target |
| RealtimeStore.RealtimeMappingStore.UpdateSession | backend/voice_console/realtime/store.py:243-252 | Changes state, time and (when given) the cursor of one session |
| Proxy.AtMostOncePerRequest | backend/voice_console/realtime/service.py:167-512 | Across concurrent callers, failures, lost replies and restarts, two mutations with the same owner, target and request id are only ever sent for claims more than 30 days of retention apart: within retention, at most once |
| Proxy.SentOnlyByOwner | backend/voice_console/realtime/service.py:712-728 | Whenever a mutation is sent, the session table gives the session to its sender |
| Proxy.StoredReplyIsFinalIff | backend/voice_console/realtime/service.py:235-311 | A stored reply survives every undisturbed continuation if and only if no other call with its key is in flight |
| Proxy.StoredReplyIsServed | backend/voice_console/realtime/service.py:260-268 | From then on every repeat with the same body gets the stored reply without a call to Hermes |
| Proxy.MutationRoundTrip | backend/voice_console/realtime/service.py:235-311 | A new mutation of an owned session is sent once, and a repeat with the same body gets its reply and sends nothing |
| Proxy.BeginDecides | backend/voice_console/realtime/service.py:244-272 | A mutation is refused without the session, refused as a conflict, answered from the table, or started: sent if its claim is new, looked up if not |
| Proxy.CallDecides | backend/voice_console/realtime/service.py:273-279 | A call that is to be sent is sent once with its own session and key; a lost reply is looked up; a failure leaves the tables alone |
| Proxy.AnswerIsStored | backend/voice_console/realtime/service.py:280-311 | An answer is stored with its reply: complete exactly when it is final, else in_progress or outcome_unknown; no other row changes |
| Proxy.AnswerSetsSession | backend/voice_console/realtime/service.py:228-228 | A final answer that names a state sets its session's, and nothing else touches a session |
| Proxy.FinalAnswerFinishes | backend/voice_console/realtime/service.py:307-311 | So a final answer finishes its request |
| Proxy.CreationDecides | backend/voice_console/realtime/service.py:147-156 | A creation is complete once its session is on record, and a mismatch leaves both tables as they were |
| Proxy.DuplicateOverwrites | backend/voice_console/realtime/service.py:283-292 | The counterexample: a slow overlapping duplicate replaces a stored reply by outcome_unknown |
| Proxy.TablesInEveryRun | backend/voice_console/realtime/store.py:78-229 | Both tables keep their uniqueness in every run of the service |
| Proxy.RequestNeverReassigned | backend/voice_console/realtime/store.py:64-148 | A ledger row never changes what it was claimed for, and goes only at a restart past its retention |
| Proxy.SessionNeverReassigned | backend/voice_console/realtime/store.py:68-71 | A session never changes hands, and only a closed one is ever dropped |
| Proxy.CoverStep | backend/voice_console/realtime/store.py:64-67 | The row of a claim outlives the retention period after the claim |
| Proxy.OnceEachInEveryRun | backend/voice_console/realtime/service.py:167-512 | The at-most-once invariant of ledger, calls in flight and sends holds in every run |
| Proxy.SendersComeFromClaims | backend/voice_console/realtime/service.py:269-275 | Only a call whose claim answered "new" ever comes to send |
| Proxy.OwnedInEveryRun | backend/voice_console/realtime/service.py:712-728 | Every call in flight holds a session of its caller and a live ledger row |
| Proxy.CreationsInEveryRun | backend/voice_console/realtime/service.py:112-156 | Every creation in flight holds a ledger row of operation create |
| Proxy.FinishedForever | backend/voice_console/realtime/service.py:260-311 | A finished row is left exactly as it is by every undisturbed continuation |
| Proxy.FinishedRepeats | backend/voice_console/realtime/service.py:256-268 | A finished row answers a repeat by its owner from the table |
| Proxy.RealtimeProxyService.BeginMutation | backend/voice_console/realtime/service.py:244-272 | Ownership, claim, cached reply, send or lookup, decided as in the Begin step |
| Proxy.RealtimeProxyService.TransmitMutation | backend/voice_console/realtime/service.py:273-275 | The one place that sends a mutation |
| Proxy.RealtimeProxyService.Reconcile | backend/voice_console/realtime/service.py:276-279 | A lost reply is looked up, never sent again |
| Proxy.RealtimeProxyService.FinishMutation | backend/voice_console/realtime/service.py:280-311 | An unfinished answer is stored as in_progress or outcome_unknown, a final one as complete with its reply |
| Proxy.RealtimeProxyService.Abandon | backend/voice_console/realtime/service.py:730-742 | A failed call leaves both tables as they are |
| Proxy.RealtimeProxyService.BeginCreation | backend/voice_console/realtime/service.py:112-119 | A creation claims its request and goes on unless there is a conflict |
| Proxy.RealtimeProxyService.FinishCreation | backend/voice_console/realtime/service.py:147-156 | A created session is recorded, and only then is the request complete |
| Replay.EventsAreLogSlice | backend/voice_console/realtime/socket.py:59-100 | At every point of the frame stream, whatever is appended, expired or rebased between polls: the events sent since the last snapshot-carrying frame with a cursor are exactly the contiguous slice of the log after that cursor, each once and in order |
| Replay.ReplayIsFaithful | backend/voice_console/realtime/socket.py:76-100 | The loop invariant: the cursor, the batch still to be sent and the frames sent continue the log |
| Replay.AnswerContinues | backend/voice_console/realtime/socket.py:79-85 | An idle loop is answered with what follows the last event it sent, or with a gap |
| Replay.PollCatchesUp | backend/voice_console/realtime/socket.py:76-88 | Progress: when the cursor is retained and Hermes gives all it has, one poll and its sends bring the client everything after the cursor, and the cursor to the end of the log |
| Replay.PollFetches | backend/voice_console/realtime/socket.py:79-85 | A poll fetches the events after the cursor, or the retained ones without a cursor |
| Replay.BatchIsSent | backend/voice_console/realtime/socket.py:86-88 | A batch is sent once and in order, and then the cursor is its last event |
| Replay.GapIff | backend/voice_console/realtime/socket.py:89-95 | A poll finds a gap if and only if the cursor's event is not retained |
| Replay.RecoveryDecides | backend/voice_console/realtime/socket.py:89-95 | A gap is answered with the new snapshot, whose cursor is polled from |
| Replay.FailureDecides | backend/voice_console/realtime/socket.py:96-99 | Another failure is reported once and ends the loop |
| Replay.ClosedIsSilent | backend/voice_console/realtime/socket.py:31-41 | A closed socket is sent nothing, and a stopped loop polls no more |
| Replay.PollKeeps | backend/voice_console/realtime/socket.py:79-85 | A poll keeps the invariant |
| Replay.SendKeeps | backend/voice_console/realtime/socket.py:86-88 | Sending the next event keeps the invariant |
| Replay.SnapshotKeeps | backend/voice_console/realtime/socket.py:89-95 | Rebasing on a new snapshot keeps the invariant |
| Replay.AppendKeeps | backend/voice_console/realtime/socket.py:76-100 | An append between any two steps keeps the invariant |
| Replay.ReplaySocket.constructor | backend/voice_console/realtime/socket.py:59-63 | The first frame is the snapshot, and the loop starts from its cursor |
| Replay.ReplaySocket.Send | backend/voice_console/realtime/socket.py:31-41 | A frame goes out unless the socket is closed |
| Replay.ReplaySocket.Forward | backend/voice_console/realtime/socket.py:86-88 | The event loop of one poll is that many send steps, and then the cursor is the page's last_event_id if it gives one |
| Replay.EmptyPageIff | backend/voice_console/realtime/socket.py:86-88 | A page without events keeps the loop invariant if and only if its last_event_id is the cursor asked for |
| Replay.ReplaySocket.Rebase | backend/voice_console/realtime/socket.py:90-95 | The gap answer is the recovery step |
| Replay.ReplaySocket.FailPoll | backend/voice_console/realtime/socket.py:96-99 | Any other error is reported once and stops the loop |
| ControlClient.CommandsSettleOnce | frontend/src/lib/realtimeControlClient.ts:284-323 | In every run each accepted command is either pending or settled, never both, its promise settles at most once, and no more than 128 are pending |
| ControlClient.AlwaysAccounted | frontend/src/lib/realtimeControlClient.ts:284-364 | The multiset of settled and pending commands is exactly the accepted ones, in every run |
| ControlClient.AckSettlesItsOwn | frontend/src/lib/realtimeControlClient.ts:284-291 | An acknowledgement settles the command with its id and no other |
| ControlClient.StrangeAckIsInert | frontend/src/lib/realtimeControlClient.ts:284-286 | One that nobody waits for settles nothing |
| ControlClient.TimeOutSettlesItsOwn | frontend/src/lib/realtimeControlClient.ts:311-314 | A timeout settles its own command while that is pending, and nothing afterwards |
| ControlClient.IdsDistinctInEveryRun | frontend/src/lib/realtimeControlClient.ts:307-315 | In every run no two pending commands have the same id |
| ControlClient.LossSettlesAll | frontend/src/lib/realtimeControlClient.ts:169-187 | An error frame, the end of the socket and the owner's close settle every pending command, in order |
| ControlClient.SubmitDecides | frontend/src/lib/realtimeControlClient.ts:301-323 | A command is accepted exactly when the socket is open, a snapshot has come, the buffer has room, fewer than 128 are pending and its id is not among them |
| ControlClient.OldSocketIsDeaf | frontend/src/lib/realtimeControlClient.ts:84-84 | Frames and the end of an older socket do nothing |
| ControlClient.SnapshotDecides | frontend/src/lib/realtimeControlClient.ts:124-145 | A snapshot of this conversation sets the cursor and is handed on; after a gap the cursor is the frame's; one of another conversation does nothing |
| ControlClient.EventDecides | frontend/src/lib/realtimeControlClient.ts:146-160 | An event is delivered exactly when a snapshot has come, its id is not among the last 2000 and it matches; it then moves the cursor and enters the window |
| ControlClient.DeliveriesAreClean | frontend/src/lib/realtimeControlClient.ts:107-188 | For every sequence of frames, reconnects and calls: two deliveries of one event id have at least 2000 others between them, and none precedes a snapshot on its socket |
| ControlClient.DedupStep | frontend/src/lib/realtimeControlClient.ts:146-160 | Every step keeps the dedupe window equal to the last 2000 delivered ids |
| ControlClient.SpacedAppend | frontend/src/lib/realtimeControlClient.ts:155-156 | An id outside the window is far enough from its last delivery |
| ControlClient.RealtimeControlClient.Open | frontend/src/lib/realtimeControlClient.ts:74-81 | A new socket starts without a snapshot |
| ControlClient.RealtimeControlClient.AcceptSnapshot | frontend/src/lib/realtimeControlClient.ts:191-198 | A snapshot of this conversation is taken over with its cursor, any other is refused |
| ControlClient.RealtimeControlClient.Receive | frontend/src/lib/realtimeControlClient.ts:107-178 | Every frame on the current socket takes its step; frames of older sockets do nothing |
| ControlClient.RealtimeControlClient.Remember | frontend/src/lib/realtimeControlClient.ts:155-156 | The window keeps the last 2000 ids in order |
| ControlClient.RealtimeControlClient.RejectCommands | frontend/src/lib/realtimeControlClient.ts:293-299 | Every pending command settles, in order, and none is left |
| ControlClient.RealtimeControlClient.SettleOne | frontend/src/lib/realtimeControlClient.ts:284-291 | One command leaves the map as it settles |
| ControlClient.RealtimeControlClient.SocketClosed | frontend/src/lib/realtimeControlClient.ts:179-187 | The current socket's end rejects the pending commands, an older one's does nothing |
| ControlClient.RealtimeControlClient.Submit | frontend/src/lib/realtimeControlClient.ts:301-323 | A command is accepted exactly when the socket is open and ready, not backpressured, below 128 and new; a failed transmission settles it at once |
| ControlClient.RealtimeControlClient.TimeOut | frontend/src/lib/realtimeControlClient.ts:311-314 | A timeout settles its own command only |
| ControlClient.RealtimeControlClient.Close | frontend/src/lib/realtimeControlClient.ts:353-364 | Closing rejects every pending command and fences the old socket |
| Projection.MergeConversationMessages | frontend/src/console/conversationProjection.ts:45-68 | The merge: history, the realtime list, or history followed by what the longest overlap leaves |
| Projection.MergedUnique | frontend/src/console/conversationProjection.ts:45-68 | That determines the result |
| Projection.MergeKeepsBoth | frontend/src/console/conversationProjection.ts:45-68 | History is a prefix and the realtime list a contiguous block of the result (its suffix unless history begins with it) |
| Projection.MergeExists | frontend/src/console/conversationProjection.ts:45-68 | There is always such a merge |
| Projection.MergeShowsBoth | frontend/src/console/conversationProjection.ts:45-68 | A reader sees the roles and contents of the history first, and of the realtime list somewhere in one piece |
| Projection.MergeShowsLeast | frontend/src/console/conversationProjection.ts:59-67 | And no shorter list shows the one first and the other last |
| Projection.MergeShortest | frontend/src/console/conversationProjection.ts:59-67 | When neither list continues the other, no shorter list begins with history and ends with the realtime list |
| Projection.MergeIdempotent | frontend/src/console/conversationProjection.ts:45-68 | Merging the result with the same realtime list changes nothing |
| Projection.SeenAfter | frontend/src/console/conversationProjection.ts:120-122 | After fresh events the window is the last 2000 ids |
| Projection.RefoldIgnored | frontend/src/console/conversationProjection.ts:120-120 | Folding events whose ids are in the window changes nothing at all |
| Projection.ReplayIgnoredIff | frontend/src/console/conversationProjection.ts:115-122 | An event is ignored if and only if its id is in the window |
| Projection.FoldedIgnoredIff | frontend/src/console/conversationProjection.ts:115-122 | A folded event is ignored when it is replayed if and only if fewer than 2000 events have been folded after it |
| Projection.ReplayAllOrNothing | frontend/src/console/conversationProjection.ts:115-133 | Replaying the events from some point on changes nothing when there are at most 2000 of them; otherwise every one is folded again and all they said appears twice |
| Projection.LateReplayRepeats | frontend/src/console/conversationProjection.ts:115-133 | The counterexample: an event followed by 2000 others says its message again when it is replayed |
| Projection.EntryIgnoresOthers | frontend/src/console/conversationProjection.ts:138-154 | The entry of a worker, approval, tool call or artifact equals the fold over only the events that name it |
| Projection.EntryIsOwnHistory | frontend/src/console/conversationProjection.ts:138-154 | The entry is the fold of its own events |
| Projection.LastWriteWins | frontend/src/console/conversationProjection.ts:138-154 | A plain field of an entry is the one the last naming event that carries it carried |
| Projection.OutcomeSticks | frontend/src/console/conversationProjection.ts:138-150 | A status or state that an event announces stays until a later event says otherwise |
| Projection.FailureShows | frontend/src/console/conversationProjection.ts:140-148 | A failed tool call shows failed and a denied approval denied, whatever the payload says |
| Projection.TranscriptInOrder | frontend/src/console/conversationProjection.ts:125-133 | The transcript grows by what was said, in event order |
| Projection.SaidDecides | frontend/src/console/conversationProjection.ts:125-133 | Who says what for each event type: the user, the assistant or nobody, and never an empty text |
| Projection.TextDecides | frontend/src/console/conversationProjection.ts:125-128 | The text is the first string among text, content and transcript |
| Projection.IncludesIff | frontend/src/console/conversationProjection.ts:129-131 | What it means for a type to include a word |
| Projection.NamesDecides | frontend/src/console/conversationProjection.ts:138-153 | Which payload field names a tool call, an approval, a worker or an artifact |
| Projection.ToolStatusDecides | frontend/src/console/conversationProjection.ts:138-143 | A tool call failed, completed, or has the status it says |
| Projection.ApprovalStateDecides | frontend/src/console/conversationProjection.ts:144-150 | An approval was denied, expired, resolved, or has the state it says |
| Projection.FieldsDecide | frontend/src/console/conversationProjection.ts:142-154 | Every other field is the payload's or else the old one, and the type is the event's |
| Projection.EventTouches | frontend/src/console/conversationProjection.ts:116-156 | A new event moves the cursor and touches the entries it names, each in its own table, and nothing else |
| Projection.EventSwitches | frontend/src/console/conversationProjection.ts:134-137 | The two indicators follow their two events each |
| Projection.IndicatorsFollowLastEvent | frontend/src/console/conversationProjection.ts:134-137 | Listening and speaking are what the last event that concerns them says |
| Projection.IndexHoldsLastRow | frontend/src/console/conversationProjection.ts:70-78 | A snapshot index holds for each id the last row with it, and nothing else |
| Projection.MessagesAreRows | frontend/src/console/conversationProjection.ts:85-96 | A snapshot shows exactly the messages its rows say |
| Projection.MessagesInOrder | frontend/src/console/conversationProjection.ts:88-96 | In the order of the rows |
| Projection.RowIsMessage | frontend/src/console/conversationProjection.ts:88-96 | One message from a row that says something, and none from any other |
| Projection.SnapshotReplaces | frontend/src/console/conversationProjection.ts:80-108 | A snapshot replaces everything: cursor, window, messages or else transcript, session and indicators |
| Projection.SnapshotIndexes | frontend/src/console/conversationProjection.ts:102-105 | And the four tables, each by its own key; pending approvals come before approvals |
| Channel.PageShowsLog | frontend/src/console/useRealtimeSession.ts:275-282 | Server loop, client window and reducer together: after a snapshot with a cursor, the events received are the log slice after it, and the page shows the snapshot folded over those the window lets through, which is the whole slice if and only if each of its events is outside the window when it arrives |
| Channel.ClientHears | frontend/src/lib/realtimeControlClient.ts:146-160 | What the window lets through, in order |
| Channel.ShowCalls | frontend/src/console/conversationProjection.ts:116-156 | The page after the callbacks is the fold over the delivered events |
| Channel.HeardAllIff | frontend/src/lib/realtimeControlClient.ts:146-160 | Nothing is dropped if and only if each event is outside the last 2000 ids as they are when it arrives |
| Channel.FreshIsNew | frontend/src/lib/realtimeControlClient.ts:146-160 | So for distinct ids of which none is in the window at first |
| Channel.StaleSnapshotLosesEvent | frontend/src/lib/realtimeControlClient.ts:146-147 | The counterexample, as a run of server and client from their initial states: the client hears an event that its snapshot does not hold, reconnects, is given the same snapshot and the event again, drops it, and the page misses it |
| ManualTurn.OpenMicrophoneIsCapturing | frontend/src/console/useRealtimeSession.ts:337-594 | For every order of calls and late replies: after connect has resolved, an open microphone in manual mode belongs to the current, capturing capture of this epoch; each capture sends at most one commit or discard in total |
| ManualTurn.SoundInEveryRun | frontend/src/console/useRealtimeSession.ts:169-594 | The invariant behind it, in every run |
| ManualTurn.OpenBeforeConnectResolves | frontend/src/console/useRealtimeSession.ts:267-301 | The counterexample before that: after a failed control connection that comes back, the controls work in manual mode with the microphone open and nothing being captured |
| ManualTurn.ConnectSafeIff | frontend/src/console/useRealtimeSession.ts:239-301 | From any reachable state: a connection keeps the microphone shut outside captures in manual mode, from its start and in every continuation on it, if and only if it is not opened in manual mode |
| ManualTurn.StepKeepsSecured | frontend/src/console/useRealtimeSession.ts:169-594 | Every step but a connect keeps that |
| ManualTurn.StaleReplyIsInert | frontend/src/console/useRealtimeSession.ts:395-420 | A reply of an older epoch changes no turn mode, current capture, recovery latch or mute state |
| ManualTurn.LatchMeansMuted | frontend/src/console/useRealtimeSession.ts:388-425 | In every run in which no capture starts while a turn-mode request is pending, a set recovery latch means the microphone is muted |
| ManualTurn.ImpatientStartUnmutes | frontend/src/console/useRealtimeSession.ts:435-471 | The counterexample otherwise: latched with an open microphone |
| ManualTurn.StartSafeIff | frontend/src/console/useRealtimeSession.ts:435-471 | Starting a capture in manual mode keeps that promise in every continuation if and only if no turn-mode request is pending |
| ManualTurn.StepStaysSound | frontend/src/console/useRealtimeSession.ts:169-594 | Every callback and every reply keeps the invariant |
| ManualTurn.StepKeepsLatch | frontend/src/console/useRealtimeSession.ts:388-594 | Every step but such a start keeps the latch's promise |
| ManualControls.StartOpens | frontend/src/console/useRealtimeSession.ts:435-471 | A capture begins, with the microphone open and the mute lifted, if and only if the latch is clear, no error forbids it, the connection is usable, the mode is manual and no capture of this epoch is in progress; else nothing changes |
| ManualControls.StartIsHeard | frontend/src/console/useRealtimeSession.ts:456-470 | After such a start the microphone is open and what it hears belongs to a new capture of this epoch |
| ManualControls.MuteDecides | frontend/src/console/useRealtimeSession.ts:337-342 | Lifting the mute is refused while latched; otherwise the track is open exactly when there is one, the mute is lifted and the mode is automatic |
| ManualControls.StopDecides | frontend/src/console/useRealtimeSession.ts:472-474 | Stopping shuts the microphone in manual mode and nothing else |
| ManualControls.ModeRequestDecides | frontend/src/console/useRealtimeSession.ts:354-434 | A mode request is sent exactly when the connection is usable, the mode is another one, the latch is clear, no capture is in progress and none is pending; one for manual mode shuts the microphone |
| ManualControls.ConcludeDecides | frontend/src/console/useRealtimeSession.ts:475-557 | A commit or discard is sent, with the microphone shut, exactly for a capture of this epoch that has not been concluded |
| ManualControls.ModeGrantDecides | frontend/src/console/useRealtimeSession.ts:388-410 | A mode change granted in time sets the mode, and opens the track for automatic mode unless muted |
| ManualControls.ModeLossDecides | frontend/src/console/useRealtimeSession.ts:389-420 | Any other reply of this epoch leaves the mode, mutes and latches; one of another epoch does nothing |
| ManualControls.CommitAcceptedDecides | frontend/src/console/useRealtimeSession.ts:573-577 | A commit accepted in time completes its capture and clears error and latch |
| ManualControls.CommitRefusedDecides | frontend/src/console/useRealtimeSession.ts:559-566 | A refused commit fails its capture and may be tried again; an unconfirmed one completes it and latches |
| ManualControls.CommitLostDecides | frontend/src/console/useRealtimeSession.ts:567-590 | A commit whose reply is lost or late fails a capture that is still being committed in this epoch, and latches |
| ManualControls.DiscardAcceptedDecides | frontend/src/console/useRealtimeSession.ts:514-519 | A discard accepted in time completes its capture, drops it if current, and clears error and latch |
| ManualControls.DiscardLostDecides | frontend/src/console/useRealtimeSession.ts:500-530 | Any other discard latches |
| ManualControls.TeardownDecides | frontend/src/console/useRealtimeSession.ts:181-266 | The end of a connection leaves a new epoch and nothing of the old one but mode, mute and replies to come; connect starts from there |
| ManualControls.IdentityDecides | frontend/src/console/useRealtimeSession.ts:169-177 | A new identity starts in automatic mode, in a new epoch, without latch or capture |
| ManualControls.ResolveDecides | frontend/src/console/useRealtimeSession.ts:290-291 | A connection that resolves leaves an open track open exactly when the mode is automatic and the user has not muted |
| ManualControls.LineDecides | frontend/src/console/useRealtimeSession.ts:267-290 | A granted track is open; a failed connection keeps its media or loses everything; control needs the media session |
| RealtimeSession.RealtimeSessionController.Teardown | frontend/src/console/useRealtimeSession.ts:181-204 | A new epoch with everything of the old one gone |
| RealtimeSession.RealtimeSessionController.Connect | frontend/src/console/useRealtimeSession.ts:239-266 | Teardown, then a connection for the current identity |
| RealtimeSession.RealtimeSessionController.CrossIdentity | frontend/src/console/useRealtimeSession.ts:169-177 | A new identity resets the refs before anything else runs |
| RealtimeSession.RealtimeSessionController.ResolveConnect | frontend/src/console/useRealtimeSession.ts:290-291 | Mutes for manual mode or the user's mute when connect resolves |
| RealtimeSession.RealtimeSessionController.SetMuted | frontend/src/console/useRealtimeSession.ts:337-342 | Unmuting is refused while latched and never opens the track in manual mode |
| RealtimeSession.RealtimeSessionController.SetManualTurnTaking | frontend/src/console/useRealtimeSession.ts:354-434 | When a mode request is sent, and that nothing else changes but the mute |
| RealtimeSession.RealtimeSessionController.StartManualTurn | frontend/src/console/useRealtimeSession.ts:435-471 | When a capture begins, and what it resets |
| RealtimeSession.RealtimeSessionController.StopManualTurn | frontend/src/console/useRealtimeSession.ts:472-474 | Mutes in manual mode |
| RealtimeSession.RealtimeSessionController.CommitManualTurn | frontend/src/console/useRealtimeSession.ts:535-594 | Mutes and sends one commit; a capture that already has a promise sends nothing |
| RealtimeSession.RealtimeSessionController.DiscardManualTurn | frontend/src/console/useRealtimeSession.ts:475-534 | Mutes and sends one discard; a capture that already has a promise sends nothing |
| RealtimeSession.RealtimeSessionController.OnModeReply | frontend/src/console/useRealtimeSession.ts:388-424 | The then, catch and finally handlers of a mode request take the reply step |
| RealtimeSession.RealtimeSessionController.OnCommitReply | frontend/src/console/useRealtimeSession.ts:558-591 | The then and catch handlers of a commit take the reply step |
| RealtimeSession.RealtimeSessionController.OnDiscardReply | frontend/src/console/useRealtimeSession.ts:499-531 | The then and catch handlers of a discard take the reply step |
| Downsampler.ProcessBlocks | frontend/public/voice/pcm-worklet.js:11-41 | For any cutting into blocks, empty ones included, and any rate: the concatenated output is the one-shot resampling of the concatenated input, floor(N / ratio) samples, each 16-bit |
| Downsampler.Pcm16Downsampler.Process | frontend/public/voice/pcm-worklet.js:11-41 | One block: the output extends what was sent to the resampling of everything fed so far; the carried position stays in [0, 1) and the leftover below ratio + 1 |
| Downsampler.Pcm16Downsampler.EmitDue | frontend/public/voice/pcm-worklet.js:22-31 | The averaging loop emits every window that is due, and no other |
| Downsampler.Pcm16Downsampler.constructor | frontend/public/voice/pcm-worklet.js:4-9 | Starts at position 0 with nothing carried |
| Downsampler.Average | frontend/public/voice/pcm-worklet.js:23-29 | The summing loop yields the mean of the touched samples, quantised |
| Downsampler.Quantize | frontend/public/voice/pcm-worklet.js:28-29 | Clamped, scaled by the sign's own factor and rounded to the nearest, halves up |
| Downsampler.WindowIsMean | frontend/public/voice/pcm-worklet.js:23-29 | A window is the quantised mean of exactly the samples its interval touches, which lies between the least and the greatest of them; over equal samples it is that sample |
| Downsampler.SumBounds | frontend/public/voice/pcm-worklet.js:25-26 | The sum of k samples lies between k times the least and k times the greatest |
| Downsampler.SumSplits | frontend/public/voice/pcm-worklet.js:25-26 | A sum is that of its halves, and of one sample that sample |
| Downsampler.OutputCountIsFloor | frontend/public/voice/pcm-worklet.js:22-31 | The number of outputs is floor(N / ratio) |
| Downsampler.DueIff | frontend/public/voice/pcm-worklet.js:22-22 | Window k is due if and only if the stream reaches the start of window k + 1 |
| Downsampler.ResamplePrefix | frontend/public/voice/pcm-worklet.js:15-31 | More input never changes an output that was due |
| Downsampler.NextWindow | frontend/public/voice/pcm-worklet.js:22-24 | The guard and window of a block are those of the whole stream |
| Downsampler.Carry | frontend/public/voice/pcm-worklet.js:33-35 | Dropping the consumed samples leaves the carried state of the whole stream |
| Downsampler.CarriedStateBounds | frontend/public/voice/pcm-worklet.js:33-35 | 0 <= position < 1 and the leftover is shorter than ratio + 1 |
| Sentences.PrepareSentences | backend/voice_console/voice_filters.py:48-63 | For every single-spaced text and cap >= 1: each chunk has length 1 to cap, is trimmed and stays inside one sentence, and the chunks carry all non-blank characters of the truncated text in order |
| Sentences.CutAll | backend/voice_console/voice_filters.py:52-63 | The outer loop concatenates the pieces of each rough part |
| Sentences.CutSentence | backend/voice_console/voice_filters.py:54-62 | The cutting loop terminates and yields the best-cut pieces |
| Sentences.RoughSpec | backend/voice_console/voice_filters.py:51-51 | Splitting at sentence ends drops only blanks, and no part runs past a sentence end |
| Sentences.RoughJoins | backend/voice_console/voice_filters.py:51-51 | Joining the rough parts with blanks gives the text back, and each but the last ends in a full stop, exclamation or question mark |
| Sentences.PiecesSpec | backend/voice_console/voice_filters.py:55-62 | Each piece is a proper chunk, and every piece cut inside the loop is at least cap // 2 long |
| Sentences.PiecesKeep | backend/voice_console/voice_filters.py:55-62 | Cutting loses no character but blanks |
| Sentences.CutIsClean | backend/voice_console/voice_filters.py:56-60 | A cut is never empty and needs no further stripping |
| Sentences.GoodCutUnique | backend/voice_console/voice_filters.py:56-58 | The last blank between half the cap and the cap, or the cap, is one place |
| Sentences.CutStep | backend/voice_console/voice_filters.py:55-60 | One turn of the loop is one step of the specification |
| Sentences.AllPiecesKeep | backend/voice_console/voice_filters.py:52-63 | The chunks of all parts carry all their non-blank characters, in order |
| Speech.SynthesizeAndSend | backend/voice_console/tts_session.py:64-157 | For every outcome of every await (undisturbed, turn cancelled, task cancelled, exception) and every file (read to its end, failing before or while it is read): the frames sent are the plan of the turn cut at the first disturbance, with an error frame if that was an exception |
| Speech.SpeakSentence | backend/voice_console/tts_session.py:77-131 | One sentence: synthesis, its failures, and the streaming of its file |
| Speech.StreamFile | backend/voice_console/tts_session.py:109-131 | tts.start, the file in reads of 32 KiB, tts.end, cut at the first disturbance or at a read that raises |
| Speech.DeliveredIsPrefix | backend/voice_console/tts_session.py:53-58 | A cancel at any await leaves a prefix of the full frame list, an exception a prefix and at most one error frame, an undisturbed run all of it |
| Speech.CancelSendsNoMore | backend/voice_console/tts_session.py:107-140 | Once an await finds its turn cancelled, no frame of the turn follows the one that was being sent; only the error of a failed synthesis may |
| Speech.RaiseIsReported | backend/voice_console/tts_session.py:144-157 | An exception is reported with its code after the frames that had gone out, and is the last that is sent |
| Speech.FailureIsSent | backend/voice_console/tts_session.py:144-157 | A failed synthesis is reported even when its turn has been cancelled meanwhile |
| Speech.FailureEndsTurn | backend/voice_console/tts_session.py:82-157 | A sentence that fails ends the turn with its code |
| Speech.ReadsAreBounded | backend/voice_console/tts_session.py:119-123 | Audio leaves in reads of 32768 bytes, the last of 1 to 32768 |
| Speech.PlanNext | backend/voice_console/tts_session.py:77-131 | The plan of a turn, one sentence at a time |
| Speech.RecordingSession.Cancel | backend/voice_console/voice_session.py:102-109 | The turn becomes the newest of at most 256 cancelled turns |
| Speech.RecordingSession.ForgetCancel | backend/voice_console/voice_session.py:114-115 | Forgets this turn and no other |
| Speech.CancelSticksIff | backend/voice_console/voice_session.py:102-112 | After later cancels of other turns, however often each is repeated, a cancelled turn is still seen as cancelled if and only if fewer than 256 different turns are among them |
| Speech.CancelForgotten | backend/voice_console/voice_session.py:102-112 | The counterexample: 256 different turns cancelled later |
| SpeechToPlayback.SpeechArrivesIntact | backend/voice_console/tts_session.py:76-139 | Whatever is cancelled or fails on the server and however the browser's chain is scheduled: exactly one clip per finished non-empty sentence, in order, with the bytes of its file; none skipped; all started once the chain is idle; an undisturbed turn yields all sentences |
| SpeechToPlayback.NextTurnPlaysIff | frontend/src/lib/playback.ts:84-128 | Turns compose: once a turn has been fed and everything has run, all clips of the next undisturbed turn are queued if and only if the first never began or was completed |
| SpeechToPlayback.IdleAgainIff | frontend/src/lib/playback.ts:122-128 | The queue is idle for another turn under exactly that condition |
| SpeechToPlayback.StuckDropsNext | frontend/src/lib/playback.ts:84-89 | Otherwise every clip of another turn is dropped |
| SpeechToPlayback.BrokenTurnHolds | backend/voice_console/tts_session.py:109-157 | The counterexample: a file that cannot be opened after its start frame leaves a turn that has begun and is never completed |
| SpeechToPlayback.PlanIsRegular | backend/voice_console/tts_session.py:77-139 | The producer's frames are well nested and numbered, and say exactly its files |
| SpeechToPlayback.FileIsRegular | backend/voice_console/tts_session.py:118-131 | The reads of one file are well nested and leave the tape of the file |
| SpeechToPlayback.FileTapeHolds | backend/voice_console/tts_session.py:118-131 | That tape concatenates to the file |
| SpeechToPlayback.FeedingTracked | frontend/src/lib/playback.ts:84-128 | Fed in order, with chain steps anywhere in between, the queue holds what the frames have said so far and starts it in order |
| SpeechToPlayback.ChainTracked | frontend/src/lib/playback.ts:103-127 | No chain step skips a clip of the turn |
| SpeechToPlayback.EndQueuesFile | frontend/src/lib/playback.ts:95-103 | An end frame queues the sentence's clip, or nothing for an empty file |
| Playback.QueueOrder | frontend/src/lib/playback.ts:84-158 | Over any sequence of calls and chain steps: the chunk indexes queued for a turn strictly increase, and clips start at most once and in queue order |
| Playback.CancelFences | frontend/src/lib/playback.ts:147-157 | After an effective cancel no clip queued before it is ever started by the chain |
| Playback.CancelFrees | frontend/src/lib/playback.ts:84-89 | After an effective cancel any turn with a new index opens a clip |
| Playback.StartDecides | frontend/src/lib/playback.ts:84-89 | A clip opens exactly when its index is beyond its turn's last and no other turn is active |
| Playback.PushDecides | frontend/src/lib/playback.ts:91-93 | A chunk goes to the open clip, and nowhere without one |
| Playback.EndDecides | frontend/src/lib/playback.ts:95-103 | The end of the open clip remembers its index and, unless empty, queues its bytes in the current generation; any other end does nothing |
| Playback.CompleteDecides | frontend/src/lib/playback.ts:122-127 | The active turn's completion waits for every link queued so far |
| Playback.CancelDecides | frontend/src/lib/playback.ts:147-153 | A cancel takes effect unless it names a turn while another is active: no turn, no open clip, a new generation |
| Playback.LinkDecides | frontend/src/lib/playback.ts:105-118 | The next link plays exactly when its generation is current and its turn active; a playing clip holds the chain |
| Playback.CompletionDecides | frontend/src/lib/playback.ts:125-127 | A completion ends the turn exactly when that is still active in its generation |
| Playback.FenceHolds | frontend/src/lib/playback.ts:100-106 | Links of a past generation stay fenced in every continuation |
| Playback.Merge | frontend/src/lib/playback.ts:160-169 | The filled buffer is the concatenation of the chunks |
| Playback.PlaybackQueue.Start | frontend/src/lib/playback.ts:84-89 | A stale index or another turn is ignored; else the clip opens |
| Playback.PlaybackQueue.PushChunk | frontend/src/lib/playback.ts:91-93 | Appends to the open clip, if any |
| Playback.PlaybackQueue.End | frontend/src/lib/playback.ts:95-120 | Only the matching clip ends; it is remembered and, unless empty, queued |
| Playback.PlaybackQueue.Complete | frontend/src/lib/playback.ts:122-128 | Registers the callback that ends the turn after the links queued so far |
| Playback.PlaybackQueue.Cancel | frontend/src/lib/playback.ts:147-157 | Takes effect for no turn, an idle queue or the active turn |
| Playback.PlaybackQueue.RunLink | frontend/src/lib/playback.ts:105-109 | A link of another generation or turn is skipped, else its clip is handed to the adapter |
| Playback.PlaybackQueue.ClipEnds | frontend/src/lib/playback.ts:109-118 | A clip's end settles its link, however it ended |
| Playback.PlaybackQueue.RunCompletion | frontend/src/lib/playback.ts:125-127 | The callback ends the turn only in its own generation |

## Left out

- RunCoordinator.Coordinator.EmitKind: covers the row, the record and the registry; the ring and the queues of the same function are FanOut.ActiveRun.EmitEvent.
- RunCoordinator.Coordinator.BeginApprove: the check that a decision of "always" was offered by Hermes is not part of the contract, so an approval may begin although the original would refuse it.
- RunCoordinator.Coordinator.OnLookup: the 120 attempts of the reconcile loop are not counted; giving up is allowed after any attempt.
- RunCoordinator.Coordinator.BeginStart: the wait for visible history before the post is left out; it only decides whether the start fails.
- RunCoordinator.Coordinator.Accept: the first subscription, which start returns, is a Subscribe step of FanOut.ActiveRun.
- FanOut.ActiveRun.EmitEvent: queues are values in a map, so sharing a queue object between two runs is not captured.
- Proxy.RealtimeProxyService.BeginMutation: the check that the conversation still belongs to the caller, and the validation of the body, are left out; both only refuse calls.
- Proxy.StoredReplyIsFinalIff: speaks of continuations in which no request lookup completes the very same key as a session creation (the scopes of the two are a session and a conversation) and the row stays within retention.
- Replay.EventsAreLogSlice: Hermes is taken to answer a page without events with the cursor it was asked for, or none; the parser enforces that only for pages with events. Replay.EmptyPageIff says what another cursor does.
- Replay.ReplaySocket.Send: a send that fails and closes the socket is the Close step before it, not an outcome of the method.
- ManualTurn.OpenMicrophoneIsCapturing: callbacks are those of the current render, so a stale React closure is not captured; a rendered error state that is behind the refs is the `blocked` parameter of a start.
- RealtimeSession.RealtimeSessionController.StartManualTurn: captures are values in a sequence instead of objects held by closures, so aliasing of capture objects is not captured.
- RealtimeSession.RealtimeSessionController.Connect: covers a connect that goes ahead; the early returns for a live or pending connection of the same identity change nothing and are left out.
- Speech.RecordingSession.Cancel: validation of the turn id is left out, and the recording buffer of the same class.
- Playback.PlaybackQueue.Cancel: the failed clip, its `retry` (which plays a clip across an await, outside the cancel claim), the fallback callback and the abort signal are left out.
- Playback.PlaybackQueue.RunCompletion: the order of promise callbacks within one microtask round is left free: a completion may run at any time after its links have settled.
- Downsampler.Pcm16Downsampler.Process: samples are reals; floating-point rounding is not modelled.
- `create_session` and `worker_command` forward without consulting the claim, so they are outside the at-most-once claim; creation appears as interference on both tables, `worker_command` touches neither.
- `subscribe` for a run that is no longer active (a snapshot and an end marker) and the startup attempts of `start` on history: easy members.
- Owner keys, JWT and HMAC, HTTP, SSE and WebSocket transport, JSON and SQL text: tables are maps, a transaction is one step, a fingerprint is the payload itself, a clock is a counter.
- FastAPI routes, the main receive loop of the realtime socket, `contracts.py` and the field-by-field shape checks of `responses.py`: a parser accepts or refuses.
- STT and TTS providers, audio files and their cleanup, microphone capture, WebRTC negotiation: their outcomes are parameters.
- The regular-expression clean-up before the text is normalised, the transcript filter and the loudness test.
- React state and rendering, `sanitizeArtifactHref`, the approval submission latch and the worker revision dispatch of the session hook.
- Property names that JavaScript objects inherit: records are maps.
