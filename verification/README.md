# Verified models of the Codex client, analytics and daemon protocols

Dafny models of the stateful parts of the Codex Rust workspace and of one of its Python
tools, with proofs of what they keep over every run.

* **In-process event forwarding** (`InProcessForwarding.dfy`). A worker takes events from
  the runtime and forwards them into a bounded channel. Transcript and completion
  notifications wait for room; everything else is dropped and counted when the channel is
  full, the count is later reported by a `Lagged` marker, and dropped server requests are
  rejected. Every channel operation is a step of its own, so receiving, closing and
  stopping may fall between any two of them. `InProcessWorker` is the worker itself,
  proved to follow the steps.
* **Remote connection** (`RemoteConnection.dfy`). The initialize handshake, the worker
  that selects between client commands and server frames and matches replies to waiters,
  and the final drain. Frames, commands, write results, reads by the consumer and the
  order of the drain are arbitrary inputs. `RemoteClient` is the client itself.
* **Analytics reducer** (`AnalyticsModel.dfy`, `AnalyticsHistory.dfy`,
  `AnalyticsTurns.dfy`, `AnalyticsReviews.dfy`, `AnalyticsReducer.dfy`). Seven maps updated
  by each fact, and events that come out when scattered facts line up. Each map is proved
  to hold exactly what a recursion over the whole fact history says, and each event to be
  emitted exactly when the history calls for it. `Reducer` updates the maps in place.
* **Accepted lines** (`AcceptedLines.dfy`). The unified-diff line counter, proved against
  a printer of structured diffs.
* **Event delivery** (`EventDelivery.dfy`). Batching of events into requests and the
  bounded deduplication set.
* **Daemon** (`DaemonLifecycle.dfy`, `DaemonSteps.dfy`, `DaemonDeaths.dfy`,
  `DaemonSections.dfy`, `DaemonLock.dfy`). Operations on the stored settings, the managed
  backend and the updater, with every failure of an outside call an input; the same
  operations as one process performs them, call by call, from its own control point and
  what it has read; and several such processes interleaved, with the operation lock, lock-free
  version queries, and deaths of the backend and the updater between any two calls.
* **Lint wrapper arguments** (`WrapperArgs.dfy`). Parsing and rebuilding of the
  `argument-comment-lint` command line.

`Sequences.dfy` holds the shared helpers. `dafny verify dfyconfig.toml` checks everything.

A machine is written as a total `Next` (a step that is not enabled changes nothing), a run
as a fold of `Next`, and the theorems quantify over every run. Classes carry the program's
fields and a ghost history; their methods promise that the fields are the state that
history reaches, so every theorem about runs is one about the objects.

Where the code and its comments differ the model follows the code: the comment above
`server_notification_requires_delivery` (`codex-rs/app-server-client/src/lib.rs:172-173`)
says both transports use the lossless classification, but the remote one has an unbounded
channel and neither drops nor lags.

Some promises do not hold as they stand; what does hold is proved instead.
`DaemonLifecycle.DisagreementExactly`: settings are saved before later steps that can
fail, so stored setting and running backend part exactly in the cases `Breaks` lists
(`SavedButNotRestarted` is one). `WrapperArgs.RewritingIsIdempotent`: rewriting is
idempotent exactly if the default manifest path is not `--` or the user gave a manifest
path. And an operation is not always what it would have been alone if the backend dies
while it is under way (`DaemonSections.DisturbedSectionDiffers`); which serial run it then
amounts to is `DaemonSections.SectionIsSerial`.

## Model

| member | source | states |
|---|---|---|
| InProcessForwarding.RunKeepsInv | codex-rs/app-server-client/src/lib.rs:206-272 | The forwarding invariant (capacity, accounting of drops, disjoint fates of events, exact rejections, lossless order) survives every interleaving of worker and consumer steps from any state that has it. |
| InProcessForwarding.GapReconstruction | codex-rs/app-server-client/src/lib.rs:206-272 | In every run, offered = delivered + reported by markers + still counted (+ the one in flight or given up); unless more than `usize::MAX` events were offered, each delivered event's position in the input is the deliveries before it plus the drops reported before it, however many markers lie between. |
| InProcessForwarding.ConsumerReconstructs | codex-rs/app-server-client/src/lib.rs:215-271 | If the runtime reports no lag of its own, the plain stream a consumer reads determines the input position of every event in it. |
| InProcessForwarding.LosslessOrder | codex-rs/app-server-client/src/lib.rs:151-271 | While the channel is open the turn and item completions and the agent-message, plan, reasoning-summary and reasoning deltas delivered are those offered, in order, save one still being sent; the delivered stream without worker markers is a subsequence of the input. |
| InProcessForwarding.OnlyTranscriptWaits | codex-rs/app-server-client/src/lib.rs:151-185 | In every run no event of those six kinds is dropped, and exactly they wait while the channel is open and full; any other event in flight is sent or dropped at once. |
| InProcessForwarding.StepsDoTheirWork | codex-rs/app-server-client/src/lib.rs:550-597 | In every reachable state the worker takes any event while its stream is enabled, and the consumer can read, close and let the worker stop. |
| InProcessForwarding.SendsDoTheirWork | codex-rs/app-server-client/src/lib.rs:215-271 | In every reachable state a send with room queues the owed marker first and else the event itself, and on a closed channel ends the stream. |
| InProcessForwarding.RequestsSettledOnce | codex-rs/app-server-client/src/lib.rs:236-271 | Each event offered has exactly one fate (queued, dropped, in flight, or, once and only after a close, abandoned); the -32001 rejections are exactly the dropped server requests and the -32000 rejections exactly the token refreshes, in order, and there are no others. |
| InProcessForwarding.DropsAreOverloads | codex-rs/app-server-client/src/lib.rs:236-269 | The events dropped in a run are exactly the best-effort events being sent while the channel was open and held as many events as its capacity (at least one) allows, in order, and the -32001 rejections exactly the server requests among them. |
| InProcessForwarding.ShutdownUnblocks | codex-rs/app-server-client/src/lib.rs:762-786 | After the receiver is dropped nothing more is queued, at most one more event other than token refreshes is taken, and a worker in the middle of a send can always leave it. |
| InProcessForwarding.InProcessWorker.TakeEvent | codex-rs/app-server-client/src/lib.rs:550-574 | Taking a runtime event (refusing a token refresh on the spot) is the model's take step. |
| InProcessForwarding.InProcessWorker.Forward | codex-rs/app-server-client/src/lib.rs:215-271 | Each channel operation of the forwarder, on the real queue and counter, is the model's send step: closed wins over full, a flush is followed by the delivery, a full queue drops and rejects. |
| InProcessForwarding.InProcessWorker.Recv | codex-rs/app-server-client/src/lib.rs:754-756 | The consumer gets the oldest undelivered entry of the stream the theorems speak of. |
| RemoteConnection.RunKeepsInv | codex-rs/app-server-client/src/remote.rs:204-462 | The four invariants (tickets, exchange, stream, unknown requests) survive every sequence of inputs. |
| RemoteConnection.ExactlyOnceCompletion | codex-rs/app-server-client/src/remote.rs:204-462 | In every run each request taken is either still pending or completed, never both and never twice, and all are completed once the drain is done. The whole list of completions, in order, is what the inputs say: a reply frame whose id has a waiter brings it that frame's own result or error, a request taken while its id has a waiter is refused, a fresh request whose write fails gets that error, and the drain gives everyone left the one exit error; the replies among them are those received, in order. |
| RemoteConnection.RunTells | codex-rs/app-server-client/src/remote.rs:204-320 | The pending map is, id by id, what a recursion over the inputs says about waiters: registered by a written request, gone with a reply or the drain; so are the tickets, the completions and the exchanges logged. |
| RemoteConnection.DuplicatesExactly | codex-rs/app-server-client/src/remote.rs:217-223 | A waiter is told that its id is a duplicate iff its own request was taken while that id had another waiter. |
| RemoteConnection.WriteErrorsExactly | codex-rs/app-server-client/src/remote.rs:224-248 | A waiter is told of a failed write iff its own request was fresh and its own write failed, with that reason. |
| RemoteConnection.TakenOnce | codex-rs/app-server-client/src/remote.rs:215-224 | No two requests taken in a run have the same waiter number. |
| RemoteConnection.OneInFlightPerId | codex-rs/app-server-client/src/remote.rs:215-320 | On every id written requests and matched replies alternate, each reply settling the request it follows; their counts differ by 0 or 1, and by 1 exactly while the id is pending, until the exit; the whole log of messages written (requests, notifications, results, rejections with their codes, -32601 refusals) and replies matched is what the inputs call for, in order. |
| RemoteConnection.StreamFidelity | codex-rs/app-server-client/src/remote.rs:307-449 | What `next_event` has yielded is a prefix of the known notifications and requests in arrival order across handshake and worker, then a `Disconnected` exactly on a lost connection; while the receiver is open nothing is missing; each unknown request is answered once with -32601, save one whose failed answer ended the connection. |
| RemoteConnection.ExitCauses | codex-rs/app-server-client/src/remote.rs:232-449 | The running worker loses its connection exactly on invalid JSON (InvalidData), a close frame (ConnectionAborted), a transport error (InvalidData), the end of the stream (UnexpectedEof), or a failed write of a fresh request or a refusal (BrokenPipe), each with its own message; it stops quietly exactly on shutdown, dropped senders, or an event nobody listens for; else it goes on. |
| RemoteConnection.LostConnection | codex-rs/app-server-client/src/remote.rs:386-462 | In every run, whatever follows such a frame, the worker has left with that frame's kind and message, every waiter then pending is told exactly that once the drain is done, and the stream ends with that `Disconnected`. |
| RemoteConnection.ConnectEnds | codex-rs/app-server-client/src/remote.rs:801-811 | The handshake begins exactly with the written initialize request; its failed write fails the connection. |
| RemoteConnection.HandshakeEnds | codex-rs/app-server-client/src/remote.rs:814-916 | The handshake ends well exactly with the reply to `initialize` and the written `initialized`, and fails exactly on a rejection, invalid JSON, a close, a transport error, the end of the stream, a failed write or the timeout, each with its kind and message. |
| RemoteConnection.RunsOnceInitialized | codex-rs/app-server-client/src/remote.rs:183-206 | In every run the worker runs, or has run, iff the reply to `initialize` arrived during the handshake and `initialized` was written. |
| RemoteConnection.ReadsTheFirst | codex-rs/app-server-client/src/remote.rs:597-602 | A read takes the first of the handshake events and then of the channel, whenever there is one. |
| RemoteConnection.RemoteClient.Request | codex-rs/app-server-client/src/remote.rs:215-248 | The request command is the model's; a duplicate id is not written, leaves the pending map and the connection as they were. |
| RemoteConnection.RemoteClient.OnReply | codex-rs/app-server-client/src/remote.rs:311-320 | A reply is the model's step; one without a waiter completes nobody. |
| RemoteConnection.RemoteClient.OnFrame | codex-rs/app-server-client/src/remote.rs:321-449 | Any other frame is the model's step: deliver, answer -32601, ignore, or leave the loop. |
| RemoteConnection.RemoteClient.OnCommand | codex-rs/app-server-client/src/remote.rs:249-306 | Any other command is the model's step and touches no waiter, even when its write fails. |
| RemoteConnection.RemoteClient.OnHandshakeFrame | codex-rs/app-server-client/src/remote.rs:814-916 | A frame before the initialize reply is the model's step: kept for later, answered, ignored, or fatal. |
| RemoteConnection.RemoteClient.TakeEvent | codex-rs/app-server-client/src/remote.rs:597-602 | The value returned is exactly the next entry of the yielded stream, handshake events first. |
| RemoteConnection.RemoteClient.DrainPending | codex-rs/app-server-client/src/remote.rs:454-462 | Whatever order the map is walked in, afterwards no request is pending, every waiter ever taken is completed, and those completed here got the exit error. |
| AnalyticsHistory.ConnectionsAreHistory | codex-rs/analytics/src/reducer.rs:486-509 | In every reachable state a connection is known iff some earlier fact initialised it, and with the client that did so last. |
| AnalyticsHistory.RequestsAreHistory | codex-rs/analytics/src/reducer.rs:563-592 | The pending client request under a key is the last one registered there, unless an answer of any kind came since. |
| AnalyticsHistory.ThreadsAreHistory | codex-rs/analytics/src/reducer.rs:511-539 | A thread's cached connection and metadata are what its openings and subagent starts say, through chains of inherited connections. |
| AnalyticsHistory.ReferentialIntegrity | codex-rs/analytics/src/reducer.rs:511-535 | In every reachable state each thread has metadata and names only an initialised connection. |
| AnalyticsHistory.ContextFailsOneWay | codex-rs/analytics/src/reducer.rs:1517-1553 | The thread-context lookup only ever fails because the thread has no connection; its missing-connection and missing-metadata branches are dead. |
| AnalyticsHistory.PendingReviewsAreHistory | codex-rs/analytics/src/reducer.rs:818-932 | A pending review is the last registration under its request id with a valid timestamp and no decision since; its subject, trigger and flags are what the request asks for, field by field. |
| AnalyticsHistory.ConcludedIsHistory | codex-rs/analytics/src/reducer.rs:934-1017 | The review a fact concludes is the user's decision on the request awaiting it, approved, denied or aborted and resolved as the decision says, or a guardian's verdict with valid timestamps, with what the guarded action asks for. |
| AnalyticsHistory.ReviewLifecycle | codex-rs/analytics/src/reducer.rs:818-1017 | Over any history registered = pending + consumed + overwritten, and user review events never outnumber the consumed requests. |
| AnalyticsHistory.UserReviewsPerFact | codex-rs/analytics/src/reducer.rs:934-1017 | A fact yields at most one user review event, and only by consuming a pending request. |
| AnalyticsHistory.LateDecisionIsIgnored | codex-rs/analytics/src/reducer.rs:934-1017 | A response or abort for a request that is not pending changes no map and emits nothing. |
| AnalyticsHistory.SteersAreReported | codex-rs/analytics/src/reducer.rs:1332-1395 | An answer emits a steer event, accepted with its turn or rejected, iff it answers a pending steer over a known connection for a known thread. |
| AnalyticsHistory.PlainFactsReport | codex-rs/analytics/src/reducer.rs:1225-1289 | Openings over a known connection and subagent starts report an initialised thread, compactions and guardian reports are reported iff their thread has a connection, and registrations and progress report nothing. |
| AnalyticsTurns.TurnsAreHistory | codex-rs/analytics/src/reducer.rs:1464-1515 | The cached state of a turn is the fold of the facts since its last event. |
| AnalyticsTurns.ViewDescribes | codex-rs/analytics/src/reducer.rs:1069-1222 | Each field of a kept turn is the latest thing the facts of its window say about it, each counter the number of facts it counts; a turn is kept iff a creating fact occurred. |
| AnalyticsTurns.TurnEventRefinement | codex-rs/analytics/src/reducer.rs:1464-1515 | A turn event is emitted iff the latest fact makes the reducer look, and since the last event a turn/start response was matched, the config resolved and the turn completed, with thread and connection known; its content is then that of its window, with every field present. |
| AnalyticsTurns.TurnEventAtThirdFact | codex-rs/analytics/src/reducer.rs:594-641 | For a turn whose facts name known threads and connections, the event comes exactly at the fact that completes the three, in any order, and a completed set never lingers. |
| AnalyticsTurns.NeverTwiceWithoutFreshFacts | codex-rs/analytics/src/reducer.rs:1464-1515 | Between any two events of a turn a matched response, a resolved config and a completion of that turn all occur anew. |
| AnalyticsTurns.CounterConservation | codex-rs/analytics/src/reducer.rs:2479-2487 | An emitted tool total is the sum of the seven categories and the number of tracked completions while the turn was kept, per category; the steer count is that of the accepted steers in the same window. |
| AnalyticsTurns.TrackedItemsAreCounted | codex-rs/analytics/src/reducer.rs:349-371 | The two item matches agree: an item is tracked iff recording it counts it, so `record` never returns early. |
| AnalyticsModel.DiffEventCounts | codex-rs/analytics/src/reducer.rs:2380-2408 | The accepted-lines event of a turn carries the counts of the program's own parse of the latest diff, and is left out iff both are zero. |
| AnalyticsReviews.ItemStartsAreHistory | codex-rs/analytics/src/reducer.rs:1075-1105 | A cached item start is the last valid start with no completion since under a kept turn. |
| AnalyticsReviews.SummariesAreHistory | codex-rs/analytics/src/reducer.rs:1445-1462 | A summary is cached iff the item has reviews since its last completion that passed every guard, and it is their digest: counts per reviewer, how the latest ended, requested permissions and network over all of them. |
| AnalyticsReviews.SummariesBalance | codex-rs/analytics/src/reducer.rs:1445-1462 | Every cached summary counts at least one review, reviews = guardian + user, and has an outcome. |
| AnalyticsReviews.SummaryOfFacts | codex-rs/analytics/src/reducer.rs:1397-1462 | An item has a summary iff some fact has reviewed it since its last passing completion; its outcome is decided by the last such fact (for a user by the decision alone, a guardian timeout counting as aborted), its counts are those of the user and guardian facts, its flags whether any asked for permissions or network. |
| AnalyticsReviews.ToolEventFigures | codex-rs/analytics/src/reducer.rs:1092-1141 | An item completion emits exactly one tool event, or none, decided by the history, with the start it matches and the digest of the item's reviews. |
| AnalyticsReviews.ToolEventOfFacts | codex-rs/analytics/src/reducer.rs:1979-2015 | The review figures of an emitted tool event are those of the facts before it, in the same terms. |
| AnalyticsReviews.OtherItemsReportNothing | codex-rs/analytics/src/reducer.rs:1092-1095 | A completed item that is not one of the seven kinds of tool call reports nothing. |
| AnalyticsReviews.ReviewEventExactly | codex-rs/analytics/src/reducer.rs:1397-1443 | A concluded review is reported exactly if its thread has a connection. |
| AnalyticsReducer.Reducer.Ingest | codex-rs/analytics/src/reducer.rs:374-484 | After each fact the seven maps and the events put out are those of the history extended by it, so all of the above holds of the running reducer. |
| AnalyticsReducer.Reducer.IngestItemCompleted | codex-rs/analytics/src/reducer.rs:1092-1141 | Counting, guards, removal of start and summary, and event, in the order of the code, amount to the per-map step. |
| AnalyticsReducer.Reducer.MaybeEmitTurnEvent | codex-rs/analytics/src/reducer.rs:1464-1515 | The turn is removed and its events emitted iff it is complete with known context; otherwise nothing changes. |
| AnalyticsReducer.Reducer.EmitReviewEvent | codex-rs/analytics/src/reducer.rs:1397-1443 | The summary is recorded whether or not the event can be sent. |
| AcceptedLines.ParseLines | codex-rs/analytics/src/accepted_lines.rs:30-83 | The loop, branch by branch as in the code, returns the summary of the line-state machine that `DiffIsParsed` proves to count and pair the body lines. |
| AcceptedLines.ParsingIsAdditive | codex-rs/analytics/src/accepted_lines.rs:39-44 | Whatever precedes it, text beginning with a file header adds exactly its own counts and fingerprints. |
| AcceptedLines.CountsIgnoreNormalizer | codex-rs/analytics/src/accepted_lines.rs:30-83 | The added and deleted counts do not depend on how paths and lines are normalised. |
| AcceptedLines.DiffIsParsed | codex-rs/analytics/src/accepted_lines.rs:30-83 | For every structured git diff the parser on its printed lines returns the number of its added and of its deleted body lines and the (path, normalised line) pairs of the added ones in order, body lines that look like headers included. |
| AcceptedLines.DiffRoundTrip | codex-rs/analytics/src/accepted_lines.rs:30-83 | The same from one text, through line splitting and with carriage returns at line ends. |
| AcceptedLines.LinesOfUnlines | codex-rs/analytics/src/accepted_lines.rs:39 | Splitting printed text gives back its lines, each less one trailing carriage return. |
| AcceptedLines.LinesOfUnterminated | codex-rs/analytics/src/accepted_lines.rs:39 | A last line without a line feed comes back as it is. |
| AcceptedLines.PathIsNormalized | codex-rs/analytics/src/accepted_lines.rs:143-155 | A path loses the whitespace around it and one leading `b/` or `a/`, and is none iff it is the null device. |
| AcceptedLines.LineIsNormalized | codex-rs/analytics/src/accepted_lines.rs:157-169 | Whatever whitespace lies between and around its words, an added line counts as its words joined by single spaces iff these take at least four bytes and hold an alphanumeric character or an underscore. |
| AcceptedLines.Utf8LengthOfChar | codex-rs/analytics/src/accepted_lines.rs:159 | The length is in bytes of UTF-8, by section 3 of RFC 3629. |
| AcceptedLines.NormalizeLineIsIdempotent | codex-rs/analytics/src/accepted_lines.rs:157-169 | A normalised line is its own normal form. |
| EventDelivery.Batch | codex-rs/analytics/src/client.rs:413-434 | The batches concatenate to the input, none is empty, each isolated event is alone, and no other partition meeting those rules has fewer batches. |
| EventDelivery.StartsAreForced | codex-rs/analytics/src/client.rs:413-434 | Any partition that may be sent has at least as many requests as there are positions where isolation forces a new one. |
| EventDelivery.DedupeQueue.ShouldEnqueue | codex-rs/analytics/src/client.rs:102-115 | The answer appends the key to the accepted calls or not, as the history of calls says, and the set stays within 4096. |
| EventDelivery.DedupeQueue.ShouldEnqueueApp | codex-rs/analytics/src/client.rs:84-100 | An app event without a connector is always accepted and leaves the set alone; with one it is deduplicated. |
| EventDelivery.DedupeBound | codex-rs/analytics/src/client.rs:84-115 | For every sequence of calls and every capacity the set stays within it, and among n accepted calls one key is accepted at most ceil(n / capacity) times. |
| EventDelivery.DedupeBoundIsTight | codex-rs/analytics/src/client.rs:84-115 | For every n some run of n accepted calls reaches that bound. |
| DaemonLifecycle.OperationsExactly | codex-rs/app-server-daemon/src/lib.rs:230-525 | In every world and whatever fails: an operation that reports no failed call has left exactly the promised setting, backend, updater and record of effects and reports the promised status; one that does has met that failure and done a first part of the promised effects. |
| DaemonLifecycle.FailuresExactly | codex-rs/app-server-daemon/src/lib.rs:230-525 | An operation reports a failed call iff one of the calls it makes fails, and then the first of them; a version query also fails if nobody answers. |
| DaemonLifecycle.EnsureIsItsParts | codex-rs/app-server-daemon/src/lib.rs:414-431 | Past its own two calls, `ensure_remote_control_started` is a change of the setting followed by a start if the updater runs, and a bootstrap if not. |
| DaemonLifecycle.UnmanagedIsUntouched | codex-rs/app-server-daemon/src/lib.rs:230-525 | With no managed backend and a socket that answers, no operation saves, starts or stops anything, and only start and version can succeed. |
| DaemonLifecycle.DisagreementExactly | codex-rs/app-server-daemon/src/lib.rs:438-525 | From agreement, an operation parts the running backend from the stored setting iff one of the listed calls fails after the save, and it then reports an error. |
| DaemonLifecycle.AgreementOverRuns | codex-rs/app-server-daemon/src/lib.rs:230-525 | In any run of successful operations from agreement, processes dying in between included, the running backend has the stored remote-control setting. |
| DaemonLifecycle.SavedButNotRestarted | codex-rs/app-server-daemon/src/lib.rs:463-474 | A concrete failed operation after which setting and backend differ. |
| DaemonLifecycle.PromisedSetting | codex-rs/app-server-daemon/src/lib.rs:248-525 | What success of each operation guarantees about setting, backend and updater. |
| DaemonLifecycle.ReexecOnlyAfterRestart | codex-rs/app-server-daemon/src/lib.rs:306-349 | In any mode, the updater re-executes iff the refresh mode asks for it, the restart completed and the exec succeeded; just before it the backend was stopped and started with the stored setting. |
| DaemonLifecycle.UpdaterReexecExactly | codex-rs/app-server-daemon/src/update_loop.rs:129-142 | The same in terms of the updater's identity: it re-executes iff the managed binary is not its own and its attempt ends as restarted. |
| DaemonLifecycle.Daemon.Perform | codex-rs/app-server-daemon/src/lib.rs:230-246 | Every entry point asks for the lock once, not holding it, works under it, and gives it back on every path; without it nothing changes. Each mutating method demands the lock. |
| DaemonLifecycle.Daemon.SetRemoteControlLocked | codex-rs/app-server-daemon/src/lib.rs:438-485 | Step by step under the lock it computes the operation the theorems speak of. |
| DaemonLifecycle.Daemon.BootstrapLocked | codex-rs/app-server-daemon/src/lib.rs:487-525 | Save, stop, start and updater restart, each under the lock and with its early return, compute the bootstrap operation the theorems speak of. |
| DaemonLifecycle.Daemon.EnsureLocked | codex-rs/app-server-daemon/src/lib.rs:414-431 | Set-then-start or bootstrap, by whether the updater runs, without asking for the lock again. |
| DaemonLifecycle.Daemon.TryRestartIfRunning | codex-rs/app-server-daemon/src/lib.rs:306-349 | Busy changes nothing. Otherwise, unless a call fails, a running managed backend is left alone as not ready iff the mode is version-changed and the socket is silent, as current iff the mode is version-changed and the version is the same, and else replaced by one with the stored setting, the re-exec following iff asked for. |
| DaemonLifecycle.Daemon.UpdateOnce | codex-rs/app-server-daemon/src/update_loop.rs:91-142 | The retry loop makes the first attempt that finds the lock free unless a termination comes before it, and none otherwise. Unless a call fails, with a running managed backend an updater that is the managed binary replaces the backend iff the server answers with another version, and one that is not replaces the backend and then itself. |
| DaemonSteps.CompleteIsExec | codex-rs/app-server-daemon/src/lib.rs:230-525 | Each operation performed call by call, acting on what it read earlier, and left alone, has the effects and the outcome of the operation. |
| DaemonSteps.ExecReaches | codex-rs/app-server-daemon/src/lib.rs:230-525 | Every operation, failed or not, is the replay of the single effects it records. |
| DaemonDeaths.BackendDeath | codex-rs/app-server-daemon/src/lib.rs:463-512 | A backend that dies after the operation's last look at it is either made good by the operation's own stop, exactly when that stop is reached and takes, or its death counts as one after the operation. |
| DaemonDeaths.UpdaterDeath | codex-rs/app-server-daemon/src/lib.rs:507-512 | The same for the updater in a bootstrap. |
| DaemonDeaths.EarlyIsExec | codex-rs/app-server-daemon/src/lib.rs:280-296 | Until its last look at the backend an operation is as good as not begun: it will end as if started in the world as it is now, with the socket silent if the backend died after the probe. |
| DaemonSections.SectionIsSerial | codex-rs/app-server-daemon/src/lib.rs:414-525 | Whatever deaths fall between its calls, an operation under the lock has, once it returns, the world, the record of effects and the outcome of a serial run of it (or its parts) and deaths, every part of which succeeded if it did. |
| DaemonSections.DisturbedSectionDiffers | codex-rs/app-server-daemon/src/lib.rs:280-303 | A restart whose backend dies between its two looks at it succeeds where, alone, its stop would have failed. |
| DaemonLock.LockSerialises | codex-rs/app-server-daemon/src/lib.rs:601-614 | However the steps of processes and the deaths interleave, the finished operations, in the order they held the lock, have had the effects, call by call, and the outcomes of a serial run of those operations (or of the parts `ensure_remote_control_started` is composed of) and deaths, whose last world is the present one whenever the lock is free. |
| DaemonLock.LockExcludes | codex-rs/app-server-daemon/src/lib.rs:601-614 | In every reachable state a process inside an operation holds the lock, and the world is what its own calls and the deaths since have made of the world it found. |
| DaemonLock.ChangesUnderLock | codex-rs/app-server-daemon/src/lib.rs:230-246 | In every run settings, backend and updater are changed only by deaths and by calls of the process holding the lock, never by a version query or a process outside its critical section. |
| DaemonLock.LockIsPassedOn | codex-rs/app-server-daemon/src/lib.rs:601-614 | In every reachable state the holder, left to itself, comes to the end of its operation and gives the lock back, and a process that waits for a free lock gets it. |
| DaemonLock.CalmOperationIsExec | codex-rs/app-server-daemon/src/lib.rs:230-525 | An operation no death fell into ends with exactly the world and the outcome it has when it runs alone on the world it found. |
| DaemonLock.AgreementUnderInterleaving | codex-rs/app-server-daemon/src/lib.rs:601-614 | With deaths anywhere and any interleaving, whenever the lock is free and every finished operation has succeeded, a running backend has the stored setting. |
| WrapperArgs.ParseWrapperArgs | tools/argument-comment-lint/wrapper_common.py:55-104 | The stateful loop computes the split at the first separator and what the lint part says, dangling value flags included. |
| WrapperArgs.BuildFinalArgs | tools/argument-comment-lint/wrapper_common.py:107-122 | Appending in sequence gives defaults, the user's lint arguments, and the cargo arguments behind one separator. |
| WrapperArgs.ParseOfBuild | tools/argument-comment-lint/wrapper_common.py:55-122 | Parsing a built list gives back the user's lint and cargo arguments in order, between the defaults added. |
| WrapperArgs.NotesExactly | tools/argument-comment-lint/wrapper_common.py:76-104 | An option is noted iff some lint argument that is not itself a value gives it, with a value following if it takes one; a value is awaited iff the last argument still owes one. |
| WrapperArgs.BuildExactly | tools/argument-comment-lint/wrapper_common.py:55-122 | For every argument list, what is built is the manifest default, `--workspace`, `--no-deps` and `--all-targets` exactly where the user's arguments leave them open, around those arguments unchanged. |
| WrapperArgs.TargetsByName | tools/argument-comment-lint/wrapper_common.py:23-33 | The cargo arguments that count as a target selection, by name. |
| WrapperArgs.RewritingIsIdempotent | tools/argument-comment-lint/wrapper_common.py:55-122 | Building from the parse of a built list returns that list, for every argv, iff the manifest path is not `--` or the user gave one. |

## Left out

- Sockets, TLS, WebSocket framing, timeouts, HTTP sending, process spawning, file locking and file reads appear only through their outcomes (success, failure, closed, full, elapsed).
- In-process commands (request, notify, resolve, reject) only pass through to the runtime and are not modelled; the worker's stop is a step without their replies, and the abort after the shutdown timeout is not modelled.
- Remote error texts are constructors with their arguments, not formatted strings; unknown notifications are those the decoder rejects, and decoding itself is an input.
- Commands still queued when the remote worker leaves its loop are never taken by it; their callers see the closed channel, which is outside the model.
- Payload fields, serde encoding and string labels of analytics events beyond those named in the event datatypes, including the per-tool payload builders.
- Skill, app-mention, hook and plugin events of the reducer, which keep no state.
- AnalyticsModel abstracts client metadata, thread metadata, config, usage and completion to strings; clock values are inputs; `u64` timestamp wrap-around and counter overflow are not modelled.
- The repository hash and other payload of the accepted-lines event, which uploads counts only; SHA hashing is left out, a fingerprint is the (path, line) pair that is hashed.
- The Unicode whitespace and alphanumeric classes are parameters of the diff model.
- DedupeQueue models the set behind the mutex; a poisoned lock, which the code recovers from, is not modelled.
- Daemon backends are one managed slot with is-running, start and stop; the pid file, its reservation lock and the stale-record handling of the backend are abstracted, and a failed save or start is taken to leave no trace.
- Errors of opening or locking the operation-lock file other than its being held, and of installing the latest release in the update loop.
- A stop call that finds the backend or the updater already dead is recorded like one that ended it.
- A daemon process that is itself killed in the middle of an operation.
- A probe of the socket has one answer per operation, or per part of `ensure_remote_control_started`; a readiness wait fails or not whatever becomes of the backend.
- WrapperArgs does not model environment setup, tool lookup and the final exec.
- The agent graph store (forwards to a database), agent identity (cryptographic libraries and network calls), the README table-of-contents script, desktop UI, packaging scripts and mock servers.
