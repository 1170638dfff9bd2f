# lit-shell verification model

This project models the stateful core of lit-shell, a WebSocket terminal server with its browser and Python
clients and an in-browser demo shell, and proves properties of that model with Dafny. `dafny verify dfyconfig.toml`
checks everything.

The parts, each a state machine with a class in the program's own form beside it:

- **Session multiplexer** (`Session*.dfy`, `TerminalServer.dfy`). `SessionModel` is the specification: a state of
  sessions, the client index, orphan timers, sockets and PTYs, and one step per handler run. `SessionManager` and
  `TerminalServer` update their maps in place, evict slow clients in the middle of a broadcast and re-enter
  `closeSession` when a PTY exits inside `kill()`; every method is proved to be the step that the specification
  names. `SessionInvariant`, `SessionTrace` and `SessionSteps` prove one invariant of all steps; `SessionRuns`,
  `SessionStreams`, `SessionHistory`, `SessionTerms` and `SessionClosing` draw the statements about whole runs from it.
  `SessionEffects` and `SessionOutcomes` say what each request and each loss comes to, as its clients see it.
  `SessionAlgebra` relates the loops, which go member by member, to the one-shot specification.
- **History buffer** (`CircularBuffer.dfy`).
- **Pre-authorization queue and container listing** (`PreAuthorization.dfy`, `ContainerListing.dfy`).
- **Demo line editor** (`Demo*.dfy`, `Terminal.dfy`). The editor's output is the very text the program emits, fed
  character by character to a small terminal after ECMA-48 (control-sequence shape of section 5.4; CUB 8.3.18,
  CUP 8.3.21, ED 8.3.39, EL 8.3.41). `DemoKeys` and `DemoCommands` say what each key, escape sequence and command does.
- **Browser client** (`Browser*.dfy`) and **Python client** (`Pending*.dfy`, `Python*.dfy`). A step is one stretch of
  code between two suspensions, in an arbitrary environment. `PythonLifecycle` is the connection, `PendingModel` the
  requests, `PythonRequests` both together in any interleaving; `PendingFifo` says which request a response without
  id reaches.
- **Quality ratchet** (`QualityRatchet.dfy`).

## What the proofs found

- `CircularBuffer.toString(limit)` returns the whole content for a limit strictly between zero and one, because the
  limit floors to zero and a slice from minus zero starts at the front. The server only lets integer limits through.
- In the Python client a response without a request id takes the head of its type's queue even when that request's
  future is already done; the response is then swallowed and the oldest live request stays unanswered. And a request
  that has timed out and left the queue hands its late response to the next request of that type. The client's class
  comment promises first-in-first-out completion. Against a server that answers in order, the n-th response reaches
  the n-th request exactly when that request is still listed; so it is first-in-first-out as long as no request
  leaves before its response.
- In the Python client a connection can be announced and yet `is_connected()` stays false. That happens exactly when
  the session ended, or a new one was established, after the handshake of a reconnection and before its connect task
  began the recovery, and the recovery mark has stood ever since.
- In the browser client `disconnect()` called from a disconnect handler of a close that has already decided to
  reconnect is overruled: the reconnection timer starts afterwards. Called at any other time it is final, until
  `connect()` gets past its guard.
- In the browser client `connect()` after `disconnect()` opens a connection exactly when neither the connected state
  nor a pending attempt stops it at its guard. Otherwise it returns without an error and is lost: once the ordered
  close is reported the client is disconnected, and nothing reconnects.
- When a frame hits the pre-authorization limits, the frames accepted before it can still be dispatched exactly when
  authorization has succeeded and the PTY runtime is still loading.
- Baseline comparison is not transitive when a method disappears and returns, or when the threshold is lowered in
  between; the exact missing checks are stated.

## Model

| member | source | states |
|---|---|---|
| SessionRuns.InvariantHolds | src/server/session-manager.ts:121-738 | in every state any sequence of events can reach, client-to-sessions is the inverse of session-to-clients without empty entries, all three caps hold, a session is marked orphaned iff it has no clients, a timer exists iff it is orphaned and not tmux, and the trace invariant holds |
| SessionRuns.GaplessReplay | src/server/terminal-server.ts:1178-1213 | the history a joiner was sent followed by its later data messages is a suffix of all the PTY printed, without gap or duplicate; for the spawner it is everything |
| SessionRuns.JoinIsWelcomed | src/server/terminal-server.ts:1174-1201 | an admitted join on a healthy socket adds exactly one message to it, the joined response with the history and token due |
| SessionRuns.JoinReplaysHistory | src/server/terminal-server.ts:1178-1185 | the replayed history is the last min(limit, capacity, output so far) characters of the PTY output, and the last min(capacity, output so far) without a limit |
| SessionStreams.EveryListenerHasItsStream | src/server/terminal-server.ts:1178-1213 | in every reachable state every healthy member of a session with listeners has been sent its start and holds a suffix of all the PTY printed |
| SessionRuns.BroadcastIsExact | src/server/session-manager.ts:509-567 | after a broadcast each open target whose queue can take the bytes has the message queued once, each other open target is closed and has left every session, and everybody else is as before |
| SessionRuns.AnswerIsExact | src/server/terminal-server.ts:1948-1976 | the same of an answer to one client |
| SessionRuns.BroadcastOrphans | src/server/session-manager.ts:653-681 | every session a broadcast empties is orphaned at that moment, with its own timer unless it uses tmux |
| SessionRuns.PtyConservation | src/server/session-manager.ts:297-331 | every PTY ever spawned is held by its live session or was killed exactly once, and its session was closed exactly once |
| SessionRuns.OutputBound | src/server/websocket-output.ts:7-13 | over every run of broadcasts, responses and drains no socket queues more than the configured bytes |
| SessionHistory.TrustIsEarned | src/server/session-manager.ts:110-120 | whoever is trusted with a session registered it with a spawn that succeeded, or joined it alive with its resume token, earlier in the run |
| SessionHistory.Authority | src/server/session-manager.ts:378-405 | every owner of a session, and every member of a private one, created it or presented its token earlier |
| SessionHistory.Discretion | src/server/terminal-server.ts:1112-1119 | output and listings of a private session, and resume tokens of any, only ever went to clients that had earned them |
| SessionHistory.OrphanedMeansEmptySince | src/server/session-manager.ts:653-654 | an orphaned session has been live and empty in every state since its orphan mark was set |
| SessionHistory.TimerFiresOnOrphan | src/server/session-manager.ts:672-678 | a due timer always finds its session live, orphaned, without tmux and past its timeout |
| SessionHistory.OrphanTimeoutIsDue | src/server/session-manager.ts:653-681 | over whole runs a session is closed for orphan timeout only after being empty without interruption for its effective timeout, never with tmux, and a stale timer never fires |
| SessionInvariant.NoTimerIsOverwritten | src/server/session-manager.ts:653-681 | a timer is only ever started where none is running, so none is overwritten and left to fire by itself; it is due after the effective timeout |
| SessionHistory.ResumeSucceeds | src/server/terminal-server.ts:1167-1191 | while a session is empty and open, a fresh client with its resume token joins it, becomes owner and stops the timer |
| SessionHistory.StepAccounted | src/server/session-manager.ts:363-409 | no step grants trust except a spawn or a join with the right token, and none changes a resume token |
| SessionTerms.TermsOfSpawn | src/server/terminal-server.ts:1640-1660 | as long as it lives a session is what its spawn asked for: joining, history, tmux and orphan timeout as requested, its own token and target |
| SessionTerms.PrivateMeansInvited | src/server/session-manager.ts:363-409 | nobody but the spawner is ever a member of a session spawned with joining disallowed who has not presented its token since |
| SessionTerms.OrphanTimeoutAsAsked | src/server/session-manager.ts:653-681 | a session closed by its timer was spawned without tmux and had been empty without interruption for the timeout its spawn asked for, or the configured one |
| SessionTerms.OrphanTimerDueIff | src/server/session-manager.ts:653-681 | the timer may fire exactly when the session is empty, without tmux, for at least its own timeout or, without one, the configured one |
| SessionTerms.LastUse | src/server/session-manager.ts:628-647 | the stamp of a live session is the time of its last output, input or resize by a member, or its birth |
| SessionTerms.SweptIff | src/server/terminal-server.ts:1900-1921 | the idle sweep ends exactly the sessions unused for longer than the idle timeout; a zero timeout ends none |
| SessionTerms.StepContinues | src/server/session-manager.ts:190-264 | no step changes the terms of a session, a new one has the terms asked for, and the stamp moves exactly when the session is used |
| SessionOutcomes.EmptiedIsOrphaned | src/server/session-manager.ts:653-681 | whatever event leaves a session without members orphans it at that moment, and its timer, unless tmux, is due after its own timeout or the configured one |
| SessionOutcomes.DisconnectLeaves | src/server/terminal-server.ts:773-781 | a lost socket is closed, its client is in no session any more, and no other membership changes |
| SessionOutcomes.JoinSucceedsIff | src/server/terminal-server.ts:1138-1227 | a join succeeds exactly when the session lives, is open or the token is right, and both caps allow it; the joiner then has its history and token, is a member of a session without a timer, and owns it if it presented the token; otherwise it is told the first reason |
| SessionOutcomes.SpawnedAsAsked | src/server/session-manager.ts:190-264 | a registered session has the terms asked for and starts with its spawner as owner and only member, an empty history and no orphan mark, unless the answer put the spawner out |
| SessionOutcomes.SpawnIsAnswered | src/server/terminal-server.ts:1515-1678 | the spawner is told its session and token, or the first reason against it |
| SessionOutcomes.SpawnSparesOthers | src/server/terminal-server.ts:1515-1678 | no other session gains or loses a member by a spawn, unless the answer puts the spawner out |
| SessionOutcomes.StrangersAreRefused | src/server/terminal-server.ts:1232-1250 | requests about sessions that are not there, not joined or not owned come to the right refusal and nothing else |
| SessionOutcomes.MembersWrite | src/server/terminal-server.ts:1774-1839 | a member that writes or resizes moves the stamp of the session and nothing else of it |
| SessionOutcomes.ReplyIsHeard | src/server/terminal-server.ts:1948-1976 | any other answer goes to the one who asked and to nobody else |
| SessionOutcomes.ExitEnds | src/server/terminal-server.ts:1750-1768 | the exit of a wired session ends it and kills its PTY once; other exits change nothing |
| SessionOutcomes.ExitIsHeard | src/server/terminal-server.ts:1750-1768 | each healthy member hears exit and closed, nobody else anything |
| SessionOutcomes.ShutdownEnds | src/server/terminal-server.ts:2187-2215 | after the server stopped no session, timer or index is left, every PTY has been killed exactly once and every socket is closed |
| SessionClosing.SilenceAfterClose | src/server/session-manager.ts:297-331 | once a session is closed it stays closed and no client is ever sent traffic of it again |
| SessionClosing.StepJustified | src/server/terminal-server.ts:1844-1921 | every close has its cause: the current owner asked, the timer was due, the PTY exited, the session was idle, the server stopped, the spawn failed |
| SessionClosing.EveryClosureHasCause | src/server/terminal-server.ts:1860-1893 | for every session-closed event of a run, the very step that recorded it was justified by the state before it; an owner close was asked for by the owner of that moment |
| SessionEffects.OutputIsHeard | src/server/terminal-server.ts:1734-1747 | a chunk of output reaches every healthy member exactly once and nobody else |
| SessionEffects.JoinIsAnnounced | src/server/terminal-server.ts:1216-1224 | each healthy old member is told once, with the number of members after the answer; no membership changes but the join and evictions |
| SessionEffects.ListIsHeard | src/server/terminal-server.ts:1106-1133 | a listing names exactly the sessions of the wanted type, container and openness that are accepting, owned or joined by the client |
| SessionEffects.LeaveEnds | src/server/terminal-server.ts:1255-1269 | exactly this membership ends, evictions aside; the leaver is answered once and the others are told once how many are left |
| SessionEffects.CloseEnds | src/server/terminal-server.ts:1876-1893 | the session is gone, its PTY killed once, and every healthy member, and a requester who asked, is told exactly once |
| SessionEffects.FarewellIsHeard | src/server/terminal-server.ts:1750-1768 | every healthy member hears exit and then closed, once each, and nobody else hears anything |
| SessionEffects.SpawnOutcome | src/server/terminal-server.ts:1515-1678 | a session is registered iff the spawn is permitted, within both caps, and PTY and local wiring succeed; a PTY left without a session has been killed |
| SessionSteps.StepKeeps | src/server/terminal-server.ts:1106-1976 | every handler keeps the registry and trace invariants |
| SessionSteps.SpawnKeeps | src/server/terminal-server.ts:1515-1678 | spawning, in all its refusals and failures, keeps the invariant |
| SessionSteps.JoinKeeps | src/server/terminal-server.ts:1138-1227 | joining, including eviction by its own welcome, keeps the invariant |
| SessionSteps.LeaveKeeps | src/server/terminal-server.ts:1232-1272 | leaving keeps the invariant |
| SessionSteps.CloseRequestKeeps | src/server/terminal-server.ts:1844-1895 | an owner close keeps the invariant |
| SessionSteps.OutputKeeps | src/server/terminal-server.ts:1734-1747 | a chunk of PTY output, recorded and broadcast, keeps the invariant |
| SessionSteps.FarewellKeeps | src/server/terminal-server.ts:1750-1768 | an exit or idle farewell, with evictions between its broadcasts, keeps the invariant |
| SessionSteps.SweepKeeps | src/server/terminal-server.ts:1900-1921 | the idle sweep, closing sessions while it goes through them, keeps the invariant |
| SessionSteps.DisconnectKeeps | src/server/terminal-server.ts:773-781 | the loss of a socket keeps the invariant |
| SessionSteps.ShutdownKeeps | src/server/terminal-server.ts:2187-2215 | stopping the server keeps the invariant |
| SessionInvariant.DetachRegistry | src/server/session-manager.ts:418-459 | removing any clients from any sessions at once keeps indexes, caps, orphan marks and timers |
| SessionInvariant.CloseRegistry | src/server/session-manager.ts:297-331 | closing a session keeps indexes, caps, orphan marks and timers |
| SessionInvariant.CreateRegistry | src/server/session-manager.ts:190-264 | creating a session under the caps keeps the registry invariant |
| SessionInvariant.AddRegistry | src/server/session-manager.ts:363-413 | adding an admitted client keeps the registry invariant and stops the timer |
| SessionTrace.DeliverTrace | src/server/session-manager.ts:526-567 | sending a message its targets may see keeps PTY accounting, output bound, discretion and gapless streams |
| SessionTrace.CloseTrace | src/server/session-manager.ts:297-331 | closing keeps the trace invariant: one kill, one closure |
| SessionAlgebra.DeliverOneMore | src/server/session-manager.ts:520-523 | sending to one more member after the others is sending to all at once, evictions included |
| SessionAlgebra.DetachTwice | src/server/session-manager.ts:449-459 | removing clients from two groups of sessions in turn is removing them from both at once |
| SessionAlgebra.ForgetOneMore | src/server/session-manager.ts:307-315 | dropping a closed session from one more member agrees with dropping it from all |
| SessionManagers.SessionManager.TrackClientSession | src/server/session-manager.ts:493-500 | the client index gains exactly the one pair |
| SessionManagers.SessionManager.UntrackClientSession | src/server/session-manager.ts:425-431 | the client index loses exactly the one pair and keeps no empty entry |
| SessionManagers.SessionManager.HandleOrphanedSession | src/server/session-manager.ts:653-681 | marks the session and starts the timer of its effective timeout, unless tmux |
| SessionManagers.SessionManager.RemoveClient | src/server/session-manager.ts:418-444 | exactly this membership ends; the session is orphaned if it was the last |
| SessionManagers.SessionManager.RemoveClientFromAllSessions | src/server/session-manager.ts:449-459 | all memberships of the client end and nothing else changes; returns exactly those sessions |
| SessionManagers.SessionManager.SendSerializedToClient | src/server/session-manager.ts:526-567 | delivers to one socket or evicts its client, as the one-shot delivery says |
| SessionManagers.SessionManager.BroadcastToSession | src/server/session-manager.ts:509-524 | the loop with evictions equals one delivery to all members but the excluded |
| SessionManagers.SessionManager.CreateSession | src/server/session-manager.ts:190-264 | succeeds iff there is room and the id is free; then the owner is the only client |
| SessionManagers.SessionManager.CloseSession | src/server/session-manager.ts:297-331 | removes the session once, kills its PTY once and emits once, even if the exit handler re-enters |
| SessionManagers.SessionManager.UnregisterSession | src/server/session-manager.ts:303-319 | timer, memberships and session are gone together |
| SessionManagers.SessionManager.ForgetMembers | src/server/session-manager.ts:306-315 | the loop over members equals dropping the session from all of their entries |
| SessionManagers.SessionManager.KillPty | src/server/session-manager.ts:321-328 | one kill; a synchronous exit report changes nothing further |
| SessionManagers.SessionManager.OnPtyExit | src/server/terminal-server.ts:1750-1768 | exit and closed messages to the members of the moment, then one close |
| SessionManagers.SessionManager.AddClient | src/server/session-manager.ts:363-413 | succeeds iff the session exists, admits the caller and has room; a resume token transfers ownership |
| SessionManagers.SessionManager.UpdateActivity | src/server/session-manager.ts:628-647 | moves the activity stamp of an existing session and nothing else |
| SessionManagers.SessionManager.OnPtyData | src/server/terminal-server.ts:1734-1747 | stamps, records within capacity, then broadcasts |
| SessionManagers.SessionManager.OnOrphanTimer | src/server/session-manager.ts:672-678 | closes the session iff it is still there and empty |
| SessionManagers.SessionManager.Cleanup | src/server/session-manager.ts:723-738 | closing while iterating closes every session once and leaves no index |
| TerminalServers.TerminalServer.SendResponse | src/server/terminal-server.ts:1948-1976 | a direct response is delivered, dropped or evicts, exactly like a broadcast to one client |
| TerminalServers.TerminalServer.DisconnectSlowClient | src/server/terminal-server.ts:1978-1990 | the slow client leaves every session and its socket closes |
| TerminalServers.TerminalServer.ClientSessionLimitReached | src/server/terminal-server.ts:1686-1691 | true iff the client is at its cap of sessions |
| TerminalServers.TerminalServer.SetupSessionHandlers | src/server/terminal-server.ts:1730-1769 | only the session becomes wired |
| TerminalServers.TerminalServer.CleanupFailedSpawn | src/server/terminal-server.ts:1716-1725 | a registered session of a failed spawn is closed |
| TerminalServers.TerminalServer.SpawnSession | src/server/terminal-server.ts:1515-1678 | refusals in order, then creation, wiring and answer; a failed local wiring closes the session, a failed Docker wiring leaves it |
| TerminalServers.TerminalServer.HandleJoinSession | src/server/terminal-server.ts:1138-1227 | refusals in order, then admission, welcome and note |
| TerminalServers.TerminalServer.WelcomeJoiner | src/server/terminal-server.ts:1181-1224 | the joiner is answered first, the members that remain are told the count after that answer |
| TerminalServers.TerminalServer.HandleLeaveSession | src/server/terminal-server.ts:1232-1272 | the member leaves, is answered, and the rest are told the count after that |
| TerminalServers.TerminalServer.CloseSession | src/server/terminal-server.ts:1844-1895 | only the owner closes; a correlated requester gets the answer instead of the broadcast |
| TerminalServers.TerminalServer.HandleListSessions | src/server/terminal-server.ts:1106-1133 | lists exactly the accepting, owned and joined sessions that pass the type, container and accepting filters |
| TerminalServers.TerminalServer.WriteToSession | src/server/terminal-server.ts:1774-1803 | only a member writes; the activity stamp moves |
| TerminalServers.TerminalServer.HandlePtyData | src/server/terminal-server.ts:1734-1747 | output of a wired session is recorded and broadcast |
| TerminalServers.TerminalServer.HandlePtyExit | src/server/terminal-server.ts:1750-1768 | the exit of a wired session says farewell and closes it |
| TerminalServers.TerminalServer.HandleOrphanTimer | src/server/session-manager.ts:672-678 | the timer step |
| TerminalServers.TerminalServer.HandleClientDisconnect | src/server/terminal-server.ts:773-781 | a lost socket leaves every session |
| TerminalServers.TerminalServer.CleanupSessions | src/server/terminal-server.ts:1900-1921 | the loop equals the sweep in insertion order, judged after each earlier farewell |
| TerminalServers.TerminalServer.Close | src/server/terminal-server.ts:2187-2215 | the first call closes every session and socket, later calls do nothing |
| TerminalServers.TerminalServer.HandleIncomingMessage | src/server/terminal-server.ts:819-922 | each parsed request is its step |
| TerminalServers.TerminalServer.Handle | src/server/terminal-server.ts:819-922 | any event but shutdown is one step of the model and keeps the whole invariant |
| CircularBuffers.CircularBuffer.Append | src/server/circular-buffer.ts:31-55 | the contents become the newest characters that fit; the trimming loop terminates and never meets a missing chunk |
| CircularBuffers.CircularBuffer.ToString | src/server/circular-buffer.ts:62-70 | the tail the limit asks for, with the slice from minus zero as JavaScript has it |
| CircularBuffers.CircularBuffer.Size | src/server/circular-buffer.ts:92-94 | the number of characters held, never above capacity |
| CircularBuffers.CircularBuffer.ChunkCount | src/server/circular-buffer.ts:113-115 | never more chunks than characters, so never more than capacity |
| CircularBuffers.AppendAllIsSuffix | src/server/circular-buffer.ts:31-55 | after any run of appends the buffer holds exactly the suffix of everything appended that fits |
| CircularBuffers.TailOfIntegerLimit | src/server/circular-buffer.ts:62-70 | every integer limit yields exactly the last min(limit, size) characters |
| CircularBuffers.TailOfEveryLimit | src/server/circular-buffer.ts:62-70 | no limit or one that is not finite yields everything, so does a positive one below one, and any other its floor |
| CircularBuffers.TailRespectsLimitIff | src/server/circular-buffer.ts:62-70 | no more than the limit is returned, except exactly for non-empty content and a limit strictly between zero and one |
| CircularBuffers.ChunksBoundedByLength | src/server/circular-buffer.ts:31-55 | without empty chunks there are at most as many chunks as characters |
| PreAuthorization.RetentionBounded | src/server/terminal-server.ts:719-733 | what is retained before the connection is usable never exceeds the message or the byte limit |
| PreAuthorization.DispatchedInOrder | src/server/terminal-server.ts:735-751 | dispatched frames are a prefix of the accepted ones, in order of arrival, each once, none before readiness |
| PreAuthorization.DispatchNeedsReadiness | src/server/terminal-server.ts:697-703 | a frame is dispatched only after authorization succeeded and then the PTY runtime loaded |
| PreAuthorization.NothingAfterFailure | src/server/terminal-server.ts:736-743 | once readiness has failed nothing is ever dispatched |
| PreAuthorization.FailureDropsAll | src/server/terminal-server.ts:697-743 | after a failed authorization or load nothing queued before or after can ever be dispatched |
| PreAuthorization.OverflowServesQueueIff | src/server/terminal-server.ts:697-751 | in any run, when an over-limit frame arrives while frames are queued, exactly those frames can still be dispatched iff authorization has succeeded and the runtime is loading |
| PreAuthorization.DispatchedAfterOverflow | src/server/terminal-server.ts:697-751 | a run from the start in which a frame is dispatched after the limit was hit |
| PreAuthorization.RefusalIsFinal | src/server/terminal-server.ts:706-717 | after a refused frame none is accepted any more |
| PreAuthorization.FrameIsAcceptedIff | src/server/terminal-server.ts:706-733 | a frame is queued exactly when none was refused before, it is no larger than allowed, and the connection is ready or the queued frames stay within both limits with it; otherwise it and all later ones are refused |
| PreAuthorization.ReadyServesAll | src/server/terminal-server.ts:735-751 | once ready, every frame ever accepted is in its place and all of them can be dispatched, in order |
| PreAuthorization.LoadingServesAll | src/server/terminal-server.ts:697-751 | what waits when authorization has succeeded can all be dispatched |
| PreAuthorization.ConnectionQueue.CountFrame | src/server/terminal-server.ts:721-733 | counts a frame and refuses it iff it is over a limit |
| PreAuthorization.ConnectionQueue.Admit | src/server/terminal-server.ts:706-733 | a frame is kept exactly when no other was refused before and it passes the size test and, before readiness, the limits |
| PreAuthorization.ConnectionQueue.Enqueue | src/server/terminal-server.ts:735-743 | the frame joins the end of the queue |
| PreAuthorization.ConnectionQueue.OnMessage | src/server/terminal-server.ts:706-751 | one arriving frame is accepted, refused or ignored as the model says |
| PreAuthorization.ConnectionQueue.Advance | src/server/terminal-server.ts:697-703 | readiness goes from authorizing to loading to ready, or fails |
| PreAuthorization.ConnectionQueue.HandleOne | src/server/terminal-server.ts:735-743 | the next queued frame leaves the queue, dispatched if the connection is ready and dropped if it failed; the queue is the accepted frames not yet handled |
| ContainerListing.OneAtATime | src/server/terminal-server.ts:2059-2092 | at most one query runs at a time, and it is the one in flight |
| ContainerListing.QueryRate | src/server/terminal-server.ts:2059-2092 | any stretch of L milliseconds sees at most L / 1000, rounded down, plus one queries start |
| ContainerListing.CoalescedCallersAgree | src/server/terminal-server.ts:2059-2092 | in any run, two callers who ask while a query is unreleased and are not answered from the cache get the same query, start no second one, and at every later moment have been sent the same listing |
| ContainerListing.ReceivedIsFinal | src/server/terminal-server.ts:2064-2085 | what a caller has been sent never changes |
| ContainerListing.CachedAnswerIsRecent | src/server/terminal-server.ts:2060-2063 | a cached answer is the latest finished listing and less than a second old |
| ContainerListing.AskedIsAnswered | src/server/terminal-server.ts:2059-2092 | a caller is answered from the latest finished query exactly when that ended less than a second ago, with its listing or none if it failed; otherwise with the promise of the query in flight or of a new one |
| ContainerListing.PromiseIsKept | src/server/terminal-server.ts:2064-2085 | whoever was promised a query has been sent what it ended with, its listing or none, ever after |
| ContainerListing.ReleaseAllowsNextQuery | src/server/terminal-server.ts:2086-2091 | once a query is released and its listing is stale the next caller starts a query of its own |
| ContainerListing.ContainerLists.GetContainerList | src/server/terminal-server.ts:2059-2092 | answers from a fresh cache, else joins the query in flight, else starts one |
| ContainerListing.ContainerLists.QuerySettled | src/server/terminal-server.ts:2069-2085 | success and failure alike are cached for a second from their completion |
| ContainerListing.ContainerLists.QueryReleased | src/server/terminal-server.ts:2086-2091 | only the query still in flight is released |
| DemoDisplay.WriteDisplays | demo/demo-websocket.ts:105-175 | for every input the row shows the prompt and the line, blank after that, and the cursor is at prompt length plus cursor |
| DemoDisplay.StartDisplays | demo/demo-websocket.ts:96-103 | starting the shell puts any clean terminal in step with it |
| DemoDisplay.RedrawDisplays | demo/demo-websocket.ts:371-377 | a full redraw puts any clean row in step with any line and cursor |
| DemoDisplay.CheapPaintingAgrees | demo/demo-websocket.ts:234-260 | appending a character and rubbing one out leave the same row and column as a full redraw would |
| DemoDisplay.AppendDisplays | demo/demo-websocket.ts:242-246 | echoing one character at the end of the line keeps the row in step |
| DemoDisplay.RuboutDisplays | demo/demo-websocket.ts:255-259 | backspace, blank, backspace keeps the row in step |
| DemoDisplay.FeedPrompt | demo/demo-websocket.ts:18-18 | the colours of the prompt leave no trace on the row |
| DemoDisplay.SubmitDisplays | demo/demo-websocket.ts:320-337 | submitting, whatever the reply, ends with a fresh prompt in step with the empty line |
| DemoDisplay.CancelDisplays | demo/demo-websocket.ts:313-318 | cancelling ends with a fresh prompt in step with the empty line |
| DemoDisplay.ClearScreenDisplays | demo/demo-websocket.ts:155-158 | clearing the screen keeps the row in step |
| DemoDisplay.RepliesAreTame | demo/demo-websocket.ts:339-369 | no reply contains a control character other than line ends |
| DemoDisplay.ConsumeDisplays | demo/demo-websocket.ts:108-172 | one character of input keeps the terminal in step with the editor |
| DemoEditor.ConsumeKeeps | demo/demo-websocket.ts:105-175 | cursor within the line, line within 512, history within 50 printable entries and index in range after every character |
| DemoEditor.SubmitKeeps | demo/demo-websocket.ts:320-331 | a submitted line enters the history only as a non-empty printable entry within the limits |
| DemoEditor.WriteAll | demo/demo-websocket.ts:105-175 | writing any input keeps the editor well formed |
| DemoLaws.WriteConcat | demo/demo-websocket.ts:105-175 | writing a + b is writing a and then b, in state and output |
| DemoLaws.LineEndingsAreInterchangeable | demo/demo-websocket.ts:116-130 | for input without ESC, from outside an escape sequence and not after CR, normalising CR LF and CR to LF changes neither output nor state |
| DemoLaws.HistoryIsRecent | demo/demo-websocket.ts:320-331 | the history is the last fifty of the submitted commands without empty ones and consecutive repeats |
| DemoLaws.EditsAroundCursor | demo/demo-websocket.ts:234-318 | every editing action changes the text before and after the cursor as it should: insert, rub out, delete, kill either way, erase exactly the last word and its blanks, move, recall |
| DemoKeys.KeysEdit | demo/demo-websocket.ts:122-175 | what each key does to the text before and after the cursor and to the place in the history; a line feed after a carriage return does nothing |
| DemoKeys.BellRingsIff | demo/demo-websocket.ts:234-283 | a key rings the bell exactly for a tab, nothing to erase, or no room to type |
| DemoKeys.SequenceIsOneKey | demo/demo-websocket.ts:177-201 | ESC [, up to fourteen parameter characters and a final one act as one key |
| DemoKeys.SequencesEdit | demo/demo-websocket.ts:203-232 | what each escape sequence does to the line, the cursor and the place in the history; unknown ones change nothing |
| DemoKeys.LoneEscapeIsDropped | demo/demo-websocket.ts:177-185 | ESC before anything but a bracket is dropped with that character |
| DemoKeys.OverlongIsDropped | demo/demo-websocket.ts:187-201 | a sequence longer than sixteen characters that has not ended is dropped |
| DemoCommands.TrimIsExact | demo/demo-websocket.ts:320-322 | the command is the line without the white space at both ends, all of it and nothing else |
| DemoCommands.FixedCommands | demo/demo-websocket.ts:339-354 | what each fixed command prints |
| DemoCommands.ControlsPrint | demo/demo-websocket.ts:313-318 | ctrl-C drops the line visibly and ctrl-L clears the screen before the line is shown again |
| DemoCommands.StartIsFresh | demo/demo-websocket.ts:96-103 | starting again gives an empty line and the welcome text and keeps the history |
| DemoCommands.EchoSays | demo/demo-websocket.ts:361-362 | echo prints its arguments without the blanks in front of them |
| DemoCommands.OthersAreRefused | demo/demo-websocket.ts:364-370 | any other command is refused by its first word |
| DemoCommands.HistorySays | demo/demo-websocket.ts:353-359 | history lists every entry on a line of its own, in order, numbered from one in at least three places |
| DemoLaws.BackspaceUndoesInsert | demo/demo-websocket.ts:234-260 | rubbing out what was just typed restores the editor |
| DemoLaws.RecallReturns | demo/demo-websocket.ts:291-311 | stepping back in the history and forward again restores the editor |
| DemoShells.DemoShell.Begin | demo/demo-websocket.ts:96-103 | resets line, cursor and modes, keeps the history, and leaves any clean terminal in step |
| DemoShells.DemoShell.Write | demo/demo-websocket.ts:105-175 | the per-character loop computes the state and output of the editor function and keeps every terminal in step |
| DemoShells.DemoShell.TakeCharacter | demo/demo-websocket.ts:108-172 | one turn of the loop: escape sequences, the swallowed line feed, keys |
| DemoShells.DemoShell.ConsumeEscapeSequence | demo/demo-websocket.ts:177-201 | the escape automaton with its UTF-16 length limit |
| DemoShells.DemoShell.Act | demo/demo-websocket.ts:122-232 | each key and sequence does its editing operation |
| DemoShells.DemoShell.InsertPrintable | demo/demo-websocket.ts:234-247 | inserts at the cursor, rings at 512 characters, ignores control characters |
| DemoShells.DemoShell.EraseBackward | demo/demo-websocket.ts:249-260 | removes the character before the cursor or rings |
| DemoShells.DemoShell.EraseForward | demo/demo-websocket.ts:262-269 | removes the character at the cursor or rings |
| DemoShells.DemoShell.ErasePreviousWord | demo/demo-websocket.ts:271-283 | the two loops find the start of the previous word, which is removed |
| DemoShells.DemoShell.Move | demo/demo-websocket.ts:285-289 | moves the cursor and repaints only when it moves |
| DemoShells.DemoShell.Recollect | demo/demo-websocket.ts:291-311 | steps through the history, clamped, ringing at its ends |
| DemoShells.DemoShell.Abandon | demo/demo-websocket.ts:313-318 | drops the line and prompts again |
| DemoShells.DemoShell.Run | demo/demo-websocket.ts:320-337 | records the trimmed command, empties the line and answers |
| DemoShells.DemoShell.PaintAgain | demo/demo-websocket.ts:371-377 | emits erase, prompt, line and the move back, changing nothing |
| BrowserModel.InvariantHolds | src/client/terminal-client.ts:58-306 | in every reachable state requests are outstanding only while connected, each other request is settled, the attempt count is within the maximum and a timer implies an attempt is left |
| BrowserModel.SettledOnce | src/client/terminal-client.ts:265-306 | a request is resolved or rejected at most once |
| BrowserModel.LegacyReplySettlesOldest | src/client/terminal-client.ts:270-283 | a response without id settles the oldest outstanding request of its type and nothing else |
| BrowserModel.NamedReplySettlesIff | src/client/terminal-client.ts:265-287 | a response that names an outstanding request settles that request alone if it has its type, and nothing otherwise |
| BrowserModel.NamedComplaintFailsIt | src/client/terminal-client.ts:265-293 | an error that names an outstanding request fails that request alone |
| BrowserModel.ComplaintFailsOldest | src/client/terminal-client.ts:270-283 | an error without id fails the oldest outstanding request, if any |
| BrowserModel.UnknownIsIgnored | src/client/terminal-client.ts:265-269 | messages that name no outstanding request change nothing |
| BrowserModel.AskFilesIff | src/client/terminal-client.ts:238-263 | a request is filed, waiting and with a fresh id, exactly on an open connection; one that cannot be sent fails at once |
| BrowserModel.SocketsAreHeard | src/client/terminal-client.ts:132-175 | only the current socket is listened to; its end rejects every request, and a reconnection is due exactly if nobody disconnected, it is configured and an attempt is left |
| BrowserModel.TimerTries | src/client/terminal-client.ts:217-231 | the timer spends one attempt and opens a socket unless connected or connecting |
| BrowserModel.ErrorsEndAttempts | src/client/terminal-client.ts:178-186 | an error of the current socket ends an attempt to connect and nothing else |
| BrowserModel.ConnectStarts | src/client/terminal-client.ts:105-193 | connect() opens a socket of its own exactly when there is neither a connection nor an attempt; if none can be created the client stays disconnected but may reconnect again |
| BrowserModel.ReconnectionBudget | src/client/terminal-client.ts:151-231 | between two successful opens the timer starts at most the maximum number of connections |
| BrowserModel.AttemptsCounted | src/client/terminal-client.ts:217-231 | attempts since the last open are exactly the timer firings |
| BrowserModel.NoTimerAfterDisconnect | src/client/terminal-client.ts:196-231 | after disconnect() no reconnection timer exists until a connect() gets past its guard, unless it was called by a handler of a close already bound to reconnect |
| BrowserModel.DisconnectOverruledIff | src/client/terminal-client.ts:151-175 | disconnect() from a disconnect handler is overruled iff that close had decided to reconnect |
| BrowserModel.DisconnectIsOverruled | src/client/terminal-client.ts:151-175 | a run from the start in which that happens, whenever reconnection is configured |
| BrowserModel.DisconnectNeverStrands | src/client/terminal-client.ts:209-213 | the last branch of disconnect() is never taken in a reachable state |
| BrowserModel.ConnectDuringCloseIsLost | src/client/terminal-client.ts:105-107 | connect() during an ordered close returns at once and the connection still ends without reconnecting |
| BrowserModel.ConnectAfterDisconnectIff | src/client/terminal-client.ts:105-107 | over any run, connect() after disconnect() opens a connection (its socket permitting) iff it gets past its guard; otherwise nothing reconnects and the client is disconnected once the close is reported |
| BrowserModel.StepKeepsInvariant | src/client/terminal-client.ts:105-306 | every public call and callback keeps the invariant, also from inside disconnect handlers |
| BrowserClients.TerminalClient.ConnectToServer | src/client/terminal-client.ts:105-193 | connects only when neither connected nor connecting; a throwing constructor leaves it disconnected |
| BrowserClients.TerminalClient.DisconnectFromServer | src/client/terminal-client.ts:196-214 | the model step: timer cleared, reconnection forbidden |
| BrowserClients.TerminalClient.OnOpen | src/client/terminal-client.ts:132-145 | an open of the current socket resets the budget; any other is ignored |
| BrowserClients.TerminalClient.OnError | src/client/terminal-client.ts:178-186 | an error ends only the current, connecting attempt |
| BrowserClients.TerminalClient.OnClose | src/client/terminal-client.ts:147-170 | a close of the current socket rejects every pending request and decides on reconnecting |
| BrowserClients.TerminalClient.OnHandlersDone | src/client/terminal-client.ts:170-175 | the decision made before the handlers is carried out after them |
| BrowserClients.TerminalClient.OnTimer | src/client/terminal-client.ts:224-230 | one attempt is spent and a connection started |
| BrowserClients.TerminalClient.Ask | src/client/terminal-client.ts:238-263 | a request is filed only while connected and withdrawn, rejected, when it cannot be sent |
| BrowserClients.TerminalClient.Settle | src/client/terminal-client.ts:289-299 | the request leaves the pending ones and its promise settles |
| BrowserClients.TerminalClient.RejectPendingRequests | src/client/terminal-client.ts:302-306 | the loop rejects every pending request and nothing else |
| BrowserClients.TerminalClient.Oldest | src/client/terminal-client.ts:272-283 | the search loop finds the oldest pending request of the type, or the oldest of all |
| BrowserClients.TerminalClient.ResolvePending | src/client/terminal-client.ts:265-300 | a response settles the request the model chooses |
| BrowserClients.TerminalClient.ResolveError | src/client/terminal-client.ts:265-293 | an error settles the request it names, or the oldest |
| PendingModel.RunGood | bindings/python/lit_shell/client.py:879-952 | in every reachable state each request issued is done or listed exactly once, in order of issue |
| PendingModel.SettledOnce | bindings/python/lit_shell/client.py:914-952 | the first outcome of a future is its last |
| PendingModel.AllSettledWhenLost | bindings/python/lit_shell/client.py:945-952 | after a disconnect no future is left waiting and those already done are untouched |
| PythonRequests.InvariantHolds | bindings/python/lit_shell/client.py:278-303 | over every run of connection and requests together, nothing is listed unless the transport is open |
| PythonRequests.NothingWaitsWhenClosed | bindings/python/lit_shell/client.py:945-983 | over every such run no future waits while the transport is not open, however it went: disconnect(), a remote loss, an abandonment |
| PythonRequests.ClosingFailsWaiting | bindings/python/lit_shell/client.py:945-972 | whichever step closes the transport fails exactly the requests that were waiting |
| PythonRequests.SettledOnce | bindings/python/lit_shell/client.py:914-983 | also across disconnects and reconnections the first outcome of a request is its last |
| PythonRequests.OpenSparesRequests | bindings/python/lit_shell/client.py:945-972 | nothing that happens to the connection touches a request while the transport stays open |
| PendingModel.CorrelatedAnswersItsRequest | bindings/python/lit_shell/client.py:904-908 | a response naming a pending request of its type settles that request alone, failing it if it cannot be applied |
| PendingModel.ErrorFailsItsRequest | bindings/python/lit_shell/client.py:929-943 | an error naming a pending request fails that request alone |
| PendingModel.OtherErrorsFailOldest | bindings/python/lit_shell/client.py:929-943 | any other error fails the oldest request still waiting, if there is one, and that alone |
| PendingModel.IssuedIsFresh | bindings/python/lit_shell/client.py:669-681 | a request is filed last, waiting, with an id no other has exactly when the server supports ids |
| PendingModel.GivingUpCancels | bindings/python/lit_shell/client.py:684-702 | giving up cancels this request alone, and finishing it takes it off the list |
| PendingModel.UnknownIdFallsBack | bindings/python/lit_shell/client.py:904-912 | a response whose id is unknown or of another type counts as one without id |
| PendingModel.UncorrelatedAnswersOldestIff | bindings/python/lit_shell/client.py:909-927 | a response without id answers the oldest waiting request of its type iff that request heads the queue; otherwise no future changes |
| PendingModel.ResponseSwallowed | bindings/python/lit_shell/client.py:909-927 | a run in which a response is swallowed by a request already given up on |
| PendingModel.FirstInFirstOut | bindings/python/lit_shell/client.py:64-72 | while nobody gives up, a row of responses without id of a type answers its requests in order |
| PendingFifo.OwnRequestIff | bindings/python/lit_shell/client.py:901-927 | in any run against a server that answers in order, the n-th response of a type reaches the n-th request iff that is still listed; otherwise only a later one |
| PendingFifo.PunctualIsFirstInFirstOut | bindings/python/lit_shell/client.py:64-72 | while no request of a type leaves before its response, the n-th response reaches the n-th request, whatever else happens in between |
| PendingFifo.LateResponseIsMisdirected | bindings/python/lit_shell/client.py:692-702 | a run from the start in which the late response of a request that timed out answers the next one |
| PendingModel.StepKeepsGood | bindings/python/lit_shell/client.py:879-952 | every operation keeps the list ordered, free of made-up entries and complete |
| PendingIndexes.GrownAgree | bindings/python/lit_shell/client.py:879-883 | filing a request keeps the three indexes in agreement |
| PendingIndexes.ShrunkAgree | bindings/python/lit_shell/client.py:885-899 | removing a request keeps them in agreement, with no empty queue left |
| PendingIndexes.PendingIndex.AddPending | bindings/python/lit_shell/client.py:669-681 | a fresh waiting request joins all three indexes |
| PendingIndexes.PendingIndex.RemovePending | bindings/python/lit_shell/client.py:885-899 | exactly this request leaves all three indexes |
| PendingIndexes.PendingIndex.PendingForMessage | bindings/python/lit_shell/client.py:901-912 | finds in the indexes the request the list determines |
| PendingIndexes.PendingIndex.ResolvePending | bindings/python/lit_shell/client.py:914-927 | the target leaves the indexes and is settled if it was waiting |
| PendingIndexes.PendingIndex.RejectPending | bindings/python/lit_shell/client.py:929-943 | the named request, or the first still waiting, is failed |
| PendingIndexes.PendingIndex.FailPending | bindings/python/lit_shell/client.py:945-952 | empties the indexes first and leaves no future waiting |
| PendingIndexes.PendingIndex.GiveUpOn | bindings/python/lit_shell/client.py:684-700 | a time-out, cancellation or failed send cancels only this future |
| PendingIndexes.PendingIndex.FinishRequest | bindings/python/lit_shell/client.py:701-702 | the finished request leaves whatever index still holds it |
| PythonLifecycle.InvariantHolds | bindings/python/lit_shell/client.py:168-327 | in every interleaving callbacks alternate starting with connect, announced equals not disconnect-notified and implies an open transport with server info, and every dialled socket is in use or closed exactly once |
| PythonLifecycle.StepKeepsInvariant | bindings/python/lit_shell/client.py:168-327 | every stretch of connect, disconnect, loss, recovery and cancellation keeps that invariant |
| PythonLifecycle.SilentAfterDisconnect | bindings/python/lit_shell/client.py:278-327 | after disconnect() no connect or disconnect handler is called until connect() is called, whatever was under way |
| PythonLifecycle.OnlyItsOwnLossEndsIt | bindings/python/lit_shell/client.py:954-983 | an announced connection ends only with disconnect() or the loss of its own socket; the loss of an older one never tears it down |
| PythonLifecycle.AnnouncedByCurrentGeneration | bindings/python/lit_shell/client.py:211-225 | a connect callback is only given by an attempt of the current generation with no disconnect requested |
| PythonLifecycle.RecoveryComesFirst | bindings/python/lit_shell/client.py:211-217 | an attempt that finds a session to recover waits for its recovery, marked as recovering, and tells nobody anything |
| PythonLifecycle.NothingBeforeRecovery | bindings/python/lit_shell/client.py:211-225 | over any run, after the loss of a connection with a session no handler is called before its recovery has returned, unless the session ends, another starts, or the user disconnects |
| PythonLifecycle.AnnouncesIff | bindings/python/lit_shell/client.py:189-225 | a connection is announced exactly when its attempt is complete, current and has no recovery ahead of it |
| PythonLifecycle.LossIsToldIff | bindings/python/lit_shell/client.py:954-972 | a loss and a disconnect are told exactly if the connection was announced; a lost session stays to be recovered, a disconnected one does not; the loss of another socket changes nothing |
| PythonLifecycle.DialOutcome | bindings/python/lit_shell/client.py:227-276 | a dial that succeeds puts its own socket in place, unannounced; one that fails changes no connection |
| PythonLifecycle.RecoveryEnds | bindings/python/lit_shell/client.py:551-571 | a refused session is forgotten, an interrupted recovery stays due, and nothing counts as recovering any more |
| PythonLifecycle.AbandonmentIsSilent | bindings/python/lit_shell/client.py:1076-1099 | a cancelled connect() closes what it opened unless that was announced, telling nobody; a session on it stays to be recovered |
| PythonLifecycle.ConnectCanSucceed | bindings/python/lit_shell/client.py:168-225 | whatever happened before, disconnect() included, connect() from a client at rest can lead to a usable connection |
| PythonLifecycle.StaleAttemptGivesUp | bindings/python/lit_shell/client.py:199-209 | an attempt of an earlier generation gives up the lock and does nothing more |
| PythonLifecycle.EstablishedNeedsNoRecovery | bindings/python/lit_shell/client.py:415-418 | an established or ended session needs no recovery: the next attempt announces at once |
| PythonLifecycle.AnnouncedIsUsableIff | bindings/python/lit_shell/client.py:247-254 | in every run an announced connection is unusable iff a recovery was called off between a handshake and its start, by the end or the new start of a session, and the mark has stood ever since |
| PythonLifecycle.AnnouncedButNotUsable | bindings/python/lit_shell/client.py:247-254 | a run from the start that ends announced and yet not connected |
| PythonLifecycle.SocketsKept | bindings/python/lit_shell/client.py:227-276 | every step accounts for the sockets it dials, installs and closes |
| PythonClients.TerminalClient.BeginConnect | bindings/python/lit_shell/client.py:168-172 | withdraws the disconnect request and nothing else |
| PythonClients.TerminalClient.ConnectLocked | bindings/python/lit_shell/client.py:189-198 | returns, completes an unannounced connection, or dials |
| PythonClients.TerminalClient.CompleteConnection | bindings/python/lit_shell/client.py:211-217 | recovers a lost session first, if one is pending |
| PythonClients.TerminalClient.FinishConnection | bindings/python/lit_shell/client.py:219-224 | announces unless stale or closed |
| PythonClients.TerminalClient.SocketReady | bindings/python/lit_shell/client.py:227-236 | the dialling attempt holds a fresh socket |
| PythonClients.TerminalClient.ConnectOnceSucceeds | bindings/python/lit_shell/client.py:246-260 | installs the socket, unannounced |
| PythonClients.TerminalClient.ConnectOnceFails | bindings/python/lit_shell/client.py:261-276 | closes the socket it holds and releases the lock |
| PythonClients.TerminalClient.CancelConnect | bindings/python/lit_shell/client.py:184-187 | a cancelled holder releases the lock and closes what it was dialling |
| PythonClients.TerminalClient.ResumeAfterDial | bindings/python/lit_shell/client.py:199-209 | goes on to complete the connection unless stale |
| PythonClients.TerminalClient.ResumeAfterRecovery | bindings/python/lit_shell/client.py:214-224 | a recovery that returns, refused or not, leads to the announcement test |
| PythonClients.TerminalClient.RecoveryInterrupted | bindings/python/lit_shell/client.py:564-571 | an interrupted recovery keeps the session pending |
| PythonClients.TerminalClient.ReleaseLock | bindings/python/lit_shell/client.py:200-206 | unwinding restores the recovery flag and closes a dialled socket |
| PythonClients.TerminalClient.DropTransport | bindings/python/lit_shell/client.py:288-296 | transport, announcement, recovery and server info go together, and in the same stretch every pending request fails |
| PythonClients.TerminalClient.ResetTransport | bindings/python/lit_shell/client.py:288-298 | the transport fields are cleared and the socket closed |
| PythonClients.TerminalClient.EndConnection | bindings/python/lit_shell/client.py:278-303 | the synchronous part of disconnect(): generation, transport, requests, session, one notification |
| PythonClients.TerminalClient.AbandonUnannouncedConnection | bindings/python/lit_shell/client.py:1076-1099 | tears down only an open, unannounced connection, failing its requests |
| PythonClients.TerminalClient.DisconnectClient | bindings/python/lit_shell/client.py:278-303 | ends the generation, fails every pending request and notifies at most once |
| PythonClients.TerminalClient.HandleRemoteDisconnect | bindings/python/lit_shell/client.py:954-972 | does nothing unless the lost socket is the current one; then every pending request fails with it |
| PythonClients.TerminalClient.NotifyOfDisconnect | bindings/python/lit_shell/client.py:1101-1105 | one disconnect callback for each connect callback |
| PythonClients.TerminalClient.ClearSession | bindings/python/lit_shell/client.py:1143-1149 | no session and none to recover |
| PythonClients.TerminalClient.ApplySession | bindings/python/lit_shell/client.py:415-418 | an established session withdraws the recovery mark |
| PythonClients.TerminalClient.SetServerInfo | bindings/python/lit_shell/client.py:839-856 | the handshake is recorded |
| PythonClients.TerminalClient.SendRequest | bindings/python/lit_shell/client.py:650-681 | files a request iff the client is usable, or merely open for a recovering request |
| PythonClients.TerminalClient.HandleResponse | bindings/python/lit_shell/client.py:789-790 | a response is handled iff it has a target, which leaves the indexes and settles |
| PythonClients.TerminalClient.HandleError | bindings/python/lit_shell/client.py:780-787 | an error fails the request it names, or the first waiting |
| QualityRatchet.ValidateCrapBaseline | scripts/quality-baseline-policy.js:28-99 | accepts iff fields are sane and maximum, above-threshold count and unmeasured count match the method map |
| QualityRatchet.Aggregate | scripts/quality-baseline-policy.js:61-80 | one pass computes the maximum and both counts, or finds a bad entry |
| QualityRatchet.CompareCrapBaselines | scripts/quality-baseline-policy.js:136-190 | the failure list holds exactly the broken rules, once each |
| QualityRatchet.CompareMethods | scripts/quality-baseline-policy.js:167-187 | the loop over methods reports exactly the broken per-method rules |
| QualityRatchet.CompareCoverageBaselines | scripts/quality-baseline-policy.js:121-134 | rejects unless both records are valid; then exactly the metrics whose floor went down, once each |
| QualityRatchet.ValidateCoverageBaseline | scripts/quality-baseline-policy.js:3-26 | accepts iff the version is 1 and every floor is a percentage |
| QualityRatchet.Reflexive | scripts/quality-baseline-policy.js:136-190 | a valid baseline compares cleanly with itself |
| QualityRatchet.ComposesIff | scripts/quality-baseline-policy.js:136-190 | two accepted steps compose iff three checks on the end points pass |
| QualityRatchet.Transitive | scripts/quality-baseline-policy.js:136-190 | with one threshold and no reappearing method acceptance is transitive |
| QualityRatchet.ChainHolds | scripts/quality-baseline-policy.js:136-190 | acceptance holds along a chain of any length under those conditions |
| QualityRatchet.ReappearanceBreaksTransitivity | scripts/quality-baseline-policy.js:167-187 | a method that vanishes and returns can come back worse through accepted steps |
| QualityRatchet.LoweredThresholdBreaksTransitivity | scripts/quality-baseline-policy.js:153-160 | lowering the threshold between accepted steps can break their composition |

## Left out

- The Lit component, xterm, styles, HTTP, real sockets, node-pty, Docker, JSON, hashing and regular expressions:
  foreign calls, replaced by arbitrary verdicts (allowed or not, fails or not, byte length of a message).
- Option validators, `parsePort`, container-line parsing, request parsing, logging: single-branch checks whose
  results are used as preconditions or parameters.
- Sessions are values in the manager's map rather than objects of their own, so a handler that keeps a reference to a
  session after it was closed, as the join handler and the orphan timer's closure do, is modelled by looking it up
  again. The history field is the string that `CircularBuffer.Append` is proved to hold.
- Identifiers and tokens are abstract and fresh; a client is its socket; the clock stands still within one handler;
  a socket drains, closes and fails only by the environment.
- Creation dates, labels, terminal sizes, per-client activity stamps and the forwarding of input and resizes to the
  PTY.
- Listener registration fails as a whole, before a listener is attached. When the Docker spawn paths fail there the
  session stays registered without listeners, as in the code.
- Readiness of a connection is modelled apart from the multiplexer, whose requests come from any socket that ever
  connected; so requests dispatched after a socket closed are covered by both models.
- TerminalServers.TerminalServer.WriteToSession: stands for input and resizes alike and does not model what is forwarded
  to the PTY or the client's own activity stamp, because the PTY's reaction is arbitrary output anyway and no decision
  depends on the stamp.
- TerminalServers.TerminalServer.Close: leaves open what happens to requests that arrive after the server stopped.
- The wording of the demo shell's fixed texts is a parameter: any printable texts with line ends will do. Wide glyphs
  and colours are not modelled; a row is infinitely wide; one cell holds one code point.
- The demo's WebSocket object around the shell, with its timers and window size.
- The Python client's reconnect loop is covered as repeated acquisitions of the connect lock in any generation; its
  delays and its number of attempts are not modelled, nor are background tasks and data handlers.
- A spawned PTY whose session is then refused: the cap is checked before and the identifier is fresh, so it cannot
  happen in one handler; the kill that the code keeps for that case is not modelled.
- Listeners of the session manager's own events, which could call back into it.
- A Python response handler that cancels its own request while it runs.
- The browser client's memory of its previous session and its resume token.
- The aggregate of both baselines in `compareQualityBaselines`, and key checks of the JSON records.
