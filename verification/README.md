# A verified model of the agent runtime's protocols, codecs and loops

This Dafny project models the parts of the repository whose correctness is not visible from any one
function: what several processes, promises, transports or loop rounds do together. Each module
stands for one or two source files.

| module | models |
|---|---|
| `TokenStates` | what storage holds for an OAuth provider: valid, revoked (a tombstone) or missing |
| `RefreshProtocol` | `doEnsureFresh` in any number of processes that share a stored token and a lock, one event per storage access, lock operation or server answer; every interleaving is a run |
| `RefreshCoalescer` | `ensureFresh` inside one process: forced and unforced callers sharing the in-flight slot |
| `DeviceLogin` | the device-code polling loop (section 3.5 of RFC 8628) and its timing |
| `McpClients`, `McpHistories` | the HTTP and stdio MCP clients as one class and one state machine: latch, replay buffer, stderr tail; and what they report, read off bare histories |
| `ConnectionManager` | the MCP connection manager, one event per run-to-await segment, and its invariant |
| `ConnectionLeaks`, `ConnectionNews`, `ConnectionOutcomes`, `ConnectionAttempts`, `ConnectionSteps` | theorems about its runs: clients, listeners, entries, superseded attempts, how calls go on and end |
| `ConnectionManagerClass` | its methods on the heap: entries and clients are objects compared by reference, and every method refines an event |
| `ManagedClients` | manager and clients composed: each client is a full client machine whose transport may signal anything at any time |
| `Streaming` | assembly of one message from streamed parts, with parallel tool calls |
| `LineDiff` | the dynamic-programming line diff, its traceback and its printer |
| `GlobWalk`, `GlobRanks`, `GlobChains` | the recursive glob walks, local (with cycle detection) and over SSH (without), when the local one descends, and what it yields on chains of nodes |
| `ShellCommand` | the remote command line, and a POSIX tokenizer that takes it apart again |
| `TextDecoders` | the error-skipping UTF-8 and UTF-16LE decoders |
| `ImpactAnalyzer` | reverse import graph, bounded breadth-first search, sorting |
| `Telemetry` | the retry/abort/save loop of one send, and the synchronous half of the buffering sink |
| `TelemetryRuns` | sink and transport with any number of sends in flight |

Two styles are used. Protocols whose steps interleave are value state machines: `Next` runs one event, a run is
any sequence of enabled events, an invariant is proved for every step, and the theorems speak of every run.
Code that works by updating variables, fields or arrays is a method or a class, proved against a
specification on values; the theorems are then about that specification. The connection manager is both: its
objects on the heap represent a state of the machine, each method performs one of its events, and so the
theorems about runs hold of the objects. Inputs the source gets
from the outside (server answers, clocks, transport signals, file systems, abort signals) are parameters
or nondeterministic events.

Main results, in the system's own terms:

* With the cross-process lock in place, refresh requests never overlap, each carries the token then in storage,
  a tombstone only replaces the very token the server rejected, and a token the server would still accept is
  never revoked by a race. A call on a due token sends one request, stores what it is granted and returns it;
  every token a call returns is stored, and not due unless a refresh or a peer has just put it there. Granted
  refreshes spend ever later versions of the stored token, except that a version is granted again exactly when
  every answer in between was lost, on the way or by a save that failed; runs with a failed save and with a lost
  answer are given. With locking disabled refreshes overlap, by a concrete run.
* No client the connection manager ever creates leaks; what `resolved` hands out is an open client with the
  tools it listed itself and exactly the names its configuration allows; an attempt that has been superseded
  stays so, and nothing it does in the rest of any run shows; every call ends, however calls overlap, and once
  nothing is in flight every server has settled and listeners know how.
* Over either transport, and however often it signals, the death of a ready client is delivered exactly once and
  fails exactly its own entry, where a death is read off the bare history of calls and signals; a server shown
  as connected never has a dead client.
* Assembly of a stream is exactly what a specification of the whole stream says, and independent of how the
  provider cuts it into chunks.
* The diff is minimal and gives back both texts; the command line holds no unquoted expansion and is read by a
  POSIX shell as the words that were meant, the environment as assignments exactly when the command does not
  look like one; the decoders invert the encodings and skip exactly the invalid parts.
* The glob walk terminates on every directory graph in which each cycle has a directory with an inode, and
  yields exactly the selected chains of readable directories that enter no such directory twice; on acyclic
  graphs, inodes or not, exactly the selected paths.
* At every moment, however sends overlap, every telemetry event that was accepted and not cleared is served, on
  disk, discarded because its batch cannot be built, in flight or waiting, as often as it was accepted; every
  send ends, served exactly when a reply below 500 other than 429 reached it.

Where code and comments disagree, the model follows the code. `client-stdio.ts` has no latch: by itself a
stdio client delivers a repeated close again (`McpClients.StdioRepeatsARepeatedClose`). Under the connection
manager it cannot, because the listener closes the client before the next signal
(`ManagedClients.DeathIsDeliveredExactlyOnce`). The comment on the recovery read in `oauth-manager.ts`
(lines 368 to 372) describes a race between refreshes that cannot occur while the lock is held
(`RefreshProtocol.TombstonesNeverClobber`, on runs of refreshes alone); a `login`, which saves outside the lock
(line 427), can still make that branch fire.

## Model

| member | source | states |
|---|---|---|
| TokenStates.RevokedTombstone | packages/oauth/src/token-state.ts:36-45 | A tombstone reads back as revoked with the prior scope and type and holds no refresh token |
| TokenStates.DefaultRefreshThreshold | packages/oauth/src/oauth-manager.ts:31-36 | The threshold is the larger of five minutes and half the lifetime |
| RefreshProtocol.NextKeepsInv | packages/oauth/src/oauth-manager.ts:284-396 | Every step of every process keeps: the lock is held exactly by the process in the critical section, and from its re-read to its write storage holds the token it works with |
| RefreshProtocol.BeginDecides | packages/oauth/src/oauth-manager.ts:284-304 | What a call does first, on what is stored: nothing stored and revoked are refused, a valid token waits for the lock exactly when the call forces or the token is due, and any other stored access token is the answer at once |
| RefreshProtocol.ReReadDecides | packages/oauth/src/oauth-manager.ts:313-359 | What the read under the lock decides, on the stored fields: refuse, return the stored token because it is no longer due or, for a forced call, differs from the snapshot, or send it |
| RefreshProtocol.RejectionDecides | packages/oauth/src/oauth-manager.ts:367-392 | After a rejection a stored token with another refresh token is returned; any other is replaced by a tombstone that keeps scope and type |
| RefreshProtocol.TokensReturnedAreStored | packages/oauth/src/oauth-manager.ts:301-395 | Every event that answers a call with an access token leaves that token in storage, and without a refresh or a rejection it is one that is not due or one that changed since the snapshot |
| RefreshProtocol.DueTokenIsRefreshed | packages/oauth/src/oauth-manager.ts:301-365 | The run of an unforced call on a due token: one request with the stored token, the granted token is stored, and its access token is returned |
| RefreshProtocol.RunKeepsInv | packages/oauth/src/oauth-manager.ts:284-396 | The invariant holds after any interleaving of any number of processes |
| RefreshProtocol.RefreshesNeverOverlap | packages/oauth/src/oauth-manager.ts:312-395 | At most one refresh is outstanding in all processes, and storage holds the token it spends |
| RefreshProtocol.RequestsCarryTheStoredToken | packages/oauth/src/oauth-manager.ts:322-362 | Each post, retries included, carries the refresh token then in storage; a forced one only if no compared field changed since its snapshot, an unforced one only if the re-read token was due |
| RefreshProtocol.NextKeepsSpends | packages/oauth/src/oauth-manager.ts:361-365 | Every step keeps: the last granted refresh spent an older version than the stored one, or its answer is being saved or was lost |
| RefreshProtocol.SpentAgainIffAnswersWereLost | packages/oauth/src/oauth-manager.ts:361-365 | In every run later grants spend later versions, and a version is granted again exactly when the answers of all grants in between were lost, on the way or by a failed save |
| RefreshProtocol.EachVersionIsSpentOnce | packages/oauth/src/oauth-manager.ts:361-365 | So in runs in which answers arrive and saves succeed, granted refreshes spend strictly increasing versions |
| RefreshProtocol.FailedSaveSpendsTwice | packages/oauth/src/oauth-manager.ts:361-365 | Without that proviso it fails: after a failed save the same process has the same token granted again |
| RefreshProtocol.TokenSpentAgainIffAnswersWereLost | packages/oauth/src/oauth-manager.ts:361-365 | Against a server that rotates refresh tokens (section 6 of RFC 6749) a refresh token is granted twice exactly when the answers in between were lost |
| RefreshProtocol.TombstonesNeverClobber | packages/oauth/src/oauth-manager.ts:367-392 | A tombstone is saved only over the rejected token itself, and the peer-rotation recovery branch is never taken |
| RefreshProtocol.NoRaceEverRevokesALiveToken | packages/oauth/src/oauth-manager.ts:306-312 | If the server accepts the stored token and saves succeed, no interleaving makes it reject a refresh or leaves a tombstone |
| RefreshProtocol.LostAnswerRevokes | packages/oauth/src/oauth.ts:219-264 | Answers must arrive for that: when the answer to a granted post is lost, the retry spends the same version again, and its rejection logs the user out |
| RefreshProtocol.ReturnedTokenIsStored | packages/oauth/src/oauth-manager.ts:335-365 | An access token returned from inside the critical section is the one storage holds |
| RefreshProtocol.AnswerStands | packages/oauth/src/oauth-manager.ts:393-396 | Once a call has its answer nothing later changes it, and the process sends nothing before its next call |
| RefreshProtocol.FreshTokenNeedsNoRequest | packages/oauth/src/oauth-manager.ts:335-349 | A forced caller whose snapshot was rotated, and an unforced one whose re-read token is not due, return the stored token without a request |
| RefreshProtocol.RevokedIsAbsorbing | packages/oauth/src/oauth-manager.ts:285-329 | Once storage is revoked no process sends or stores anything, and no call returns a token |
| RefreshProtocol.TombstonesAreAbsorbing | packages/oauth/src/token-state.ts:28-45 | The same from any reachable revoked state |
| RefreshProtocol.HolderIsNeverStuck | packages/oauth/src/oauth-manager.ts:312-395 | Inside the critical section a process always has a next step, whatever the others do |
| RefreshProtocol.CriticalSectionEnds | packages/oauth/src/oauth-manager.ts:313-395 | Every path releases the lock, also those on which a read or a save throws: after at most eight steps of its own, interleaved in any way, a process has left the critical section |
| RefreshProtocol.WithoutTheLockRefreshesCollide | packages/oauth/src/oauth-manager.ts:195-197 | With locking off two processes can send the same refresh token at once |
| RefreshCoalescer.NextKeepsInv | packages/oauth/src/oauth-manager.ts:254-282 | Every call, settlement, cleanup and resumption keeps: unfinished runs are exactly the one in the slot, and links respect force flags |
| RefreshCoalescer.OneRefreshAtATime | packages/oauth/src/oauth-manager.ts:254-282 | At most one run is under way in one manager, and the slot is occupied exactly while one is, by it |
| RefreshCoalescer.CallsShareTheRunUnderWay | packages/oauth/src/oauth-manager.ts:254-271 | A call starts a run exactly when none is under way; otherwise it shares that very run, unless it forces and the run does not: then it waits behind it |
| RefreshCoalescer.ForcedCallersGetForcedRuns | packages/oauth/src/oauth-manager.ts:263-269 | A forced caller only ever shares a forced run; only forced callers wait, behind an unforced run |
| RefreshCoalescer.CleanupOnlyFreesItsOwnSlot | packages/oauth/src/oauth-manager.ts:272-279 | The cleanup of a settled run frees the slot it still holds and evicts no later run |
| RefreshCoalescer.JoinedCallersStay | packages/oauth/src/oauth-manager.ts:263-265 | A caller that joined a run keeps it, and finished runs stay finished, in every continuation |
| RefreshCoalescer.RequeuesAreBounded | packages/oauth/src/oauth-manager.ts:266-269 | In every run a queued forced caller is queued again at most once per unforced call that comes in, and once more if an unforced run has overtaken it already |
| RefreshCoalescer.ServedWithoutUnforcedCalls | packages/oauth/src/oauth-manager.ts:266-269 | While no unforced call comes in, a caller that waits for the run in the slot shares a forced run when it resumes |
| RefreshCoalescer.ForcedCallersCanStarve | packages/oauth/src/oauth-manager.ts:266-269 | The bound is met: for every n there is a run in which a forced caller is queued again n times |
| RefreshCoalescer.QueuedCallersCanGoOn | packages/oauth/src/oauth-manager.ts:266-269 | A queued caller can resume, or the run it waits for can go on |
| RefreshCoalescer.OAuthManager.EnsureFresh | packages/oauth/src/oauth-manager.ts:254-282 | The method moves the manager's fields as the specification's call event does, and keeps the invariant |
| RefreshCoalescer.OAuthManager.FinallyHook | packages/oauth/src/oauth-manager.ts:272-279 | The hook clears the slot only when it holds this run |
| RefreshCoalescer.OAuthManager.ResumeQueued | packages/oauth/src/oauth-manager.ts:269 | A queued forced caller re-enters after the run it waited for |
| DeviceLogin.CeilSeconds | packages/oauth/src/oauth-manager.ts:406 | The time limit rounded up to whole seconds |
| DeviceLogin.PollCode | packages/oauth/src/oauth-manager.ts:414-444 | Polls of one code are well timed, answer the turns in order, and end for the stated reason; storage is written only on success |
| DeviceLogin.Login | packages/oauth/src/oauth-manager.ts:404-455 | Every run yields a well-timed poll history that explains its outcome; the token is saved once on success and never otherwise |
| DeviceLogin.WellTimedAt | packages/oauth/src/oauth-manager.ts:419-443 | Every poll starts before the deadline and follows its predecessor by the interval then in force |
| DeviceLogin.IntervalCountsSlowDowns | packages/oauth/src/oauth-manager.ts:414-442 | The interval is the code's base interval plus five seconds per slow_down so far |
| DeviceLogin.PollsAreSpacedOut | packages/oauth/src/oauth-manager.ts:414-443 | Polls of one code are at least base plus five seconds per slow_down apart |
| DeviceLogin.BaseCoversTheGrant | packages/oauth/src/oauth-manager.ts:409-414 | The base interval of a poll is what the server granted for its code, but at least one second |
| DeviceLogin.ServerIsNeverRushed | packages/oauth/src/oauth-manager.ts:409-443 | Polls of one code are at least the server's interval plus five seconds per slow_down apart |
| DeviceLogin.PendingPollsAreBounded | packages/oauth/src/oauth-manager.ts:406-443 | The set of polls answered by authorization_pending has no more members than the time limit has seconds, over all codes |
| DeviceLogin.SlowDownsInARow | packages/oauth/src/oauth-manager.ts:414-443 | n slow_downs in a row satisfy (n-1)I + 5n(n-1)/2 < T |
| McpClients.HttpDeathIsDeliveredOnce | packages/mcp-host/src/client-http.ts:115-184 | Whatever the order of death, registration, repeated signals and close, exactly the first death is delivered, to the right listener |
| McpClients.HttpDeliversIffDead | packages/mcp-host/src/client-http.ts:145-184 | One delivery if a ready transport died before close and somebody registered, none otherwise |
| McpClients.StdioDeliversOncePerClose | packages/mcp-host/src/client-stdio.ts:119-185 | The same for stdio when the close is signalled at most once |
| McpClients.StdioRepeatsARepeatedClose | packages/mcp-host/src/client-stdio.ts:170-185 | Without that proviso it fails: a repeated close is delivered twice |
| McpClients.StdioCountsDeaths | packages/mcp-host/src/client-stdio.ts:170-185 | In general a stdio client delivers every death a listener hears, and of those before registration the last |
| McpClients.ClosedClientsStaySilent | packages/mcp-host/src/client-http.ts:103-107 | After an intentional close nothing counts as a death |
| McpClients.McpClient.FinishConnect | packages/mcp-host/src/client-http.ts:90-101 | `connect()` resolves exactly when the handshake succeeded and nobody closed the client meanwhile, and only then is it ready |
| McpClients.McpClient.OnError | packages/mcp-host/src/client-http.ts:161-172 | After an error hook the client has, over its whole life, delivered what the history specification says: over HTTP a first terminal error after startup and nothing twice, over stdio nothing by itself |
| McpClients.McpClient.OnUnexpectedClose | packages/mcp-host/src/client-http.ts:115-122 | Registering replays a buffered death: what has been delivered over the whole life is still what the history says |
| McpClients.McpClient.OnClose | packages/mcp-host/src/client-stdio.ts:170-185 | After a close hook the client has, over its whole life, delivered exactly the deaths of its history, each with the reason of that moment |
| McpClients.TailOfTail | packages/mcp-host/src/client-stdio.ts:206-211 | Trimming after every push keeps the same tail as trimming the whole history once |
| McpClients.BoundedTail.Snapshot | packages/mcp-host/src/client-stdio.ts:202-216 | The snapshot is the last characters of everything pushed |
| McpHistories.TerminalErrors | packages/mcp-host/src/client-http.ts:204-208 | An error is terminal exactly when its name is UnauthorizedError or its message holds the phrase about used-up reconnection attempts, in whatever case |
| McpHistories.HistoryDecides | packages/mcp-host/src/client-http.ts:84-122 | The flags of a client, its listener, its latest error and its stderr are those its bare history of calls and signals gives |
| McpHistories.DeathsAreWhatTheySay | packages/mcp-host/src/client-http.ts:145-173 | Whether a signal is a death, and its reason, read off the bare history: a handshake succeeded before any close, nobody has closed the client, and the transport closes or, over HTTP, fails for good |
| McpHistories.EachDeathCountsOnce | packages/mcp-host/src/client-stdio.ts:170-185 | The number of deaths grows by one at each of them and at no other event |
| McpHistories.HttpReportsTheFirstDeath | packages/mcp-host/src/client-http.ts:115-184 | The first death on a history is delivered with its reason to the latest listener registered before it, or else the first after it, and nothing else ever is |
| McpHistories.HttpIsSilentWithoutDeath | packages/mcp-host/src/client-http.ts:145-184 | A history without a death delivers nothing |
| McpHistories.StdioReportsEachDeath | packages/mcp-host/src/client-stdio.ts:119-185 | Over stdio an event adds to what is delivered exactly this: a death its reason, to the latest listener, or the first registration the reason of the last death so far |
| McpHistories.StderrIsTheLast4096 | packages/mcp-host/src/client-stdio.ts:206-211 | However it arrives in chunks, what is kept of stderr is its last 4096 characters |
| ConnectionManager.NextKeepsInv | packages/mcp-host/src/connection-manager.ts:176-292 | Every run-to-await segment keeps: clients belong to the attempt that made them, and a connected entry's client is open, watched and listed its tools |
| ConnectionManager.ResolvedPairsAClientWithItsTools | packages/mcp-host/src/connection-manager.ts:131-149 | In every run `resolved` returns an open client with the tools that client listed, and a name is enabled exactly when a listed tool has it, the allow-list is absent or has it, and the deny-list is absent or has it not |
| ConnectionManager.EnabledNamesAreAllowed | packages/mcp-host/src/connection-manager.ts:400-413 | The filter on the configuration's two lists, name by name |
| ConnectionAttempts.NextStaysSuperseded | packages/mcp-host/src/connection-manager.ts:363-365 | Attempt numbers only grow and entries that left the map stay out, so no step makes a superseded attempt current again |
| ConnectionAttempts.SupersededAttemptsNeverShow | packages/mcp-host/src/connection-manager.ts:236-289 | It stays superseded along every run, and every event of a superseded attempt, or of its client, leaves each status, tools, enabled names, error, the map and what has been emitted as they are |
| ConnectionLeaks.NextKeepsNoLeak | packages/mcp-host/src/connection-manager.ts:195-266 | Every step keeps each open client owned by its entry or by an unfinished task |
| ConnectionLeaks.NoClientLeaks | packages/mcp-host/src/connection-manager.ts:195-266 | At quiescence every client is closed but that of each connected entry in the map |
| ConnectionLeaks.ShutdownClosesEveryClient | packages/mcp-host/src/connection-manager.ts:214-219 | After shutdown, once attempts in flight have settled, every client ever created is closed |
| ConnectionLeaks.DeathFailsTheEntry | packages/mcp-host/src/connection-manager.ts:268-288 | The death of a watched open client fails exactly its own entry, drops and closes the client, and tells the listeners |
| ConnectionLeaks.EarlyDeathFailsTheEntry | packages/mcp-host/src/connection-manager.ts:241-244 | A death between the end of the handshake and the end of the attempt is replayed when the attempt finishes: the entry ends failed, its client closed |
| ConnectionOutcomes.NextSettles | packages/mcp-host/src/connection-manager.ts:176-292 | Every step keeps status, error, tools and client of each entry consistent, and a pending entry in the map has an attempt that will decide it |
| ConnectionOutcomes.EveryServerSettles | packages/mcp-host/src/connection-manager.ts:221-266 | At quiescence no server is pending; each is disabled, failed or waiting for login with the matching error and no client, or connected and resolved |
| ConnectionOutcomes.FailureIsClassified | packages/mcp-host/src/connection-manager.ts:245-264 | A current attempt that fails asks for a login exactly when the answer was unauthorized and the server can be logged in to; its client is dropped and closed |
| ConnectionSteps.CallsGoOn | packages/mcp-host/src/connection-manager.ts:205-266 | A call that waits for a close, for the end of its race or for a report can go on, and no other can |
| ConnectionSteps.RacesCanBeLost | packages/mcp-host/src/connection-manager.ts:231-245 | While a call connects it can fail, which leaves the client to the call, or time out, which closes it |
| ConnectionSteps.RacesAreWonInOrder | packages/mcp-host/src/connection-manager.ts:231-236 | The handshake of an open client completes, then the client lists its tools |
| ConnectionSteps.RequestsAreAccepted | packages/mcp-host/src/connection-manager.ts:176-219 | Adding and shutting down are always possible, reconnecting exactly for a known, enabled server, which gets a new attempt that waits for the old client's close |
| ConnectionSteps.CallsEnd | packages/mcp-host/src/connection-manager.ts:195-266 | However calls overlap, each takes at most four steps of its own, and after as many as it has left it has ended |
| ConnectionSteps.CanComeToRest | packages/mcp-host/src/connection-manager.ts:195-266 | From every state some continuation leads to one with nothing in flight |
| ConnectionManager.ViewsCountWhatIsResolved | packages/mcp-host/src/connection-manager.ts:387-398 | What is shown of a server is its own name, status and error, and as many tools as `resolved` hands out, none unless it is connected |
| ConnectionNews.ListenersEndUpInformed | packages/mcp-host/src/connection-manager.ts:265-266 | At quiescence the last view emitted for each server is how it stands |
| ConnectionManagerClass.McpConnectionManager.ConnectAllNow | packages/mcp-host/src/connection-manager.ts:176-193 | The loop, which allocates an entry object for each server and a client object for each attempt, is the run that adds each server in turn |
| ConnectionManagerClass.McpConnectionManager.Reconnect | packages/mcp-host/src/connection-manager.ts:195-205 | Unknown and disabled servers are refused, each with its own error and without a change; otherwise the heap moves as the event says |
| ConnectionManagerClass.McpConnectionManager.ResumeReconnect | packages/mcp-host/src/connection-manager.ts:205-212 | After the close is awaited, a superseded attempt does nothing and a current one starts over |
| ConnectionManagerClass.McpConnectionManager.ResumeDiscovered | packages/mcp-host/src/connection-manager.ts:231-266 | After a won race the updates of entry and client objects are the event of the machine, whoever else has moved on |
| ConnectionManagerClass.McpConnectionManager.ResumeBroken | packages/mcp-host/src/connection-manager.ts:245-264 | The same after a lost race |
| ConnectionManagerClass.McpConnectionManager.TransportDies | packages/mcp-host/src/connection-manager.ts:268-288 | The same for the listener of a dying client, which compares attempt and client by reference |
| ConnectionManagerClass.McpConnectionManager.ShutdownAll | packages/mcp-host/src/connection-manager.ts:214-219 | Clearing the map and closing entry by entry, in any order, is the one-step shutdown: no entry it held keeps a client, and every client one of them had is closed |
| ConnectionManagerClass.McpConnectionManager.Resolved | packages/mcp-host/src/connection-manager.ts:131-149 | The method returns exactly when the machine does, and then the very client object of the entry, open, with what that client listed and exactly the names the two lists allow |
| ConnectionManagerClass.McpConnectionManager.OpenClientsAreOwned | packages/mcp-host/src/connection-manager.ts:195-266 | On the heap too: with nothing in flight every client object is closed or is the client of a connected entry in the map |
| ConnectionManagerClass.McpConnectionManager.ListenersSeeTheEntries | packages/mcp-host/src/connection-manager.ts:265-266 | With nothing in flight the last view emitted for a name is how its entry object looks |
| ManagedClients.NextKeepsCoupled | packages/mcp-host/src/connection-manager.ts:221-288 | Every segment of the manager and every signal of a transport keeps manager and clients in agreement about who is ready, closed, watched and dead |
| ManagedClients.DeathIsDeliveredExactlyOnce | packages/mcp-host/src/client-stdio.ts:119-185 | Over both transports, in every run, a client has delivered its death once if its live transport died and it has a listener, and nothing otherwise |
| ManagedClients.SignalsAreNeverBlocked | packages/mcp-host/src/client-http.ts:145-173 | In every reachable state a transport may signal anything |
| ManagedClients.SegmentsAreNeverBlocked | packages/mcp-host/src/connection-manager.ts:176-292 | Whatever the manager can do by itself it can do in every reachable state of the whole |
| ManagedClients.SignalReachesItsClient | packages/mcp-host/src/client-http.ts:145-184 | A signal is handled by its own client and no other; it counts as a death, and a client the manager listens to is then closed, exactly when that client takes it for one; otherwise the manager stays as it is |
| ManagedClients.FailedConnectEndsTheHandshake | packages/mcp-host/src/client-http.ts:90-95 | A connect that fails before the client is ready ends its handshake |
| ManagedClients.LateHandshakesEnd | packages/mcp-host/src/client-http.ts:96-99 | A handshake may end after a close, and then neither makes the client ready nor changes the manager |
| ManagedClients.ClientsHaveHistories | packages/mcp-host/src/client-stdio.ts:119-185 | In every run each client of the manager is what a history of calls and signals has made of it, and its deaths are those of that history |
| ManagedClients.DeliveryFailsTheEntry | packages/mcp-host/src/connection-manager.ts:273-287 | The delivery fails the entry of that client, drops and closes the client and tells the status listeners |
| ManagedClients.EarlyDeathFailsTheEntry | packages/mcp-host/src/connection-manager.ts:241-244 | A death after the handshake and before the attempt has finished is delivered then, and fails the entry |
| ManagedClients.ConnectedMeansAlive | packages/mcp-host/src/connection-manager.ts:268-288 | A server shown as connected never has a client whose transport has died |
| ManagedClients.SignalsBeforeReadyAreDropped | packages/mcp-host/src/client-http.ts:149-168 | A signal before the handshake has ended changes nothing the manager sees |
| Streaming.Accumulator.MergeInPlace | packages/kosong/src/message.ts:141-172 | The target becomes the merged part exactly when the two merge, and is unchanged otherwise |
| Streaming.Generate | packages/kosong/src/generate.ts:114-184 | The loop with its pending slot and index map computes the fold over the stream and its verdict; when every indexed delta has a header, each call of the message carries its header's id, name and extras and the arguments that belong to it |
| Streaming.FlushStores | packages/kosong/src/generate.ts:252-277 | Flushing leaves one stored call for each header so far, with exactly the arguments that belong to it, and every index leading to its latest header |
| Streaming.FlushKeepsAtoms | packages/kosong/src/generate.ts:252-277 | Flushing moves the atoms of the pending part behind those already stored and loses none |
| Streaming.ToolCallRoutingIsExact | packages/kosong/src/generate.ts:123-157 | Stored calls are the headers in order; the arguments of each are its header's followed, in stream order, by exactly the deltas that belong to it |
| Streaming.StoredCallsCarryTheirHeaders | packages/kosong/src/generate.ts:123-157 | Field by field: the r-th stored call has the id, name and extras of the r-th header, and as arguments the header's own joined with the deltas that belong to it |
| Streaming.ContentGroupingIsExact | packages/kosong/src/generate.ts:147-165 | Stored content is the stream's content joined exactly where neighbours belong together; routed deltas do not come between |
| Streaming.ContentIsConserved | packages/kosong/src/message.ts:141-172 | Every character of text and thinking, every signature and media part is stored once, in order, and nothing else |
| Streaming.VerdictDependsOnTheStream | packages/kosong/src/generate.ts:166-184 | Empty, thinking-only or accepted is decided by what kinds of parts the stream has and by whether a text holds a character that is not white space |
| Streaming.AcceptPieces | packages/kosong/src/message.ts:141-172 | Two pieces of a part leave the state the whole part leaves |
| Streaming.RechunkingChangesNothing | packages/kosong/src/generate.ts:114-184 | Cutting text, thinking or arguments into pieces changes neither message nor verdict |
| LineDiff.NoMatchingIsLonger | packages/code-review/src/wasm-diff.ts:107-116 | No common subsequence is longer than the table entry |
| LineDiff.TracebackSpendsTheTable | packages/code-review/src/wasm-diff.ts:118-137 | The traceback yields pairs increasing in both coordinates and equal at every pair, as many as the table says |
| LineDiff.TracebackIsOptimal | packages/code-review/src/wasm-diff.ts:102-138 | The traceback is a longest common subsequence |
| LineDiff.FillTable | packages/code-review/src/wasm-diff.ts:107-116 | The loops fill the array with the recurrence's values |
| LineDiff.LongestCommonSubsequence | packages/code-review/src/wasm-diff.ts:102-138 | The method returns a common subsequence that none exceeds |
| LineDiff.KeptPairsMatch | packages/code-review/src/wasm-diff.ts:78-90 | The kept lines of any edit script are a common subsequence, and every other line is a change |
| LineDiff.DiffScriptIsMinimal | packages/code-review/src/wasm-diff.ts:70-100 | The printed script turns the old lines into the new with m + n - 2 LCS changes, and no script has fewer |
| LineDiff.SplitGivesLines | packages/code-review/src/wasm-diff.ts:71-72 | Splitting at newlines gives lines that join back to the text |
| LineDiff.DiffUndoesBothWays | packages/code-review/src/wasm-diff.ts:70-100 | Blank and `-` lines rebuild the old text, blank and `+` lines the new one, and the changed lines are as few as possible |
| LineDiff.OldLinesArePrintedFirst | packages/code-review/src/wasm-diff.ts:75-99 | Where lines are replaced the old ones are printed first: no `+` line stands right before a `-` line |
| LineDiff.PrintScript | packages/code-review/src/wasm-diff.ts:75-99 | The printing loops with their cursors produce the rendered script |
| LineDiff.ComputeTextDiff | packages/code-review/src/wasm-diff.ts:70-100 | The method returns a text that undoes both ways |
| GlobWalk.WalkIsExact | packages/kaos/src/local.ts:290-396 | On any directory graph whose cycles have a directory with an inode, a path is yielded exactly when the pattern selects it and it enters no such directory twice |
| GlobWalk.YieldedPathsAreBounded | packages/kaos/src/local.ts:270-289 | Where every directory has an inode, a yielded path is at most one longer than the number of directories not yet visited |
| GlobWalk.GlobYieldsWhatIsSelected | packages/kaos/src/local.ts:245-269 | On an acyclic graph, with or without inodes, the walk ends and a glob yields exactly the selected paths |
| GlobChains.GlobFollowsChains | packages/kaos/src/local.ts:245-396 | A glob yields a path exactly when its names lead from one readable directory to the next along entries, match the pattern, and never enter a directory whose device and nonzero inode were met before; directories with inode 0 never block each other |
| GlobRanks.GroundedUnlessBareCycle | packages/kaos/src/local.ts:25-38 | The walk has a rank to descend by exactly when every cycle of directories has one with an inode |
| GlobRanks.RanksDoNotShow | packages/kaos/src/local.ts:290-396 | Any two ranks give the same paths in the same order |
| GlobWalk.WalkYieldsOnce | packages/kaos/src/local.ts:300-396 | With at most one `**` no path is yielded twice |
| GlobWalk.YieldedByLiteral | packages/kaos/src/local.ts:355-394 | What a literal part asks of the first name, stated on the selection relation |
| GlobWalk.YieldedByStars | packages/kaos/src/local.ts:304-354 | What `**` offers: no name, one more directory, or a last file |
| GlobWalk.NothingRepeats | packages/kaos/src/local.ts:339-346 | Without cycles the visited set cuts nothing |
| GlobWalk.WalksAgree | packages/kaos/src/ssh.ts:613-684 | Without symbolic links, with or without inodes, the SSH walk yields the same paths in the same order |
| GlobWalk.GlobsAgree | packages/kaos/src/ssh.ts:598-684 | The same for whole globs |
| GlobWalk.AllButDots | packages/kaos/src/ssh.ts:652 | Of a remote listing only the entries `.` and `..` are left out |
| ShellCommand.ScanQuoted | packages/kaos/src/ssh.ts:114-120 | The tokenizer reads a quoted text as one word or the rest of one |
| ShellCommand.QuotingIsUndone | packages/kaos/src/ssh.ts:114-120 | Quote removal gives back every quoted text |
| ShellCommand.AssignmentIsUndone | packages/kaos/src/ssh.ts:881 | An assignment is read as name, `=` and value |
| ShellCommand.BareExactlyWhenPlain | packages/kaos/src/ssh.ts:114-120 | An argument goes out unquoted exactly when it is not empty and consists of letters, digits and `_./:=@%^,+-` |
| ShellCommand.NamesAreShellNames | packages/kaos/src/ssh.ts:876 | A variable name is accepted exactly when it consists of letters, digits and underscores and starts with no digit |
| ShellCommand.LineIsTokenized | packages/kaos/src/ssh.ts:864-893 | Token recognition, which stops at any unquoted expansion, gives `cd`, the quoted directory and one `&&`, each assignment, then each quoted argument |
| ShellCommand.CommandLineRoundTrip | packages/kaos/src/ssh.ts:864-893 | No part of the line is open to expansion, and after quote removal the shell sees exactly the directory, the settings and the arguments |
| ShellCommand.EnvironmentIsTakenExactly | packages/kaos/src/ssh.ts:866-886 | The shell takes the environment for assignments, all of it and nothing more, exactly when the first argument does not go out bare in the form `NAME=...` |
| ShellCommand.CommandTakenForAssignment | packages/kaos/src/ssh.ts:866 | Such an argument is taken for an assignment instead of a command |
| ShellCommand.PushAssignments | packages/kaos/src/ssh.ts:872-883 | Assignments are built up to the first invalid name |
| ShellCommand.BuildExecCommand | packages/kaos/src/ssh.ts:864-893 | The first invalid name is refused; otherwise the line means what was intended |
| TextDecoders.EncodingHasPattern | packages/kaos/src/internal.ts:3-82 | Every encoding matches the decoder's byte patterns (section 4 of RFC 3629) and stands for its character |
| TextDecoders.PatternEncodes | packages/kaos/src/internal.ts:14-75 | Conversely, bytes that match a pattern are the encoding of the scalar value computed from them |
| TextDecoders.CharIsUnique | packages/kaos/src/internal.ts:7-121 | What a byte string starts with is unique, in either encoding |
| TextDecoders.DecodeUtf8Ignore | packages/kaos/src/internal.ts:7-82 | The loop computes the reference decoding: read a character wherever one is encoded, else drop one byte |
| TextDecoders.DecodeUtf16LeIgnore | packages/kaos/src/internal.ts:84-121 | The same with units of two bytes |
| TextDecoders.EncodingHasUnits | packages/kaos/src/internal.ts:93-117 | A UTF-16LE encoding is one non-surrogate unit or a high and a low surrogate (section 2.2 of RFC 2781) |
| TextDecoders.UnitsEncode | packages/kaos/src/internal.ts:93-117 | Conversely, such units encode the scalar value computed from them |
| TextDecoders.DecodingInvertsEncoding | packages/kaos/src/internal.ts:7-121 | Encoded text followed by any bytes decodes to the text, then the decoding of those bytes |
| TextDecoders.DecodedTextIsScalar | packages/kaos/src/internal.ts:7-121 | Every emitted code point is a scalar value |
| TextDecoders.ReencodingIsASubsequence | packages/kaos/src/internal.ts:7-121 | The output re-encoded is the input with bytes left out |
| TextDecoders.StrayByteIsDropped | packages/kaos/src/internal.ts:23-79 | One byte of 0x80 or more between two valid encodings is dropped |
| TextDecoders.UnpairedSurrogateIsDropped | packages/kaos/src/internal.ts:95-114 | A surrogate between two valid encodings is dropped |
| TextDecoders.OddLastByteIsDropped | packages/kaos/src/internal.ts:88 | A last odd byte is dropped |
| ImpactAnalyzer.BuildReverseGraph | packages/e2e-testing/src/recursive-impact-analyzer.ts:333-364 | A file is recorded under a target exactly when it is a source file that imports that source file |
| ImpactAnalyzer.Expand | packages/e2e-testing/src/recursive-impact-analyzer.ts:283-293 | One level adds exactly the dependents of the frontier that are new, each once |
| ImpactAnalyzer.SearchWidens | packages/e2e-testing/src/recursive-impact-analyzer.ts:281-294 | After each level the affected files are exactly those within that depth, and only the frontier may have unseen dependents |
| ImpactAnalyzer.NothingLost | packages/e2e-testing/src/recursive-impact-analyzer.ts:282 | Stopping on an empty frontier is complete for every larger depth |
| ImpactAnalyzer.Analyze | packages/e2e-testing/src/recursive-impact-analyzer.ts:269-297 | The result is strictly sorted and holds exactly the files reached from a changed source file over at most maxDepth reverse imports |
| ImpactAnalyzer.DeeperExtends | packages/e2e-testing/src/recursive-impact-analyzer.ts:269-297 | The result at a smaller depth is a subsequence of the result at a larger one, and the result at one depth is unique |
| ImpactAnalyzer.GrowthStopsForGood | packages/e2e-testing/src/recursive-impact-analyzer.ts:282 | When one level more reports nothing new, no larger depth ever does |
| ImpactAnalyzer.ShortChainSuffices | packages/e2e-testing/src/recursive-impact-analyzer.ts:281-294 | An affected file is reached by a chain no longer than the number of files |
| ImpactAnalyzer.DepthOfFileCountIsClosure | packages/e2e-testing/src/recursive-impact-analyzer.ts:281-294 | At a depth of the file count the result is the full closure |
| ImpactAnalyzer.SortSorts | packages/e2e-testing/src/recursive-impact-analyzer.ts:296 | Sorting different names puts them in strict order |
| ImpactAnalyzer.BeforeAscends | packages/e2e-testing/src/recursive-impact-analyzer.ts:296 | The order is ascending by the first character in which two names differ, or by length where one begins the other |
| Telemetry.AsyncTransport.SendHttp | packages/telemetry/src/transport.ts:171-210 | Which requests an attempt makes (again without credentials after a 401), and that it serves the batch exactly when the reply to the last one has a status below 500 other than 429 |
| Telemetry.AsyncTransport.Send | packages/telemetry/src/transport.ts:64-110 | A buildable batch is served once or saved once, never both; it is served at the first attempt whose reply accepts it if all before it may pass and every sleep ends, and saved after backoffs + 1 attempts if none does |
| Telemetry.CredentialsAreTriedOnce | packages/telemetry/src/transport.ts:172-188 | The first request carries credentials when there are any, and a second one, without, follows exactly a 401 to that |
| Telemetry.ServedExactlyWhenAccepted | packages/telemetry/src/transport.ts:279-282 | On statuses: an attempt serves the batch exactly when the reply to its last request has a status below 500 other than 429 |
| Telemetry.RetriedExactlyWhenItMayPass | packages/telemetry/src/transport.ts:85-101 | Another attempt follows exactly a status of 500 or more, a 429, a request that failed, or an error that is transient already, without an abort and when the sleep ends |
| Telemetry.RethrownExactlyWhenAborted | packages/telemetry/src/transport.ts:89-107 | The send rejects exactly when the signal was aborted as its last attempt failed, that attempt raised an abort, or an abort broke the sleep |
| Telemetry.BuildableExactlyWhenFlat | packages/telemetry/src/transport.ts:76-80 | A batch can be built exactly when every event in it is flat |
| Telemetry.EventSink.Accept | packages/telemetry/src/sink.ts:47-56 | The event joins the buffer; a full buffer is swapped out whole and handed over after all earlier ones |
| Telemetry.EventSink.Flush | packages/telemetry/src/sink.ts:80-97 | Either flush hands over what waits, once and in order, and leaves nothing waiting |
| Telemetry.EventSink.ClearBuffer | packages/telemetry/src/sink.ts:76-78 | Exactly the waiting events are forgotten |
| TelemetryRuns.CatchSettlesOnce | packages/telemetry/src/transport.ts:67-109 | Whichever catch blocks an error passes through, the batch is written at most once, and only an abort is rethrown |
| TelemetryRuns.NextKeepsSends | packages/telemetry/src/transport.ts:64-110 | Every step of sink or transport keeps every send served or saved and not both, and within its attempts |
| TelemetryRuns.NothingIsLostOrSentTwice | packages/telemetry/src/sink.ts:47-97 | At every moment of every run an event accepted and not cleared is served, on disk, discarded as unbuildable, in flight or waiting, with multiplicity |
| TelemetryRuns.EverythingArrives | packages/telemetry/src/sink.ts:80-85 | Once nothing is in flight every event of buildable batches is served, on disk or waiting |
| TelemetryRuns.HandedOverInOrder | packages/telemetry/src/sink.ts:47-56 | What has been handed over, in order, and then the buffer, is what was accepted and not cleared |
| TelemetryRuns.SinkStepsDecide | packages/telemetry/src/sink.ts:47-97 | At any time an accepted event waits unless it fills the buffer, a flush hands over all that waits, the synchronous one writes it to disk, and clearing forgets what waits and nothing else |
| TelemetryRuns.EverySendEndsOneWay | packages/telemetry/src/transport.ts:64-110 | A send that has ended was served, saved or discarded, only an unbuildable batch is discarded, and a rejection means it was saved |
| TelemetryRuns.ServedExactlyByAcceptedReplies | packages/telemetry/src/transport.ts:85-88 | In every run a send counts as served exactly when one of its attempts met a last reply with a status below 500 other than 429 |
| TelemetryRuns.TurnedAwayIsSaved | packages/telemetry/src/transport.ts:85-109 | A send whose attempts all meet a status of 500 or more or 429, and whose sleeps all end, makes backoffs + 1 attempts and then saves its batch, whatever others do |
| TelemetryRuns.SendsEnd | packages/telemetry/src/transport.ts:85-101 | A send makes at most two steps per backoff and one more, however others interleave |
| TelemetryRuns.SendsAreNeverStuck | packages/telemetry/src/transport.ts:85-101 | A send that has not ended always has a step of its own |
| TelemetryRuns.MachineFollowsSend | packages/telemetry/src/transport.ts:64-110 | A send of the machine driven by a script ends as the contract of the imperative loop says: after the same attempt, with the same error, served or saved |

## Left out

- Real input and output: HTTP, SFTP and SSH channels, the MCP SDK, file locks, child processes, the WASM diff. They appear as events, scripts or parameters; a lock is a mutex (no staleness breaking) and a storage save is atomic.
- `login` and `logout` while a refresh is running: both touch storage outside the lock, and the refresh theorems are about refresh-only runs. The `missing` branch after the lock is modelled but not reached in such runs.
- RefreshProtocol states its protocol on values, since the steps of several processes interleave; the process that runs a call has no object of its own.
- ConnectionManagerClass: an asynchronous call is cut at its awaits, and a continuation gets its local variables as arguments; which continuations are outstanding is history.
- RefreshProtocol: one call posts at most three times, the default; the pauses between posts take no step.
- RefreshProtocol.EachVersionIsSpentOnce: for runs without lost answers and failed saves; `SpentAgainIffAnswersWereLost` covers the others.
- RefreshProtocol.NoRaceEverRevokesALiveToken: needs answers to arrive and saves to succeed, since a rotation that cannot be saved loses the live token.
- RefreshCoalescer.OneRefreshAtATime: a run counts as under way until its cleanup hook has run, one turn of the event loop after it settled.
- DeviceLogin.Login: `StillPolling` stands for a run whose script of turns ends first; the interval and the clock are whole seconds; a failing save is not modelled.
- McpClients.StdioDeliversOncePerClose: for a client by itself, needs a single close signal, because the stdio client has no latch; under the manager no such proviso is needed.
- McpClients.HttpDeliversIffDead: a signal before the handshake has completed is no death: the hooks drop it, and the failure surfaces through `connect()`.
- ManagedClients: names are added once, and each client has the manager as its one listener.
- ConnectionLeaks.NoClientLeaks: names are added once; adding a name again replaces its entry without closing the old client.
- ConnectionManager: an attempt whose close is awaited is one event, listeners do not call back, and error texts stand for their kind.
- Streaming.ToolCallRoutingIsExact: every indexed delta follows a header with its index; the documented safety net for other deltas is modelled in `Generate`, not specified.
- Streaming: abort checks, callbacks, usage and finish reasons.
- LineDiff: hunks and the WASM implementation; lines that are `undefined` cannot occur.
- GlobWalk.WalkIsExact: a cycle of directories that all have inode 0 is excluded, since the source tracks none of them and descends without end; `rank` is a witness that there is none (`GlobRanks`). Names are unique within a directory, matching one segment is a parameter, and joining paths is appending names.
- ShellCommand.CommandLineRoundTrip: tokens, not grammar; a first argument that is a reserved word is read as such by a shell. Texts hold no NUL. Expansions are those of POSIX: no braces, no history.
- ShellCommand: in the tokenizer an expansion is a dead end, as no built line holds one unquoted; reserved words and aliases are not recognised.
- TextDecoders: other modes and encodings of the text helpers; masks and shifts are written as arithmetic, and text is code points where the source builds UTF-16 strings.
- ImpactAnalyzer: collecting files, extracting and resolving imports; a fractional depth; characters stand for UTF-16 code units.
- Telemetry.AsyncTransport.Send: disk writes succeed; the script of replies is arbitrary, so it also covers abort signals that come and go.
- TelemetryRuns: the same; the sink's three kinds of flush differ only in who calls them and with which signal.
- Telemetry: replaying saved files, payload flattening, timers and the event context, which would add only easy members.
- Terminal interfaces, command-line runners, configuration schemas, prompts, catalogs and provider tables: plumbing.
