# RDP broker and recording agent: a verified model

This project models the parts of the RDP broker (`proxy/`) and of its recording agent (`agent/`)
where several goroutines, several functions or several programs have to agree, and proves what
they keep. `dafny verify dfyconfig.toml` checks all of it (Dafny 4.11).

| files | what they model |
|---|---|
| `Broker.dfy`, `BrokerInvariant.dfy`, `BrokerTheorems.dfy`, `BrokerCalls.dfy`, `BrokerClients.dfy`, `BrokerSolo.dfy`, `BrokerRuns.dfy`, `BrokerLimit.dfy` | the session lifecycle as a transition system: creators, terminators, monitors, Shutdown and connection handlers, interleaved at every lock region |
| `PortPool.dfy`, `Token.dfy` | the port pool and the one-time token as classes; the transition system uses their specifications |
| `Manager.dfy`, `Access.dfy` | the session manager, the ACL store and the API handlers as classes, for calls that do not overlap |
| `AccessRace.dfy` | grants, revocations and creations that overlap |
| `Gatekeeper.dfy` | the connection list as a slice over a backing array, and Stop against accept loop and handlers |
| `Cookie.dfy`, `RdpFile.dfy`, `X224.dfy`, `ClientIp.dfy` | the routing cookie from the .rdp file to the first packet (section 6 of RFC 1006; MS-RDPBCGR 2.2.1.1), and the two readings of a client address |
| `Playlist.dfy`, `PlaylistReader.dfy`, `Store.dfy` | the recording store, its HLS playlist, and a player that reads it (RFC 8216) |
| `Recorder.dfy`, `ChunkWatcher.dfy`, `SessionMonitor.dfy` | the agent: event buffer, chunk reporting, logon and logoff |
| `ChunkUploads.dfy` | the uploads between agent and store |
| `TokenCache.dfy` | the three-stage token exchange with its double-checked cache |
| `Text.dfy`, `Numbers.dfy`, `Wrappers.dfy` | string and number functions of the Go library, Option and Result |

Each concurrent part is a datatype of state, a datatype of actions, one function per action, and
lemmas over every run. One action is one region under a lock, or one unlocked act on shared
state. Whatever sockets, processes, the file system or the broker answer is a free choice of the
action or a parameter of the method. Fields called history variables in the comments record the
past and are tested by no step.

Where a promise does not hold of the code as it stands, the project proves exactly when it does:

- the session limit is checked and the lock dropped: `BoundedOvershoot` gives the bound, `OvershootIsReached` runs that reach it, and `LimitHoldsIffOneAtATime` the condition;
- Stop of the gatekeeper can wait for a client that gets through to the bridge after it has closed the others: `StopReturnsIffNobodyHeldUp`, with the run `LateConnectionHoldsStop`;
- a session never becomes Connected when the proxy cannot be dialled after validation: `ReportMissedOnlyByTeardown`, with the run `FailedDialSpendsToken`;
- a handler that reads late is admitted after the end of its session, and may reach another one: `StillAdmitsIff` and `AdmittedDialsOwnProxy`, with the run `LateHandlerDialsAnother`;
- a revocation misses a session whose creation it overtakes: `CoveredIffNoneOvertaken`, with the run `OvertakenCreationSlipsIn`;
- the cookie round trip fails for fields with `#`, CRLF or, in the user id, `%40`: `CookieRoundTrip` is an equivalence;
- the playlist is append-only exactly for recordings with a duration for every counted chunk: `AppendOnly`;
- a completed playlist changes when a chunk arrives after all: `CompletedStaysIffNoChunk`;
- the store numbers chunks as they arrive: `UploadsInOrderIff`, with the run `FasterUploadGoesFirst`;
- a restart reuses the number of a file when the directory cannot be listed: `RestartFreeIff`;
- every chunk is reported once and in order exactly up to 1000 chunks: `EveryChunkOnceIffThousand`, with the run `ThousandthChunkIsLost`;
- two flushers at once can reorder events: `OrderKeptIffBatchesRespected`, with the run `OverlappingFlushersReorder`.

The two readings of a client address agree on every address the Go library forms
(`HostPortReadsAsHost`); `ReadingsAgree` says for which other texts they differ.

The comment at `proxy/internal/recording/store.go:30-31` names chunk files `000.mp4`; the code
writes `000.ts`, and so does the model.

## Model

| member | source | states |
|---|---|---|
| PortPools.LowestFree | proxy/internal/session/port_pool.go:48-55 | the scan finds the lowest port of the range that is not in use, or none when all are |
| PortPools.ExhaustedIffNoneAvailable | proxy/internal/session/port_pool.go:48-83 | the scan comes back empty exactly when the counted number of available ports is not positive |
| PortPools.ReleasedPortIsReused | proxy/internal/session/port_pool.go:43-75 | a released port is the next one allocated unless a lower one is free |
| PortPools.PortPool.constructor | proxy/internal/session/port_pool.go:32-39 | a new pool has nothing in use |
| PortPools.PortPool.Allocate | proxy/internal/session/port_pool.go:43-56 | takes exactly the lowest free port and its internal partner, or fails and changes nothing |
| PortPools.PortPool.Release | proxy/internal/session/port_pool.go:61-75 | succeeds exactly on a port in use and frees only that one; both error cases |
| PortPools.PortPool.Available | proxy/internal/session/port_pool.go:78-83 | the count is positive exactly when an allocation would succeed |
| SessionTokens.Token.constructor | proxy/internal/session/token.go:33-44 | a new token is unconsumed and expires after its time to live |
| SessionTokens.Token.Validate | proxy/internal/session/token.go:85-107 | accepts exactly an unconsumed token with the right value that has not expired, and consumes it only then; says which of the three checks refused |
| SessionTokens.Token.ValidateWithoutConsume | proxy/internal/session/token.go:111-128 | gives the same answer and changes nothing |
| SessionTokens.ConsumedIffFitted | proxy/internal/session/token.go:85-107 | after any attempts the token is consumed exactly when one of them fitted it |
| SessionTokens.OnlyFirstFitPasses | proxy/internal/session/token.go:85-107 | of any sequence of attempts exactly the first fitting one passes |
| BrokerInvariant.CreateKeeps | proxy/internal/session/manager.go:125-136 | the shutdown and limit check keeps the lifecycle invariant |
| BrokerInvariant.AllocateKeeps | proxy/internal/session/manager.go:139-142 | allocation gives a port to one creator |
| BrokerInvariant.NewSessionKeeps | proxy/internal/session/manager.go:145-174 | the port passes from the creator to its session object |
| BrokerInvariant.AdvanceKeeps | proxy/internal/session/manager.go:177-253 | config, proxy, readiness and the start of the gatekeeper keep the invariant |
| BrokerInvariant.AbandonKeeps | proxy/internal/session/manager.go:177-206 | a session that nobody serves yet can be dropped, its port goes back to the creator |
| BrokerInvariant.GiveBackKeeps | proxy/internal/session/manager.go:147-205 | each failure path frees a port that is in use |
| BrokerInvariant.RegisterKeeps | proxy/internal/session/manager.go:256-259 | registration keeps map, history and phases in agreement |
| BrokerInvariant.EnterKeeps | proxy/internal/session/manager.go:277-293 | at most one caller moves a session to terminating |
| BrokerInvariant.CloseChannelKeeps | proxy/internal/session/manager.go:296 | the channel is still open when it is closed |
| BrokerInvariant.ReleasePortKeeps | proxy/internal/session/manager.go:309 | teardown frees the port of its session, which is in use |
| BrokerInvariant.FinishKeeps | proxy/internal/session/manager.go:315-321 | the session leaves the map and enters the history, where it was not |
| BrokerInvariant.ShutdownKeeps | proxy/internal/session/manager.go:416-436 | one terminator is started for each registered session |
| BrokerInvariant.PresentKeeps | proxy/internal/session/gatekeeper.go:176-198 | a connection passes only with the allowed IP, the target and an unconsumed token |
| BrokerInvariant.NotifyKeeps | proxy/internal/session/manager.go:228-235 | only an Active session becomes Connected, once |
| BrokerInvariant.StepKeeps | proxy/internal/session/manager.go:124-498 | every step of every goroutine keeps the invariant |
| BrokerInvariant.RunKeeps | proxy/internal/session/manager.go:124-498 | the invariant holds in every state of every interleaving |
| BrokerTheorems.PortsInUseAreHeld | proxy/internal/session/manager.go:138-206 | in every run a port is in use exactly when a creator or an unreleased session holds it |
| BrokerTheorems.HoldersApart | proxy/internal/session/manager.go:138-206 | in every run no two holders share a port, external or internal |
| BrokerTheorems.LivePortsDistinct | proxy/internal/session/manager.go:276-321 | sessions not yet terminating have distinct external and internal ports |
| BrokerTheorems.ReleaseNeverFails | proxy/internal/session/manager.go:276-330 | each Release call finds its port in use, and no session releases twice |
| BrokerTheorems.ClosedAtMostOnce | proxy/internal/session/manager.go:276-301 | stopMonitor is closed at most once however many terminators race |
| BrokerTheorems.OneWinner | proxy/internal/session/manager.go:285-293 | two goroutines past the first critical section for one session are the same |
| BrokerTheorems.HistoryOnce | proxy/internal/session/manager.go:315-321 | the history has no duplicates, is disjoint from the active map, and with it covers all registered sessions |
| BrokerTheorems.StepEvolves | proxy/internal/session/manager.go:228-235 | no step lowers a state, changes a fixed field, or unsets consumption, connection time or admission |
| BrokerTheorems.RunEvolves | proxy/internal/session/manager.go:124-498 | the same over any stretch of any run |
| BrokerTheorems.OneShotAdmission | proxy/internal/session/gatekeeper.go:155-225 | one connection has passed exactly when the token is consumed, and it had the right IP, target, value and time |
| BrokerTheorems.CreationBinds | proxy/internal/session/manager.go:145-174 | a session is for good what its request asked for: target, client address, token value, expiry and port; every connection admitted to it has the address of the request, its target and its token, in time |
| BrokerTheorems.OneHandlerPasses | proxy/internal/session/gatekeeper.go:188-225 | no two handlers of a session are ever past validation |
| BrokerClients.GreetingDecides | proxy/internal/session/gatekeeper.go:202-219 | the step by which the admitted connection leaves validation decides for good: the session has a connection time exactly when it was a report while the session was Active |
| BrokerClients.FileWhileServing | proxy/internal/session/manager.go:383-411 | in every run an .rdp file can be had exactly while the session is Active or Connected, and carries its token |
| BrokerClients.TokensWaitForRegistration | proxy/internal/session/manager.go:383-411 | when clients have their tokens from .rdp files, no token is consumed while its session is being made |
| BrokerClients.AdmittedFindsActive | proxy/internal/session/manager.go:228-259 | so an admitted handler finds its session Active or in teardown |
| BrokerClients.ReportMissedOnlyByTeardown | proxy/internal/session/manager.go:228-235 | so its report sets the connection time exactly when it comes before teardown |
| BrokerRuns.FailedDialSpendsToken | proxy/internal/session/gatekeeper.go:188-208 | a run, for any client, in which the proxy cannot be dialled after validation: the session is Active, its token is spent, and in no continuation does it become Connected |
| BrokerClients.StillAdmitsIff | proxy/internal/session/gatekeeper.go:155-198 | whatever has become of a session, without new handlers a client can still be admitted to it exactly when a handler is reading and the token is unused and not expired |
| BrokerRuns.LateHandlerIsAdmitted | proxy/internal/session/gatekeeper.go:120-198 | a run, for any client, in which a handler that starts after the session is over is admitted |
| BrokerRuns.LateHandlerDialsAnother | proxy/internal/session/gatekeeper.go:202-208 | a run, for any two clients, in which such a handler dials the port of another session, which is Active |
| BrokerRuns.AdmittedDialsOwnProxy | proxy/internal/session/gatekeeper.go:202-208 | until the session gives its port back, its admitted handler dials a port no other such session has |
| BrokerTheorems.LoadStep | proxy/internal/session/manager.go:125-136 | only a passed limit check adds to the sessions registered or under way |
| BrokerTheorems.BoundedOvershoot | proxy/internal/session/manager.go:131-136 | with at most k creators under way the load is at most Max - 1 + k; exact for k = 1 |
| BrokerLimit.OvershootIsReached | proxy/internal/session/manager.go:131-136 | for every limit, every k and every pool with a port, some run with at most k creators under way reaches Max - 1 + k registered sessions |
| BrokerLimit.ActiveOvershootIsReached | proxy/internal/session/manager.go:131-136 | with a port for each of them all these sessions are Active at once |
| BrokerLimit.LimitHoldsIffOneAtATime | proxy/internal/session/manager.go:131-136 | for every configuration, all runs with at most k creators under way stay within Max exactly when Max is not negative and either k <= 1 or no session can be made |
| BrokerTheorems.NothingWithoutCapacity | proxy/internal/session/manager.go:131-136 | with Max <= 0 nothing is ever registered or under way |
| BrokerTheorems.NothingWithoutPorts | proxy/internal/session/manager.go:138-142 | with an empty pool no session is ever made |
| BrokerTheorems.SnapshotFixed | proxy/internal/session/manager.go:416-422 | the ids Shutdown collected are those registered when the flag was set, for good |
| BrokerTheorems.ShutdownSweepsAll | proxy/internal/session/manager.go:414-453 | when Shutdown returns without timeout all of them are at least Terminating |
| BrokerTheorems.NoNewcomers | proxy/internal/session/manager.go:125-129 | without creators under way at the flag, nothing is registered after it |
| BrokerTheorems.ShutdownLeavesNothing | proxy/internal/session/manager.go:414-453 | and once all terminators are done the map is empty and no port is in use |
| BrokerCalls.CreateCallServes | proxy/internal/session/manager.go:124-273 | the actions of an uninterrupted CreateSession, with room and a free port, add exactly the Active and watched session that was asked for, on the lowest free port |
| BrokerCalls.FailingCallLeavesNoTrace | proxy/internal/session/manager.go:138-206 | the actions of one that fails on any of the five paths behind the allocation change nothing but that the call is over |
| BrokerCalls.TerminateCallEndsSession | proxy/internal/session/manager.go:276-330 | the actions of an uninterrupted TerminateSession end exactly its session, free exactly its port and file it once |
| BrokerCalls.EverySessionIsWatched | proxy/internal/session/manager.go:460-498 | in every run each Active or Connected session has the goroutine that made it at its monitor, or about to start it, or about to end the session |
| BrokerCalls.DroppedConnectionLeavesNoTrace | proxy/internal/session/gatekeeper.go:155-208 | a handler that cannot read or go on leaves everything as it was |
| SessionManager.Manager.constructor | proxy/internal/session/manager.go:91-120 | a new manager has no sessions |
| SessionManager.Manager.CreateSession | proxy/internal/session/manager.go:124-273 | creates exactly one Active session on the lowest free port or changes nothing; when it fails, and for which reason |
| SessionManager.Manager.Build | proxy/internal/session/manager.go:138-273 | the same past the limit check, for all failure paths |
| SessionManager.Manager.Register | proxy/internal/session/manager.go:256-259 | registration of a session on a port nobody has |
| SessionManager.Manager.TerminateSession | proxy/internal/session/manager.go:276-330 | moves exactly the named session to the history and frees exactly its port |
| SessionManager.Manager.ListSessions | proxy/internal/session/manager.go:362-381 | lists each active session the filter names once, then those of the history in its order, and no other |
| SessionManager.MatchesUserIff | proxy/internal/session/manager.go:348-359 | a filter selects exactly the sessions of the user it names, by the whole of it or by what stands before its first @, in any spelling |
| Text.LowerCharFolds | proxy/internal/acl/store.go:238-240 | each capital folds to its own small letter and nothing else changes |
| SessionManager.Manager.Shutdown | proxy/internal/session/manager.go:414-453 | moves every session to the history once, and leaves no session and no port in use |
| Cookies.DecodeEncode | proxy/internal/session/rdp_file.go:45 | decoding an encoded user id is decoding the user id |
| Cookies.EncodeHidesAt | proxy/internal/session/rdp_file.go:43-45 | no @ is left in the printed user id |
| Cookies.UserIDSurvives | proxy/internal/session/gatekeeper.go:393-394 | the user id comes back exactly when it contains no %40 |
| Cookies.ParsePrinted | proxy/internal/session/gatekeeper.go:366-385 | the value read is the printed one up to its first CRLF |
| Cookies.ReadBackIsWhole | proxy/internal/session/gatekeeper.go:387-407 | a prefix of the printed value that reads as the three fields is all of it |
| Cookies.CookieRoundTrip | proxy/internal/session/gatekeeper.go:366-408 | the printed cookie, with any bytes after it, reads back as the same fields exactly when they are printable |
| Cookies.ReadsIffHolds | proxy/internal/session/gatekeeper.go:366-408 | for any data the reader returns a cookie exactly when the data holds it: behind the first prefix, up to the first CRLF, three non-empty fields |
| Cookies.RefusalsMean | proxy/internal/session/gatekeeper.go:375-385 | which data are refused for want of a CRLF or of a value |
| Cookies.PartsAreCounted | proxy/internal/session/gatekeeper.go:388-400 | which values are refused for the number of parts, and which for an empty field |
| RdpFile.SettingAt | proxy/internal/session/rdp_file.go:110-113 | a setting stands whole in the joined file |
| RdpFile.FileCarriesCookie | proxy/internal/session/rdp_file.go:41-114 | the file has the loadbalanceinfo line, and its value reads back exactly when printable |
| RdpFile.FileBegins | proxy/internal/session/rdp_file.go:54-59 | the file begins with address and port, the compound name and the domain, each on its line |
| RdpFile.FileEnds | proxy/internal/session/rdp_file.go:61-111 | behind the cookie come the settings, the four that concern security first |
| X224.ReadersAgree | proxy/internal/session/gatekeeper.go:240-363 | the strict reader accepts p exactly when the lenient one returns p with a cookie and the type nibble is CR |
| X224.PacketIsFramedPrefix | proxy/internal/session/gatekeeper.go:313-363 | the lenient reader accepts exactly well-framed streams and returns the prefix the length field announces |
| X224.RefusalsMean | proxy/internal/session/gatekeeper.go:240-360 | which streams each reader refuses for their framing, told from the bytes that came, the version and the length field |
| X224.CookieIsFrom | proxy/internal/session/gatekeeper.go:340-360 | the lenient reader takes the cookie from the twelfth byte of the packet on, if there is one |
| X224.BadCookieIsFrom | proxy/internal/session/gatekeeper.go:280-304 | the strict reader refuses a connection request for its cookie exactly as that part is refused |
| X224.GatekeeperReadsWhatTheFilePrints | proxy/internal/session/gatekeeper.go:155-172 | the reader that the connection handler calls returns a packet carrying the printed cookie whole, and its fields exactly when they are printable |
| X224.StrictReaderReadsIt | proxy/internal/session/gatekeeper.go:240-303 | the strict reader does so exactly when they are printable and the header is that of a connection request |
| X224.Conn.ReadFull | proxy/internal/session/gatekeeper.go:248 | fills the buffer from the stream or fails when the stream ends first |
| X224.Copy | proxy/internal/session/gatekeeper.go:292-293 | copies one buffer into another at an offset and leaves the rest |
| X224.Assemble | proxy/internal/session/gatekeeper.go:290-293 | header and body in one buffer |
| X224.ReadAndParse | proxy/internal/session/gatekeeper.go:240-303 | the buffer-filling reader computes the strict answer and consumes exactly the packet |
| X224.ReadPacket | proxy/internal/session/gatekeeper.go:307-363 | the buffer-filling reader computes the lenient answer and consumes exactly the packet |
| ClientIp.ReadingsAgree | proxy/internal/session/gatekeeper.go:439-448 | the two readings of any address agree unless it has a colon and a bracketed host not closed right before the last one |
| ClientIp.HostPortReadsAsHost | proxy/internal/api/sessions.go:322-334 | host:port and [host]:port read as host in both places |
| ClientIp.BareReadsAsItself | proxy/internal/api/sessions.go:322-334 | an address without a port is read as it stands, in both places |
| ClientIp.ForwardedHostBinds | proxy/internal/api/sessions.go:312-318 | a session requested with a forwarding header admits connections from the first host in it and from no other |
| ClientIp.RealIPBinds | proxy/internal/api/sessions.go:318-321 | with only X-Real-IP it admits connections from the host named there and from no other |
| ClientIp.PeerHostBinds | proxy/internal/api/sessions.go:323-336 | without forwarding headers it admits connections from the host that sent the request and from no other |
| ClientIp.UnboundIffBlank | proxy/internal/api/sessions.go:310-337 | the session is bound to no address exactly when the deciding part of the request is blank |
| Gatekeepers.RemoveFirst | proxy/internal/session/gatekeeper.go:228-237 | removal takes out one occurrence |
| Gatekeepers.RemoveFirstAt | proxy/internal/session/gatekeeper.go:231-235 | what the slice expression leaves is that list |
| Gatekeepers.Gatekeeper.constructor | proxy/internal/session/gatekeeper.go:78-88 | a new gatekeeper tracks nothing |
| Gatekeepers.Gatekeeper.Track | proxy/internal/session/gatekeeper.go:120-122 | append adds at the end and never writes an array Stop holds |
| Gatekeepers.Gatekeeper.ShiftDown | proxy/internal/session/gatekeeper.go:233 | the in-place move removes one place of the slice |
| Gatekeepers.Gatekeeper.RemoveConn | proxy/internal/session/gatekeeper.go:228-237 | the in-place edit removes the first occurrence and never writes an array Stop holds |
| Gatekeepers.Gatekeeper.BeginStop | proxy/internal/session/gatekeeper.go:131-136 | Stop takes the whole list and leaves a fresh empty one |
| Gatekeepers.StepKeeps | proxy/internal/session/gatekeeper.go:99-237 | every step of accept loop, handlers and Stop keeps the invariant |
| Gatekeepers.WaitCountIsBusyHandlers | proxy/internal/session/gatekeeper.go:124-156 | the wait counter is always the number of handlers counted and not done |
| Gatekeepers.StopLeavesNoHandler | proxy/internal/session/gatekeeper.go:130-152 | when Stop returns all it took is closed, and every handler counted before is done with its connection closed |
| Gatekeepers.UnlistedHandlersAreLeaving | proxy/internal/session/gatekeeper.go:155-158 | a counted connection that Stop does not close is being closed by its own handler |
| Gatekeepers.OpenWhileStopWaits | proxy/internal/session/gatekeeper.go:143-149 | while Stop waits, an open connection of a working handler was accepted after Stop took the list, or its handler is about to close it |
| Gatekeepers.StopReturnsIffNobodyHeldUp | proxy/internal/session/gatekeeper.go:120-149 | Stop can come back without a client's help exactly when no connection accepted after it took the list has got through to the bridge |
| Gatekeepers.LateConnectionHoldsStop | proxy/internal/session/gatekeeper.go:109-126 | a concrete run in which a connection put on the list after Stop took it is bridged and keeps Stop waiting; while it was read, Stop could come back |
| Numbers.Pad3Injective | proxy/internal/recording/store.go:132 | different chunk numbers print differently |
| Numbers.PadsToThree | proxy/internal/recording/store.go:338 | the printed number reads back, has at least three digits, and leading zeros only up to three |
| Numbers.NearestRounds | proxy/internal/recording/store.go:386 | %.3f takes the nearest thousandth, the even one of two |
| Numbers.MilliIsNearest | proxy/internal/recording/store.go:386 | a printed duration is within half a thousandth of the real one |
| Numbers.AtoiReads | proxy/internal/api/recordings.go:321-325 | exactly the signed decimal numbers of 64 bits are read, each as what it says |
| Playlists.ResolveDurations | proxy/internal/recording/store.go:360-372 | the first loop resolves each duration and their maximum |
| Playlists.EntryText | proxy/internal/recording/store.go:381-387 | one entry as the second loop prints it |
| Playlists.Generate | proxy/internal/recording/store.go:374-394 | the second loop prints the text PlaylistReader.PlaylistReads is about |
| PlaylistReader.PlaylistReads | proxy/internal/recording/store.go:344-395 | a player that reads the text line by line finds one segment per counted chunk, in order: requested under a name that is served from that chunk, with its duration in thousandths, marked as a discontinuity exactly after a chunk of less than half the default; the tags; the end exactly when completed |
| PlaylistReader.TargetIsLeast | proxy/internal/recording/store.go:353-377 | the target is the least whole number of seconds that no chunk and not the default exceeds |
| Playlists.ChunkIsRecorded | proxy/internal/recording/store.go:145-147 | a counted chunk comes after those before, with its size and duration, and nothing else changes |
| Playlists.FinishRecordsEnd | proxy/internal/recording/store.go:265-275 | a finished recording has its end and its length from start to end, and nothing else changes |
| Playlists.AppendOnly | proxy/internal/recording/store.go:380-388 | the printed entries stay a prefix for every next duration exactly when every counted chunk has a duration on file |
| Playlists.LateDurationRewrites | proxy/internal/recording/store.go:364-368 | where durations are missing, a concrete next one rewrites an entry already printed |
| Playlists.FinishOnlyEnds | proxy/internal/recording/store.go:390-392 | finishing adds only the end marker |
| Playlists.ChunkLengthens | proxy/internal/recording/store.go:145-147 | a counted chunk makes every playlist longer, a finished one too |
| Playlists.CompletedStaysIffNoChunk | proxy/internal/recording/store.go:122-154 | over any further calls the playlist of a completed recording stays what it is exactly as long as no chunk is counted |
| Playlists.DurationsWithinTarget | proxy/internal/recording/store.go:372-377 | every printed duration is at most the printed target, in thousandths and in whole seconds |
| Playlists.TargetNeverShrinks | proxy/internal/recording/store.go:361-377 | the target never decreases as chunks arrive |
| Playlists.SegmentNameReads | proxy/internal/api/recordings.go:320-328 | the segment name printed for chunk i parses back to i |
| Playlists.SegmentNameShape | proxy/internal/recording/store.go:338 | the name is the number in three digits, or as many as it takes, and .ts |
| Playlists.SegmentNamesDiffer | proxy/internal/recording/store.go:338 | different chunks have different files |
| RecordingStore.ChunkWriteAgrees | proxy/internal/recording/store.go:131-143 | writing the next chunk file, wholly or in part, keeps files and metadata in agreement |
| RecordingStore.ChunkCountAgrees | proxy/internal/recording/store.go:145-147 | counting a written chunk keeps them in agreement |
| RecordingStore.UncountedIsApart | proxy/internal/recording/store.go:131-132 | the next chunk file is the file of no counted chunk |
| RecordingStore.VideoSize | proxy/internal/recording/store.go:241-244 | the listed files together have the size the counted chunks have |
| RecordingStore.VideoIsUploads | proxy/internal/recording/store.go:241-244 | the listed files together are the accepted uploads of the recording one after the other |
| RecordingStore.StoredPlaylistsGrow | proxy/internal/recording/store.go:122-154 | every recording of the store has an append-only playlist |
| RecordingStore.Store.constructor | proxy/internal/recording/store.go:39-41 | an empty store is in agreement |
| RecordingStore.Store.Create | proxy/internal/recording/store.go:44-60 | writes the new record or changes nothing |
| RecordingStore.Store.AppendChunk | proxy/internal/recording/store.go:122-154 | numbers chunks in upload order, never rewrites a counted chunk even when it fails, counts and keeps only complete uploads; a video made before misses the chunk unless it is empty |
| RecordingStore.Store.AppendEvents | proxy/internal/recording/store.go:178-208 | appends whole batches, and lines exceed the count only through failed calls |
| RecordingStore.Store.ConcatList | proxy/internal/recording/store.go:241-244 | the list is the counted chunks in order |
| RecordingStore.Store.Finalize | proxy/internal/recording/store.go:212-277 | the video is every accepted upload of the recording in upload order, the record is marked completed only on success, and a failing ffmpeg leaves its own file |
| RecordingStore.Store.GeneratePlaylist | proxy/internal/recording/store.go:344-395 | prints for the stored record the text PlaylistReader.PlaylistReads is about, or finds no record |
| RecordingStore.Store.ServeSegment | proxy/internal/api/recordings.go:316-331 | a segment name of the playlist is served from the file AppendChunk wrote; any other number, padded or not, from the file of that chunk; nothing else is served |
| EventBuffer.Recorder.FlushEvents | agent/internal/capture/recorder.go:542-569 | one undisturbed flush delivers all, nothing, or marks gone |
| EventBuffer.ConservedStep | agent/internal/capture/recorder.go:527-569 | every step conserves accepted events until gone |
| EventBuffer.EventsConserved | agent/internal/capture/recorder.go:527-569 | over every interleaving delivered, in-flight and buffered events are the accepted ones until gone |
| EventBuffer.GoneForGood | agent/internal/capture/recorder.go:236-241 | gone stays, and no send starts after it |
| EventBuffer.GoneIffTold | agent/internal/capture/recorder.go:221-241 | a recorder takes its recording for gone exactly when a send or an upload was told so |
| EventBuffer.ToldDropsBuffer | agent/internal/capture/recorder.go:236-241 | being told so drops what is buffered; no other step drops anything |
| EventBuffer.SentKeepsOrderIffOldest | agent/internal/capture/recorder.go:555-568 | a confirmed batch keeps the order of distinct events exactly when it was the oldest one out |
| EventBuffer.PutBackKeepsOrderIffNewest | agent/internal/capture/recorder.go:562-565 | a batch put back keeps it exactly when it was the newest one out |
| EventBuffer.OrderKeptIffBatchesRespected | agent/internal/capture/recorder.go:527-569 | with any number of flushers the order holds throughout a run exactly when both are respected throughout |
| EventBuffer.SingleFlusherKeepsOrder | agent/internal/capture/recorder.go:527-569 | with one send out at a time they are respected, so delivered, in-flight and buffered events are the accepted ones in order throughout |
| EventBuffer.OverlappingFlushersReorder | agent/internal/capture/recorder.go:154-165 | with two sends out at once a concrete run delivers the second event first |
| ChunkWatcher.NamesSortNumerically | agent/internal/capture/screen.go:386 | file names sort as their numbers exactly up to 1000 chunks |
| ChunkWatcher.SortPermutes | agent/internal/capture/screen.go:374-388 | the listing shows each file once |
| ChunkWatcher.RestartFreeIff | agent/internal/capture/screen.go:200-201 | a restart begins with the number of no file exactly when the directory could be listed or holds no chunk |
| ChunkWatcher.RestartsNeverCollide | agent/internal/capture/screen.go:200-201 | so over any run whose restarts can list the files, the next number is always free |
| ChunkWatcher.TickReports | agent/internal/capture/screen.go:340-355 | a tick reports all but the newest chunk, each once |
| ChunkWatcher.EveryChunkOnce | agent/internal/capture/screen.go:327-371 | up to 1000 chunks, ticks, restarts and the final pass report every chunk once in numeric order, never the newest before the end |
| ChunkWatcher.ReportsGoByName | agent/internal/capture/screen.go:340-370 | in every run chunks are reported in the order of their names |
| ChunkWatcher.EveryChunkOnceIffThousand | agent/internal/capture/screen.go:327-371 | over every run, ticks and final pass report every chunk file once in numeric order exactly when there are at most 1000 and the final pass can list them |
| ChunkWatcher.PassedIsLost | agent/internal/capture/screen.go:347-353 | a chunk whose name was passed without being reported is never reported in any continuation |
| ChunkWatcher.ThousandthChunkIsLost | agent/internal/capture/screen.go:347-353 | after a concrete run with chunk 1000 on disk no continuation ever reports it |
| ChunkWatcher.ScreenRecorder.RestartFFmpeg | agent/internal/capture/screen.go:200-216 | the number a restart begins with is taken by no file exactly when the listing worked or there is none |
| ChunkWatcher.ScreenRecorder.ReportFinished | agent/internal/capture/screen.go:347-355 | the loop reports what follows the last reported name |
| ChunkWatcher.ScreenRecorder.Tick | agent/internal/capture/screen.go:339-355 | one tick is the step of the model |
| ChunkWatcher.ScreenRecorder.ReportRemaining | agent/internal/capture/screen.go:363-370 | the loop of the final pass, which remembers nothing |
| ChunkWatcher.ScreenRecorder.ReportRemainingChunks | agent/internal/capture/screen.go:361-371 | the final pass completes the reports |
| ChunkUploads.UploadsInOrderIff | agent/internal/capture/recorder.go:200-233 | once no upload is on its way, the store holds the reported chunks in the order of the reports exactly when each upload arrived in its turn and none was lost |
| ChunkUploads.KeptInNumericOrderIff | agent/internal/capture/recorder.go:200-233 | from the directory to the video: with at most 1000 chunks, all reported, the store keeps them in numeric order exactly then |
| ChunkUploads.FasterUploadGoesFirst | agent/internal/capture/recorder.go:200-233 | a concrete run in which the second chunk becomes the first segment |
| SessionMonitor.CallbackKeepsOrder | agent/internal/session/detector.go:99-116 | logon and logoff callbacks of a session take turns |
| SessionMonitor.OnLogonKeeps | agent/cmd/p0rtal-agent/main.go:175-194 | a logon never overwrites a live recorder |
| SessionMonitor.OnLogoffKeeps | agent/cmd/p0rtal-agent/main.go:196-217 | a logoff stops the recorder of its session once |
| SessionMonitor.Agent.Poll | agent/internal/session/detector.go:85-119 | the active sessions are then exactly those enumerated as active with a user, each as enumerated last; logons are called back before logoffs; a recorder lives exactly as long as its session, and a new session has one exactly when it starts |
| SessionMonitor.ActiveMapHoldsLast | agent/internal/session/detector.go:91-96 | of several entries of a session the last one that counts is kept |
| SessionMonitor.Agent.Enumerated | agent/internal/session/detector.go:91-96 | the loop keeps exactly the sessions a user works in |
| SessionMonitor.Agent.LogonNew | agent/internal/session/detector.go:99-106 | the first loop calls back for the new sessions only, and adds a recorder for each that starts |
| SessionMonitor.Agent.LogoffGone | agent/internal/session/detector.go:109-116 | the second loop calls back for the gone sessions only |
| SessionMonitor.Agent.StopAll | agent/cmd/p0rtal-agent/main.go:225-240 | at the end every started recorder has been stopped exactly once |
| TokenCache.TokenProvider.Refresh | proxy/internal/secrets/tokens.go:176-193 | hands out a usable cached token or the one fetched, and replaces nothing that is usable |
| TokenCache.TokenProvider.Get | proxy/internal/secrets/tokens.go:160-288 | a whole call hands out the cached token where it is usable at the first or the second look, and otherwise what the fetch answers to the token of the stage below; each stage caches exactly what it fetched, and the token that paid is cached below |
| TokenCache.EmptyIff | proxy/internal/secrets/tokens.go:160-288 | a call comes back empty exactly when the one below it does, or the stage is unusable at both looks and its fetch fails |
| TokenCache.NeverEmptyWhenFetched | proxy/internal/secrets/tokens.go:160-288 | when every fetch succeeds every call comes back with a token |
| TokenCache.CallAlone | proxy/internal/secrets/tokens.go:160-288 | a caller that is alone in the interleaved model ends with the token Get hands out and leaves the cache Get leaves, for every timing of its looks |
| TokenCache.StepKeeps | proxy/internal/secrets/tokens.go:81-288 | every step keeps the provenance of caches and callers |
| TokenCache.SuccessiveIssuesApart | proxy/internal/secrets/tokens.go:81-108 | for any number of callers two successive fetches of a stage are apart by at least the first token's lifetime less 60 s |
| TokenCache.CacheHoldsLastIssue | proxy/internal/secrets/tokens.go:103-107 | in every run the cache of a stage holds the last token it fetched |
| TokenCache.ReturnedIsUsableOrFetched | proxy/internal/secrets/tokens.go:255-288 | in every run a returned token was outside its buffer when it was handed out, or fetched by that very call |
| TokenCache.ReturnedTokensHaveAChain | proxy/internal/secrets/tokens.go:255-288 | every returned token has an IAM issue, paid for by an earlier STS issue, paid for by an earlier Azure issue |
| Access.CaseVariantMatches | proxy/internal/session/manager.go:348-359 | every spelling of the address selects the sessions of the user |
| Access.RevokeKeepsCovered | proxy/internal/api/access.go:128-150 | ending the sessions of the user keeps all others covered by grants |
| Access.MemoryStore.GrantAccess | proxy/internal/acl/store.go:88-101 | files the grant under its case-folded names |
| Access.MemoryStore.RevokeAccess | proxy/internal/acl/store.go:103-114 | removes exactly that grant |
| Access.MemoryStore.FindGrant | proxy/internal/acl/store.go:129-143 | finds the grant under any spelling |
| Access.Api.GrantAccess | proxy/internal/api/access.go:44-92 | files a complete grant as given, with folded names and the default port, changing no other, and refuses others unchanged |
| Access.Api.CreateSession | proxy/internal/api/sessions.go:92-158 | creates exactly the session asked for, exactly when there is a grant for user and host and nothing else fails; says which check refused; keeps every session covered |
| Access.Api.DeleteSession | proxy/internal/api/sessions.go:292-309 | ends the named session only |
| Access.Api.RevokeAccess | proxy/internal/api/access.go:99-153 | takes exactly the grant away and leaves exactly the sessions of users the address does not name, as a whole or by its local part |
| Access.Api.EndListed | proxy/internal/api/access.go:138-150 | the loop ends exactly the live sessions it was given |
| AccessRace.StepKeeps | proxy/internal/api/access.go:117-150 | in every interleaving a session that has had its grant still has it or will be ended by a revocation at work |
| AccessRace.NoSessionWithoutAGrant | proxy/internal/api/sessions.go:112-148 | however requests interleave, every session is one of a user for a host that were granted at some time |
| AccessRace.EndedByNameOrForItsUser | proxy/internal/api/access.go:138-150 | a step ends a session only by name, or as a revocation at work for the session's own user |
| AccessRace.CoveredIffNoneOvertaken | proxy/internal/api/access.go:128-150 | with no revocation at work every live session has its grant exactly when each was registered under its grant or has got it since; the others are those a revocation overtook |
| AccessRace.NobodyOvertakenAllCovered | proxy/internal/api/sessions.go:112-148 | so all are covered if every creation registers while its grant is there |
| AccessRace.OvertakenCreationSlipsIn | proxy/internal/api/sessions.go:112-148 | a concrete run in which a revocation passes between the lookup and the registration |

## Left out

- Sockets, processes, ffmpeg, PowerShell, the file system and HTTP itself: their answers are parameters. Metadata writes are atomic, which os.WriteFile does not promise.
- HTTP routing, JSON, logging, JWT verification, key parsing, certificates, the INI template, configuration, service installation and the credential providers: nothing in them spans several operations.
- Randomness: session ids are numbers or strings no session had before; token values are arbitrary. `FileRun` is the assumption that nobody guesses one.
- Liveness that needs a fair scheduler. Blocking calls return in Broker.dfy whenever the action is taken, so it says nothing about progress; `StopReturnsIffNobodyHeldUp` says when the wait inside Stop can end.
- Deadlines: a handler that reads or dials may come back at any time, which covers the read deadline of 10 s and the dial timeout of 5 s without their lengths.
- Gatekeepers.StopReturnsIffNobodyHeldUp: does not model a proxy that keeps its side of a bridged connection open after the client's side was closed, because what the proxy process does is not in the repository.
- The Go memory model: lock regions and single accesses are atomic.
- Broker.dfy lets connection handlers outlive the stop of their gatekeeper, which is more than the program does; `Gatekeeper.dfy` shows which of them Stop waits for. The two are not composed.
- SessionManager.Manager.TerminateSession: does not model the shared *Session pointer, because the session is a value here; update in place under concurrency is in Broker.dfy.
- SessionManager.Manager.Shutdown: does not model the parallel terminators and the timeout, because Broker.dfy does.
- The session's monitor timer, process exit and ExpiresAt: a monitor may fire at any time.
- Floating point: durations are real numbers. Unicode: strings are byte strings and case folding is ASCII.
- EventBuffer.EventsConserved: does not model a batch the server stored although the send reported an error, because delivered means confirmed.
- ChunkWatcher.EveryChunkOnceIffThousand: does not model what is in a file, so a chunk that a restart overwrote counts as the file it was, nor chunks opened after the final pass, which nobody reports.
- The event filters of the recorder, RDPFilename, the recording list filters, Store.List, Store.Delete and the public keys of the ACL: each says what its body says.
- Stop of the recorder's trackers and removal of its directory: no state that anything else reads.
- RecordingStore.Store.Create: does not model a directory left behind without metadata, because no other modelled operation reads it.
