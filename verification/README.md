# Verified models of golang-programming

This project models, in Dafny, the protocols and data structures of the
`kedebug/golang-programming` repository that are hardest to get right, and proves what
they promise:

- the LSP reliable channel (stop-and-wait over lossy datagrams, one-byte sequence
  numbers) and the server that sets up its connections;
- the primary/backup key/value service with its view service, and the replicated lock
  service with its clerk;
- the URL shortener's key generation and its optimistic `Put` loop;
- two event loops: the deferring buffer server and the feed-reader subscription;
- Tribbler's timelines, consistent-hash routing and lease counting, and the linked FIFO
  buffer used by LSP and by the buffer server.

`dafny verify dfyconfig.toml` checks everything.

## How it is built

Each handler of the source is a function from a state value to a state value. Beside it
stands the object the source has, a class with the same fields updated in place (linked
cells for the buffers, a byte buffer for `genKey`, maps and slices elsewhere), or the loop
the source has; each method's postcondition says that it computes that function, with its
replies and error cases. Whole systems are then step relations over those functions:
a run is any sequence of steps, and the main results are about every run. Time is a
parameter of the steps that look at it, and map iteration order and `select` are arbitrary
choices. Where a handler gives up a lock or waits for a call, its parts are separate steps:
LSP packets, pings, forwarded Puts and Syncs may be lost or lose their replies at any time.

| files | content |
|---|---|
| `buf`, `lsp_conn`, `lsp_server` | FIFO buffer, one LSP endpoint, the server's loop and its connections |
| `lsp_net`, `lsp_runs`, `lsp_progress`, `lsp_tight`, `lsp_ids` | two endpoints and two channels: invariant, exactly-once delivery, progress, tightness of the bound, connection ids |
| `lsp_clients`, `lsp_channels` | many clients of one server: independence, availability, ids; the channels between its loop and its connections |
| `view_service`, `view_runs`, `view_restarts` | view service: handlers; numbers and slots, acknowledgement gate, when the slots differ, when a tick panics; what a tick decides, from the pings |
| `pb_server`, `pb_system`, `pb_ticks`, `pb_steps`, `pb_puts`, `pb_runs`, `pb_limits` | key/value servers driven by the view service: the system, its steps, durability of acknowledged writes and where it ends |
| `lock_server`, `lock_runs` | lock service: refinement of one atomic lock table |
| `url_key`, `url_store` | base-62 keys; concurrent `Put`s |
| `dserver`, `rss` | the two event loops |
| `timeline`, `timeline_runs`, `ring`, `lease_cache`, `lease_runs` | Tribbler: sequential operations, and overlapping posts and lookups |

## What is assumed of runs

- LSP: either the network does not reorder (it may drop and copy), or no delivered data
  packet or ack is a positive multiple of 256 messages behind the one its receiver expects.
  The server has given the connection an id other than 0.
- Key/value service: servers are crash-stop and have non-empty names. A client addresses
  the server that the view service names as primary, or has named in the view before
  (`Addressed`). A Sync is applied before its call returns, or not at all;
  `LateSyncLosesAWrite` shows that this is needed, and that nothing else is amiss in that
  run. (A forwarded Put may also be applied after its call was given up: `StrayForward` does
  no harm.) A forwarded call that is answered is not delayed past a second change of view
  (`InTime`), `LateForwardIsSafeIffItReachesTheLead` gives the exact condition for a call of
  any age; nor is the Sync of a crashed server delayed past the next view (`FromLead`). The
  servers of a view are not all lost at once, and a backup is promoted only when a Sync has
  reached it in that view and the primary is not still busy with it (`Survivable`). While
  pings are answered the latter only means that the primary is not in the middle of its
  Sync, or has crashed after it had arrived (`AnsweredPingsSuffice`), and nothing at all when
  no primary has to ping again before its Sync is done (`FirstSyncSucceeds`).
- Lock service: a call fails only if the callee is dead or dies before replying; a client
  uses a Uuid for one request.
- Timelines and lease cache: the clock does not run backwards. The timeline is a newest
  selection when the lists of the followed users are in posting order;
  `OrderedUnlessOvertaken` says exactly when lists are, and `TimelineOfSinglePosters` that the
  timeline is right when no two posts of one user overlap and no followed user is posting.

## Where the code does not keep what one would expect

- An LSP endpoint takes a packet for the one it expects exactly when it is a multiple of
  256 messages late (`TakenIffLagIsAMultiple`); one late data packet or ack breaks
  exactly-once delivery (`LateDataIsAcceptedAgain`, `LateAckLosesAMessage`).
- An LSP endpoint that has completed its close is blocked and answers nothing, so what its
  peer still has to send is never acknowledged (`ClosedServerLeavesClientWaiting`); a resend
  makes progress if and only if the peer is not in that state (`RoundAdvances`).
- A CONNECT that is repeated to a server which has the connection is ignored; only the next
  epoch of that connection acknowledges it (`RoundAdvances`). Data is acknowledged at once
  (`ResendIsAnsweredAtOnce`).
- A connection that has completed its close, or that asks for its removal after too many
  silent epochs, stops the loop of the server with the second packet (or second write, or
  first close) for it, and with it every other client (`ClosedClientBlocksEveryone`,
  `RemovalAndCloseDeadlock`); `StuckIffSecondSend` is the exact condition.
- The id counter of the LSP server wraps: connections whose ranks are congruent modulo 65536
  share an id (`SameIdIffRanksAreCongruent`), and nothing that the 65536th connection writes
  reaches its client (`EveryWrapSilencesAClient`). When the ack of its CONNECT is lost for
  long enough, a client makes the server's connection take the id 0 (`ServerLosesItsId`).
- One server can be put into both slots of a view (`LapsePutsOneServerInBothSlots`);
  `InOrderUnlessOneComesBack` and `TickCanCollide` say exactly when. A view service whose
  ticks come too rarely can panic (`SlowTicksPanic`, `TickPanicsIffRestartedAndOverdue`).
- A primary whose first Sync fails pings with the new number before it retries. That
  acknowledges the view, and the empty backup may be promoted (`RetriedSyncLosesAWrite`).
  A Sync that is served after it was given up takes acknowledged writes back
  (`LateSyncLosesAWrite`).
- A server that is not the primary answers a misdirected `Put` with OK and keeps the write
  to itself (`MisdirectedPutIsAnsweredOK`); `PutIsSafeIffItReachesTheLead` gives the exact
  condition under which an OK can be trusted. A server that is its own backup waits for
  itself for ever (`PBService.Server.Put`).
- On a URL store that was loaded with other keys, a `Put` left alone never returns if the
  key of the next number is taken (`AloneItSucceedsIffTheNextKeyIsFree`); two Puts whose save
  records change places can leave such a file (`OvertakenSaveStopsPut`).
- `GetTribbles` reports an existing user without posts as unknown, and fails while one of
  the newest posts is not stored yet. Of two overlapping posts of one user the first can
  be stamped last (`OverlapBreaksOrder`).
- A leased value stops being served when its key was not missed within the last ten
  seconds, even if its lease still runs, because `evict` then drops the entry; a `Grant`
  that arrives after that panics. A miss is lost when another lookup drops the entry
  between the two halves of `Get`, and a `Grant` then panics although the key was just
  missed (`MissIsLost`); `ListsAreTheHistory` and `HeldEntryIsDroppedIff` say exactly when.
- A value can be served after its lease has run out (`ExpiredLeaseIsServed`), for no longer
  than the call takes from its lookup to its end (`ServedLeaseIsAlmostValid`).

## Model

| member | source | states |
|---|---|---|
| `LspRuns.TimelyDelivery` | 15-440/P1-F11/lsp/lsp_conn.go:107-173 | In every run over a network that drops, copies and reorders, with no delivered packet a positive multiple of 256 messages late, what each side handed over plus `recvBuf` is a prefix of what its peer accepted for sending, and S <= R <= S+1, for any number of byte wraps. |
| `LspRuns.InOrderDelivery` | 15-440/P1-F11/lsp/lsp_conn.go:107-173 | Without reordering the same holds with no assumption on delay, and every packet in flight has number S or S+1. |
| `LspRuns.CleanClose` | 15-440/P1-F11/lsp/lsp_conn.go:158-160 | The close-completion send is reached only when the peer has accepted every message ever sent. |
| `LspRuns.ReceiveAdvancesToTheNumber` | 15-440/P1-F11/lsp/lsp_conn.go:122-162 | A packet moves only the counter of its own kind, and no further than its own logical number. |
| `LspNet.StepKeepsInv` | 15-440/P1-F11/lsp/lsp_conn.go:68-183 | Every timely step keeps the invariant that ties byte numbers, buffers and packets of both streams to unbounded message numbers. |
| `LspNet.DataIsGood` | 15-440/P1-F11/lsp/lsp_conn.go:124-134 | Accepting a timely data packet extends the delivered prefix by exactly that message; anything else leaves the endpoint as it was. |
| `LspNet.AckIsGood` | 15-440/P1-F11/lsp/lsp_conn.go:135-157 | A timely ack removes the front message exactly when it answers that message. |
| `LspProgress.RoundAdvances` | 15-440/P1-F11/lsp/lsp_conn.go:122-173 | From every reachable state with a non-empty `sendBuf`, one epoch resend that arrives, and the arrival of the ack which that very delivery brings, acknowledge exactly one more message if the peer has not completed its close, and none if it has. (A CONNECT that meets an existing connection brings no ack; there it is that of the peer's next epoch.) |
| `LspProgress.ResendIsAnsweredAtOnce` | 15-440/P1-F11/lsp/lsp_conn.go:124-134 | Step by step for data: the peer's delivery of a resent message, first time or not, writes exactly one packet, whose arrival raises the acknowledged count by exactly one; no epoch of the peer is needed. |
| `LspProgress.DataIsAnswered` | 15-440/P1-F11/lsp/lsp_conn.go:134 | Every data packet that reaches a running endpoint, expected, repeated or late, brings exactly one packet, an ack of the last message it has accepted. |
| `LspProgress.AckBringsFront` | 15-440/P1-F11/lsp/lsp_conn.go:148-157 | Every timely ack that reaches a running endpoint has it write exactly the message it then waits for, and nothing if it waits for none. |
| `LspProgress.NextMessageGoesOutAtOnce` | 15-440/P1-F11/lsp/lsp_conn.go:148-152 | An accepted ack with more waiting puts the next message in number on the wire in that same step. |
| `LspProgress.RoundsEmptyTheBuffer` | 15-440/P1-F11/lsp/lsp_conn.go:135-173 | k such rounds shorten `sendBuf` by exactly k, whatever else is in flight. |
| `LspProgress.EveryMessageArrives` | 15-440/P1-F11/lsp/lsp_conn.go:135-173 | After any timely run, as many rounds as there are waiting messages empty the buffer if and only if the peer has not completed its close (or there were none), and the peer then has every message sent. |
| `LspProgress.NeverAcknowledged` | 15-440/P1-F11/lsp/lsp_conn.go:158-160 | What a peer had not accepted when it completed its close is neither acknowledged nor delivered in any continuation. |
| `LspProgress.ClosedServerLeavesClientWaiting` | 15-440/P1-F11/lsp/lsp_conn.go:158-160 | A concrete run in which the server writes and closes, after which a message of the client is never delivered. |
| `LspTight.TakenIffLagIsAMultiple` | 15-440/P1-F11/lsp/lsp_conn.go:125-152 | However late, data is accepted, and an ack removes the front message, if and only if its lag is a multiple of 256. |
| `LspIds.IdChangesIffAnotherArrives` | 15-440/P1-F11/lsp/lsp_conn.go:142-147 | In every timely run, the id of the server's connection changes if and only if the ack arrives that its front message waits for, that message's number is a multiple of 256, and the ack carries another id. |
| `LspIds.IdsAreStable` | 15-440/P1-F11/lsp/lsp_conn.go:142-147 | So in every timely run in which the client learns its id before it accepts message 256, the server's connection keeps its id through all wraps, and the client has that id once its CONNECT is acknowledged. |
| `LspIds.ServerLosesItsId` | 15-440/P1-F11/lsp/lsp_conn.go:142-147 | A concrete run of 256 messages after which the server's connection has id 0. |
| `LspTight.LateDataIsAcceptedAgain` | 15-440/P1-F11/lsp/lsp_conn.go:125-134 | A run whose last delivery is a data packet exactly 256 late accepts a message twice. |
| `LspTight.LateAckLosesAMessage` | 15-440/P1-F11/lsp/lsp_conn.go:142-152 | A run whose last delivery is an ack exactly 256 late discards a message the peer never got. |
| `LspConn.Connection.constructor` | 15-440/P1-F11/lsp/lsp_conn.go:37-66 | A new endpoint: empty buffers, both counters at 1, ack 0 as last ack. |
| `LspConn.Connection.Start` | 15-440/P1-F11/lsp/lsp_conn.go:58-64 | Id 0 opens with a buffered CONNECT, any other id with its first ack. |
| `LspConn.Connection.SendMsg` | 15-440/P1-F11/lsp/lsp_conn.go:107-120 | Over the linked buffers: data gets the next number and goes to the end of the send buffer, and the front message is what is written. |
| `LspConn.Connection.ReceiveMsg` | 15-440/P1-F11/lsp/lsp_conn.go:122-162 | The object changes and writes exactly as the value-level endpoint of the runs does: data is always answered with the last ack, an ack with the message then waited for, if any. |
| `LspConn.Connection.AcceptOrIgnore` | 15-440/P1-F11/lsp/lsp_conn.go:124-134 | Exactly the expected number enters the receive buffer and becomes the last ack; the last ack is written in either case. |
| `LspConn.Connection.Acknowledge` | 15-440/P1-F11/lsp/lsp_conn.go:135-160 | A matching ack removes the front and has the next message written, if there is one; any other has the front written again. |
| `LspConn.Connection.Advance` | 15-440/P1-F11/lsp/lsp_conn.go:142-160 | The front leaves the buffer, the next one goes out, and closing with nothing left raises `done`. |
| `LspConn.Connection.EpochTrigger` | 15-440/P1-F11/lsp/lsp_conn.go:164-183 | Writes the front message, if any, and the last ack; false exactly when the silence lasted the epoch limit. |
| `LspConn.Connection.HandOver` | 15-440/P1-F11/lsp/lsp_conn.go:75-91 | The oldest received message goes to the application and leaves the buffer. |
| `LspServer.Server.HandleUdpPacket` | 15-440/P1-F11/lsp/lsp_server.go:133-155 | Routing by address and one connection per address; a nil dereference exactly for data or acks from an unknown address, and a blocked loop exactly when the connection's channel is full. |
| `LspServer.Server.GetConnById` | 15-440/P1-F11/lsp/lsp_server.go:100-107 | In any iteration order: a connection with that id, or none if there is none. |
| `LspServer.Server.HandleRemoval` | 15-440/P1-F11/lsp/lsp_server.go:84-88 | The removal a connection asks for takes a connection with its id out of the map. |
| `LspClients.ConnectionsAreIndependent` | 15-440/P1-F11/lsp/lsp_server.go:65-155 | In every run with any mix of clients that come, are removed and come again, a client's connection is what its own events make of it on a server that serves it alone and gives it the same ids, as long as removals take the connection that asked. |
| `LspClients.FewConnectionsAreIndependent` | 15-440/P1-F11/lsp/lsp_server.go:65-155 | Up to 65536 connections, and while no ack overwrites an id, they do, all ids differ, and clients are independent. |
| `LspClients.OthersLeaveAlone` | 15-440/P1-F11/lsp/lsp_server.go:84-88 | An event of another client changes a client's connection if and only if it is a removal that finds it. |
| `LspClients.NotStuckGoesOn` | 15-440/P1-F11/lsp/lsp_server.go:65-155 | Unless it waits for a connection that has completed its close, asks for its removal or has ended, the loop is ready again after at most one step of one connection. |
| `LspClients.StuckForEver` | 15-440/P1-F11/lsp/lsp_server.go:148-151 | If it does, it never handles anything again: nobody connects in any continuation. |
| `LspClients.StuckIffSecondSend` | 15-440/P1-F11/lsp/lsp_server.go:69-78 | The loop got stuck with such a connection if and only if it has since sent it a second packet, a second write or a close, counting what was waiting. |
| `LspClients.ClosedClientBlocksEveryone` | 15-440/P1-F11/lsp/lsp_server.go:148-151 | A concrete run from the start after which no other client ever connects. |
| `LspClients.RemovalAndCloseDeadlock` | 15-440/P1-F11/lsp/lsp_conn.go:177-181 | A concrete run without a completed close: a removal and a close of the application wait for each other, and no other client ever connects. |
| `LspClients.MatchesTheTwoPartyModel` | 15-440/P1-F11/lsp/lsp_server.go:133-155 | A packet served by loop and connection has the effect, and brings the datagrams, that the server of the two-party runs has for it, duplicate CONNECTs included. |
| `LspChannels.NothingIsLostOrReordered` | 15-440/P1-F11/lsp/lsp_server.go:65-78 | In every run in which a connection stays, the packets that arrive for it and the messages written to it are, in order, what it takes from its two channels and what is still in them or in the send the loop is blocked in. |
| `LspChannels.TurnsMatchTheTwoPartyModel` | 15-440/P1-F11/lsp/lsp_conn.go:80-99 | Every turn of a connection, a packet taken in excepted, has the effect and brings the datagrams of the write, read, close or epoch of the server in the two-party runs; the epoch limit alone ends its loop. |
| `LspChannels.TakingInMatches` | 15-440/P1-F11/lsp/lsp_conn.go:87-89 | A packet taken in, wherever the loop of the server stands, has the effect and brings the datagrams of its arrival there. |
| `LspClients.SameIdIffRanksAreCongruent` | 15-440/P1-F11/lsp/lsp_server.go:100-107 | As long as no ack overwrites an id, two connections that are there at the same time share an id if and only if the ranks in which they were opened are congruent modulo 65536. |
| `LspClients.OverwritesOnlyByAckZero` | 15-440/P1-F11/lsp/lsp_conn.go:142-147 | A connection takes another id exactly when an ack with sequence number 0 that carries another id removes a front message with sequence number 0. |
| `LspClients.EveryWrapSilencesAClient` | 15-440/P1-F11/lsp/lsp_conn.go:58-64 | In every run nothing that connections 65536, 131072 and so on write reaches their clients, while every epoch of any other does. |
| `LspClients.TheCounterReachesZero` | 15-440/P1-F11/lsp/lsp_server.go:144-147 | A run of 65535 connections after which the next id is 0. |
| `Bufi.Buf.constructor` | 15-440/P1-F11/bufi/bufi.go:20-22 | An empty list. |
| `Bufi.Buf.Insert` | 15-440/P1-F11/bufi/bufi.go:24-35 | The linked list gains the value at its end; Head, tail and cnt stay consistent. |
| `Bufi.Buf.Front` | 15-440/class07/bufi/bufi.go:37-42 | The oldest value, or the empty-buffer error. |
| `Bufi.Buf.Remove` | 15-440/class07/bufi/bufi.go:44-56 | Takes the oldest value out, or reports the empty buffer and changes nothing. |
| `Bufi.Buf.Empty` | 15-440/class07/bufi/bufi.go:58-60 | True exactly when there are no values. |
| `Bufi.Buf.Flush` | 15-440/class07/bufi/bufi.go:62-66 | Leaves no values. |
| `Bufi.Buf.Contents` | 15-440/class07/bufi/bufi.go:68-77 | The chain walk yields all values, oldest first. |
| `ViewRuns.ViewsAgree` | 6.824-labs/viewservice/server.go:108-147 | Numbers never decrease, and two observations of a number agree on each slot that the later one fills: slots are cleared, never refilled. |
| `ViewRuns.AckedHasAPing` | 6.824-labs/viewservice/server.go:48-50 | An acknowledged view n >= 1 was pinged with n by its own primary while n was current. |
| `ViewRestarts.AckedIffPinged` | 6.824-labs/viewservice/server.go:48-50 | In every run a view n >= 1 counts as acknowledged if and only if its own primary has pinged with n while it was current. |
| `ViewRestarts.AliveIffPingIsRecent` | 6.824-labs/viewservice/server.go:56-58 | In every run a tick takes a server for alive if and only if it has pinged, and neither this tick nor one since its last ping came more than the dead limit after that ping. |
| `ViewRestarts.EveryTick` | 6.824-labs/viewservice/server.go:82-149 | In every run, from the pings alone: a tick panics exactly if the primary has restarted and is overdue, leaves an unacknowledged view as it is, and otherwise keeps in their slots exactly the servers that are alive and not restarted; a missing primary is replaced by the backup exactly if its last ping carried the number, a missing backup by a live server outside the view (or back in it after a lapse) exactly if there is one, and both by one whose last ping carried the number. |
| `ViewRestarts.RestartedPrimaryIsReplaced` | 6.824-labs/viewservice/server.go:52-54 | If the primary of an acknowledged view n >= 1 pings with 0, the next tick panics exactly if it is overdue, and otherwise takes it out of the slot, to which it cannot return at once unless it is in both slots or came back after a lapse; a live backup then leads view n+1 exactly if its last ping carried n. |
| `ViewRestarts.PrimaryLeavesIff` | 6.824-labs/viewservice/server.go:109-121 | A tick takes a primary out of its slot if and only if the view is acknowledged and the primary is dead or has pinged with 0 since the tick before, with those two exceptions. |
| `ViewRuns.Succession` | 6.824-labs/viewservice/server.go:108-147 | A superseded view was acknowledged; the next primary is the same one, or the backup whose last ping carried n, or, with both slots empty, a live idle client whose last ping carried n. |
| `ViewRuns.InOrderUnlessOneComesBack` | 6.824-labs/viewservice/server.go:91-147 | In every run, primary and backup are never the same server and no live client marked idle is ever in the view, if and only if no server of the view is found overdue in an unacknowledged view and then, still in the view, pings. |
| `ViewRuns.TickCanCollide` | 6.824-labs/viewservice/server.go:139-145 | From different slots, some pick of a tick puts one server into both if and only if the view is acknowledged, only its primary is left, and that primary's record is live and marked idle. |
| `ViewRuns.CollisionNeedsALapse` | 6.824-labs/viewservice/server.go:91-147 | Whenever one server is in both slots, that very server had lapsed and come back before. |
| `ViewRuns.LapsePutsOneServerInBothSlots` | 6.824-labs/viewservice/server.go:139-145 | A concrete run ends with one server as primary and backup. |
| `ViewRuns.TickPanicsIffRestartedAndOverdue` | 6.824-labs/viewservice/server.go:109-121 | In every run, a tick dereferences a missing record if and only if a restart of the primary is pending and that primary is overdue. |
| `ViewRuns.NoTickPanics` | 6.824-labs/viewservice/server.go:109-121 | So none does with a monotone clock and ticks never further apart than the dead limit. |
| `ViewRuns.SlowTicksPanic` | 6.824-labs/viewservice/server.go:117-121 | A concrete run with ticks too far apart that panics. |
| `ViewService.ViewServer.PingHandler` | 6.824-labs/viewservice/server.go:36-63 | The object changes as the pings of the runs do (acknowledgement, restart of the primary, the client's record), and returns the view as it is. |
| `ViewService.ViewServer.Survey` | 6.824-labs/viewservice/server.go:88-106 | In any iteration order: overdue clients become dead and idle; a live idle client and a live idle initialised one are found exactly when there are any. |
| `ViewService.ViewServer.TickHandler` | 6.824-labs/viewservice/server.go:82-149 | A tick panics exactly on a missing record, and otherwise makes one of the transitions of the view state machine. |
| `ViewService.ViewServer.MoveOn` | 6.824-labs/viewservice/server.go:123-147 | Which slot is filled from where, with the number, the acknowledgement and the idle marks. |
| `PBRuns.NoAcknowledgedWriteIsLost` | 6.824-labs/pbservice/server.go:55-162 | In every run, through crashes, promotions, failing pings and overlapping Puts, the server in charge of the current view has every Put answered OK, before every Put that began after the answer, and its value for that key is that Put's or that of one it has after it. |
| `PBRuns.PromotedBackupHasEverything` | 6.824-labs/viewservice/server.go:131-138 | The moment a backup is promoted it already holds all acknowledged writes, in their real-time order, and its store is what its writes make of it. |
| `PBRuns.StepKeeps` | 6.824-labs/pbservice/server.go:55-162 | Every step keeps the durability invariant: the parts of a Put, lost replies of calls, calls given up and served after all, failing pings in ticks, in Sync and in the retry loop, view changes, crashes. |
| `PBPuts.WhoIsAddressed` | 6.824-labs/pbservice/server.go:66-77 | A server that a client may address is the one in charge, or forwards to it; and the one in charge forwards to its backup when that could take over. |
| `PBLimits.AnsweredPingsSuffice` | 6.824-labs/pbservice/server.go:125-162 | While pings are answered, durability only needs that no backup is promoted while its primary is in the middle of the Sync, or after a crash before that Sync had reached it. |
| `PBLimits.FirstSyncSucceeds` | 6.824-labs/pbservice/server.go:145-161 | If moreover no primary pings again before its Sync is done, no promotion meets a pending Sync, so durability needs no assumption about that. |
| `PBLimits.RetriedSyncLosesAWrite` | 6.824-labs/pbservice/server.go:149-157 | A concrete run, ordinary but for its last step, a promotion during a Sync that has not reached the backup, which loses an acknowledged write. |
| `PBLimits.LateSyncLosesAWrite` | 6.824-labs/pbservice/server.go:148-154 | A concrete run in which every step is allowed, but a Sync that was given up is served after a later one, and an acknowledged write is lost. |
| `PBLimits.PutIsSafeIffItReachesTheLead` | 6.824-labs/pbservice/server.go:66-77 | A Put answered OK keeps acknowledged writes safe if and only if its server is in charge or forwards to the one in charge. |
| `PBLimits.LateForwardIsSafeIffItReachesTheLead` | 6.824-labs/pbservice/server.go:66-97 | The same for a forwarded call of any age, at the moment it is taken. |
| `PBLimits.MisdirectedPutIsAnsweredOK` | 6.824-labs/pbservice/server.go:66-77 | A concrete state in which a server that is not the primary answers OK and the write is nowhere else. |
| `PBService.StoresWithinAView` | 6.824-labs/pbservice/server.go:55-117 | After a Sync, the backup's value of a key is that of the last Put that arrived, the primary's that of the last one answered OK, so they differ only where the last arrival was refused. |
| `PBService.Server.Put` | 6.824-labs/pbservice/server.go:55-78 | In terms of the stores: answered OK, and only then, the key is mapped to the value here; without a backup, or when not primary, the answer is OK; with one it is OK exactly if the backup took the write and said so, and the backup's store has the write exactly if the call reached a server that takes itself for the backup. No reply at all exactly when the server calls itself. |
| `PBPuts.UndisturbedPut` | 6.824-labs/pbservice/server.go:55-78 | The begin, forward and finish steps of the system, with nothing in between, leave both servers' stores as `Put` does, acknowledge the write exactly if `Put` answers OK, and touch no other server. |
| `PBPuts.UndisturbedPutAlone` | 6.824-labs/pbservice/server.go:74-75 | Without a backup, or at a server that is not the primary, begin and finish store the write and acknowledge it. |
| `PBService.Server.Get` | 6.824-labs/pbservice/server.go:25-53 | ErrWrongServer exactly when the forwarded call fails or is refused; otherwise the stored value or ErrNoKey; nothing changes; no reply exactly when the server calls itself. |
| `PBService.Server.Forward` | 6.824-labs/pbservice/server.go:80-97 | A Put is stored, and anything answered OK, only by a server that takes itself for the backup; otherwise nothing changes. |
| `PBService.Server.Sync` | 6.824-labs/pbservice/server.go:99-117 | Adopts the pinged view if its number is another one; the store becomes the one sent exactly if the server is then the backup, which is when it answers OK. |
| `PBService.Server.Tick` | 6.824-labs/pbservice/server.go:125-162 | The view after a tick; a failed Sync is over with the first turn of the retry loop that finds no backup or whose call goes through, with that turn's view, and not over if there is none. |
| `PBTicks.UndisturbedTick` | 6.824-labs/pbservice/server.go:125-162 | The ping, the Sync call and any number of turns of the retry loop as steps of the system leave the server with the view that `Tick` returns, out of its tick exactly if that has finished, and its store as it was. |
| `PBTicks.TurnsAreTheLoop` | 6.824-labs/pbservice/server.go:149-157 | The steps of any number of turns add up to the retry loop. |
| `LockRuns.OneAtomicLockTable` | 6.824-labs/lockservice/server.go:31-88 | In every interleaving with crashes there is one sequential history: each Uuid at most once, each reply its request's result there, each result the one the successes before it call for (`Granted`), Locks minus Unlocks 1 if held and 0 if not, servers in service at its table. |
| `LockRuns.GrantedByTheCounts` | 6.824-labs/lockservice/server.go:40-47 | In any sequential history a Lock succeeds if and only if the successful Locks and Unlocks of its name before it are equal in number, an Unlock if and only if there is one Lock more. |
| `LockRuns.HeldIsLocksMinusUnlocks` | 6.824-labs/lockservice/server.go:40-47 | In any sequential history, successful Locks minus successful Unlocks of a name is 1 if it is held, else 0. |
| `LockRuns.RepliesAgree` | 6.824-labs/lockservice/client.go:71-113 | Two replies for one Uuid, from whichever server, are the same. |
| `LockRuns.AnsweredBeforeIssued` | 6.824-labs/lockservice/client.go:71-113 | The history respects real time: a request answered before another was issued comes first. |
| `LockRuns.HistoryOnlyGrows` | 6.824-labs/lockservice/server.go:31-88 | What took effect is never undone or reordered. |
| `LockRuns.UninterruptedCall` | 6.824-labs/lockservice/server.go:31-57 | The three steps of a call add up to what the handlers do at both servers. |
| `LockRuns.StepKeeps` | 6.824-labs/lockservice/server.go:31-88 | Every step, crashes and stray forwarded calls included, keeps both tables on the history. |
| `LockService.LockServer.Handle` | 6.824-labs/lockservice/server.go:31-88 | A served Uuid gets its recorded result and changes nothing; otherwise Lock succeeds exactly on a lock not held, Unlock on a held one, success alone changes the lock, the result is recorded, and a backup that can be reached serves the same request. |
| `LockService.LockServer.ServeAlone` | 6.824-labs/lockservice/server.go:31-88 | The same at a backup, which forwards nothing. |
| `LockService.Call` | 6.824-labs/lockservice/client.go:71-113 | However the primary fares, one clerk request counts once at a live backup in step with it, and the clerk gets its result: for a new Uuid, success exactly if the lock was free for a Lock, or held for an Unlock. |
| `UrlKey.KeyRoundTrip` | goto/key.go:5-19 | Keys are canonical, decoding undoes `genKey`, and n < 62^k exactly when the key has at most k digits. |
| `UrlKey.StringRoundTrip` | goto/key.go:5-19 | Every canonical string is the key of the number it decodes to. |
| `UrlKey.KeysDiffer` | goto/key.go:5-19 | Different numbers have different keys. |
| `UrlKey.DigitCount` | goto/key.go:10-17 | Numbers below 62^k are exactly those with at most k digits. |
| `UrlKey.ElevenDigits` | goto/key.go:10-17 | Below 2^63 at most 11 digits are written. |
| `UrlKey.GenKey` | goto/key.go:5-19 | The backward-filling loop stays in its 20 bytes, ends, and yields the key; a negative count yields the empty string. |
| `UrlStore.KeysAreUniqueAndDense` | goto/store.go:60-88 | Under any interleaving of Count, Set and save, the keys are those of 0 to count-1, one per successful Put, all different, each leading to its Put's URL. |
| `UrlStore.StoredUrlsNeverChange` | goto/store.go:64-67 | A stored URL is there, unchanged, in every later state. |
| `UrlStore.SetSucceedsIffUndisturbed` | goto/store.go:77-83 | A Set succeeds if and only if the store still has the size that was counted. |
| `UrlStore.FailedSetWasOvertaken` | goto/store.go:77-83 | A Set fails only if another Put succeeded since its Count. |
| `UrlStore.LeftAloneItReturns` | goto/store.go:77-88 | From every reachable state a Put left alone from its Count on sets the next key, which is free, to its URL, hands over that record last, and returns the key. |
| `UrlStore.OvertakenPutCountsAgain` | goto/store.go:77-83 | A Put whose Set is refused changes nothing and counts again. |
| `UrlStore.AloneItSucceedsIffTheNextKeyIsFree` | goto/store.go:77-83 | On any store, a Put left alone succeeds at its first turn, or never if the next key is taken. |
| `UrlStore.URLStore.Get` | goto/store.go:49-58 | The stored URL, or not found. |
| `UrlStore.URLStore.Set` | goto/store.go:60-69 | Refuses an existing key, and otherwise adds exactly this entry. |
| `UrlStore.URLStore.Count` | goto/store.go:71-75 | The number of entries. |
| `UrlStore.URLStore.Put` | goto/store.go:77-88 | Run alone on any store: the key of the next number, fresh and mapped to the URL, or no return exactly if it is taken; on a store that only Put filled it is not. |
| `UrlStore.LoadedInOrder` | goto/store.go:90-108 | A store loaded from records in the order of their keys holds exactly the first keys, so the next Put succeeds at once. |
| `UrlStore.LoadingGivesTheStoreBack` | goto/store.go:84-108 | In every run, loading the records handed over so far gives back exactly the stored URLs, except those of Puts whose record is still to be handed over; with none of these, the whole store. |
| `UrlStore.SavedOnlyGrows` | goto/store.go:84-86 | Records once handed over stay, in their order. |
| `UrlStore.FirstRecordCounts` | goto/store.go:60-69 | Of several records with one key, a load keeps the first. |
| `UrlStore.OvertakenSaveStopsPut` | goto/store.go:84-86 | A concrete run whose saved records, loaded again, make a store on which a lone Put never ends. |
| `DServer.BlockingQueue` | 15-440/class07/dserver/dserver.go:41-79 | On every input: a legal history of a FIFO queue, deferrable requests answered in arrival order and the others likewise, none forgotten, and one of the two buffers empty whenever it waits. |
| `DServer.FirstInFirstOut` | 15-440/class07/dserver/dserver.go:56-73 | Since the last Flush, removed values followed by buffered ones are the inserted ones, in order. |
| `DServer.EveryAnswerIsRight` | 15-440/class07/dserver/dserver.go:56-77 | On every input, each answer is the one that the values inserted and removed before it since the last Flush call for: Front and Remove get the next value not yet removed, Empty is true exactly when there is none, Contents and String list them all. |
| `DServer.RealElements` | 15-440/class07/dserver/dserver.go:46-54 | Every Remove and every Front is answered with an element. |
| `DServer.AnswersArePermanent` | 15-440/class07/dserver/dserver.go:41-79 | Further requests only add answers. |
| `DServer.RunServer` | 15-440/class07/dserver/dserver.go:41-79 | The loop over the two linked lists computes those answers and leaves those buffers. |
| `DServer.Turn` | 15-440/class07/dserver/dserver.go:44-78 | One turn serves one request, defers one, or waits. |
| `DServer.NextRequest` | 15-440/class07/dserver/dserver.go:45-55 | A deferred request goes first while the buffer has something; a new one that needs an element of an empty buffer is deferred. |
| `DServer.Dispatch` | 15-440/class07/dserver/dserver.go:56-77 | The effect on the buffer and the reply, operation by operation; a list request gets the live buffer. |
| `Rss.EachItemOnceInOrder` | Google-IO/2013/feed-reader/rss.go:61-107 | In every run, items delivered followed by `pending` are the first occurrence of each GUID among all items fetched without error, in order, and `pending` is at most 9 plus the largest batch. |
| `Rss.OncePerGuid` | Google-IO/2013/feed-reader/rss.go:94-99 | First occurrences contain each GUID exactly once and omit none. |
| `Rss.WhatTheLoopTakes` | Google-IO/2013/feed-reader/rss.go:61-107 | Before closing, a fetch is started exactly if no fetch started before is without a result and fewer than ten items are pending; a result counts exactly if there is such a fetch; the oldest pending item is what is handed over. |
| `Rss.ErrorOfTheLastFetch` | Google-IO/2013/feed-reader/rss.go:86-101 | In every run the error at any time, and so the one reported at closing, is that of the last fetch result taken; none if there was no result. |
| `Rss.Loop` | Google-IO/2013/feed-reader/rss.go:48-108 | The loop's variables follow that state machine for any sequence of select cases, and closing returns the last error. |
| `Rss.TakeIn` | Google-IO/2013/feed-reader/rss.go:94-99 | The loop over one batch admits the unseen GUIDs in order. |
| `Timeline.CutSortCut` | 15-440/P2-F11/tribimpl/tribimpl.go:239-262 | Joining each list's newest 100, sorting by time and cutting to 100 is a newest-100 selection of the union: nothing left out is newer than anything chosen. |
| `Timeline.LeftOutIsNotNewer` | 15-440/P2-F11/tribimpl/tribimpl.go:160-181 | A post that the cut of its own list drops is not newer than any of the first 100 after the merge. |
| `Timeline.TribServer.GetTribbles` | 15-440/P2-F11/tribimpl/tribimpl.go:146-183 | An OK answer has the smaller of 100 and the number of ids, and its tribble i is the stored message of the id i places before the last; for a list in posting order that is a newest-100 selection, newest first. An unknown user, or one without posts, is reported with an empty list; an error exactly when one of the newest posts is not stored yet. |
| `Timeline.LatestIsNewest` | 15-440/P2-F11/tribimpl/tribimpl.go:160-181 | The last 100 of a list in posting order, read backwards, are a newest-100 selection, newest first. |
| `Timeline.TribServer.PostTribble` | 15-440/P2-F11/tribimpl/tribimpl.go:185-219 | With nothing in between, a post adds one message at the end of the author's list under a new id, touches nobody else, and keeps posting order. |
| `Timeline.TribServer.AppendId` | 15-440/P2-F11/tribimpl/tribimpl.go:191-201 | The first half: a new id at the end of the author's list, or an unknown user and no change. |
| `Timeline.TribServer.StampAndStore` | 15-440/P2-F11/tribimpl/tribimpl.go:203-215 | The second half: the message with its time, and nothing else. |
| `TimelineRuns.CompleteIffNotBusy` | 15-440/P2-F11/tribimpl/tribimpl.go:196-215 | In every run of overlapping posts, a user's list has all its messages if and only if no post of this user is under way; GetTribbles then does not fail. |
| `TimelineRuns.OrderedUnlessOvertaken` | 15-440/P2-F11/tribimpl/tribimpl.go:196-215 | All users' posts are in posting order at all times if and only if no post is stamped after a later one of the same user, with a later time. |
| `TimelineRuns.SinglePostersKeepOrder` | 15-440/P2-F11/tribimpl/tribimpl.go:196-215 | If no two posts of one user overlap, the list of every user who is not posting is complete and in posting order. |
| `TimelineRuns.TimelineOfSinglePosters` | 15-440/P2-F11/tribimpl/tribimpl.go:239-262 | In every run in which no two posts of one user overlap, the timeline of a reader none of whose followed users is just posting is a newest-100 selection of all their posts, whatever the other users do, and no error occurs. |
| `TimelineRuns.OverlapBreaksOrder` | 15-440/P2-F11/tribimpl/tribimpl.go:196-215 | A concrete run of two overlapping posts that leaves a list out of order. |
| `Timeline.TribServer.GetTribblesBySubscription` | 15-440/P2-F11/tribimpl/tribimpl.go:228-265 | The timeline is sorted newest first and, the followed users' lists being in posting order, a newest-100 selection of all their posts; an error exactly when one of them fails. |
| `Timeline.TribServer.Collect` | 15-440/P2-F11/tribimpl/tribimpl.go:245-256 | The loop joins the followed users' latest posts, unknown names contributing nothing, and stops at the first error. |
| `Timeline.SortNewestFirst` | 15-440/P2-F11/tribimpl/tribimpl.go:221-225 | A permutation in descending order of time. |
| `Ring.Libstore.PickServer` | 15-440/P2-F11/libstore/libstoreimpl.go:66-84 | The chosen node is the least id at or after the hash, or the least of all, and the connection returned is to that node. |
| `Ring.JoiningNodeTakesItsArc` | 15-440/P2-F11/libstore/libstoreimpl.go:67-74 | A new node takes exactly the hashes in (predecessor, itself]; all others stay where they were. |
| `Ring.HasPredecessor` | 15-440/P2-F11/libstore/libstoreimpl.go:67-74 | Every non-empty ring has such a predecessor. |
| `Ring.OrderDoesNotMatter` | 15-440/P2-F11/libstore/libstoreimpl.go:61-74 | With distinct ids the choice depends on the set of nodes only, whatever order the list arrived in. |
| `Ring.SuffixDoesNotMatter` | 15-440/P2-F11/libstore/libstoreimpl.go:67 | All keys of one user hash alike. |
| `Ring.Libstore.constructor` | 15-440/P2-F11/libstore/libstoreimpl.go:53-63 | The same nodes, sorted, with no connection open. |
| `Ring.Libstore.SortNodes` | 15-440/P2-F11/libstore/libstoreimpl.go:61 | Sorted by id, no node lost or added. |
| `Ring.Libstore.Swap` | 15-440/P2-F11/libstore/libstoreimpl.go:24 | Exchanges two nodes and keeps the rest. |
| `LeaseRuns.ListsAreTheHistory` | 15-440/P2-F11/cache/cache.go:48-89 | In every run of concurrent Gets, Grants and Revokes, each key's list holds exactly its misses of the last ten seconds at all times if and only if no miss is recorded in an entry that has been dropped from the cache. |
| `LeaseRuns.ListsAfterLookup` | 15-440/P2-F11/cache/cache.go:74-89 | After the eviction round of a lookup each list then equals the whole history of its key cut to the last ten seconds. |
| `LeaseRuns.HeldEntryIsDroppedIff` | 15-440/P2-F11/cache/cache.go:51-86 | The entry that a Get has looked up has been dropped if and only if some lookup in between found no recent miss in it, such as one before its first push. |
| `LeaseRuns.ServedLeaseIsAlmostValid` | 15-440/P2-F11/cache/cache.go:48-63 | In every run, a value is served under a lease that began after the lookup, or that has run out for no longer than the call took from its lookup to its end. |
| `LeaseRuns.PromptCallServesValidLease` | 15-440/P2-F11/cache/cache.go:48-63 | So a call that takes no time serves only an unexpired lease. |
| `LeaseRuns.ServesTheLastGrant` | 15-440/P2-F11/cache/cache.go:48-120 | In every run a Get serves a value if and only if its entry was granted one, and since the last grant no revoke and no lookup that found the lease run out has come; the value, time and duration are those of that last grant, which was for the same key. |
| `LeaseRuns.ExpiredLeaseIsServed` | 15-440/P2-F11/cache/cache.go:48-63 | A concrete run that serves a value 10 seconds after its lease ran out. |
| `LeaseRuns.MissIsLost` | 15-440/P2-F11/cache/cache.go:48-72 | A concrete run in which a miss is lost and a Grant for a key missed just before panics. |
| `LeaseRuns.WantsLease` | 15-440/P2-F11/cache/cache.go:65-68 | A lease is wanted whenever the plain count of misses in the window, this one included, exceeds 3, and only then unless a noted miss left the window since the lookup. |
| `LeaseRuns.RecentlyMissedIsCached` | 15-440/P2-F11/cache/cache.go:105-112 | While no miss is lost, Grant does not panic on a key missed within the window. |
| `LeaseCache.CacheEntry.Clean` | 15-440/P2-F11/cache/cache.go:26-40 | Stopping at the first recent time equals filtering the whole list to the last ten seconds. |
| `LeaseCache.CacheEntry.Finish` | 15-440/P2-F11/cache/cache.go:58-71 | The second half of Get: a granted entry is served unchanged; otherwise the miss is noted and a lease wanted when the list exceeds 3. |
| `LeaseCache.CacheEntry.Grant` | 15-440/P2-F11/cache/cache.go:114-120 | Value, time and duration of the lease; the list stays. |
| `LeaseCache.CacheEntry.Revoke` | 15-440/P2-F11/cache/cache.go:96-100 | Ends the lease, changes nothing else. |
| `LeaseCache.Cache.Evict` | 15-440/P2-F11/cache/cache.go:74-89 | In any iteration order: expired leases end, lists are cut to the window, empty entries go, all others stay the objects they were. |
| `LeaseCache.Cache.Lookup` | 15-440/P2-F11/cache/cache.go:48-56 | The first half of Get: the entry of the cache after an eviction round, made new if there is none. |
| `LeaseCache.Cache.Get` | 15-440/P2-F11/cache/cache.go:48-72 | With nothing in between, a hit exactly under an unexpired lease of a key missed within the window. |
| `LeaseCache.Cache.Find` | 15-440/P2-F11/cache/cache.go:91-112 | The entry under a key, or none, where Grant panics. |

## Left out

- Sockets, RPC, JSON, files, logging, flags and wall clocks: datagrams are out-parameters, calls are steps with their outcomes, time is a parameter.
- One reading of the clock per locked step: `evict` reads it once per entry; the model uses one value for the round.
- LSP: closing all connections, and the client's closing loop. Reaching the blocking self-send at 15-440/P1-F11/lsp/lsp_conn.go:159 is the `done` event, after which that endpoint is silent. In the two-party runs no connection is removed; the runs of many clients have removal and reconnecting.
- LspServer.Server.HandleRemoval: when ids collide, a removal can take out a connection that still runs; what that connection does afterwards, outside the map, is not modelled.
- LSP: in the two-party runs, data or acks that reach a server without a connection are dropped; `HandleUdpPacket` and the runs of many clients have the crash.
- PBRuns.NoAcknowledgedWriteIsLost: durability only, no linearizability; a stale read is possible while a promoted backup has not learned its view.
- Primary/backup: restart of a server under its old name, and the data of a view whose servers are all lost.
- View numbers are unbounded; the source's are unsigned machine words.
- LockService.Call: `Call` is Clerk.Lock and Clerk.Unlock in one method, as `Handle` is Lock and Unlock; the generation of Uuids is the caller's.
- DServer.Dispatch: the reply `Live` stands for the buffer object itself; what a client then sees of later changes, or does to it without the server, is not modelled. A rendering is given by the values it is made of.
- UrlStore.URLStore.Put: the file format and the flushing of the writer, and the ProxyStore. The loop is cut short where it could only repeat.
- Feed reader: fetch delays, and merging of several subscriptions.
- Timeline.SortNewestFirst: stands for the library sort; every sorted permutation would satisfy the same contract. Ring.Libstore.SortNodes likewise.
- Tribbler: creating users, following, several servers with one user, the spelling of store keys; the store is a map of lists and messages whose calls succeed.
- Ring.Libstore.PickServer: the hash is any function from strings to numbers.
- End-to-end lease coherence in 15-440/P2-F11/storageimpl/storageimpl.go, which that code does not keep.
- The stub packages of 6.824-labs (paxos, kvpaxos, shardmaster, shardkv) and earlier copies of the modelled code, which would add nothing.
