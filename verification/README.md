# radrpc: a model of the RPC engine

radrpc is a C++ library for remote calls over WebSocket streams. A client thread lends its bytes to an IO
thread, waits until they are written, and then waits in a table of pending ids for the response. A server
session reads requests, calls bound handlers and writes their responses, and a session manager broadcasts
messages shared by reference count. This project models that engine and proves what it is for: that a
response reaches the caller that asked for it, that lent bytes are never referenced after a call returned,
that no wake-up is lost, that counts agree with what exists, and that sessions and workers end as they should.

## How the model is laid out

The library beneath (Asio, Beast, the sockets) is an environment that completes started operations in any
order; an open connection is a FIFO channel of whole messages in each direction. Every handler of a session
is one atomic step; caller threads interleave at their locks and waits. A *run* is any sequence of actions;
an action that is not enabled changes nothing. A theorem about runs therefore speaks of every interleaving.

- `Wire.dfy`: the 16-byte header and its round trip.
- `Pump.dfy` (`WritePump`): the send queue and write loop that both kinds of session share.
- `Cache.dfy` (`ResponseCache`): the table of pending responses, one function for each locked section.
- `CacheLocks.dfy`: the same table with its locks and condition variables, run by any number of threads.
- `ClientCore.dfy`: the client's pump with the promises its callers wait on.
- `ServerCore.dfy`: the server's read, call and write loop.
- `Rpc.dfy`: one client session and one server session, with any number of callers.
- `Components.dfy`: each run of that composed system is a run of each of its parts, so what is proved of the
  pump, the promises, the table and the server session alone holds inside the whole.
- `ClientLifecycle.dfy`: the client object around its sessions: connect, disconnect, send, destruction.
- `Broadcasts.dfy`: the session manager, its reference counts, the registry and the listener.
- `Keepalive.dfy`: the timer that pings and closes (sections 5.5.1 to 5.5.3 of RFC 6455).
- `Workers.dfy`: start, asynchronous start and stop of the server's worker threads.
- `DataCache.dfy`, `DataQueue.dfy`, `Stream.dfy`, `ClientSession.dfy`, `ServerSession.dfy`,
  `SessionManager.dfy`: the objects themselves, updated in place. The contract of each handler equates the
  object's new abstract state with a step of the machines above, the environment's delivery of bytes being
  a step of its own (`Deliver`), and `Valid()` of the sessions contains the invariants of those machines.

## Where the code does less than one might expect

Each of these is a lemma that says exactly when the expectation is met:

- A `send` that reports no error need not have written anything: the promise it finds ready is true exactly
  when no completion up to that entry's own found the write failed, a close begun or received, or a read
  error (`ClientCore.ReadyMeansWrittenIff`), and one entry may even be out and resolved false
  (`ClientCore.ReadyMeansSentIff`; runs in `ClientCore.ReadyWithoutWriting`, `ClientCore.SentButResolvedFalse`).
- `wait` may return true without data, and false with data (`ResponseCache.TrueWaitHasDataIff`,
  `ResponseCache.FalseWaitIsEmptyIff`; runs in `ResponseCache.LateResponse`).
- `remove_obsolete` takes out rows that are being waited on, against its comment in
  `include/radrpc/detail/data.hpp:328-330` (`ResponseCache.WaitedRowSparedIff`; a run in
  `ResponseCache.WaitedRowDropped`).
- A close requested by a handler may be forgotten when a ping or pong is processed before the next timer
  handler (`Keepalive.RequestedCloseHappensIff`; a run in `Keepalive.PongCancelsClose`).
- `connections()` counts live broadcasts too (`Broadcasts.ConnectionsAreSessionsAndBroadcasts`; a run in
  `Broadcasts.BroadcastCountsAsConnection`).

## Model

| member | source | states |
|---|---|---|
| Wire.SplitFrame | include/radrpc/detail/data.hpp:65-84 | every call id, result id and body comes back from the bytes written for it |
| Wire.FrameSplit | include/radrpc/impl/client/client_session.hpp:204-232 | a message is refused exactly when it is the frame of nothing; otherwise it is the frame of what the reader sees in it |
| Wire.FrameLayout | include/radrpc/detail/data.hpp:65-84 | which byte of a message holds which byte of which field: call id, padding and result id in this order, low bytes first, then the body |
| Rpc.ShortMessageTouchesNothing | include/radrpc/impl/client/client_session.hpp:204-231 | a message shorter than a header changes no row of the client's table |
| ServerCore.ShortMessageIgnored | include/radrpc/impl/server/server_session.hpp:194-243 | a message shorter than a header changes no queue, flag or handler state of the server |
| WritePump.PumpIsFifo | include/radrpc/impl/client/client_session.hpp:112-175 | in every run one write is in flight exactly while the queue is not empty, it is the front entry, at most 500 are queued, and the messages delivered are the first accepted ones, in order and once each |
| WritePump.WritesNeverOverlap | include/radrpc/impl/server/server_session.hpp:249-307 | a write is started only when none is in flight |
| WritePump.HistoryOnlyGrows | include/radrpc/impl/client/client_session.hpp:112-175 | what was accepted, completed, delivered or closed stays so, and a stopped pump stays stopped |
| WritePump.SilenceAfterStop | include/radrpc/impl/client/client_session.hpp:112-175 | after a close was started or received, or an error latched, no write is started and nothing accepted; the queue is emptied by the next completion and stays empty |
| WritePump.PumpDrains | include/radrpc/impl/client/client_session.hpp:158-175 | as long as writes complete without an error a running pump sends everything it accepted; no entry gets stuck |
| WritePump.WhatIsSentGoesOut | include/radrpc/impl/client/client_session.hpp:112-175 | up to 500 messages handed to a fresh session are all accepted and all delivered, in order |
| WritePump.OneCloseAtMost | include/radrpc/impl/client/client_session.hpp:590-600 | a close is started at most once, and not after one was received |
| WritePump.StoppedIff | include/radrpc/impl/client/client_session.hpp:158-258 | in every run a pump is stopped exactly when a close was asked for, a close frame came, a read ended in an error or a write failed; and it started its one close exactly when asked to, or on giving up, before any close frame |
| ClientCore.PromiseConservation | include/radrpc/detail/data.hpp:449-484 | in every run, of the accepted entries those at the end are still queued and unresolved; each other one's promise holds true or false or was let go; counted over the promises, accepted = true + false + expired + queued, and each recorded outcome says what the promise holds |
| ClientCore.PromiseMeaning | include/radrpc/detail/data.hpp:449-484 | true means transmitted; at most one transmitted message, the head at shutdown, is resolved false; queued entries are unresolved; those gone are resolved unless their caller let go |
| ClientCore.ResolvedOnce | include/radrpc/detail/data.hpp:449-484 | a promise once set never changes |
| ClientCore.RefusedIsNeverResolved | include/radrpc/impl/client/client_session.hpp:112-124 | the promise of a refused entry is never set |
| ClientCore.ReadyMeansWrittenIff | include/radrpc/impl/client/client_session.hpp:158-175 | from any reachable state with an entry queued: when its promise is ready it holds true if and only if no completion up to the one that took it off found the write failed, a close started or received, or a read error |
| ClientCore.ReadyMeansSentIff | include/radrpc/impl/client/client_session.hpp:342-353 | in every run the bytes of a ready message are out exactly when its promise holds true, or it was the one in flight when the session gave up and had just gone out |
| ClientCore.SentButResolvedFalse | include/radrpc/detail/data.hpp:470-484 | a run in which the bytes are out and the promise holds false |
| ClientCore.ReadyWithoutWriting | include/radrpc/detail/data.hpp:470-484 | a run in which the promise is ready and no byte was written |
| ResponseCache.CacheLifecycle | include/radrpc/detail/data.hpp:204-326 | in every run the table stays within its maximum, ids are never 0 and increase, a swapped row in the table was never waited on, and a waiting row in it has received nothing |
| ResponseCache.QueueIsFresh | include/radrpc/detail/data.hpp:204-217 | 0 exactly when the table is full; otherwise an id no row ever had |
| ResponseCache.ErasedByAgeAlone | include/radrpc/detail/data.hpp:336-354 | whatever happens to other rows, and however many responses come for it, a row nobody waits for yet is still in the table exactly when no run of `remove_obsolete` found its age, counted from `queue`, at or above the validity given there |
| ResponseCache.MillisTruncates | include/radrpc/detail/data.hpp:336-354 | ages are whole milliseconds, rounded toward zero: at or above a validity of some milliseconds exactly from that many nanoseconds on |
| ResponseCache.EarlyResponse | include/radrpc/detail/data.hpp:270-326 | a response that comes before its caller waits is kept: from `queue` on, unless too old, the wait is true at its lookup and hands out the last one, after which every later wait is false at once; without a response the waiter registers |
| ResponseCache.WaitedRowEnds | include/radrpc/detail/data.hpp:293-387 | from the lookup that registered a waiter on: the row is swapped exactly when a response or `clear` came before it was found too old, holds the bytes of the first, and is in the table as long as neither happened |
| ResponseCache.WaitedRowSparedIff | include/radrpc/detail/data.hpp:336-354 | a waited-on row is erased exactly when it is too old, and its response then finds no row |
| ResponseCache.WaitedRowDropped | include/radrpc/detail/data.hpp:336-354 | a run in which a row that is waited on is erased and its response finds nothing |
| ResponseCache.GoneIsGone | include/radrpc/detail/data.hpp:270-283 | an id that left the table never comes back, and `wait` on it returns false at once |
| ResponseCache.AfterClearNoWaitBlocks | include/radrpc/detail/data.hpp:374-387 | after `clear` every id issued before makes `wait` return at once, in every later state |
| ResponseCache.TrueWaitHasDataIff | include/radrpc/detail/data.hpp:251-297 | from `queue` on, with any actions in between: a wait ends with true, at its lookup or later, exactly when `swap_notify` or `clear` found the row, and hands out the bytes of the last `swap_notify` that did, if any |
| ResponseCache.FalseWaitIsEmptyIff | include/radrpc/detail/data.hpp:251-261 | after a false `wait` the buffer is empty exactly when no `swap_notify` with bytes came between the two row-lock sections |
| ResponseCache.LateResponse | include/radrpc/detail/data.hpp:251-261 | a run in which a caller that timed out is handed the response, and one in which a caller told true gets nothing |
| CacheLocks.NoSleeperIsForgotten | include/radrpc/detail/data.hpp:270-326 | in every run at lock granularity, a thread asleep on a swapped row is about to be notified by the owner of the table lock |
| CacheLocks.SleeperIsWoken | include/radrpc/detail/data.hpp:305-326 | in every run, a thread asleep on a swapped row is woken by the very next step of the thread that owns the table lock, and nothing blocks that step |
| CacheLocks.SwappedStays | include/radrpc/detail/data.hpp:305-326 | a swapped row stays swapped |
| CacheLocks.WaiterSeesSwap | include/radrpc/detail/data.hpp:293-297 | once `swap_notify` or `clear` went over a waiter's row, its next look at the predicate, however late, ends the wait with true |
| CacheLocks.WaitAnswersIff | include/radrpc/detail/data.hpp:293-297 | in every run a wait ends with true exactly at a look that finds its row swapped, and with false exactly at one that does not after its time is up; a wake-up without cause ends nothing |
| CacheLocks.EarlySwapStays | include/radrpc/detail/data.hpp:305-326 | in every run, from `queue` on, a row stays in the table, however many `swap_notify` go over it, until a thread comes to wait on it, clear it or drop it as too old |
| CacheLocks.WaitErasesSwapped | include/radrpc/detail/data.hpp:284-292 | a wait takes its row out of the table exactly if it finds it swapped, and marks it otherwise |
| CacheLocks.TakeMovesBytes | include/radrpc/detail/data.hpp:251-261 | whatever a wait answers, it hands out the bytes that lie in its row, and the row keeps none |
| CacheLocks.NoLockCycle | include/radrpc/detail/data.hpp:270-387 | a thread waiting for a lock holds no row lock, nor the table lock if that is what it wants, and the owner it waits for can go on, or waits for one that can |
| CacheLocks.AfterClearNothingWaits | include/radrpc/detail/data.hpp:374-387 | an id issued and no longer in the table never enters it again, at lock granularity |
| CacheLocks.ClearReachesAll | include/radrpc/detail/data.hpp:374-387 | whatever other threads do meanwhile, when `clear` is about to give the table lock back the table is empty and every row listed when it took the lock is swapped |
| CacheLocks.WaitAfterClear | include/radrpc/detail/data.hpp:270-283 | from then on, in every later state, `wait` on any id issued up to then leaves at its lookup |
| CacheLocks.HandedOnce | include/radrpc/detail/data.hpp:251-326 | in every run the bytes of one `swap_notify` are handed to at most one caller, however many wait on the id, lie in at most one row, and once handed out in none |
| ServerCore.ResponseOrder | include/radrpc/impl/server/server_session.hpp:194-260 | in every run each message queued is a broadcast or repeats the header of a request read and carries its handler's bytes, no handler having asked to close up to then; responses stand in the order of their requests, at most one each |
| ServerCore.ResponsesExactly | include/radrpc/impl/server/server_session.hpp:194-260 | in every run the queue was given exactly, in order, each broadcast with room on a running pump, and the response of each request whose id is bound, if no close, error or wish to close came before, it is not empty, and fewer than 500 are queued; handlers ran for exactly the requests with a bound id before any close or failed write |
| ServerCore.BoundCloseTakesEffect | include/radrpc/impl/server/server_session.hpp:213-222 | once a handler asked to close, a session without pings closes at the request, one with pings does not yet, and both go on reading |
| ServerCore.ResponsesGoOut | include/radrpc/impl/server/server_session.hpp:249-307 | as long as writes complete without an error a running session delivers all it queued |
| ServerCore.SessionIsPump | include/radrpc/impl/server/server_session.hpp:249-330 | in every run the writes of a session are those of a write pump given its responses, broadcasts, errors and closes; it reads exactly until a read fails or a message follows a close frame |
| Rpc.EndToEndCorrelation | include/radrpc/impl/client/client_session.hpp:194-232 | in every run with any number of callers, a non-empty payload handed out by `wait` is what the handler left for the one request read that is, byte for byte, this call's |
| Rpc.ResultAnswersAnAttempt | include/radrpc/client.hpp:459-493 | what `send_recv` returns after any number of attempts, its buffer kept from one to the next, is empty or the answer to the request of one of these attempts |
| Rpc.ServedInOrderAtMostOnce | include/radrpc/impl/server/server_session.hpp:313-330 | what the server reads is a prefix of what the client accepted, and no call's request is read twice |
| Rpc.WithoutIdTouchesNothing | include/radrpc/impl/client/client_session.hpp:204-232 | broadcasts and replies to a plain `send` never touch a row |
| Rpc.ResponseCanArrive | include/radrpc/impl/client/client_session.hpp:362-423 | whatever the request and the response, some run hands exactly the response to the caller |
| Rpc.EarlyResponseCanArrive | include/radrpc/impl/client/client_session.hpp:362-423 | the same when the response is read before its caller waits for it |
| Rpc.ReportsWhatHappened | include/radrpc/impl/client/client_session.hpp:313-423 | in every run a plain send reports true exactly if its promise was ready before its time was up; a call with a response reports true exactly if its row was found by a reply read, or by the end of reading, before its wait ended, and false if the table was full, the promise late, the row gone or the time up; it is handed the bytes of the last reply that found its row |
| Components.SystemRunsItsParts | include/radrpc/impl/client/client_session.hpp:112-232 | in every run of client and server together the server session, the client's pump with its promises, and the table of responses are where their own machines get by the actions that concern them |
| Components.ReadsUntilEnded | include/radrpc/impl/client/client_session.hpp:194-232 | the client reads until a read fails or a message follows a close frame |
| ClientLifecycle.BorrowedBufferSafety | include/radrpc/client.hpp:399-493 | once `send` or `send_recv` has returned, no posted closure that can still run, no queue entry and no write in flight refers to its bytes, whatever other threads connect and disconnect |
| ClientLifecycle.SingleLiveSession | include/radrpc/client.hpp:119-141 | at most one session exists, `m_expired` is false exactly while one is built or alive, `run` never assigns to a joinable thread, and the promise of each `run` is set exactly once |
| ClientLifecycle.NoUseAfterDestruction | include/radrpc/client.hpp:196-205 | a session is alive while a call works on it, and calls inside the write lock exclude all others |
| ClientLifecycle.CallsReportTheirAttempts | include/radrpc/client.hpp:309-441 | in every run `send` and `connect` return true exactly after an attempt that succeeded and false once every attempt has failed; after an attempt without a session `send` connects, after one in an error it disconnects |
| ClientLifecycle.EstablishedIff | include/radrpc/impl/client/client_session.hpp:465-582 | a session is established exactly when its resolve, connect and handshake all succeeded, and not as soon as one failed |
| ClientLifecycle.SessionIsPump | include/radrpc/impl/client/client_session.hpp:112-258 | over any run from its making on, a session writes as a fresh write pump does that is given the sends that still found it alive, with the ids and bytes lent for them, and its errors and closes |
| ClientLifecycle.ConnectSendDisconnect | include/radrpc/client.hpp:309-441 | a run in which `connect`, `send` and `disconnect` all succeed, the message is sent and the session is gone |
| Broadcasts.BroadcastAccounting | include/radrpc/impl/server/server_session.hpp:416-497 | `m_msg_queued` is the number of counted messages that a caller, a posted handler or a queue still refers to, never negative and at most 499 plus the number of threads |
| Broadcasts.ConnectionsAreSessionsAndBroadcasts | include/radrpc/impl/server/server_session.hpp:529-553 | in every run `connections()` is the live sessions plus live broadcasts, other temporary references and deleters on their way out, and is the number of sessions exactly when there are none of the others |
| Broadcasts.BroadcastCountsAsConnection | include/radrpc/impl/server/server_session.hpp:430-434 | a run in which one session and one broadcast make two connections, and a listener with room turns a connection away |
| Broadcasts.SessionCap | include/radrpc/impl/server/listener.hpp:76-129 | a plain listener keeps the live sessions at or below the maximum in every run |
| Broadcasts.AdmittedIff | include/radrpc/impl/server/listener.hpp:76-129 | in every run a connection is admitted exactly when live sessions, live broadcasts, other temporary references and deleters on their way out are together below the maximum |
| Broadcasts.RegistryAgrees | include/radrpc/impl/server/server_session.hpp:559-587 | in every run each id in the registry leads to an established session under that id that is not yet destroyed, every such session is found, and a broadcast is copied to exactly those it asks for |
| Broadcasts.EachTargetGetsOne | include/radrpc/impl/server/server_session.hpp:437-458 | in every run a broadcast that is through with its copy has posted its message exactly once to each session copied, but for those no longer alive, and to no other |
| Broadcasts.BroadcastGoesOutIff | include/radrpc/impl/server/server_session.hpp:416-458 | from any state of any run a broadcast, while other threads pause, comes to be posted as a counted message of its own to exactly the listed sessions asked for, if fewer than 500 are counted and anything is connected, and otherwise changes nothing |
| Broadcasts.SessionIsPump | include/radrpc/impl/server/server_session.hpp:249-307 | in any run a session writes as a write pump does that is given the posted broadcasts that ran there, its responses, errors and closes in this order |
| Keepalive.TimeoutIsJustified | include/radrpc/impl/server/server_session.hpp:896-947 | at most one timer wait is outstanding, and a shutdown out of state `ping_send` comes at least `ping_delay` after the last ping with no control frame in between |
| Keepalive.TimerGoesOn | include/radrpc/impl/server/server_session.hpp:896-920 | with pings, in every run one timer wait is outstanding and set to expire within `ping_delay`, until a handler shuts down or fails; each handler before that pings once exactly if the deadline has passed on an open stream with nothing pending, and sets the timer again |
| Keepalive.DeadPeerIsShutDown | include/radrpc/impl/server/server_session.hpp:896-920 | from any point of any run at which the timer goes, two handlers `ping_delay` apart with no control frame in between shut down |
| Keepalive.LivePeerIsKept | include/radrpc/impl/server/server_session.hpp:896-947 | a peer with an open stream that answers each ping within `ping_delay` is never shut down unless a handler asks to close |
| Keepalive.WithoutPingsClosesAtOnce | include/radrpc/impl/server/server_session.hpp:880-891 | without pings there is no timer, and a session closes exactly when it is asked to before the peer closes |
| Keepalive.SilentPeerIsShutDown | include/radrpc/impl/server/server_session.hpp:896-920 | a peer that sends no control frame is shut down by the second expiry |
| Keepalive.RequestedCloseHappensIff | include/radrpc/impl/server/server_session.hpp:880-947 | after any actions before the next timer handler, that handler carries out a requested close exactly when no close frame arrived and either a request came after the last ping or pong, or the stream is gone and `ping_delay` has passed since |
| Keepalive.PongCancelsClose | include/radrpc/impl/server/server_session.hpp:935-947 | one pong suffices to lose the request, and one more request to restore it |
| Workers.RestartDropsNothing | include/radrpc/server.hpp:74-109 | while the server is not running every worker ever made is joined, so a restart never destroys a joinable thread |
| Workers.StopAwaitsWorkers | include/radrpc/server.hpp:264-293 | when a `stop` outside the io context returns, every worker of every start has ended and is joined, and the server is not running |
| Workers.StartMakesItsThreads | include/radrpc/server.hpp:74-109 | in every run a start that finds the server not running makes one launch; when `async_start` returns it has exactly the configured number of threads, when `start` comes to serve one less, and it keeps the handler given |
| Workers.ThreadsMade | include/radrpc/server.hpp:220-256 | with its threads made `start` serves on its caller's thread and `async_start` returns, the lock given back |
| Workers.StopLetsWorkersGo | include/radrpc/server.hpp:264-275 | from the first step of a `stop` on, until a start, every worker in `run` can leave it |
| Workers.StartLetsWorkersStay | include/radrpc/server.hpp:74-80 | from the first step of a start on, until a `stop`, a worker leaves `run` only when it is out of work |
| Workers.HandlerRunsOnceByLast | include/radrpc/server.hpp:84-108 | the io-stopped handler of a start has run exactly when it was given, there is a worker, and all have left `run` and ended; it runs once, in the last of them |
| Workers.StopIsWoken | include/radrpc/server.hpp:276-288 | a `stop` asleep while all workers are done is about to be notified; while it joins, no worker needs a lock |
| DataCaches.DataCache.Queue | include/radrpc/detail/data.hpp:204-217 | the table, the counter and the rows afterwards, and the id, are those of the specification |
| DataCaches.DataCache.Lookup | include/radrpc/detail/data.hpp:270-293 | likewise for the section of `wait` under the table lock; the row handed out is the shared one |
| DataCaches.DataCache.Take | include/radrpc/detail/data.hpp:255-259 | the caller's buffer and the row's change places, and nothing else changes |
| DataCaches.DataCache.SwapNotify | include/radrpc/detail/data.hpp:305-326 | the bytes move into the row, the caller's buffer ends empty, and the row is notified and erased exactly when it was waited on |
| DataCaches.DataCache.RemoveObsolete | include/radrpc/detail/data.hpp:336-354 | the erase-while-iterating loop leaves exactly the rows still valid |
| DataCaches.DataCache.Clear | include/radrpc/detail/data.hpp:374-387 | the loop leaves an empty table with every row of it swapped and notified |
| DataQueues.SharedPromise.SetValue | include/radrpc/detail/data.hpp:453-458 | only a held and unset promise is set |
| DataQueues.DataQueue.Queue | include/radrpc/detail/data.hpp:420-431 | an entry is appended exactly when there is room |
| DataQueues.DataQueue.WriteNext | include/radrpc/detail/data.hpp:449-461 | the front entry leaves and its promise, no other, is set to true |
| DataQueues.DataQueue.Clear | include/radrpc/detail/data.hpp:470-484 | all entries leave and exactly their promises are set to false |
| DataQueues.DataQueue.DropPromise | include/radrpc/impl/client/client_session.hpp:342-352 | a caller that timed out lets go of its promise, and of no other |
| ClientSessions.ClientSession.HandleSend | include/radrpc/impl/client/client_session.hpp:112-125 | a step of the abstract pump; the write in flight stays that of the front entry |
| ClientSessions.ClientSession.Deliver | include/radrpc/impl/client/client_session.hpp:131-141 | the channel takes the bytes of the write in flight: a step of the abstract pump |
| ClientSessions.ClientSession.OnWrite | include/radrpc/impl/client/client_session.hpp:158-175 | a step of the abstract pump, with the promises it fulfils; never a second write while one is in flight; a write that did not fail has been delivered |
| ClientSessions.ClientSession.OnRead | include/radrpc/impl/client/client_session.hpp:194-232 | the table and the broadcast handlers get what the message says; reading goes on exactly after a message; an error clears the table and closes |
| ClientSessions.ClientSession.CloseSession | include/radrpc/impl/client/client_session.hpp:590-600 | a close is started unless one was started or received |
| ClientSessions.ClientSession.OnControl | include/radrpc/impl/client/client_session.hpp:237-258 | a close frame stops the pump |
| ServerSessions.SessionAccept.OnTimer | include/radrpc/impl/server/server_session.hpp:896-920 | a step of the keepalive machine; at most one close is started |
| ServerSessions.SessionAccept.OnControl | include/radrpc/impl/server/server_session.hpp:935-947 | a step of the keepalive machine |
| ServerSessions.SessionAccept.CloseSession | include/radrpc/impl/server/server_session.hpp:880-891 | a step of the keepalive machine: with pings the timer is made to expire, without them the stream closes |
| ServerSessions.SessionAccept.Shutdown | include/radrpc/impl/server/server_session.hpp:949-961 | a close is started unless one was started or received |
| ServerSessions.ServerSession.HandleSend | include/radrpc/impl/server/server_session.hpp:249-260 | a step of the abstract pump; the write in flight stays that of the front message |
| ServerSessions.ServerSession.Deliver | include/radrpc/impl/server/server_session.hpp:266-279 | the channel takes the bytes of the write in flight: a step of the abstract session |
| ServerSessions.ServerSession.SendBroadcast | include/radrpc/impl/server/server_session.hpp:249-260 | the posted send of a broadcast is a step of the abstract session |
| ServerSessions.ServerSession.OnWrite | include/radrpc/impl/server/server_session.hpp:294-307 | a step of the abstract session; giving up also closes it; a write that did not fail has been delivered |
| ServerSessions.ServerSession.OnTimer | include/radrpc/impl/server/server_session.hpp:896-920 | a step of the keepalive machine; the close it may start stops the writes |
| ServerSessions.ServerSession.OnControl | include/radrpc/impl/server/server_session.hpp:935-947 | a step of both machines |
| ServerSessions.ServerSession.CallFunction | include/radrpc/impl/server/server_session.hpp:194-243 | the handler of the message's id runs, and its response or its request to close takes effect, as in the abstract session |
| ServerSessions.ServerSession.OnRead | include/radrpc/impl/server/server_session.hpp:313-330 | one message read is one step of the abstract session; an error ends reading and closes |
| SessionManagers.SessionManager.Connections | include/radrpc/impl/server/server_session.hpp:549-553 | the use count beyond that before any session, never negative |
| SessionManagers.SessionManager.Select | include/radrpc/impl/server/server_session.hpp:437-450 | the sessions registered under one of the ids, each once |
| SessionManagers.SessionManager.SendAll | include/radrpc/impl/server/server_session.hpp:456-458 | one message for each live session of the copy, none for the others, and the references to match |
| SessionManagers.SessionManager.Broadcast | include/radrpc/impl/server/server_session.hpp:416-458 | exactly one message is posted to each live target; the message counts as queued exactly while someone has it; nothing happens when the counter is at its limit or nobody is connected |
| SessionManagers.SessionManager.AddSession | include/radrpc/impl/server/server_session.hpp:559-568 | the session is listed under its id |
| SessionManagers.SessionManager.RemoveSession | include/radrpc/impl/server/server_session.hpp:575-587 | the id is no longer listed, and no other changes |
| SessionManagers.Listener.constructor | include/radrpc/impl/server/listener.hpp:144-173 | the references that exist when the listener is made count as no connection |
| SessionManagers.Listener.OnAccept | include/radrpc/impl/server/listener.hpp:76-129 | a connection becomes a session exactly when the listen handler agrees and the manager is not full; the next accept is started unless the listener was shut down |

## Left out

- Asio, Beast, sockets, DNS and signals are not part of this model; they are the environment. A write that
  completes without an error has delivered its whole message, and an open connection neither loses nor reorders.
- TLS sessions, `detect_session` and dual mode: the same logic as plain sessions, except that in dual mode
  connections still being detected are not counted, so that the session cap does not hold there.
- HTTP handshake fields, decorators and message size limits.
- The destructor of the client and `m_exit`; `ping()` of the client; thread-local timeout overrides.
- In `CacheLocks` which rows `remove_obsolete` finds too old is a choice of the environment; `ResponseCache` has ages.
- Timeouts are a choice of the environment, and an exception thrown by the deadlock guard is the end of a
  call without a normal return. The keepalive machine has a clock that does not run backwards.
- Handlers that call back into the server or client that called them; a handler is any function from a
  request to a response and a wish to close.
- The 64-bit id counter is taken not to wrap within one session: runs issue fewer than 2^64 ids. The
  overflow of `response_timeout * 2` is not modelled.
- Hosts are little-endian, as the program copies its header byte for byte.
- `client`, `server` and `weak_post` are modelled on values only, in `ClientLifecycle` and `Workers`: other
  threads run between any two statements of their methods, which a sequential method cannot express. For
  the same reason `wait` is given as its locked sections, and `send` and `send_recv` as phases in `Rpc`.
- A blocking `start` runs the io context on its caller's own thread; `stop` does not wait for that thread,
  and nothing is claimed about it.
- `ClientLifecycle` entries carry no result id; `Rpc` has them. In `Rpc` the timer of the server is a
  shutdown at any time; `Keepalive` says when it comes.
- `get_session_ids`, `bind`, `data_cache::size` and the second overload of `data_cache::queue`, which only notifies a deleter.
