# Verified models of four small Go systems

The repository holds an RPC library, a service registry, a web framework and a distributed cache. This
project models the parts of them that carry protocols, indexes and searches, and proves what they promise.
`dafny verify dfyconfig.toml` checks the whole project. There are two kinds of model.

* Concurrent code is a transition system: a `State`, an `Event` per critical section, `Enabled` and `Apply`.
  A schedule is any sequence of events, `After(es)` is the state it leads to, and the theorems speak of every
  schedule. Threads are program counters in the state. Where the source would panic the model sets a flag, and
  the theorems say exactly when it rises, or that it never does.
* Code that works on its own fields is a class on the heap, with the source's loops and updates. Its methods are
  proved against functions on values, and the theorems are about those functions. For the client and the registry
  the heap methods are proved to be steps, or runs of steps, of the transition systems.

## The parts

* `RpcMessages`, `RpcClient`, `RpcServer`, `Rpc` (client.go, server.go). The client hands out Seqs, keeps pending
  calls, and lets senders, waiters, the receiver and Close race to finish them; the server reads requests in order,
  runs a goroutine per request, and answers in any order through a bounded channel. Client and server are proved
  on their own against an arbitrary other side; `Rpc` joins them by two FIFO wires, and `Projects` carries the
  theorems of each side over to the joint runs. Writes and reads may fail at any time, and a failed write may or
  may not have delivered its message. The service is an arbitrary relation between a method with its arguments and
  a payload. A panic ends the client: after a fault it takes no step.
* `DefaultClient` holds the client's critical sections on the heap; Close with its loop is a run of closing steps.
* `Registry`, `LostNotification`, `Alive`, `RegisterServer` (registryServer.go): the two service indexes, the client
  list, interest sets and change announcements; why the condition on queries is exact; the heartbeat channel of a
  service; and the critical sections on the heap.
* `Patterns`, `Routes`, `Router` (router.go): the pattern grammar on strings, the router as a flat table with a
  best-match order, and the trie of heap nodes with its search.
* `LruSpec`, `Lru`, `GroupSpec`, `Groups` (lru.go, cache.go, gebcache.go): recency lists as values, the doubly
  linked list with its map and byte count, and the read-through group on top.
* `RingSpec`, `Ring` (pickers.go): the consistent-hash ring.
* `Singleflight` (singleflight.go): concurrent `Do` calls.
* `ChainSpec`, `Chain` (context.go): the re-entrant handler chain.

## Where the code and its comments part

* The comment on the client's invariant says that pending calls are RECEIVING
  (Geb_RPC/client/client.go:50). A call is pending and NEW from registration until its sender reaches the write:
  `PendingMayBeNew` shows one, and `PendingIsUnfinished` says exactly when.
* The router's comment says that `*` also matches the path before it (Geb_Web/geb/router.go:18-20).
  The code asks for at least one segment; `StarNeedsASegment` gives the exact matches.
* On a fall-back to a `*` route the middlewares of intermediate nodes below the star's parent are dropped, and only
  those of the node at the exact request path are added (Geb_Web/geb/router.go:192-197). `RouterFindsBestMatch`
  states the list as the code computes it, and `FallbackIsCompleteIffNoneBetween` when nothing is dropped.
* With a negative budget the eviction loop of the LRU never ends; `LoopCanStopIffBudgetNonNegative` says so,
  and `Add` asks for a budget that is not negative.
* A registry client can miss a change for good when it queries, for another name than its own, with the id of a
  listening service that is indexed but not on the client list yet (Geb_RPC/registry/registryServer.go:148-159).
  `Safe` is the negation of that, and `SafeExactlyWhenNothingGetsLost` says that it is the exact condition.
  Queries with an id that `register` has returned are safe.
* `receive` assigns the result of every response to the Reply of its call (Geb_RPC/client/client.go:172-175). For a
  response without a result, such as a time-out, that panics and ends the process. `PanicsExactly`,
  `CanPanicExactly` and `TimeOutCanPanic` say when.

## Model

| member | source | states |
|---|---|---|
| Rpc.ReplyCorrelation | Geb_RPC/client/client.go:148-180 | over every joint run, a call finished by `receive` carries a payload the service computed from that same call's method and arguments (or the server's time-out), with a result if the call has a Reply, and Error and Reply are set from it; a call with an empty method is never answered |
| Rpc.CompletesExactly | Geb_RPC/client/client.go:148-180 | correlation in both directions: some run completes a call with a payload exactly when the call has a method, the service may compute the payload for it (or it is the time-out), and there is a result if the call has a Reply |
| Rpc.NoLogicErrors | Geb_RPC/client/client.go:164-168 | over every joint run the "internal logical error" panic and the server's sends on closed channels are unreachable |
| Rpc.PanicsExactly | Geb_RPC/client/client.go:172-175 | in every reachable state a client step panics exactly when it finishes, with a response that has no result, a call that has a Reply |
| Rpc.CanPanicExactly | Geb_RPC/client/client.go:172-175 | some run panics on a payload exactly when the payload can come to the call, has no result, and the call has a Reply |
| Rpc.TimeOutCanPanic | Geb_RPC/server/server.go:213-225 | every call with a method and a Reply has a run in which the server's time-out brings the client down |
| Rpc.NoReplyNoPanic | Geb_RPC/client/client.go:172-175 | a run in which no call has a Reply never panics |
| Rpc.ResponsesBelong | Geb_RPC/server/server.go:165-172 | a response on the wire belongs to a call that has left NEW and has a method; heartbeats produce none, so none completes the call with Seq 0 |
| Rpc.AtMostOnce | Geb_RPC/server/server.go:160-179 | the server starts at most one goroutine per Seq, none before the call's sender is past the write, and writes or drops at most one response for it |
| Rpc.WiresAreFifo | Geb_RPC/client/client.go:347-352 | on both wires what was written, call by call and heartbeat by heartbeat, is what was read followed by what is on the way, in order |
| RpcClient.ExactlyOnce | Geb_RPC/client/client.go:67-146 | every call that `send` has dealt with is pending, or held by exactly one finishing thread, or FINISHED with Done closed exactly once; these three exclude each other |
| RpcClient.SeqsAreUnique | Geb_RPC/client/client.go:111-121 | each Seq below the counter belongs to one call, and over every continuation to that call |
| RpcClient.PendingIsUnfinished | Geb_RPC/client/client.go:49-58 | outside Close a pending call sits under its own Seq and is NEW or RECEIVING, NEW exactly while its sender is before the write |
| RpcClient.PendingMayBeNew | Geb_RPC/client/client.go:111-121 | a run after which a pending call is NEW: the commented invariant is too strong |
| RpcClient.RunOnward | Geb_RPC/client/client.go:31-36 | over any continuation of a run a call keeps its request and Seq, its status never goes back, and Error and Reply of a FINISHED call never change |
| RpcClient.ClosedIsEmpty | Geb_RPC/client/client.go:83-98 | once closed nothing is pending, no Seq is handed out and it stays closed, whatever follows |
| RpcClient.TakesOnlyItsOwn | Geb_RPC/client/client.go:66-81 | a time-out or failed write leaves every other call, its holder and its pending entry alone, even when its own call never got a Seq and carries 0 |
| RpcClient.AfterWaitFor | Geb_RPC/client/client.go:66-81 | when WaitFor has returned the call is FINISHED with Done closed, or exactly one thread is finishing it |
| RpcClient.ClosedStrandsNobody | Geb_RPC/client/client.go:136-146 | in a closed client that has not panicked every call that `send` has dealt with is finished or held by a thread that can step |
| RpcClient.CloseGoesOn | Geb_RPC/client/client.go:83-98 | while Close holds the client's lock, a step of terminateCalls or its end is possible |
| RpcClient.SenderGoesOn | Geb_RPC/client/client.go:197-238 | whoever holds the sending lock can step, or waits only for a Close that can |
| RpcClient.AfterFailedWrite | Geb_RPC/client/client.go:223-237 | over every schedule with a failed write of a call: past removeCall the call is not pending but held or finished, it has no good write, and `send` has returned only if the client is closed |
| RpcClient.AfterSend | Geb_RPC/client/client.go:186-238 | when `send` has returned without a good write in the schedule, the call is held by one thread or FINISHED with Done closed |
| RpcClient.FinishedIsNotWritten | Geb_RPC/client/client.go:214-221 | a call that is FINISHED when its sender looks at it is never written in any continuation |
| RpcClient.AfterFailedRead | Geb_RPC/client/client.go:148-184 | the receiver stops reading exactly after a failed read in the schedule, and has ended only if the client is closed |
| RpcClient.AfterFailedTick | Geb_RPC/client/client.go:347-360 | the ticker stops exactly after a failed heartbeat in the schedule, and has ended only if the client is closed |
| RpcClient.ErrorTellsWho | Geb_RPC/client/client.go:38-40 | a call that ends without a response has the shutdown error exactly when its own sender gave up, else the cancel error |
| RpcClient.ResponseFindsItsCall | Geb_RPC/client/client.go:160-162 | the receiver takes the pending call under the response's Seq to finish it with that response; any other response is dropped without a trace |
| RpcClient.TimeOutEndsPendingCall | Geb_RPC/client/client.go:67-81 | a WaitFor whose time-out finds the call pending takes it, finishes it with the cancel error and closes Done, in steps that are always open to it |
| RpcClient.WaiterGoesOn | Geb_RPC/client/client.go:67-81 | a waiter always has a step, unless Close is at work, which has one |
| RpcClient.ReceiverGoesOn | Geb_RPC/client/client.go:160-184 | a receiver that is not reading always has a step, or waits only for a Close that has one |
| RpcClient.OneWriter | Geb_RPC/client/client.go:197-238 | two calls are never being written at once, nor a call and a heartbeat |
| RpcClient.ResultIs | Geb_RPC/client/client.go:160-180 | a FINISHED call ends with the response matched to its Seq, with a result if it has a Reply, or with one of the client's two errors and no reply |
| RpcClient.RunKeepsInv | Geb_RPC/client/client.go:148-238 | every reachable client state keeps the ownership invariant: one owner per call, senders and waiters hold only their own, pending entries sit under their own Seq |
| DefaultClient.Call.Deliver | Geb_RPC/client/client.go:163-177 | the section of `receive` on the heap ends or panics exactly as the model says: not RECEIVING, no result for a Reply, or the response's Error and Reply stored |
| DefaultClient.Client.RegisterCall | Geb_RPC/client/client.go:111-121 | on the heap, is exactly the Register step: an error when closed, else the next Seq and a pending entry |
| DefaultClient.Client.RemoveCall | Geb_RPC/client/client.go:123-134 | on the heap, takes out exactly the call under the Seq, or nothing, also when the map is nil; the object returned is the one the thread now holds in the model |
| DefaultClient.Client.FinishCall | Geb_RPC/client/client.go:160-178 | finishing and closing Done is the Finish step followed by the Signal step; it panics exactly where the Finish step does, and then at most that call's Error has changed |
| DefaultClient.Client.Terminate | Geb_RPC/client/client.go:139-145 | one round of terminateCalls is the Terminate step followed by Signal |
| DefaultClient.Client.Close | Geb_RPC/client/client.go:83-98 | Close is a run of closing steps; afterwards the client is closed, every call that was pending is given up with Done closed once, and no other call is touched |
| RpcServer.Conservation | Geb_RPC/server/server.go:145-187 | for every Seq, accepted requests are those in goroutines plus in the channel plus with the sender plus written plus dropped; at the end, written plus dropped |
| RpcServer.ChannelsAreSafe | Geb_RPC/server/server.go:115-123 | over every run nothing is sent on the closed result or heartbeat channel and neither is closed twice |
| RpcServer.BlockedWorkerIsReleased | Geb_RPC/server/server.go:228-243 | a goroutine blocked on the full channel is let through by the sender or by drain, within two steps, however a write under way ends |
| RpcServer.WindingUpEnds | Geb_RPC/server/server.go:181-187 | from every reachable state in which reading has stopped, some steps of the goroutines, the sender and the loop's end reach the end of serveCodec and of sendResponse |
| RpcServer.WindingUpIsBounded | Geb_RPC/server/server.go:181-187 | whatever order these steps take, only boundedly many can follow, so every way of winding up ends |
| RpcServer.AcceptedAreTheRequests | Geb_RPC/server/server.go:160-179 | per Seq, the requests with a method that were read are exactly those that got a goroutine |
| RpcServer.ReadsUntilFailure | Geb_RPC/server/server.go:153-164 | the loop reads until the first failure and never again |
| RpcServer.ChannelIsFifo | Geb_RPC/server/server.go:174-179 | what was received from the result channel, by the sender or drain, followed by what is inside, is what was put in, in order |
| RpcServer.DropsOnlyAfterWriteError | Geb_RPC/server/server.go:228-243 | after a write error nothing more is written; without one nothing is thrown away and the sender stops only at the end of the closed channel |
| RpcServer.HeartBeatReachesListener | Geb_RPC/server/server.go:166-172 | a heartbeat starts no goroutine and leaves one beat that the listener can receive |
| RpcServer.ListenerEnds | Geb_RPC/server/server.go:126-142 | when the heartbeat channel is closed the listener ends within two receives |
| Registry.NoLostNotification | Geb_RPC/registry/registryServer.go:255-280 | in every run with safe queries, for each listening client interested in a name, the last list computed for it is current, or an unfinished announcement for that name has yet to scan it or has chosen it |
| Registry.RunLosesNothing | Geb_RPC/registry/registryServer.go:148-161 | the invariant behind it, over half-finished announcements, registrations and resigns |
| Registry.QuietIsCurrent | Geb_RPC/registry/registryServer.go:255-280 | after a run with safe queries, when all announcements are done, every interested client's last list is current |
| LostNotification.UnsafeQueryLosesANotification | Geb_RPC/registry/registryServer.go:148-161 | from every reachable state, a query by a registered listening service that is not on the client list yet, for another name than its own, has a continuation that loses a change |
| LostNotification.SafeExactlyWhenNothingGetsLost | Geb_RPC/registry/registryServer.go:208-228 | after a run with safe queries a step is safe exactly when no continuation with safe queries loses a change |
| Registry.IndexAgreement | Geb_RPC/registry/registryServer.go:148-154 | each name's list holds exactly the registered services of that name, once each, in increasing id order, and no list is empty |
| Registry.ResignCapacity | Geb_RPC/registry/registryServer.go:177-186 | the capacity `len(ses)-1` is never negative and is exactly filled |
| Registry.IdsNeverRepeat | Geb_RPC/registry/registryServer.go:148-154 | a new id was never used before |
| Registry.RacingResigns | Geb_RPC/registry/registryServer.go:166-206 | of racing resigns of one id one removes it, the others find nothing, it stays removed; over the whole run its going is announced at most once, and exactly once when the winner informs the clients or has closed the service |
| Registry.OnlyResignedIsAnnounced | Geb_RPC/registry/registryServer.go:198-199 | an id that nobody resigned is never announced as gone |
| Registry.HoldsWhatWasDone | Geb_RPC/registry/registryServer.go:139-206 | ids, their services, who is registered, who resigned and who is on the client list are exactly what the schedule of registrations and resigns says |
| Registry.UnlistTakesOff | Geb_RPC/registry/registryServer.go:193-197 | a resign that has passed the client list leaves its service off it and everyone else on it |
| Registry.ClosedAfterAnnouncing | Geb_RPC/registry/registryServer.go:198-201 | a resigned service is closed only after the announcement for its name has been made in full |
| Registry.AddressesAreOfTheServices | Geb_RPC/registry/registryServer.go:221-227 | the addresses of a name are those of its registered services, one each, in id order |
| Registry.InterestIsWhatWasAsked | Geb_RPC/registry/registryServer.go:216-219 | a service is interested in exactly the names it asked for while registered |
| Registry.OnlyInterestedAreInformed | Geb_RPC/registry/registryServer.go:255-280 | nobody is chosen for, or sent, the addresses of a name it never asked for |
| Alive.ChannelSafety | Geb_RPC/registry/registryServer.go:302-335 | over all interleavings aliveCh is closed at most once, exactly when the service is closed, and never written afterwards; a heartbeat to an open service leaves a signal that the watcher can take |
| Alive.CloseCloses | Geb_RPC/registry/registryServer.go:91-103 | over every run the service is closed exactly when a close was among the steps; then the channel is closed, once, and a heartbeat changes nothing |
| Alive.WatcherEnds | Geb_RPC/registry/registryServer.go:230-253 | once a close was among the steps the watcher is never blocked and ends within two receives |
| RegisterServer.Service.Close | Geb_RPC/registry/registryServer.go:91-103 | afterwards the `closed` flag and the channel, separate fields, are closed; it never closes the channel twice and is the Close step of the channel model |
| RegisterServer.Service.Beat | Geb_RPC/registry/registryServer.go:322-335 | with separate fields, is the Beat step; it never sends on a closed channel, is refused exactly when closed, and otherwise leaves a signal |
| RegisterServer.Server.Index | Geb_RPC/registry/registryServer.go:148-154 | on the heap, is the Index step: next id, both indexes extended |
| RegisterServer.Server.List | Geb_RPC/registry/registryServer.go:155-159 | on the heap, is the List step: only listening services become clients |
| RegisterServer.Server.Unlist | Geb_RPC/registry/registryServer.go:193-197 | on the heap, is the Unlist step |
| RegisterServer.Server.Others | Geb_RPC/registry/registryServer.go:180-186 | the copying loop yields the list without the id, in order |
| RegisterServer.Server.Remove | Geb_RPC/registry/registryServer.go:166-192 | on the heap, is the Remove step: nothing for an unknown id, else both indexes lose the service and an empty list goes |
| RegisterServer.Server.Addresses | Geb_RPC/registry/registryServer.go:270-276 | the collecting loop yields the current addresses for the name, in list order |
| RegisterServer.Server.GetServiceAddr | Geb_RPC/registry/registryServer.go:208-228 | on the heap, is the Query step; nil for an unknown id, else the current addresses |
| RegisterServer.Server.HeartBeat | Geb_RPC/registry/registryServer.go:310-335 | accepted exactly for a registered service that is not closed; beats that service's channel and leaves every other as it was |
| RegisterServer.Server.Visit | Geb_RPC/registry/registryServer.go:259-265 | one round of the scan, in whatever state it reads the interest, is the Visit step |
| RegisterServer.Server.ScanClients | Geb_RPC/registry/registryServer.go:258-266 | the loop is a run of Visit steps and chooses exactly the clients interested in the name |
| Routes.RouterFindsBestMatch | Geb_Web/geb/router.go:128-201 | after any registrations a request gets the listing of the lexicographically best matching pattern (literal before `.` before `*`), and nothing exactly when none matches |
| Routes.BestIsUnique | Geb_Web/geb/router.go:188-198 | at most one registered pattern is best |
| Routes.WinnerIsBest | Geb_Web/geb/router.go:146-201 | the backtracking search ends at the best of the patterns below a node that match |
| Routes.SearchLists | Geb_Web/geb/router.go:166-198 | what the search returns is exactly the listing of the winning pattern |
| Routes.StarLists | Geb_Web/geb/router.go:192-197 | a `*` route gets the middlewares down to the star's parent, then those of the exact request path, then the handler |
| Routes.FailureMids | Geb_Web/geb/router.go:166-198 | a failed search returns just the middlewares at the exact path |
| Routes.LastRegistrationDecides | Geb_Web/geb/router.go:86-108 | the last accepted registration for a pattern and method decides; rejected calls and other patterns change nothing |
| Routes.UnregisteredHasNone | Geb_Web/geb/router.go:86-108 | a pattern never registered for a method has no handler |
| Routes.OpsAreSound | Geb_Web/geb/router.go:202-213 | after any calls only well-formed patterns carry handlers and only plain paths carry middlewares |
| Routes.MiddlewaresAddUp | Geb_Web/geb/router.go:202-213 | after any calls a node's middlewares are the handlers of exactly the accepted AddMiddlewire calls for its path, in call order |
| Routes.AcceptedExactly | Geb_Web/geb/router.go:86-97 | which registration calls succeed, on methods and characters |
| Routes.MethodsAreApart | Geb_Web/geb/router.go:43-52 | a registration for one method changes no answer for another |
| Routes.AnswersOwnMethodOnly | Geb_Web/geb/router.go:128-145 | without a registration for the request's own method the answer is empty |
| Routes.StarNeedsASegment | Geb_Web/geb/router.go:169-174 | a router with one `*` route answers exactly the strictly longer paths that fit what stands before the star, and not that path itself |
| Routes.FallbackIsCompleteIffNoneBetween | Geb_Web/geb/router.go:192-197 | a request that falls back to a `*` route gets all middlewares along its path exactly when none sit strictly between the star's parent and the path |
| Patterns.ValidPattenIsGood | Geb_Web/geb/router.go:53-85 | an accepted pattern string splits into segments with `*` only last, `.` at most once, never last and never with `*` |
| Patterns.AcceptsExactly | Geb_Web/geb/router.go:53-73 | the check accepts exactly the strings that start with a slash and, up to one slash at the end, have `*` only last, `.` never last, at most one `.`, and not both |
| Patterns.SplitJoins | Geb_Web/geb/router.go:75-75 | splitting loses nothing: the parts hold no slash and joined they give the string |
| Patterns.SegmentsJoin | Geb_Web/geb/router.go:74-85 | the segments of a path joined give its text without a slash at the end |
| Patterns.SplitPIsTrimmed | Geb_Web/geb/router.go:74-85 | a trailing slash does not count |
| Patterns.PlainPathIsPlain | Geb_Web/geb/router.go:202-209 | a path without `.` and `*` has no special segment |
| Router.DefaultRouter.UpdateTree | Geb_Web/geb/router.go:109-127 | yields the node for the segments, creating missing ones, and keeps the trie and what it carries |
| Router.DefaultRouter.TrieShape | Geb_Web/geb/router.go:109-127 | `*` nodes have no children, `.` nodes carry no handler and no middleware, sibling parts differ |
| Router.DefaultRouter.AddHandler | Geb_Web/geb/router.go:86-108 | the heap trie carries exactly the flat table after the call, and the error is the table's |
| Router.DefaultRouter.AddMiddlewire | Geb_Web/geb/router.go:202-213 | the same for middlewares |
| Router.DefaultRouter.DoGetHandlers | Geb_Web/geb/router.go:146-201 | the search over heap nodes with its loop over children answers what the search over the flat table answers |
| Router.DefaultRouter.Handlers | Geb_Web/geb/router.go:128-145 | the router answers exactly what the flat table says |
| LruSpec.TrimIsLongestFittingPrefix | Geb_Chache/gebcache/lru/lru.go:70-72 | for a non-zero budget the kept prefix has at most `maxBytes` bytes and every longer one has more; for budget 0 everything is kept |
| LruSpec.TrimUnique | Geb_Chache/gebcache/lru/lru.go:70-72 | that prefix is the only one with these bounds |
| LruSpec.BytesAreLaid | Geb_Chache/gebcache/lru/lru.go:53-55 | the byte count is the length of all keys and all data laid end to end |
| LruSpec.LoopCanStopIffBudgetNonNegative | Geb_Chache/gebcache/lru/lru.go:70-72 | some list stops the eviction loop exactly when the budget is not negative |
| Lru.LinkedList.PushFront | Geb_Chache/gebcache/lru/lru.go:66-66 | on real nodes, the new element comes first and the rest follows |
| Lru.LinkedList.Remove | Geb_Chache/gebcache/lru/lru.go:43-43 | on real nodes, exactly the one element goes |
| Lru.LinkedList.MoveToFront | Geb_Chache/gebcache/lru/lru.go:33-33 | on real nodes, the element comes first and the others keep their order |
| Lru.Cache.Get | Geb_Chache/gebcache/lru/lru.go:31-38 | finds exactly the keys in the list, returns their value and moves the entry to the front |
| Lru.Cache.RemoveOldest | Geb_Chache/gebcache/lru/lru.go:40-51 | drops the last entry from list, map and byte count and reports it |
| Lru.Cache.Insert | Geb_Chache/gebcache/lru/lru.go:57-69 | the new entry first, then the old list without its key; map and byte count agree |
| Lru.Cache.Add | Geb_Chache/gebcache/lru/lru.go:57-73 | leaves exactly the longest prefix of that list with at most `maxBytes` bytes (all of it for 0), calls the callback, if there is one, once per dropped entry, oldest first, and terminates |
| Lru.Cache.TotalElem | Geb_Chache/gebcache/lru/lru.go:75-77 | counts the entries |
| GroupSpec.StackProperty | Geb_Chache/gebcache/gebcache.go:59-103 | over any trace of Get calls the recency list of a budget is a prefix of that of any larger or unlimited budget |
| GroupSpec.BiggerCacheKeepsHits | Geb_Chache/gebcache/gebcache.go:63-66 | a bigger cache never turns a hit into a miss |
| GroupSpec.RecencyFits | Geb_Chache/gebcache/lru/lru.go:70-72 | after any trace the list has at most `maxBytes` bytes, for a non-zero budget |
| GroupSpec.RecencyKeeps | Geb_Chache/gebcache/gebcache.go:91-103 | after any trace of Get calls every cached entry is what the getter returns for its key, once per key |
| GroupSpec.CachedExactly | Geb_Chache/gebcache/gebcache.go:75-103 | after an access the key is cached exactly when it was, or the peers left it to this node, the getter had data and key and data fit the budget |
| Groups.MainCache.Add | Geb_Chache/gebcache/cache.go:14-21 | the lazily created LRU takes the entry |
| Groups.MainCache.Get | Geb_Chache/gebcache/cache.go:23-34 | a miss while there is no LRU yet, else its lookup |
| Groups.Group.Get | Geb_Chache/gebcache/gebcache.go:59-73 | the cache is transparent: an error for the empty key, the getter's answer when there are no peers or they fail or return nothing, else the peers' answer; and the recency list moves as stated |
| Groups.Group.Load | Geb_Chache/gebcache/gebcache.go:75-88 | peers answer when they have data; otherwise the getter answers and its data is cached |
| Groups.Group.GetLocally | Geb_Chache/gebcache/gebcache.go:91-99 | errors are not cached, data is |
| RingSpec.MinimalDisruption | Geb_Chache/gebcache/pickers.go:44-64 | after adding nodes a key keeps its node or moves to an added one, with wrap-around and colliding points |
| RingSpec.PeersAgree | Geb_Chache/gebcache/pickers.go:44-64 | peers given the same nodes in any order agree on every key when no two nodes share a point |
| RingSpec.OrderMattersIffPointShared | Geb_Chache/gebcache/pickers.go:44-53 | every listing of the same nodes, in any order and with repetition, answers alike for every hash exactly when no two of the nodes share a point |
| RingSpec.AddInBatches | Geb_Chache/gebcache/pickers.go:44-53 | adding in several calls is adding in one |
| RingSpec.LastWriterOwns | Geb_Chache/gebcache/pickers.go:45-51 | on any ring, a point belongs to the node added last among those that have it |
| RingSpec.AnswerDefined | Geb_Chache/gebcache/pickers.go:55-64 | a ring has exactly one answer for every hash value |
| RingSpec.ItoaInjective | Geb_Chache/gebcache/pickers.go:47-47 | different replica numbers are written differently, as their digits decode to them |
| Ring.ConsistentHashPicker.Add | Geb_Chache/gebcache/pickers.go:44-53 | the points stay sorted and owned, the point of every replica number 0 to replicas of every node is on the ring and owned by an added node, and no other point changes its owner but to an added node |
| Ring.ConsistentHashPicker.Search | Geb_Chache/gebcache/pickers.go:60-62 | binary search finds the first point at or after the hash |
| Ring.ConsistentHashPicker.Pick | Geb_Chache/gebcache/pickers.go:55-64 | the owner of the circular successor, of the point itself when the hash is one, or the empty string on an empty ring |
| Singleflight.OneInsidePerKey | Geb_Chache/gebcache/singleflight/singleflight.go:18-33 | at most one thread per key is inside `f` |
| Singleflight.DeleteRemovesOwnEntry | Geb_Chache/gebcache/singleflight/singleflight.go:35-37 | the final delete removes the leader's own entry and nothing else |
| Singleflight.ReturnsAnOverlappingRun | Geb_Chache/gebcache/singleflight/singleflight.go:18-40 | a `Do` returns exactly what `f` returned, by a step of the schedule, in a `Do` for its key that had not taken its return step when this one took its enter step |
| Singleflight.WaitersAreReleased | Geb_Chache/gebcache/singleflight/singleflight.go:23-33 | a waiting `Do` can return, or its leader is in `f` or about to signal |
| Singleflight.EntriesAreInFlight | Geb_Chache/gebcache/singleflight/singleflight.go:28-37 | the map holds only keys whose leader has not returned |
| ChainSpec.StartsAreConsecutive | Geb_Web/geb/context.go:72-82 | handlers start in order, each once, without a gap, up to the first that fails before calling Next |
| ChainSpec.AllRunIffNoneFailsFirst | Geb_Web/geb/context.go:67-77 | all handlers run exactly when none but possibly the last fails before calling Next |
| ChainSpec.NothingStartsAfterFailure | Geb_Web/geb/context.go:67-70 | no handler starts after a Fail |
| ChainSpec.HandlersNest | Geb_Web/geb/context.go:79-82 | code after Next runs after everything Next started has ended, in reverse nesting order |
| ChainSpec.StartedHandlersRunInFull | Geb_Web/geb/context.go:72-82 | the events of a handler that starts are exactly its start, one per Emit and Fail of its code in order, also after Next and after Fail, and its end; a handler that does not start leaves none |
| ChainSpec.RunsInPlace | Geb_Web/geb/context.go:79-82 | code before the first Next comes before everything later handlers do, code after it comes after; a handler that fails first stops them; one that does neither is followed by them |
| Chain.Context.Run | Geb_Web/geb/context.go:72-77 | the re-entrant index loop terminates for all handlers and produces exactly the nested order |
| Chain.Context.Next | Geb_Web/geb/context.go:79-82 | the first Next runs the rest in its place, later ones nothing |

## Left out

- Sockets, HTTP handlers, JSON and gob encoding, logging: the wires are FIFO queues and encoding is the identity.
- Reflection otherwise: the service is a relation and results are in encoded form, so a result of another type than the Reply, a nil argument, and a Reply that is no reference (Geb_RPC/client/client.go:204, client.go:242) are not modelled.
- The server time-out's unsynchronised late write to the shared response (Geb_RPC/server/server.go:207-224): time-out and completion are one choice.
- Connection set-up and negotiation: the models start from a connected client.
- sendResponse, drain, receive, ticker and serveCodec as loops on the heap: they share channels with other goroutines, so their loops are program counters of the transition systems; update in place of a response object is not captured.
- RegisterServer.Server.ScanClients: the whole loop without a query in between; a scan with queries in between is a schedule of `Registry`, and each of its rounds is `Visit`.
- Registry.NoLostNotification: about the lists computed for a client, not about their delivery, because separate goroutines send them and they can arrive out of order.
- Registry: the tick test in register, and non-positive ticks, which HandleRegister lets through except 0.
- Groups.Group.Get: one caller at a time; concurrent calls for a key are the subject of `Singleflight`, and peers are a function of the key.
- Singleflight: a panic inside `f`.
- The global map of groups, and copying of byte slices: values are immutable here.
- Geb_RPC/client/clientBalanced.go: random choice and network set-up; its Close keeps its lock on the first call.
- Geb_RPC/registry/registryClient.go: mostly HTTP, and an update handler that can wait on its own lock.
- Geb_Orm, and response writing in Geb_Web: string formatting and thin wrappers.
- 64-bit overflow of Seq, id and byte counts: integers are unbounded.
- sort.Ints and container/list are library code: sorting is an insertion sort, and the list is modelled as its documentation describes it, with one sentinel.
- crc32: the hash is an arbitrary function to natural numbers.
