# Routing requests to member clusters over several hubs

Agents in member clusters connect to one of several *hubs*; a hub keeps, per
cluster, a list of the agent sessions that it holds. A client sends a request for
a cluster to any hub. That hub tries its own sessions and, when it fails, calls
the other hubs one after the other at a URL into which it prints the cluster's key
and the request's subpath. This project models that routing and proves what it is
for: that a request reaches a session of the right cluster, that it reaches one
whenever it should, how often it is delivered, and that nothing is lost or removed
wrongly on the way.

## Layout

| file | what it holds |
|---|---|
| `Statuses.dfy` | the HTTP statuses that the program answers with itself |
| `Paths.dfy` | keys, the two ways in which they are printed, joining and trimming of URL paths, the peer route |
| `Dialing.dfy` | one dial call on values: a log of attempts, and what every possible log means |
| `SessionLists.dfy` | the plain map from cluster to list, and histories of calls on it |
| `SessionManager.dfy` | the session manager on slices: backing arrays, spare capacity, deletion in place |
| `MutexMachine.dfy` | any number of concurrent calls on a session manager, in micro-steps under the mutex |
| `MutexHistories.dfy` | the histories that concurrent calls can come to are exactly the sequential ones that reopen nothing |
| `Peers.dfy` | listing the peers and the recursive walk over them, against a search in a list |
| `Handlers.dfy` | the connect handler and the proxy handler |
| `Admission.dfy` | the two webhooks for cluster objects |
| `Hubs.dfy` | the step system: hubs, agents, requests, cluster writes and session deaths, all interleaved |
| `HubInvariants.dfy` | what every reachable state of it keeps |
| `HubOrigins.dfy` | where everything in a state comes from, read off the steps alone: handlers, clusters and tokens, registered agents, sessions that are down, connections and deliveries |
| `HubTheorems.dfy` | right cluster, same path at every handler, no forwarding loops, termination with a bound on the steps, sessions of a hub as a history |
| `HubWalks.dfy` | an interleaved walk is a search in the list of peers, an interleaved handler answers and calls peers as the function `Handlers.Serving`, and every answer has a reason |
| `HubDelivery.dfy` | the four risks of a second delivery, and at-most-one delivery without them |
| `HubRedelivery.dfy` | a step lets a request be delivered twice exactly if it is one of the risks, and each kind alone does so in some run |
| `HubSearch.dfy` | search completeness |

The layers meet in shared definitions. The methods on arrays establish the
transitions of `SessionLists.OpStep`, and `SessionManager.Serve` turns any sequence
of calls on them into a history, of which all holds that is proved of histories.
`SessionLists.DialStep` is what `DialCluster` establishes, what the micro-step
machine linearizes to, and the one step that a dial call is in the step system. `Admission.Admit` is what the two webhooks come
to and how the step system stores a cluster. `Handlers.Serving` is what the
imperative proxy handler computes, and `HubWalks.HandlerAnswers` shows that a
handler of any interleaved run answers with its status and sends its calls.

Theorems about runs speak of the steps, not only of what the states record: the
request of `HubTheorems.RightCluster` and `HubSearch.SearchComplete` is the one of a
`Submit` step, the agent that of an arrival step, the stored token that of a write
step (`HubOrigins`), and the calls of `MutexMachine.Linearizable` are those of
`Invoke` steps. Texts are read back: the digits of a port (`Peers.Reads`), the
segments of a path (`Paths.RedirectedExactly`), the parts of an address and a URL.

What the program does not decide is arbitrary: which session is picked, whether a
session opens, when a session goes down, what a round trip returns, which hub an
address reaches at each call, how far the capacity of a slice grows, and how the
steps of different handlers interleave.

## What is assumed of libraries

- A namespace and a name are not empty and hold no slash; `NamespacedName.String`
  puts one slash between them.
- The single-host director joins the paths of target and request with exactly one
  slash. The reverse proxy works on a copy of the request and hands the rewritten
  copy to its error handler; without an error handler it answers 502 (section
  15.6.3 of RFC 9110).
- A variable of a route takes one whole non-empty segment. The router redirects a
  path with an empty segment before the end, or with a segment `.` or `..`
  (`Paths.Clean`); the model keeps such paths and says what happens to them.
- A session that is down never opens. One that is up may or may not.
- The text of a UUID has 36 characters.

## Code and expectation

- A hub that cannot be reached is not skipped. A transport error of a peer call
  ends the walk with 502 (pkg/hub/peer/server.go:174-177); only an answer of 502
  moves on. `Peers.FirstAnswerWins` and `HubWalks.WalkIsSearch` state it so, and
  `HubSearch.Grants` asks that no call before the one to the good hub fails in
  transport with a text, and that one not at all.
- A request can be delivered twice. There are four ways, `HubDelivery.Risk`: a
  round trip that breaks after the request was sent, at the entry hub, whose error
  handler also runs then, or at a peer, which then answers 502; an agent's own 502
  that a peer passes on; and a transport error without a text, which the walk takes
  for a 502, while a peer still serves the call. `HubDelivery.RisksOf` says
  in which states a step is such a risk: at the entry hub, only if the peers' router
  serves the request's path, and at a peer, only while the entry handler waits for
  it and has another peer to turn to. Without these steps there is at most one
  delivery in every run (`HubDelivery.DeliveredAtMostOnce`). The condition is exact
  step by step: as long as a run has taken no risk for a request, the request can be
  delivered twice after the next step, without a risk from there on, if and only if
  that step is one (`HubRedelivery.RiskExactly`, `HubRedelivery.FirstRiskExactly`).
  It is also exact over kinds: each of the four alone brings a second delivery in a
  run from the initial state (`HubRedelivery.RiskIsReal`), so delivery is at most
  once in all runs exactly if all four are ruled out
  (`HubRedelivery.AtMostOnceExactly`).
- The peer route gives back the key and the subpath exactly when the router does
  not redirect the path; `Paths.RouteRoundTrip` states both cases.

## Model

| member | source | states |
|---|---|---|
| `Paths.KeyStringInjective` | pkg/hub/cluster/session_manager.go:50 | two keys have the same list identifier exactly when they are equal; read back at its first slash, the identifier gives namespace and name |
| `Paths.OneSlashBetween` | pkg/hub/peer/server.go:160 | the director joins two paths with exactly one slash between them and keeps all else |
| `Paths.JoinThenTrim` | pkg/hub/peer/server.go:178 | for every subpath, printing it behind the peer prefix and trimming the prefix gives the subpath with a leading slash |
| `Paths.EveryHopSamePath` | pkg/hub/peer/server.go:173-180 | after any number of hops, each rewriting and trimming the path, a peer is called at the same URL path |
| `Paths.PeerPathClean` | pkg/hub/peer/server.go:44-45 | exactly which peer paths the router serves without a redirect |
| `Paths.RedirectedExactly` | pkg/hub/peer/server.go:44-45 | by positions: a path is redirected exactly if it does not begin with a slash, holds two in a row, or has a whole segment of one or two dots |
| `Paths.RouteRoundTrip` | pkg/hub/peer/server.go:45-52 | the peer reads back key and normalised subpath if the path is clean, and redirects it otherwise |
| `Paths.RouteExactly` | pkg/hub/peer/server.go:45-51 | the route takes exactly the paths that are not redirected and consist of the prefix of a valid key and nothing or a slash behind it, and reads back that key and what is behind |
| `Paths.PeerPathInjective` | pkg/hub/peer/server.go:148 | two peer URLs agree exactly when key and normalised subpath agree |
| `Dialing.DialConserves` | pkg/hub/cluster/session_manager.go:63-81 | the sessions found are the sessions left and the sessions that failed; one attempt per failure and one more on success |
| `Dialing.DialKeepsOrder` | pkg/hub/cluster/session_manager.go:76 | the list that is left is the old one at increasing positions |
| `Dialing.StaysAndSucceeds` | pkg/hub/cluster/session_manager.go:65-81 | a listed session that opens whenever tried stays listed and makes the call succeed, whatever the others do meanwhile |
| `Dialing.DialSucceedsIff` | pkg/hub/cluster/session_manager.go:63-81 | with fixed outcomes, for every choice of indices the call succeeds exactly when some listed session opens; otherwise each is tried once and the list ends empty |
| `Dialing.AnyOpenSessionReachable` | pkg/hub/cluster/session_manager.go:70-78 | after deleting any set of failing sessions, any open session can still be the one returned |
| `SessionManager.Append` | pkg/hub/cluster/session_manager.go:55 | appending to a slice appends to its contents, in place exactly if there is spare capacity |
| `SessionManager.DeleteAt` | pkg/hub/cluster/session_manager.go:76 | the in-place shift deletes one element of the contents and leaves the spare part as it was |
| `SessionManager.Manager.AddClusterSession` | pkg/hub/cluster/session_manager.go:46-57 | the list of that key gains the session at its end, every other list is unchanged, and no two lists share an array |
| `SessionManager.Manager.Drop` | pkg/hub/cluster/session_manager.go:75-77 | a failed session is closed and deleted from its own list only |
| `SessionManager.Manager.Turn` | pkg/hub/cluster/session_manager.go:70-80 | one turn makes one attempt, on the listed session that the random number picks, and removes and closes it exactly if it fails |
| `SessionManager.Manager.DialCluster` | pkg/hub/cluster/session_manager.go:59-82 | the call is a dial step on the plain map, its log is what was tried, exactly the sessions that failed were closed, every attempt is on the session that the random number picks among those left, and it fails exactly if that session is down or its agent does not take the connection |
| `SessionManager.Serve` | pkg/hub/cluster/session_manager.go:46-82 | any sequence of calls on the slices is a history on the plain map with fresh additions, and a new manager opens at most once per call |
| `SessionLists.HistoryConserves` | pkg/hub/cluster/session_manager.go:46-82 | over any history, per list and session: initial plus added equals listed plus removed |
| `SessionLists.OpensAmortised` | pkg/hub/cluster/session_manager.go:46-82 | from the empty map, attempts are at most successes plus additions, so at most one per call |
| `SessionLists.NeverRelisted` | pkg/hub/cluster/session_manager.go:75-77 | with fresh sessions a removed session is never listed again, under any key |
| `SessionLists.ListedOnce` | pkg/hub/cluster/session_manager.go:50-56 | with fresh sessions no session is listed twice or under two keys |
| `MutexMachine.MutexKept` | pkg/hub/cluster/session_manager.go:47-48 | at most one call is inside, and it is the one that holds the mutex |
| `MutexMachine.MoveProgress` | pkg/hub/cluster/session_manager.go:63-81 | every micro-step inside, also with the map torn by the shift, stays on the way of one atomic call |
| `MutexMachine.Linearizable` | pkg/hub/cluster/session_manager.go:46-82 | every interleaving has a sequential order of the calls as they were invoked, each once and with the result it returns, that ends in the map and respects the real time of returns and invocations; removed sessions are down, and neither they nor sessions lost before its invocation are returned by a later call |
| `MutexMachine.InvokedCall` | pkg/hub/cluster/session_manager.go:46-61 | at every later moment a thread runs the call that it was invoked with |
| `MutexHistories.HistoriesExactly` | pkg/hub/cluster/session_manager.go:46-82 | what concurrent calls can come to, results and maps, is exactly the sequential histories in which no call opens a session that was removed |
| `MutexMachine.ConcurrentOpens` | pkg/hub/cluster/session_manager.go:65-72 | at every moment of every concurrent run, the attempts of finished calls and of the one inside are at most one per invoked call |
| `MutexMachine.NeverStuck` | pkg/hub/cluster/session_manager.go:47-48 | as long as a call has not returned, some call can step |
| `Peers.ListPeers` | pkg/hub/peer/server.go:108-139 | the loops list the addresses of the first subset other than the own one, in order, each with the number of the first port named peer or else of the first port; and which of the three errors is returned when |
| `Peers.DecimalReads` | pkg/hub/peer/server.go:136 | a printed number reads back as that number and no other, in plain digits without leading zeros |
| `Peers.AddressInjective` | pkg/hub/peer/server.go:136 | two addresses are printed alike exactly if host and port agree |
| `Peers.UrlNames` | pkg/hub/peer/server.go:148 | the URL is the scheme, the peer and the route prefix of the key, carries the request's path as the call does, and tells peers and keys apart |
| `Peers.NamedPortFirst` | pkg/hub/peer/server.go:123-129 | the port is that of the first entry named peer, or the first port if none is |
| `Peers.PeersExact` | pkg/hub/peer/server.go:131-138 | the list is the order-preserving image of exactly the other addresses, each printed as host, colon and the digits of the port, without the empty string, and distinct if the addresses are |
| `Peers.StopIsFirst` | pkg/hub/peer/server.go:142-146 | a walk stops at one position, the first at which the list ends or a hop does not advance |
| `Peers.FirstAnswerWins` | pkg/hub/peer/server.go:141-182 | behind hops that advance, a peer's other answer decides, a transport error or the end of the list gives 502, a bad URL or certificate 500, whatever comes behind |
| `Peers.CallsInOrder` | pkg/hub/peer/server.go:160-181 | each peer is called at most once, in list order, at one path |
| `Peers.Cursor.Next` | pkg/hub/cluster/subresources.go:190-197 | the closure hands out the peers in order and then the empty string |
| `Peers.TryNextPeer` | pkg/hub/peer/server.go:141-182 | the recursion writes exactly one reply and sends exactly the calls of the search |
| `Peers.ProxyTo` | pkg/hub/peer/server.go:160-181 | one reverse proxy, with a 502 answer turned into an error without a text |
| `Peers.HandlePeerError` | pkg/hub/peer/server.go:173-180 | an error with a text ends the walk with 502, one without goes on with the path restored |
| `Handlers.ServeConnect` | pkg/hub/cluster/subresources.go:101-135 | a fresh session is registered under the request's key exactly when the token is the stored one and the channel comes up; else one error reply and no change |
| `Handlers.ServeProxy` | pkg/hub/cluster/subresources.go:155-203 | one reply on every path; an agent's answer is passed on with status and body; peers are called only without one, in list order from the first, each at the route prefix of the key and the normalised subpath; a dial of the own cluster only after a successful lookup |
| `Handlers.HandleLocalError` | pkg/hub/cluster/subresources.go:182-200 | the error handler answers as the first listed peer whose hop does not advance and calls exactly the peers up to it at the request's own path, or answers with the listing error, or 502 without a peer manager |
| `Admission.Mutate` | pkg/webhook/cluster/mutator.go:42-57 | exactly the objects that decode and marshal are patched; the patched one has a token, its own if it had one, and the same key; otherwise 400 or 500 |
| `Admission.Validate` | pkg/webhook/cluster/validator.go:42-57 | an object is allowed exactly if it decodes and has a token, and denied exactly if it decodes and has none |
| `Admission.Store` | pkg/webhook/cluster/mutator.go:48-50 | through both webhooks: the validator turns down nothing that the mutator lets through, what is stored has the supplied token, or the new UUID if none was supplied, and storing it again changes nothing |
| `Admission.StoredExactly` | pkg/webhook/cluster/mutator.go:48-50 | which cluster a write stores, by an equivalence: the written one, or the written one with the UUID for its empty token |
| `HubInvariants.DialsRightCluster` | pkg/hub/cluster/subresources.go:177-181 | a connection opened by a handler is to a session registered at that hub for that handler's key |
| `HubInvariants.TasksKept` | pkg/hub/peer/server.go:45-52 | every handler of a request carries its key and normalised subpath, and only the entry handler walks |
| `HubInvariants.HopsKept` | pkg/hub/cluster/subresources.go:190-197 | the handlers of a request belong to different hops that its walk has reached |
| `HubInvariants.Reachable` | pkg/hub/cluster/subresources.go:94-203 | the invariant of tasks, hops, tokens, sessions and connections holds in every reachable state |
| `HubOrigins.ServedAsSubmitted` | pkg/hub/cluster/subresources.go:146-150 | from its submission on, a request is served at that hub, for that key and subpath, with a peer manager |
| `HubOrigins.HandlerOrigin` | pkg/hub/peer/server.go:45-52 | every handler goes back to one submission, a handler at a peer by a call of the entry handler that reached its hub |
| `HubOrigins.StoredAsWritten` | pkg/webhook/cluster/mutator.go:48-50 | a cluster is stored exactly if it was written and not deleted since, with the token supplied in the last write or the UUID of that write |
| `HubOrigins.RegisteredFrom` | pkg/hub/cluster/subresources.go:128-134 | a registered session has the hub, key and token with which its agent arrived |
| `HubOrigins.OneSessionPerAgent` | pkg/hub/cluster/subresources.go:122-134 | an agent that connects has at most one session registered, and none if its upgrade or channel failed |
| `HubOrigins.DownExactly` | pkg/hub/cluster/session_manager.go:73-75 | a session is down exactly if it was lost or a dial call failed on it |
| `HubOrigins.NeverOpensDown` | pkg/hub/cluster/session_manager.go:72-80 | no handler at any hub gets a connection to a session that was lost or removed before |
| `HubOrigins.OpenedExactly` | pkg/hub/cluster/subresources.go:177-181 | the connections opened are those of the dial steps, for the request of the handler that dials |
| `HubOrigins.DeliveredExactly` | pkg/hub/cluster/subresources.go:202 | what is delivered is exactly what a handler sent over a connection that it had dialled before |
| `HubTheorems.RightCluster` | pkg/hub/cluster/subresources.go:102-134 | whatever a submitted request opens or is sent over was registered, for exactly the submitted key, by an agent that arrived at that hub for it, with the token that an earlier lookup found stored |
| `HubTheorems.NoTokenlessAgent` | pkg/hub/cluster/subresources.go:112-116 | no stored cluster is without a token, and no agent was registered without one |
| `HubTheorems.EveryHandlerSamePath` | pkg/hub/cluster/subresources.go:173-176 | every handler reached serves the submitted key, the entry handler the submitted subpath and any other the same, normalised; peers are called at the path printed from the two |
| `HubTheorems.HandlersBounded` | pkg/hub/peer/server.go:52 | a handler started by a peer call never calls a peer, and a request runs at most one handler more than listed peers |
| `HubTheorems.StepsDecrease` | pkg/hub/peer/server.go:141-146 | every step of a handler decreases its rank and no other step changes it |
| `HubTheorems.RequestSteps` | pkg/hub/peer/server.go:141-182 | in any run all handlers of a request together take at most seven steps per listed peer and five more |
| `HubTheorems.HandlerCanStep` | pkg/hub/cluster/subresources.go:156-202 | a handler that has not answered can step, or waits for one that can |
| `HubTheorems.NextExactly` | pkg/hub/cluster/subresources.go:155-203 | the steps that a handler can take in a reachable state, by an equivalence; a peer call starts a handler exactly if the router serves the path |
| `HubTheorems.HubHistory` | pkg/hub/cluster/subresources.go:128-134 | a run acts on the sessions of a hub as a history of calls that add fresh sessions |
| `HubTheorems.GoneForGood` | pkg/hub/cluster/session_manager.go:75-77 | a removed session is never listed again at any hub |
| `HubTheorems.ListedOnceAnywhere` | pkg/hub/cluster/session_manager.go:50-56 | a session is listed at most once over all hubs and keys |
| `HubWalks.WalkIsSearch` | pkg/hub/peer/server.go:141-182 | in every run the answer of a handler that listed its peers is that of the first hop in list order that does not advance, or 502 at the end of the list, also of an empty one |
| `HubWalks.HandlerAnswers` | pkg/hub/cluster/subresources.go:155-203 | in every run every handler answers with the status of the proxy handler as a function of what it met, and has sent exactly its calls, each to its peer at its path |
| `HubWalks.AnswerOrigin` | pkg/hub/peer/server.go:167-180 | every answer was decided in one step by a handler of the request, for a reason of its own (a lookup, an agent, no connection, the list of peers, a URL or certificate, the route, a broken call), and passed on unchanged |
| `HubWalks.AgentAnswered` | pkg/hub/cluster/subresources.go:177-202 | an answer other than 301, 404, 500 and 502 was given by an agent of the cluster that the request was submitted for, over a connection that the request was sent over |
| `HubDelivery.DeliveredAtMostOnce` | pkg/hub/cluster/subresources.go:177-201 | in every run without one of the four risks for a request, it is delivered at most once over all hubs |
| `HubRedelivery.RiskExactly` | pkg/hub/peer/server.go:167-180 | in any state that keeps the invariants, with no risk taken for a request so far, it can be delivered twice after a step, with no risk from there on, exactly if the step is a risk |
| `HubRedelivery.FirstRiskExactly` | pkg/hub/cluster/subresources.go:182-200 | the same for every request at every step of every run that took no risk for it before |
| `HubRedelivery.RiskDeliversTwice` | pkg/hub/peer/server.go:141-182 | with clusters and sessions as they are: after a risky step the second delivery is reached if the cluster exists, a hub at some later hop has a live session, and so has, if nothing was sent yet, the handler left behind or its hub |
| `HubRedelivery.RiskIsReal` | pkg/hub/cluster/subresources.go:182-200 | for each risk there is a run from the initial state in which it is the only one and a request is delivered twice |
| `HubRedelivery.AtMostOnceExactly` | pkg/hub/cluster/subresources.go:177-201 | delivery is at most once in all runs that take only risks of a given set exactly if the set is empty |
| `HubSearch.SearchKept` | pkg/hub/cluster/session_manager.go:59-82 | a step leaves the request found, or, if the environment grants its part, on its way with the good session listed |
| `HubSearch.SearchComplete` | pkg/hub/cluster/subresources.go:155-203 | a submitted request finds a session registered for the submitted key if its entry hub or one behind its list of peers lists one that opens whenever tried and the walk is not cut short before it, also past hubs whose sessions open and break before sending, and whatever happens once it is found |

## Left out

- TLS, certificates, the WebSocket upgrade, yamux framing, headers, queries and request bodies: they are outcomes that the environment chooses.
- The raw path of URLs and the escaping of path segments: paths are taken to be unescaped.
- The upgrade library's own error reply: `ServeConnect` counts the replies that the handler itself writes.
- The `agent` subresource, the manifests, flags, wiring and signal handling, and the generated clients.
- Decoding, marshalling and patches of the webhooks: a request either decodes to a cluster record or does not, and the patch is the record that results.
- Quoting and the service name in the errors of the peer listing, and log output other than the attempts of a dial.
- Linearizable: the micro-steps act on the lists that the slices stand for, with the stale header between the shift and the store; spare capacity, which no other call sees, is in `SessionManager.Append` and `SessionManager.DeleteAt`.
- Fairness of the random choice, timeouts, and how long a call blocks the mutex.
- Bodies of answers in the step system: only the status decides there.
- HandlerCanStep: while a peer call is in flight its step is a transport error, because nothing says that the network delivers a call.
- SearchComplete: says what holds once the entry handler has answered; that it does answer is `RequestSteps` and `HandlerCanStep`.
