# Websocket broadcast hub, modelled in Dafny

This project models the broadcast hub of `go-wasm-socket` (`pkg/socket/manager.go`). The hub is a
`Manager` with a registry of live websocket clients. Each client has a reader goroutine and a
writer goroutine. A single relay goroutine takes every message a reader reads and hands it to the
write channel of every *other* client.

The model is a sequential state machine over one immutable `Hub` value. Each locked section is
one atomic transition. So is each goroutine iteration, together with the channel sends it makes:

- `types.dfy` (`Types`): `Client` is a record of a handle (the Go pointer) and a 32-bit id. It
  also defines `NotifyEvent` and a `ReadResult` that stands for one return of `ReadMessage`.
- `manager.dfy` (`Manager`): the hub state is the registry, each client's pending queue
  (`writeChan`), the frames written so far, the running readers, the readers that have broken
  out of their loop but not yet run their deferred removal, and a per-client count of
  connection closes. The file also holds the hub invariant `Valid`, `NewManager`, `addClient`
  and `removeClient`.
- `fanout.dfy` (`Fanout`): `otherClients` appears twice, as a set and as the source's loop over
  the registry. One relay step appears twice too, as a pure function and as the source's loop
  that pushes onto each channel. Each loop is proved equal to its function.
- `pumps.dfy` (`Pumps`): one iteration of `readMessages` (relay, then leave the loop on error),
  the reader's deferred `removeClient` as a step of its own, one dequeue of `writeMessages`, and
  `ServeWS`, parameterised by whether the upgrade succeeded and by the drawn id.
- `lifecycle.dfy` (`Lifecycle`): any interleaving of those steps from `NewManager`. It proves
  that the invariant holds, that a removed client never returns and is never sent anything
  again, and that per-client delivery is FIFO.
- `scenario.dfy` (`Scenario`): concrete runs: three peers with one disconnecting, the window
  before a disconnecting peer is removed, and two peers whose ids collide.

Four behaviours of the code are worth knowing:

- **A failed read is still relayed.** `readMessages` sends the payload to the relay *before* it
  checks the read error. So a peer whose read fails still sends one more message to every other
  peer: the payload returned with the error, usually empty (`Scenario.ThreePeers`).
- **A peer that failed a read stays a target until its deferred removal runs.** Leaving the read
  loop and running the deferred `removeClient` are two separate steps. Any message relayed in
  between is still queued for that peer (`Scenario.PingBeforeBLeaves`).
- **Ids are random and are never checked for uniqueness.** They come from `rand.Uint32`, and
  exclusion is by id, not by pointer. Two clients that drew the same id never receive each
  other's messages (`Fanout.SameIdClientsMissEachOther`, `Scenario.CollidingIds`).
- **Write errors do not tear a client down.** `writeMessages` ignores write errors and never
  leaves its loop, so its deferred `removeClient` never runs. Only a failed read unregisters a
  client. The invariant therefore says a client is registered exactly while its reader is
  running or on its way out.

## Model

| member | source | states |
|---|---|---|
| Manager.NewManager | pkg/socket/manager.go:102-106 | a new manager has an empty registry, nothing queued, written or closed, and satisfies the hub invariant |
| Manager.AddClient | pkg/socket/manager.go:142-147 | the added client is registered afterwards; no other client's membership and nothing else in the state changes |
| Manager.AddClientIdempotent | pkg/socket/manager.go:142-147 | adding the same client twice gives the same state as adding it once |
| Manager.AddRegisteredClient | pkg/socket/manager.go:146 | adding a client that is already registered changes nothing |
| Manager.RemoveClient | pkg/socket/manager.go:151-159 | the client is absent afterwards and every other membership is unchanged; its connection is closed once exactly when it was present, and an absent client leaves the state untouched |
| Manager.RemoveClientIdempotent | pkg/socket/manager.go:155-158 | removing twice equals removing once, so a second removal adds no close |
| Manager.AddThenRemove | pkg/socket/manager.go:142-159 | add then remove restores the registry and closes the connection exactly once |
| Fanout.OtherClients | pkg/socket/manager.go:114-124 | the selection holds only registered clients, never the sender and never a client with the sender's id, and it holds every registered client with a different id |
| Fanout.OtherClientsList | pkg/socket/manager.go:115-123 | the loop over the registry lists each selected client exactly once and nothing else |
| Fanout.Relay | pkg/socket/manager.go:131-136 | one relay step appends the message once to the end of each selected client's queue; every other queue (the sender's included) and the rest of the state are unchanged |
| Fanout.Push | pkg/socket/manager.go:135 | a send on one client's channel adds the message at the end of that client's queue only |
| Fanout.NotifyOtherClients | pkg/socket/manager.go:128-139 | pushing onto each listed client in turn gives exactly the relay step |
| Fanout.NoSelfDelivery | pkg/socket/manager.go:117-121 | the sender's queue and the queue of any unregistered client are untouched by a relay |
| Fanout.SameIdClientsMissEachOther | pkg/socket/manager.go:118 | two distinct registered clients with the same id never receive each other's messages |
| Fanout.TwoRelaysInOrder | pkg/socket/manager.go:134-136 | two successive relays reaching a client leave both messages at the end of its queue, in relay order |
| Fanout.RelayCommutesWithSenderRemoval | pkg/socket/manager.go:64-72 | relaying a client's own event gives the same state whether that client's removal runs before or after the relay; it says nothing about other clients' events |
| Pumps.ReadStep | pkg/socket/manager.go:69-79 | the payload reaches every other client whether or not the read failed; on failure the reader leaves its loop but the client stays registered, with nothing closed yet; otherwise membership is unchanged; a reader that has left its loop takes no step |
| Pumps.DeferredRemove | pkg/socket/manager.go:65-67 | after the reader has left its loop, its deferred removal unregisters the client and closes its connection once; no other membership, queue or close count changes; it runs only for a reader on its way out |
| Pumps.WriteStep | pkg/socket/manager.go:92-96 | the writer writes the oldest queued message and drops it from the queue, waits when the queue is empty, and never reorders anything a client was sent |
| Pumps.ServeWS | pkg/socket/manager.go:163-177 | a failed upgrade leaves the hub unchanged; a successful one registers a single new client with the drawn id and starts its reader; in a valid hub that client is new, with an empty queue and an open connection |
| Lifecycle.NextPreservesValid | pkg/socket/manager.go:142-177 | every step keeps the invariant: a client is registered iff its reader runs or is on its way out, iff its connection is unclosed; no connection is closed twice |
| Lifecycle.RunPreservesValid | pkg/socket/manager.go:142-177 | any sequence of steps from a valid hub keeps the invariant |
| Lifecycle.ReachableIsValid | pkg/socket/manager.go:151-159 | every hub reachable from a new manager is valid and has closed each connection at most once |
| Lifecycle.NextKeepsRemoved | pkg/socket/manager.go:172-173 | no step re-registers a client that has left: upgrades only ever register new clients |
| Lifecycle.RemovedStaysRemoved | pkg/socket/manager.go:74-78 | a client that has left stays unregistered, its reader stays stopped so later reads do nothing, and its connection stays closed exactly once |
| Lifecycle.StoppedReaderStaysStopped | pkg/socket/manager.go:74-78 | once a reader has left its loop, no later step ever reads for that client |
| Lifecycle.ReadErrorStopsReader | pkg/socket/manager.go:72-78 | after a failed read the client is still registered and on its way out, and it is never read again |
| Lifecycle.ReaderExitEndsClient | pkg/socket/manager.go:65-67 | once the deferred removal runs, the client is unregistered for good and closed exactly once |
| Lifecycle.NextSendsRemovedNothing | pkg/socket/manager.go:131-136 | no single step adds anything to what an unregistered client was sent |
| Lifecycle.RemovedGetsNothing | pkg/socket/manager.go:132-136 | over any run, a client that has left the registry is never sent anything again |
| Lifecycle.BothDefersCloseOnce | pkg/socket/manager.go:88-90 | the reader's deferred removal followed by the writer's removal closes the connection once in total |
| Lifecycle.NextExtendsStreams | pkg/socket/manager.go:92-96 | one step never retracts or reorders what a client was sent: written frames and the written-then-queued stream only grow at the end |
| Lifecycle.RunExtendsStreams | pkg/socket/manager.go:134-136 | over any run a client's written frames and its written-then-queued stream only grow at the end (per-client FIFO) |
| Scenario.ConnectThreeLive | pkg/socket/manager.go:163-177 | three successful upgrades yield three live peers with empty queues |
| Scenario.HelloFromA | pkg/socket/manager.go:128-139 | with three live peers, A's message reaches B and C once each and not A |
| Scenario.BDisconnects | pkg/socket/manager.go:65-78 | B's failed read sends its empty payload to A and C; B's deferred removal then unregisters B and closes it once |
| Scenario.PingBeforeBLeaves | pkg/socket/manager.go:72-78 | between B's failed read and its deferred removal B is still registered, so C's PING is queued for B as well as for A |
| Scenario.PingFromC | pkg/socket/manager.go:117-121 | after B has left, C's message reaches only A |
| Scenario.ThreePeers | pkg/socket/manager.go:64-177 | the full three-peer run, with B removed before C's PING, ends with A holding ["", "PING"], B holding ["HELLO"] and C holding ["HELLO", ""]; B is unregistered and was closed once |
| Scenario.CollidingIds | pkg/socket/manager.go:53-60 | two clients that drew the same id are distinct clients; each sends one message, and neither receives the other's, while a third client receives both in order |

## Left out

- Goroutines, the `sync.RWMutex` and the unbuffered channels (`pkg/socket/manager.go:43-45`, `108`, `175-176`) are not modelled as concurrency. Each locked section and each channel hand-off is one atomic step. Blocking and deadlock are not modelled.
- An unbuffered `writeChan` is modelled as a queue. A client still receives messages in the order the relay sent them. The model does not capture that the relay blocks until the writer takes each message.
- Pumps.ReadStep: the hand-off on `notifyChan` (`pkg/socket/manager.go:72`), the relay's read of the registry (`132`) and its pushes (`134-136`) are one step. A registration, or another client's removal, that lands between the hand-off and the registry read is not modelled. For the sender's own removal, `Fanout.RelayCommutesWithSenderRemoval` shows that the order does not matter.
- `otherClients` reads `m.clients` without the lock (`pkg/socket/manager.go:132`). Races between that read and concurrent registrations are not modelled.
- Go's random map iteration order is not modelled as a distribution. `Fanout.OtherClientsList` picks an arbitrary remaining client at each step, and its contract holds for every order.
- Websocket I/O is not modelled: the gorilla upgrader and its buffer sizes (`pkg/socket/manager.go:14-19`), `ReadMessage`, `WriteMessage` and `Close`. These are foreign calls. A read is an input `ReadResult`; `messageType` is dropped because it has no effect on control flow. A write is a record of the frame written. A close is a per-client counter.
- Logging (`pkg/socket/manager.go:75-81`, `164`, `168`) is dropped because it has no effect on control flow.
- `rand.Uint32` is a parameter of `Pumps.ServeWS`. Ids are not assumed unique.
- The writer's deferred `removeClient` (`pkg/socket/manager.go:88-90`) can never run, because `writeMessages` never leaves its loop. It is not a step of `Lifecycle.Step`; `Lifecycle.BothDefersCloseOnce` covers it as a hypothetical second removal.
- A client's `manager` back-pointer is not modelled. There is one hub.
- `pkg/socket/event.go` is not part of this model. It only declares types, a constant and an error value, and nothing in the hub uses them.
- `main.go` is not part of this model: it is HTTP routing and `ListenAndServe` bootstrap.
- `wasm/wasm.go` is not part of this model: it is the browser-side client, built on `syscall/js` and the DOM.
