/** The state of a `Manager` and its two locked sections, `addClient` and
    `removeClient`. Each locked section is one atomic transition on an
    immutable `Hub` value. */
module Manager {
  import opened Types

  /** Everything the hub and its goroutines share.
      - `clients`: the registry (`m.clients`), the set of live clients;
      - `outbox`: what each client's `writeChan` still holds, oldest first;
      - `written`: the frames each client's writer has handed to `WriteMessage`;
      - `reading`: the clients whose `readMessages` loop is still running;
      - `leaving`: the clients whose reader has broken out of its loop but
        whose deferred `removeClient` has not run yet;
      - `closes`: how many times each client's connection was closed;
      - `created`: every client `ServeWS` ever made, with `nextHandle` the
        handle (pointer) the next one will get.
      A client missing from a map has an empty queue, no written frames and
      no closes. */
  datatype Hub = Hub(
    clients: set<Client>,
    outbox: map<Client, seq<string>>,
    written: map<Client, seq<string>>,
    reading: set<Client>,
    leaving: set<Client>,
    closes: map<Client, nat>,
    created: set<Client>,
    nextHandle: nat)

  function Outbox(h: Hub, c: Client): seq<string> {
    if c in h.outbox then h.outbox[c] else []
  }

  function Written(h: Hub, c: Client): seq<string> {
    if c in h.written then h.written[c] else []
  }

  function Closes(h: Hub, c: Client): nat {
    if c in h.closes then h.closes[c] else 0
  }

  /** Everything a client has been sent so far: the frames already written,
      followed by those still waiting in its channel. */
  function Stream(h: Hub, c: Client): seq<string> {
    Written(h, c) + Outbox(h, c)
  }

  /** The invariant every reachable hub keeps. A client is registered exactly
      while its reader runs or is on its way out (broken out of the loop, its
      deferred removal still to come), and exactly while its connection is
      unclosed; no connection is closed twice. Every client the state mentions
      was made by `ServeWS`, with a handle below the next one to be handed out. */
  ghost predicate Valid(h: Hub) {
    && h.reading + h.leaving == h.clients
    && h.reading !! h.leaving
    && h.clients <= h.created
    && (forall c :: c in h.created ==> c.handle < h.nextHandle)
    && (forall c :: c in h.outbox ==> c in h.created)
    && (forall c :: c in h.written ==> c in h.created)
    && (forall c :: c in h.closes ==> c in h.created)
    && (forall c :: c in h.created ==> (c in h.clients <==> Closes(h, c) == 0))
    && (forall c :: Closes(h, c) <= 1)
  }

  /** `NewManager`: an empty client list, and nothing queued, written or closed. */
  function NewManager(): (h: Hub)
    ensures Valid(h)
    ensures h.clients == {}
    ensures forall c :: Stream(h, c) == [] && Closes(h, c) == 0
  {
    Hub({}, map[], map[], {}, {}, map[], {}, 0)
  }

  /** `addClient`: `c` is in the registry afterwards, and no other client's
      membership, and nothing else, changes. */
  function AddClient(h: Hub, c: Client): (h': Hub)
    ensures c in h'.clients
    ensures forall d :: d != c ==> (d in h'.clients <==> d in h.clients)
    ensures h'.(clients := h.clients) == h
  {
    h.(clients := h.clients + {c})
  }

  /** `removeClient`: `c` is absent afterwards and no other client's membership
      changes; the connection is closed, once, exactly when `c` was present. */
  function RemoveClient(h: Hub, c: Client): (h': Hub)
    ensures c !in h'.clients
    ensures forall d :: d != c ==> (d in h'.clients <==> d in h.clients)
    ensures Closes(h', c) == Closes(h, c) + (if c in h.clients then 1 else 0)
    ensures forall d :: d != c ==> Closes(h', d) == Closes(h, d)
    ensures c !in h.clients ==> h' == h
    ensures h'.(clients := h.clients, closes := h.closes) == h
  {
    if c in h.clients then
      h.(clients := h.clients - {c}, closes := h.closes[c := Closes(h, c) + 1])
    else
      h
  }

  /** Adding a client already registered changes nothing. */
  lemma AddRegisteredClient(h: Hub, c: Client)
    requires c in h.clients
    ensures AddClient(h, c) == h
  {
    assert h.clients + {c} == h.clients;
  }

  /** Adding the same client twice leaves the state adding it once does. */
  lemma AddClientIdempotent(h: Hub, c: Client)
    ensures AddClient(AddClient(h, c), c) == AddClient(h, c)
  {
    AddRegisteredClient(AddClient(h, c), c);
  }

  /** Removing twice is removing once: the second call finds `c` absent, so it
      neither closes the connection again nor changes anything else. */
  lemma RemoveClientIdempotent(h: Hub, c: Client)
    ensures RemoveClient(RemoveClient(h, c), c) == RemoveClient(h, c)
    ensures Closes(RemoveClient(RemoveClient(h, c), c), c) <= Closes(h, c) + 1
  {
  }

  /** Removing a client after adding it undoes the add for every other client,
      and closes the connection exactly once. */
  lemma AddThenRemove(h: Hub, c: Client)
    requires c !in h.clients
    ensures RemoveClient(AddClient(h, c), c).clients == h.clients
    ensures Closes(RemoveClient(AddClient(h, c), c), c) == Closes(h, c) + 1
  {
    assert (h.clients + {c}) - {c} == h.clients;
  }
}
