/** The per-client goroutines and the upgrade handler: one iteration of
    `readMessages`, one dequeue of `writeMessages`, and `ServeWS`. The
    websocket calls are inputs: a read is a `ReadResult`, the upgrade's
    outcome a boolean, the random id a parameter. */
module Pumps {
  import opened Types
  import opened Manager
  import opened Fanout

  /** One iteration of `readMessages` for client `c`. The payload goes to the
      relay first, whether or not the read failed; on failure the loop breaks
      and the reader is on its way out, with its deferred `removeClient` still
      to run (`DeferredRemove`). Until then `c` stays registered. A client
      whose reader has left its loop takes no further read steps. */
  function ReadStep(h: Hub, c: Client, r: ReadResult): (h': Hub)
    ensures c !in h.reading ==> h' == h
    ensures c in h.reading ==>
              forall d :: d in OtherClients(h, c) ==> Outbox(h', d) == Outbox(h, d) + [r.payload]
    ensures c in h.reading ==>
              forall d :: d !in OtherClients(h, c) ==> Outbox(h', d) == Outbox(h, d)
    ensures c in h.reading ==> (c in h'.reading <==> !r.failed)
    ensures c in h.reading ==> (c in h'.leaving <==> r.failed || c in h.leaving)
    ensures forall d :: d != c ==> (d in h'.reading <==> d in h.reading)
    ensures forall d :: d != c ==> (d in h'.leaving <==> d in h.leaving)
    ensures h'.clients == h.clients && h'.closes == h.closes
    ensures h'.written == h.written && h'.created == h.created && h'.nextHandle == h.nextHandle
  {
    if c !in h.reading then h
    else
      var relayed := Relay(h, NotifyEvent(c, r.payload));
      if r.failed then
        relayed.(reading := relayed.reading - {c}, leaving := relayed.leaving + {c})
      else
        relayed
  }

  /** The deferred `removeClient` of a reader that broke out of its loop. It
      runs once, as a locked section of its own: `c` leaves the registry and
      its connection is closed once if `c` was still registered. Every other
      client's membership, every queue and every other close count are
      unchanged. A client whose reader is not on its way out takes no such step. */
  function DeferredRemove(h: Hub, c: Client): (h': Hub)
    ensures c !in h.leaving ==> h' == h
    ensures c in h.leaving ==> c !in h'.clients && c !in h'.leaving
    ensures c in h.leaving ==> Closes(h', c) == Closes(h, c) + (if c in h.clients then 1 else 0)
    ensures forall d :: d != c ==> (d in h'.clients <==> d in h.clients)
    ensures forall d :: d != c ==> (d in h'.leaving <==> d in h.leaving)
    ensures forall d :: d != c ==> Closes(h', d) == Closes(h, d)
    ensures h'.outbox == h.outbox && h'.written == h.written && h'.reading == h.reading
    ensures h'.created == h.created && h'.nextHandle == h.nextHandle
  {
    if c !in h.leaving then h
    else
      var removed := RemoveClient(h, c);
      removed.(leaving := removed.leaving - {c})
  }

  /** One iteration of `writeMessages` for client `c`: when its channel holds a
      message, the oldest one is taken and written to the connection (a write
      error is ignored); when it holds none, the writer waits and nothing
      changes. Either way everything `c` was sent keeps its order. */
  function WriteStep(h: Hub, c: Client): (res: (Hub, Option<string>))
    ensures Outbox(h, c) == [] ==> res == (h, None)
    ensures Outbox(h, c) != [] ==>
              && res.1 == Some(Outbox(h, c)[0])
              && Outbox(res.0, c) == Outbox(h, c)[1..]
              && Written(res.0, c) == Written(h, c) + [Outbox(h, c)[0]]
    ensures forall d :: Stream(res.0, d) == Stream(h, d)
    ensures forall d :: d != c ==> Outbox(res.0, d) == Outbox(h, d) && Written(res.0, d) == Written(h, d)
    ensures res.0.(outbox := h.outbox, written := h.written) == h
  {
    var queue := Outbox(h, c);
    if queue == [] then (h, None)
    else
      var h' := h.(outbox := h.outbox[c := queue[1..]],
                   written := h.written[c := Written(h, c) + [queue[0]]]);
      assert Stream(h', c) == Written(h, c) + [queue[0]] + queue[1..];
      (h', Some(queue[0]))
  }

  /** `ServeWS` for one request. When the upgrade fails nothing is registered.
      When it succeeds a new client with the drawn id is made (`NewClient`),
      added to the registry, and its reader starts; in a valid hub the new
      client is one never seen before, with nothing queued, written or closed. */
  function ServeWS(h: Hub, upgraded: bool, id: Uint32): (res: (Hub, Option<Client>))
    ensures !upgraded ==> res == (h, None)
    ensures upgraded ==> res.1.Some? && res.1.value.id == id
    ensures upgraded ==> res.0.clients == h.clients + {res.1.value}
    ensures upgraded ==> res.0.reading == h.reading + {res.1.value}
    ensures upgraded ==> res.0.leaving == h.leaving
    ensures upgraded ==> res.0.created == h.created + {res.1.value}
    ensures upgraded && Valid(h) ==>
              && res.1.value !in h.created
              && res.1.value !in h.clients
              && Stream(res.0, res.1.value) == []
              && Closes(res.0, res.1.value) == 0
    ensures upgraded ==>
              res.0.outbox == h.outbox && res.0.written == h.written && res.0.closes == h.closes
  {
    if !upgraded then (h, None)
    else
      var c := Client(h.nextHandle, id);
      var made := h.(created := h.created + {c}, nextHandle := h.nextHandle + 1);
      var added := AddClient(made, c);
      (added.(reading := added.reading + {c}), Some(c))
  }
}
