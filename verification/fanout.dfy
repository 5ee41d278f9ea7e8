/** The fan-out decision: `otherClients` and one iteration of the
    `notifyOtherClients` loop. The unlocked read of the registry and the
    blocking hand-off on each unbuffered `writeChan` are abstracted: one relay
    step reads the registry and appends to every target's queue atomically. */
module Fanout {
  import opened Types
  import opened Manager

  /** `otherClients`: the registered clients whose id differs from the
      sender's. Exclusion is by id, so a different client that drew the same
      id as the sender is excluded too. */
  function OtherClients(h: Hub, sender: Client): (targets: set<Client>)
    ensures targets <= h.clients
    ensures sender !in targets
    ensures forall c :: c in targets ==> c.id != sender.id
    ensures forall c :: c in h.clients && c.id != sender.id ==> c in targets
  {
    set c | c in h.clients && c.id != sender.id
  }

  /** The same selection built as the source builds it: a walk over the
      registry in some order, appending each client whose id differs. The
      result lists every selected client exactly once. */
  method OtherClientsList(h: Hub, sender: Client) returns (list: seq<Client>)
    ensures forall i, j :: 0 <= i < j < |list| ==> list[i] != list[j]
    ensures forall c :: c in list <==> c in OtherClients(h, sender)
  {
    list := [];
    var rest := h.clients;
    while rest != {}
      invariant rest <= h.clients
      invariant forall i, j :: 0 <= i < j < |list| ==> list[i] != list[j]
      invariant forall c :: c in list <==> c in h.clients - rest && c.id != sender.id
      decreases rest
    {
      var c :| c in rest;
      if c.id != sender.id {
        list := list + [c];
      }
      rest := rest - {c};
    }
  }

  /** One relay step: the event's message is appended, once, to the end of the
      queue of every client `otherClients` selects. Every other queue, the
      sender's first of all, and the rest of the state are unchanged. */
  function Relay(h: Hub, e: NotifyEvent): (h': Hub)
    ensures forall c :: c in OtherClients(h, e.client) ==> Outbox(h', c) == Outbox(h, c) + [e.message]
    ensures forall c :: c !in OtherClients(h, e.client) ==> Outbox(h', c) == Outbox(h, c)
    ensures Outbox(h', e.client) == Outbox(h, e.client)
    ensures h'.(outbox := h.outbox) == h
  {
    var targets := OtherClients(h, e.client);
    h.(outbox := map c | c in h.outbox.Keys + targets ::
                   if c in targets then Outbox(h, c) + [e.message] else h.outbox[c])
  }

  /** Pushing `m` onto client `c`'s channel: the message lands at the end of
      `c`'s queue and no other queue moves. */
  function Push(h: Hub, c: Client, m: string): (h': Hub)
    ensures Outbox(h', c) == Outbox(h, c) + [m]
    ensures forall d :: d != c ==> Outbox(h', d) == Outbox(h, d)
    ensures h'.outbox.Keys == h.outbox.Keys + {c}
    ensures h'.(outbox := h.outbox) == h
  {
    h.(outbox := h.outbox[c := Outbox(h, c) + [m]])
  }

  /** `now` is `h` after the message `m` was pushed onto the channel of each
      client of `done`, once each: those queues grew by `m`, no other queue
      moved, and nothing else changed. */
  ghost predicate PushedTo(h: Hub, now: Hub, done: seq<Client>, m: string) {
    && now.(outbox := h.outbox) == h
    && now.outbox.Keys == h.outbox.Keys + (set c | c in done)
    && (forall c :: c in done ==> Outbox(now, c) == Outbox(h, c) + [m])
    && (forall c :: c !in done ==> Outbox(now, c) == Outbox(h, c))
  }

  /** Pushing onto one more client, not yet served, extends `PushedTo`. */
  lemma PushedToStep(h: Hub, now: Hub, done: seq<Client>, c: Client, m: string)
    requires PushedTo(h, now, done, m) && c !in done
    ensures PushedTo(h, Push(now, c, m), done + [c], m)
  {
    assert (set d | d in done + [c]) == (set d | d in done) + {c};
  }

  /** Having pushed onto exactly the clients `otherClients` selects is the
      relay step. */
  lemma PushedToAllIsRelay(h: Hub, now: Hub, done: seq<Client>, e: NotifyEvent)
    requires PushedTo(h, now, done, e.message)
    requires forall c :: c in done <==> c in OtherClients(h, e.client)
    ensures now == Relay(h, e)
  {
    var r := Relay(h, e);
    assert (set c | c in done) == OtherClients(h, e.client);
    assert now.outbox.Keys == r.outbox.Keys;
    forall c | c in now.outbox
      ensures now.outbox[c] == r.outbox[c]
    {
      assert Outbox(now, c) == Outbox(r, c);
    }
  }

  /** One iteration of `notifyOtherClients` as the source writes it: take the
      list of other clients and push the message onto each one's channel in
      turn. The result is the relay step above. */
  method NotifyOtherClients(h: Hub, e: NotifyEvent) returns (h': Hub)
    ensures h' == Relay(h, e)
  {
    var targets := OtherClientsList(h, e.client);
    h' := h;
    var i := 0;
    assert targets[..0] == [];
    while i < |targets|
      invariant 0 <= i <= |targets|
      invariant PushedTo(h, h', targets[..i], e.message)
    {
      assert targets[i] !in targets[..i];
      PushedToStep(h, h', targets[..i], targets[i], e.message);
      assert targets[..i + 1] == targets[..i] + [targets[i]];
      h' := Push(h', targets[i], e.message);
      i := i + 1;
    }
    assert targets[..i] == targets;
    PushedToAllIsRelay(h, h', targets, e);
  }

  /** A relay never puts a message in the sender's own queue, nor in the queue
      of any client outside the registry. */
  lemma NoSelfDelivery(h: Hub, e: NotifyEvent, c: Client)
    requires c == e.client || c !in h.clients
    ensures Outbox(Relay(h, e), c) == Outbox(h, c)
  {
  }

  /** Ids, not pointers, decide exclusion: when another registered client drew
      the sender's id, it does not receive the sender's message either. */
  lemma SameIdClientsMissEachOther(h: Hub, a: Client, b: Client, m: string)
    requires a in h.clients && b in h.clients && a != b && a.id == b.id
    ensures Outbox(Relay(h, NotifyEvent(a, m)), b) == Outbox(h, b)
    ensures Outbox(Relay(h, NotifyEvent(b, m)), a) == Outbox(h, a)
  {
  }

  /** Per-client FIFO across relay steps: two successive relays reaching a
      client leave their messages at the end of its queue, in relay order. */
  lemma TwoRelaysInOrder(h: Hub, e1: NotifyEvent, e2: NotifyEvent, c: Client)
    requires c in h.clients && c.id != e1.client.id && c.id != e2.client.id
    ensures Outbox(Relay(Relay(h, e1), e2), c) == Outbox(h, c) + [e1.message, e2.message]
  {
    var h1 := Relay(h, e1);
    assert c in OtherClients(h, e1.client);
    assert c in OtherClients(h1, e2.client);
  }

  /** Relaying the sender's own event commutes with removing the sender: the
      sender is never its own target, so it does not matter whether its
      deferred `removeClient` runs before or after the relay takes the event. */
  lemma RelayCommutesWithSenderRemoval(h: Hub, c: Client, m: string)
    ensures Relay(RemoveClient(h, c), NotifyEvent(c, m)) == RemoveClient(Relay(h, NotifyEvent(c, m)), c)
  {
    assert OtherClients(RemoveClient(h, c), c) == OtherClients(h, c);
  }
}
