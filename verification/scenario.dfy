/** Concrete runs of the hub: three peers exchanging messages with one of
    them disconnecting, and two peers whose random ids collide. */
module Scenario {
  import opened Types
  import opened Manager
  import opened Fanout
  import opened Pumps

  /** `h` has exactly the peers `a`, `b`, `c` registered, each with its
      reader running, and the three ids pairwise different. */
  ghost predicate ThreeLive(h: Hub, a: Client, b: Client, c: Client) {
    && h.clients == {a, b, c}
    && h.reading == {a, b, c}
    && a.id != b.id && b.id != c.id && a.id != c.id
  }

  /** Three successful upgrades from a fresh manager, drawing ids 1, 2 and 3:
      the hub and the three clients `ServeWS` made. */
  function ConnectThree(): (Hub, Client, Client, Client) {
    var (h1, a) := ServeWS(NewManager(), true, 1);
    var (h2, b) := ServeWS(h1, true, 2);
    var (h3, c) := ServeWS(h2, true, 3);
    (h3, a.value, b.value, c.value)
  }

  /** After the three upgrades all three peers are live with empty queues and
      unclosed connections. */
  lemma ConnectThreeLive()
    ensures var (h, a, b, c) := ConnectThree();
            && ThreeLive(h, a, b, c)
            && Outbox(h, a) == [] && Outbox(h, b) == [] && Outbox(h, c) == []
            && Closes(h, b) == 0
  {
    var (h1, a) := ServeWS(NewManager(), true, 1);
    var (h2, b) := ServeWS(h1, true, 2);
    assert a.value == Client(0, 1) && b.value == Client(1, 2);
    var (h3, c) := ServeWS(h2, true, 3);
    assert c.value == Client(2, 3);
  }

  /** A sends "HELLO": B and C get it once each, A gets nothing. */
  lemma HelloFromA(h: Hub, a: Client, b: Client, c: Client)
    requires ThreeLive(h, a, b, c)
    requires Outbox(h, a) == [] && Outbox(h, b) == [] && Outbox(h, c) == []
    ensures var h' := ReadStep(h, a, ReadResult("HELLO", false));
            && ThreeLive(h', a, b, c)
            && Outbox(h', a) == [] && Outbox(h', b) == ["HELLO"] && Outbox(h', c) == ["HELLO"]
  {
    assert b in OtherClients(h, a) && c in OtherClients(h, a);
  }

  /** B's read fails with an empty payload: the empty payload still reaches
      A and C, and B's reader leaves its loop. Then B's deferred removal runs:
      B is unregistered and its connection closed once. */
  lemma BDisconnects(h: Hub, a: Client, b: Client, c: Client)
    requires ThreeLive(h, a, b, c) && Closes(h, b) == 0
    requires Outbox(h, a) == [] && Outbox(h, b) == ["HELLO"] && Outbox(h, c) == ["HELLO"]
    ensures var h' := DeferredRemove(ReadStep(h, b, ReadResult("", true)), b);
            && h'.clients == {a, c} && h'.reading == {a, c}
            && Closes(h', b) == 1
            && Outbox(h', a) == [""] && Outbox(h', b) == ["HELLO"] && Outbox(h', c) == ["HELLO", ""]
  {
    assert a in OtherClients(h, b) && c in OtherClients(h, b);
    var h1 := ReadStep(h, b, ReadResult("", true));
    assert h1.reading == {a, c};
    assert b in h1.leaving && b in h1.clients;
    var h' := DeferredRemove(h1, b);
    assert h'.clients == {a, c};
  }

  /** The window between B's failed read and its deferred removal: B is still
      registered, so a message C reads in that window is queued for B too, and
      B's writer goes on to write it. */
  lemma PingBeforeBLeaves(h: Hub, a: Client, b: Client, c: Client)
    requires ThreeLive(h, a, b, c)
    ensures var h1 := ReadStep(h, b, ReadResult("", true));
            var h2 := ReadStep(h1, c, ReadResult("PING", false));
            && b in h2.clients && b in h2.leaving
            && Outbox(h2, b) == Outbox(h, b) + ["PING"]
            && Outbox(h2, a) == Outbox(h, a) + ["", "PING"]
  {
    var h1 := ReadStep(h, b, ReadResult("", true));
    assert a in OtherClients(h, b);
    assert c in h1.reading;
    assert a in OtherClients(h1, c) && b in OtherClients(h1, c);
  }

  /** C sends "PING" after B left: only A gets it. */
  lemma PingFromC(h: Hub, a: Client, b: Client, c: Client)
    requires h.clients == {a, c} && h.reading == {a, c} && a.id != c.id && b.id != c.id
    requires b !in h.clients && Closes(h, b) == 1
    ensures var h' := ReadStep(h, c, ReadResult("PING", false));
            && h'.clients == {a, c}
            && Closes(h', b) == 1
            && Outbox(h', a) == Outbox(h, a) + ["PING"]
            && Outbox(h', b) == Outbox(h, b)
            && Outbox(h', c) == Outbox(h, c)
  {
    assert OtherClients(h, c) == {a};
  }

  /** Peers A, B and C connect with ids 1, 2 and 3. A sends "HELLO": B and C
      each get it once, A gets nothing. B's read then fails with an empty
      payload, and since the source relays the payload before looking at the
      error, A and C each get an empty message; B's deferred removal then
      unregisters B and closes it once. C then sends "PING": only A gets it. */
  lemma ThreePeers()
    ensures var (h3, a, b, c) := ConnectThree();
            var h4 := ReadStep(h3, a, ReadResult("HELLO", false));
            var h5 := DeferredRemove(ReadStep(h4, b, ReadResult("", true)), b);
            var h6 := ReadStep(h5, c, ReadResult("PING", false));
            && Outbox(h4, a) == [] && Outbox(h4, b) == ["HELLO"] && Outbox(h4, c) == ["HELLO"]
            && h6.clients == {a, c}
            && Closes(h6, b) == 1
            && Outbox(h6, a) == ["", "PING"]
            && Outbox(h6, b) == ["HELLO"]
            && Outbox(h6, c) == ["HELLO", ""]
  {
    var (h3, a, b, c) := ConnectThree();
    ConnectThreeLive();
    HelloFromA(h3, a, b, c);
    var h4 := ReadStep(h3, a, ReadResult("HELLO", false));
    BDisconnects(h4, a, b, c);
    var h5 := DeferredRemove(ReadStep(h4, b, ReadResult("", true)), b);
    PingFromC(h5, a, b, c);
  }

  /** Two peers that drew the same id never hear each other, in either
      direction, while a third peer hears both. */
  lemma CollidingIds()
    ensures var (h1, a) := ServeWS(NewManager(), true, 7);
            var (h2, b) := ServeWS(h1, true, 7);
            var (h3, c) := ServeWS(h2, true, 8);
            var h4 := ReadStep(h3, a.value, ReadResult("x", false));
            var h5 := ReadStep(h4, b.value, ReadResult("y", false));
            && a.value != b.value
            && Outbox(h5, a.value) == []
            && Outbox(h5, b.value) == []
            && Outbox(h5, c.value) == ["x", "y"]
  {
    var (h1, a) := ServeWS(NewManager(), true, 7);
    var (h2, b) := ServeWS(h1, true, 7);
    var (h3, c) := ServeWS(h2, true, 8);
    assert a.value == Client(0, 7) && b.value == Client(1, 7) && c.value == Client(2, 8);
    assert h3.outbox == map[];
    assert c.value in OtherClients(h3, a.value);
    var h4 := ReadStep(h3, a.value, ReadResult("x", false));
    assert b.value in h4.reading;
    assert c.value in OtherClients(h4, b.value);
  }
}
