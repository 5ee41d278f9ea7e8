/** The hub as a whole: every goroutine step, and every request `ServeWS`
    handles, is one atomic transition of a single `Hub` value. The hub starts
    from `NewManager` and runs any interleaving of these steps. */
module Lifecycle {
  import opened Types
  import opened Manager
  import opened Fanout
  import opened Pumps

  /** One atomic step: an upgrade request, one read by a client's reader
      (which also relays what it read), the deferred removal of a reader that
      broke out of its loop, or one dequeue by a client's writer. */
  datatype Step =
    | Serve(upgraded: bool, id: Uint32)
    | Read(client: Client, result: ReadResult)
    | ReaderExit(client: Client)
    | Write(client: Client)

  function Next(h: Hub, s: Step): Hub {
    match s
    case Serve(upgraded, id) => ServeWS(h, upgraded, id).0
    case Read(c, r) => ReadStep(h, c, r)
    case ReaderExit(c) => DeferredRemove(h, c)
    case Write(c) => WriteStep(h, c).0
  }

  /** The hub after running `steps` in order from `h`. */
  function Run(h: Hub, steps: seq<Step>): Hub
    decreases |steps|
  {
    if steps == [] then h else Run(Next(h, steps[0]), steps[1..])
  }

  /** Every step keeps the hub invariant: registered exactly while the reader
      runs or is on its way out, registered exactly while the connection is
      unclosed, at most one close per client. */
  lemma NextPreservesValid(h: Hub, s: Step)
    requires Valid(h)
    ensures Valid(Next(h, s))
  {
  }

  lemma {:induction false} RunPreservesValid(h: Hub, steps: seq<Step>)
    requires Valid(h)
    ensures Valid(Run(h, steps))
    decreases |steps|
  {
    if steps != [] {
      NextPreservesValid(h, steps[0]);
      RunPreservesValid(Next(h, steps[0]), steps[1..]);
    }
  }

  /** Every hub the source can reach is valid: in particular no connection is
      ever closed twice, whichever of the deferred removals runs. */
  lemma ReachableIsValid(steps: seq<Step>, c: Client)
    ensures Valid(Run(NewManager(), steps))
    ensures Closes(Run(NewManager(), steps), c) <= 1
  {
    RunPreservesValid(NewManager(), steps);
  }

  /** One step registers only a client `ServeWS` makes new, never one made
      before, so a client that has left stays out. */
  lemma NextKeepsRemoved(h: Hub, s: Step, c: Client)
    requires Valid(h) && c in h.created && c !in h.clients
    ensures c !in Next(h, s).clients && c !in Next(h, s).reading && c !in Next(h, s).leaving
    ensures c in Next(h, s).created
  {
  }

  /** A client that has left the registry never comes back and its reader
      never runs again, so later read steps for it do nothing, and its
      connection stays closed exactly once. */
  lemma {:induction false} RemovedStaysRemoved(h: Hub, steps: seq<Step>, c: Client)
    requires Valid(h) && c in h.created && c !in h.clients
    ensures c !in Run(h, steps).clients && c !in Run(h, steps).reading
    ensures Closes(Run(h, steps), c) == 1
    ensures forall r :: ReadStep(Run(h, steps), c, r) == Run(h, steps)
    decreases |steps|
  {
    if steps == [] {
      assert Run(h, steps) == h;
    } else {
      NextKeepsRemoved(h, steps[0], c);
      NextPreservesValid(h, steps[0]);
      RemovedStaysRemoved(Next(h, steps[0]), steps[1..], c);
    }
  }

  /** Once a client's reader has left its loop, no later step reads for it. */
  lemma {:induction false} StoppedReaderStaysStopped(h: Hub, steps: seq<Step>, c: Client)
    requires Valid(h) && c in h.created && c !in h.reading
    ensures c !in Run(h, steps).reading
    ensures forall r :: ReadStep(Run(h, steps), c, r) == Run(h, steps)
    decreases |steps|
  {
    if steps != [] {
      NextPreservesValid(h, steps[0]);
      StoppedReaderStaysStopped(Next(h, steps[0]), steps[1..], c);
    }
  }

  /** After a client's read fails its reader never reads again. The client
      stays registered, and so keeps being a relay target, until its deferred
      removal runs. */
  lemma ReadErrorStopsReader(h: Hub, c: Client, payload: string, steps: seq<Step>)
    requires Valid(h) && c in h.reading
    ensures var h1 := ReadStep(h, c, ReadResult(payload, true));
            && c in h1.clients && c in h1.leaving
            && c !in Run(h1, steps).reading
            && forall r :: ReadStep(Run(h1, steps), c, r) == Run(h1, steps)
  {
    var h1 := ReadStep(h, c, ReadResult(payload, true));
    NextPreservesValid(h, Read(c, ReadResult(payload, true)));
    StoppedReaderStaysStopped(h1, steps, c);
  }

  /** Once the deferred removal of a failed reader runs, the client is
      unregistered for good and its connection has been closed exactly once. */
  lemma ReaderExitEndsClient(h: Hub, c: Client, steps: seq<Step>)
    requires Valid(h) && c in h.leaving
    ensures var h1 := DeferredRemove(h, c);
            && c !in Run(h1, steps).clients
            && Closes(Run(h1, steps), c) == 1
  {
    var h1 := DeferredRemove(h, c);
    NextPreservesValid(h, ReaderExit(c));
    RemovedStaysRemoved(h1, steps, c);
  }

  /** One step adds nothing to what an unregistered client was sent: no relay
      targets it, and its writer only moves frames from queue to connection. */
  lemma NextSendsRemovedNothing(h: Hub, s: Step, c: Client)
    requires c !in h.clients
    ensures Stream(Next(h, s), c) == Stream(h, c)
  {
    match s
    case Serve(upgraded, id) =>
    case Read(d, r) =>
      if d in h.reading {
        assert c !in OtherClients(h, d);
      }
    case ReaderExit(d) =>
    case Write(d) =>
  }

  /** Registry consistency: a client that has left the registry is never a
      relay target again, so nothing is ever added to what it was sent. */
  lemma {:induction false} RemovedGetsNothing(h: Hub, steps: seq<Step>, c: Client)
    requires Valid(h) && c in h.created && c !in h.clients
    ensures Stream(Run(h, steps), c) == Stream(h, c)
    decreases |steps|
  {
    if steps != [] {
      NextSendsRemovedNothing(h, steps[0], c);
      NextKeepsRemoved(h, steps[0], c);
      NextPreservesValid(h, steps[0]);
      RemovedGetsNothing(Next(h, steps[0]), steps[1..], c);
    }
  }

  /** Teardown from both deferred removals — the reader's after a failed read,
      then the writer's — closes the connection once, not twice. */
  lemma BothDefersCloseOnce(h: Hub, c: Client)
    requires Valid(h) && c in h.leaving
    ensures Closes(RemoveClient(DeferredRemove(h, c), c), c) == 1
  {
  }

  /** One step never reorders or retracts what a client was sent: the written
      frames only grow at the end, and so does the written-then-queued stream. */
  lemma NextExtendsStreams(h: Hub, s: Step, c: Client)
    ensures Written(h, c) <= Written(Next(h, s), c)
    ensures Stream(h, c) <= Stream(Next(h, s), c)
  {
    match s
    case Serve(upgraded, id) =>
    case Read(d, r) =>
      if d in h.reading {
        var h1 := Relay(h, NotifyEvent(d, r.payload));
        assert Outbox(h, c) <= Outbox(h1, c);
        assert Outbox(Next(h, s), c) == Outbox(h1, c);
      }
    case ReaderExit(d) =>
    case Write(d) =>
  }

  /** Per-client FIFO over any run: frames already written stay a prefix of
      the frames written later, and everything queued for a client is written
      in the order it was queued. */
  lemma {:induction false} RunExtendsStreams(h: Hub, steps: seq<Step>, c: Client)
    ensures Written(h, c) <= Written(Run(h, steps), c)
    ensures Stream(h, c) <= Stream(Run(h, steps), c)
    decreases |steps|
  {
    if steps != [] {
      NextExtendsStreams(h, steps[0], c);
      RunExtendsStreams(Next(h, steps[0]), steps[1..], c);
    }
  }
}
