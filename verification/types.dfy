/** Value types shared by the hub model: client identities, relay events and
    the result of one websocket read. */
module Types {

  /** An unsigned 32-bit integer, the type of a client's id (`rand.Uint32`). */
  newtype Uint32 = x: int | 0 <= x < 0x1_0000_0000

  /** A `*Client`. The `handle` stands for the pointer: the registry is keyed by
      the pointer, so two clients are the same client exactly when they are the
      same record, and clients with different handles stay distinct even when
      their randomly drawn ids collide. A client's connection and its `writeChan`
      belong to it and are kept in the hub state, keyed by the client. */
  datatype Client = Client(handle: nat, id: Uint32)

  /** A message read from `client`, on its way to the relay. */
  datatype NotifyEvent = NotifyEvent(client: Client, message: string)

  /** One return of `ReadMessage`: the payload (empty, or partial, when the
      read failed) and whether an error came with it. */
  datatype ReadResult = ReadResult(payload: string, failed: bool)

  datatype Option<+T> = None | Some(value: T)
}
