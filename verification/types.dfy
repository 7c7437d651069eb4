/** The values the reception-status awaiter stores, hands out and raises. */
module Types {

  /** A message identifier (a UUID in the implementation). Only equality is used. */
  type Id(==, !new)

  /** An `asyncio.Event` created by a waiting coroutine. Events are numbered in
      the order they are created, so a new event is one not numbered before. */
  type Handle = nat

  /** A reception status acknowledging the message `subjectMessageId`. The other
      fields of the protocol message are opaque to the awaiter and kept as `body`. */
  datatype ReceptionStatus = ReceptionStatus(subjectMessageId: Id, body: string)

  /** Whatever a caller passes to the delivery entry point: a reception status, or
      some other protocol message that the type guard must reject. */
  datatype Message =
    | Status(status: ReceptionStatus)
    | Other(kind: string)

  /** The exceptions the awaiter raises. */
  datatype Error =
    | NotAReceptionStatus(kind: string)  // RuntimeError from the type guard
    | AlreadyReceived(id: Id)            // RuntimeError for a second unclaimed status
    | MissingStatus(id: Id)              // KeyError from `received.pop` on wake-up
    | TimedOut                           // raised by `asyncio.wait_for`

  /** A returned value or a raised exception. */
  datatype Result<+T> = Ok(value: T) | Err(error: Error)
}
