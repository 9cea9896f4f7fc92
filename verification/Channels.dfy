/** The part of an Asio channel this library uses: a bounded buffer, a queue of suspended receivers
    and a closed flag. Senders only ever try_send; receivers may suspend. */
module Channels {

  datatype Channel<T, W> = Channel(capacity: nat, buffer: seq<T>, waiters: seq<W>, closed: bool)

  datatype SendOutcome<W> = NotSent | Buffered | Handed(to: W)

  datatype ReceiveOutcome<T> = Received(value: T) | EndOfChannel | Suspends

  function Open<T, W>(capacity: nat): Channel<T, W> {
    Channel(capacity, [], [], false)
  }

  /** A suspended receiver takes the value directly; otherwise it is buffered if there is room. */
  function TrySend<T, W>(c: Channel<T, W>, x: T): (Channel<T, W>, SendOutcome<W>) {
    if c.closed then (c, NotSent)
    else if c.waiters != [] then (c.(waiters := c.waiters[1..]), Handed(c.waiters[0]))
    else if |c.buffer| < c.capacity then (c.(buffer := c.buffer + [x]), Buffered)
    else (c, NotSent)
  }

  /** Buffered values are received even after close; an open empty channel suspends the receiver. */
  function Receive<T, W>(c: Channel<T, W>, w: W): (Channel<T, W>, ReceiveOutcome<T>) {
    if c.buffer != [] then (c.(buffer := c.buffer[1..]), Received(c.buffer[0]))
    else if c.closed then (c, EndOfChannel)
    else (c.(waiters := c.waiters + [w]), Suspends)
  }

  /** Close resumes every suspended receiver with an error and keeps what is buffered. */
  function Close<T, W>(c: Channel<T, W>): Channel<T, W> {
    c.(closed := true, waiters := [])
  }

  predicate Consistent<T, W>(c: Channel<T, W>) {
    && |c.buffer| <= c.capacity
    && (c.waiters != [] ==> c.buffer == [] && !c.closed)
  }
}
