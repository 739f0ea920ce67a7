/**
 * The message broker as the two RabbitMQ clients see it through `amqplib`:
 * a connection and a channel, each open or closed, and what has been declared
 * on, published to and acknowledged over the channel. The broker itself is
 * not modelled; its answers to each call are inputs.
 */
module Broker {
  import opened Js

  /** An `amqp.connect` result. */
  datatype Connection = Connection(open: bool)

  /** `assertExchange(name, kind, {durable})`. */
  datatype Exchange = Exchange(name: string, kind: string, durable: bool)

  /** `assertQueue(name, {exclusive})`, with the name the broker chose. */
  datatype Queue = Queue(name: string, exclusive: bool)

  /** `bindQueue(queue, exchange, pattern)`. */
  datatype Binding = Binding(queue: string, exchange: string, pattern: string)

  /** One `publish(exchange, routingKey, content)`; `content` is the object that was serialised. */
  datatype Message = Message(exchange: string, routingKey: string, content: Record)

  /** A message the broker delivers to a consumer. */
  datatype Delivery = Delivery(deliveryTag: nat, content: string)

  /** A `createChannel` result and everything done over it so far. */
  datatype Channel = Channel(
    open: bool,
    exchanges: seq<Exchange>,
    queues: seq<Queue>,
    bindings: seq<Binding>,
    published: seq<Message>,
    consumers: seq<string>,
    acked: seq<Delivery>)

  /** A freshly created channel. */
  function NewChannel(): (c: Channel)
    ensures c.open && c.exchanges == [] && c.queues == [] && c.bindings == []
    ensures c.published == [] && c.consumers == [] && c.acked == []
  {
    Channel(true, [], [], [], [], [], [])
  }

  /**
   * What `amqplib` throws for an operation on a channel or connection that
   * has been closed.
   */
  function ClosedError(what: string): Exception
  {
    Exception("IllegalOperationError", what + " closed", [])
  }

  /** The `fanout` exchange kind both clients declare. */
  const Fanout := "fanout"

  /**
   * The properties `JSON.stringify` writes for an object: those whose value
   * is not `undefined`.
   */
  function SerialisedKeys(content: Record): set<string>
  {
    set k | k in content && !content[k].Undefined?
  }

  /** What `close()` leaves behind: how it settled and the two fields afterwards. */
  datatype Closing = Closing(outcome: Outcome, connection: Option<Connection>, channel: Option<Channel>)

  /**
   * `if (this.channel) await this.channel.close(); if (this.connection) await
   * this.connection.close();` — a throw from the first step skips the second.
   */
  function Teardown(connection: Option<Connection>, channel: Option<Channel>): Closing
  {
    if channel.Some? && !channel.value.open then Closing(Failed(ClosedError("Channel")), connection, channel)
    else
      var channel' := if channel.Some? then Some(channel.value.(open := false)) else None;
      if connection.Some? && !connection.value.open then Closing(Failed(ClosedError("Connection")), connection, channel')
      else Closing(Done, if connection.Some? then Some(Connection(false)) else None, channel')
  }

  /**
   * `close()` completes exactly when nothing present is already closed; it
   * leaves every present object closed, never clears a field, and never
   * touches what was published or acknowledged.
   */
  lemma TeardownCloses(connection: Option<Connection>, channel: Option<Channel>)
    ensures Teardown(connection, channel).outcome.Done? <==>
      (channel.None? || channel.value.open) && (connection.None? || connection.value.open)
    ensures Teardown(connection, channel).connection.Some? == connection.Some?
    ensures Teardown(connection, channel).channel.Some? == channel.Some?
    ensures Teardown(connection, channel).outcome.Done? ==>
      (connection.Some? ==> !Teardown(connection, channel).connection.value.open) &&
      (channel.Some? ==> !Teardown(connection, channel).channel.value.open)
    ensures channel.Some? ==>
      var c := Teardown(connection, channel).channel.value;
      c == channel.value.(open := c.open)
  {
  }

  /** The channel is closed before the connection: if closing the channel throws, the connection stays as it was. */
  lemma TeardownOrder(connection: Option<Connection>, channel: Option<Channel>)
    requires channel.Some? && !channel.value.open
    ensures Teardown(connection, channel) == Closing(Failed(ClosedError("Channel")), connection, channel)
  {
  }

  /** The fields are not cleared, so closing twice throws the second time whenever a channel or connection was there. */
  lemma TeardownTwice(connection: Option<Connection>, channel: Option<Channel>)
    requires Teardown(connection, channel).outcome.Done?
    requires connection.Some? || channel.Some?
    ensures Teardown(Teardown(connection, channel).connection, Teardown(connection, channel).channel).outcome.Failed?
  {
  }
}
