/**
 * The user service's event publisher (`RabbitMQClient` in
 * rabbitmqPublisher.js): it connects once, declares the `user_events`
 * fanout exchange and publishes `{eventType, data, timestamp}` envelopes to it.
 */
module RabbitPublisher {
  import opened Js
  import opened Broker

  const EventsExchange := "user_events"
  const NotInitialised := "RabbitMQ channel not initialized"

  /** How far the three awaited steps of `connect` get: the first one that throws, or none. */
  datatype ConnectOutcome =
    | ConnectThrows(error: Exception)
    | CreateChannelThrows(error: Exception)
    | AssertExchangeThrows(error: Exception)
    | Connected

  /** The object `publishEvent` serialises; `timestamp` is `new Date().toISOString()` at the call. */
  function EventContent(eventType: string, data: Value, timestamp: string): Record
  {
    map["eventType" := Str(eventType), "data" := data, "timestamp" := Str(timestamp)]
  }

  /** The one message a successful `publishEvent` hands to the channel. */
  function EventMessage(eventType: string, data: Value, timestamp: string): Message
  {
    Message(EventsExchange, "", EventContent(eventType, data, timestamp))
  }

  /**
   * `publishEvent` on the channel field: no channel throws "not initialized"
   * and a closed one throws as `amqplib` does; in both cases nothing is
   * published. Otherwise exactly one message is appended.
   */
  function Publish(channel: Option<Channel>, m: Message): (Outcome, Option<Channel>)
  {
    if channel.None? then (Failed(PlainError(NotInitialised)), channel)
    else if !channel.value.open then (Failed(ClosedError("Channel")), channel)
    else (Done, Some(channel.value.(published := channel.value.published + [m])))
  }

  /**
   * The serialised envelope has exactly the three fields, with the
   * arguments' values; `JSON.stringify` drops `data` when it is `undefined`.
   */
  lemma EventEnvelope(eventType: string, data: Value, timestamp: string)
    ensures EventContent(eventType, data, timestamp).Keys == {"eventType", "data", "timestamp"}
    ensures EventContent(eventType, data, timestamp)["eventType"] == Str(eventType)
    ensures EventContent(eventType, data, timestamp)["data"] == data
    ensures SerialisedKeys(EventContent(eventType, data, timestamp)) ==
      if data.Undefined? then {"eventType", "timestamp"} else {"eventType", "data", "timestamp"}
  {
    var c := EventContent(eventType, data, timestamp);
    assert "eventType" in SerialisedKeys(c) && "timestamp" in SerialisedKeys(c);
    assert "data" in SerialisedKeys(c) <==> !data.Undefined?;
  }

  /**
   * Publishing succeeds exactly on an open channel and then adds exactly one
   * message, to `user_events` with routing key "", leaving the rest of the
   * channel alone; otherwise the channel is unchanged.
   */
  lemma PublishOnce(channel: Option<Channel>, eventType: string, data: Value, timestamp: string)
    ensures var (r, c) := Publish(channel, EventMessage(eventType, data, timestamp));
      && (r.Done? <==> channel.Some? && channel.value.open)
      && (channel.None? ==> r == Failed(PlainError(NotInitialised)))
      && (r.Failed? ==> c == channel)
      && (r.Done? ==>
            c.Some? && c.value.(published := channel.value.published) == channel.value
            && |c.value.published| == |channel.value.published| + 1
            && c.value.published[..|channel.value.published|] == channel.value.published
            && var m := c.value.published[|channel.value.published|];
               m.exchange == "user_events" && m.routingKey == ""
               && m.content == EventContent(eventType, data, timestamp))
  {
  }

  /** Since `close` does not clear the fields, publishing after a completed `close` throws "Channel closed". */
  lemma PublishAfterClose(connection: Option<Connection>, channel: Option<Channel>, m: Message)
    requires channel.Some? && Teardown(connection, channel).outcome.Done?
    ensures Publish(Teardown(connection, channel).channel, m) == (Failed(ClosedError("Channel")), Teardown(connection, channel).channel)
  {
  }

  class Publisher {
    var connection: Option<Connection>
    var channel: Option<Channel>

    /** Both fields start as `null`. */
    constructor()
      ensures connection == None && channel == None
    {
      connection := None;
      channel := None;
    }

    /**
     * `connect()`: each field is assigned when its step returns, so a throw
     * leaves the later fields as they were; the error is rethrown and nothing
     * is retried. A failed `assertExchange` closes the channel, as any
     * channel-level error does in AMQP 0-9-1.
     */
    method Connect(outcome: ConnectOutcome) returns (r: Outcome)
      modifies this
      ensures r == if outcome.Connected? then Done else Failed(outcome.error)
      ensures connection == if outcome.ConnectThrows? then old(connection) else Some(Connection(true))
      ensures channel == match outcome
        case ConnectThrows(_) => old(channel)
        case CreateChannelThrows(_) => old(channel)
        case AssertExchangeThrows(_) => Some(NewChannel().(open := false))
        case Connected => Some(NewChannel().(exchanges := [Exchange(EventsExchange, Fanout, true)]))
    {
      if outcome.ConnectThrows? {
        return Failed(outcome.error);
      }
      connection := Some(Connection(true));
      if outcome.CreateChannelThrows? {
        return Failed(outcome.error);
      }
      var ch := NewChannel();
      if outcome.AssertExchangeThrows? {
        channel := Some(ch.(open := false));
        return Failed(outcome.error);
      }
      channel := Some(ch.(exchanges := [Exchange(EventsExchange, Fanout, true)]));
      r := Done;
    }

    /** `publishEvent(eventType, data)` with the clock reading `timestamp`. */
    method PublishEvent(eventType: string, data: Value, timestamp: string) returns (r: Outcome)
      modifies this
      ensures connection == old(connection)
      ensures (r, channel) == Publish(old(channel), EventMessage(eventType, data, timestamp))
    {
      if channel.None? {
        return Failed(PlainError(NotInitialised));
      }
      var ch := channel.value;
      if !ch.open {
        return Failed(ClosedError("Channel"));
      }
      var message := EventMessage(eventType, data, timestamp);
      channel := Some(ch.(published := ch.published + [message]));
      r := Done;
    }

    /** `close()`. */
    method Close() returns (r: Outcome)
      modifies this
      ensures Closing(r, connection, channel) == Teardown(old(connection), old(channel))
    {
      if channel.Some? {
        if !channel.value.open {
          return Failed(ClosedError("Channel"));
        }
        channel := Some(channel.value.(open := false));
      }
      if connection.Some? {
        if !connection.value.open {
          return Failed(ClosedError("Connection"));
        }
        connection := Some(Connection(false));
      }
      r := Done;
    }
  }
}
