/**
 * The user service's event consumer (`RabbitMQClient` in rabbitmq.js): it
 * connects with a bounded number of retries, binds an exclusive server-named
 * queue to the `auth_events` fanout exchange, and acknowledges every message
 * after handing it to the caller's callback.
 */
module RabbitConsumer {
  import opened Js
  import opened Broker

  const EventsExchange := "auth_events"
  const RetryAttempts: nat := 5
  const RetryDelay: nat := 3000
  const GiveUp := "Failed to connect to RabbitMQ after retries"
  const NotInitialised := "RabbitMQ channel not initialized"

  /**
   * How one connection attempt goes: the first of its five awaited steps
   * that throws, or the name of the queue the broker created. A failing
   * `bindQueue` comes after the queue was created, so it carries the name.
   */
  datatype Attempt =
    | ConnectThrows(error: Exception)
    | CreateChannelThrows(error: Exception)
    | AssertExchangeThrows(error: Exception)
    | AssertQueueThrows(error: Exception)
    | BindQueueThrows(queue: string, error: Exception)
    | Bound(queue: string)

  /** The client's `connection` and `channel` fields. */
  datatype Fields = Fields(connection: Option<Connection>, channel: Option<Channel>)

  /** The events exchange as `connect` declares it. */
  function EventsExchangeDecl(): Exchange
  {
    Exchange(EventsExchange, Fanout, true)
  }

  /**
   * The fields after one attempt: each is assigned when its step returns.
   * A step that throws after the channel exists leaves it closed, as a
   * channel-level error does in AMQP 0-9-1, with what was declared before it.
   */
  function AfterAttempt(f: Fields, a: Attempt): Fields
  {
    var declared := NewChannel().(exchanges := [EventsExchangeDecl()]);
    match a
    case ConnectThrows(_) => f
    case CreateChannelThrows(_) => Fields(Some(Connection(true)), f.channel)
    case AssertExchangeThrows(_) => Fields(Some(Connection(true)), Some(NewChannel().(open := false)))
    case AssertQueueThrows(_) => Fields(Some(Connection(true)), Some(declared.(open := false)))
    case BindQueueThrows(q, _) =>
      Fields(Some(Connection(true)), Some(declared.(open := false, queues := [Queue(q, true)])))
    case Bound(q) =>
      Fields(Some(Connection(true)),
             Some(declared.(queues := [Queue(q, true)], bindings := [Binding(q, EventsExchange, "")])))
  }

  /** The fields after attempts 1 to `n`. */
  function FieldsAfter(f: Fields, attempts: nat -> Attempt, n: nat): Fields
  {
    if n == 0 then f else AfterAttempt(FieldsAfter(f, attempts, n - 1), attempts(n))
  }

  /** The first attempt from `k` on, up to the last allowed one, that binds its queue. */
  function FirstBound(attempts: nat -> Attempt, k: nat): (r: Option<nat>)
    ensures r.Some? ==> k <= r.value <= RetryAttempts && attempts(r.value).Bound?
    ensures r.Some? ==> forall j :: k <= j < r.value ==> !attempts(j).Bound?
    ensures r.None? <==> forall j :: k <= j <= RetryAttempts ==> !attempts(j).Bound?
    decreases RetryAttempts + 1 - k
  {
    if k > RetryAttempts then None
    else if attempts(k).Bound? then Some(k)
    else FirstBound(attempts, k + 1)
  }

  /** The number of attempts `connect` makes: up to the first success, or all of them. */
  function AttemptsMade(attempts: nat -> Attempt): (n: nat)
    ensures 1 <= n <= RetryAttempts
  {
    match FirstBound(attempts, 1)
    case Some(k) => k
    case None => RetryAttempts
  }

  /** One delivery to the callback and the acknowledgement after it. */
  datatype Step = Callback(message: Delivery) | Ack(message: Delivery)

  /** The messages among the deliveries; `null` deliveries (a cancelled consumer) are skipped. */
  function Delivered(deliveries: seq<Option<Delivery>>): seq<Delivery>
  {
    if deliveries == [] then []
    else
      var last := deliveries[|deliveries| - 1];
      Delivered(deliveries[..|deliveries| - 1]) + (if last.Some? then [last.value] else [])
  }

  /** What the consume callback does over the deliveries, in order. */
  function Handled(deliveries: seq<Option<Delivery>>): seq<Step>
  {
    if deliveries == [] then []
    else
      var last := deliveries[|deliveries| - 1];
      Handled(deliveries[..|deliveries| - 1]) +
        (if last.Some? then [Callback(last.value), Ack(last.value)] else [])
  }

  /** The messages delivered are exactly the non-null deliveries, in order. */
  lemma {:induction false} DeliveredMembers(deliveries: seq<Option<Delivery>>, m: Delivery)
    ensures m in Delivered(deliveries) <==> Some(m) in deliveries
    ensures |Delivered(deliveries)| <= |deliveries|
    decreases |deliveries|
  {
    if deliveries != [] {
      var init := deliveries[..|deliveries| - 1];
      DeliveredMembers(init, m);
      assert deliveries == init + [deliveries[|deliveries| - 1]];
    }
  }

  /**
   * Every message goes to the callback exactly once and is acknowledged
   * right after it: the trace is callback, ack, callback, ack, … over the
   * delivered messages.
   */
  lemma {:induction false} CallbackThenAck(deliveries: seq<Option<Delivery>>)
    ensures |Handled(deliveries)| == 2 * |Delivered(deliveries)|
    ensures forall k :: 0 <= k < |Delivered(deliveries)| ==>
      Handled(deliveries)[2 * k] == Callback(Delivered(deliveries)[k]) &&
      Handled(deliveries)[2 * k + 1] == Ack(Delivered(deliveries)[k])
    decreases |deliveries|
  {
    if deliveries != [] {
      CallbackThenAck(deliveries[..|deliveries| - 1]);
    }
  }

  /** A successful connection leaves an open channel with the exchange, the exclusive queue and its binding. */
  lemma {:induction false} BoundChannel(f: Fields, attempts: nat -> Attempt)
    requires FirstBound(attempts, 1).Some?
    ensures var q := attempts(AttemptsMade(attempts)).queue;
      var g := FieldsAfter(f, attempts, AttemptsMade(attempts));
      && g.connection == Some(Connection(true))
      && g.channel.Some? && g.channel.value.open
      && g.channel.value.exchanges == [Exchange("auth_events", "fanout", true)]
      && g.channel.value.queues == [Queue(q, true)]
      && g.channel.value.bindings == [Binding(q, "auth_events", "")]
      && g.channel.value.published == [] && g.channel.value.acked == []
  {
  }

  class Consumer {
    var connection: Option<Connection>
    var channel: Option<Channel>

    /** Both fields start as `null`. */
    constructor()
      ensures connection == None && channel == None
    {
      connection := None;
      channel := None;
    }

    /**
     * `connect()`, where attempt `k` goes as `attempts(k)`: the queue name of
     * the first attempt that binds, or the final error after five failures.
     * `waits` lists the delays slept between attempts.
     */
    method Connect(attempts: nat -> Attempt) returns (r: Result<string>, waits: seq<nat>)
      modifies this
      ensures FirstBound(attempts, 1).Some? ==> r == Ok(attempts(AttemptsMade(attempts)).queue)
      ensures FirstBound(attempts, 1).None? ==> r == Err(PlainError(GiveUp))
      ensures |waits| == AttemptsMade(attempts) - 1
      ensures forall i :: 0 <= i < |waits| ==> waits[i] == RetryDelay
      ensures Fields(connection, channel) == FieldsAfter(Fields(old(connection), old(channel)), attempts, AttemptsMade(attempts))
    {
      ghost var start := Fields(connection, channel);
      waits := [];
      var attempt := 1;
      while true
        invariant 1 <= attempt <= RetryAttempts
        invariant forall j :: 1 <= j < attempt ==> !attempts(j).Bound?
        invariant |waits| == attempt - 1 && forall i :: 0 <= i < |waits| ==> waits[i] == RetryDelay
        invariant Fields(connection, channel) == FieldsAfter(start, attempts, attempt - 1)
        decreases RetryAttempts - attempt
      {
        var a := attempts(attempt);
        var declared := NewChannel().(exchanges := [EventsExchangeDecl()]);
        match a {
          case ConnectThrows(_) =>
          case CreateChannelThrows(_) =>
            connection := Some(Connection(true));
          case AssertExchangeThrows(_) =>
            connection := Some(Connection(true));
            channel := Some(NewChannel().(open := false));
          case AssertQueueThrows(_) =>
            connection := Some(Connection(true));
            channel := Some(declared.(open := false));
          case BindQueueThrows(q, _) =>
            connection := Some(Connection(true));
            channel := Some(declared.(open := false, queues := [Queue(q, true)]));
          case Bound(q) =>
            connection := Some(Connection(true));
            channel := Some(declared.(queues := [Queue(q, true)], bindings := [Binding(q, EventsExchange, "")]));
            assert FirstBound(attempts, 1) == Some(attempt);
            return Ok(q), waits;
        }
        if attempt == RetryAttempts {
          assert FirstBound(attempts, 1).None?;
          return Err(PlainError(GiveUp)), waits;
        }
        waits := waits + [RetryDelay];
        attempt := attempt + 1;
      }
    }

    /**
     * `consumeEvent(queue, callback)`, with the broker delivering
     * `deliveries` (`None` for a `null` delivery) and `trace` recording what
     * the registered handler does.
     */
    method ConsumeEvent(queue: string, deliveries: seq<Option<Delivery>>) returns (r: Outcome, trace: seq<Step>)
      modifies this
      ensures connection == old(connection)
      ensures old(channel).None? ==> r == Failed(PlainError(NotInitialised)) && trace == [] && channel == None
      ensures old(channel).Some? && !old(channel).value.open ==>
        r == Failed(ClosedError("Channel")) && trace == [] && channel == old(channel)
      ensures old(channel).Some? && old(channel).value.open ==>
        && r == Done
        && trace == Handled(deliveries)
        && channel == Some(old(channel).value.(consumers := old(channel).value.consumers + [queue],
                                               acked := old(channel).value.acked + Delivered(deliveries)))
    {
      if channel.None? {
        return Failed(PlainError(NotInitialised)), [];
      }
      if !channel.value.open {
        return Failed(ClosedError("Channel")), [];
      }
      ghost var before := channel.value;
      channel := Some(channel.value.(consumers := channel.value.consumers + [queue]));
      trace := [];
      assert deliveries[..0] == [] && before.acked + [] == before.acked;
      for i := 0 to |deliveries|
        invariant connection == old(connection)
        invariant trace == Handled(deliveries[..i])
        invariant channel == Some(before.(consumers := before.consumers + [queue],
                                          acked := before.acked + Delivered(deliveries[..i])))
      {
        assert deliveries[..i + 1][..i] == deliveries[..i];
        match deliveries[i] {
          case None =>
            assert Delivered(deliveries[..i + 1]) == Delivered(deliveries[..i]);
          case Some(m) =>
            trace := trace + [Callback(m)];
            channel := Some(channel.value.(acked := channel.value.acked + [m]));
            trace := trace + [Ack(m)];
            assert Delivered(deliveries[..i + 1]) == Delivered(deliveries[..i]) + [m];
            assert before.acked + Delivered(deliveries[..i]) + [m] == before.acked + Delivered(deliveries[..i + 1]);
        }
      }
      assert deliveries[..|deliveries|] == deliveries;
      r := Done;
    }

    /** `close()`. */
    method Close() returns (r: Outcome)
      modifies this
      ensures Closing(r, connection, channel) == Teardown(old(connection), old(channel))
    {
      if channel.Some? {
        if !channel.value.open {
          return Failed(ClosedError("Channel"));
        }
        channel := Some(channel.value.(open := false));
      }
      if connection.Some? {
        if !connection.value.open {
          return Failed(ClosedError("Connection"));
        }
        connection := Some(Connection(false));
      }
      r := Done;
    }
  }
}
