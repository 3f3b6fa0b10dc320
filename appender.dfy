/**
 * RabbitMQAppender: a log4j appender that hands each event to a single-worker
 * thread pool, whose task publishes it to a RabbitMQ exchange, reconnecting and
 * retrying with capped doubling backoff until the publish succeeds.
 *
 * The class keeps the appender's fields; each broker-facing method is proved
 * against the step function of `BrokerLink` it implements, on the `Link` value
 * its fields make up.
 */
module RabbitMQ {
  import opened Wrappers
  import opened Events
  import opened Delivery
  import opened BrokerLink

  /** What `append` did with an event. `NullThreadPool`: the pool was never built and a NullPointerException escapes. */
  datatype AppendOutcome = BelowThreshold | Queued | Dropped | NullThreadPool

  /** What a `ShutdownSignalException` refers to. */
  datatype Reference = ConnectionRef | ChannelRef | OtherRef

  const DropReport := ErrorReport("Dropping logging events.", GenericFailure)

  /** `isAsSevereAsThreshold`: no threshold, or a level at least as severe. */
  predicate IsAsSevereAsThreshold(c: Config, level: Level)
  {
    c.threshold.None? || level.IsGreaterOrEqual(c.threshold.value)
  }

  /** A level that passes the threshold passes it with every level at least as severe. */
  lemma ThresholdUpwardClosed(c: Config, level: Level, severer: Level)
    requires IsAsSevereAsThreshold(c, level) && severer.priority >= level.priority
    ensures IsAsSevereAsThreshold(c, severer)
  {
  }

  /** The `AppenderTask` built for an event captured at `millis`. */
  function NewTask(c: Config, identifier: Option<string>, e: LoggingEvent, millis: nat): Task
  {
    Task(c.layout(e), CorrelationId(identifier, millis), e.level.name)
  }

  /**
   * A task carries the layout's rendering of the event and the level's name,
   * and its correlation id gives back the identifier and the capture time.
   */
  lemma NewTaskIdentifiesEvent(c: Config, identifier: Option<string>, e: LoggingEvent, millis: nat)
    ensures var t := NewTask(c, identifier, e, millis);
      && t.payload == c.layout(e) && t.level == e.level.name
      && SplitCorrelationId(t.id) == Some((IdentifierText(identifier), millis))
  {
    SplitCorrelationIdInverts(identifier, millis);
  }

  /** `activateOptions` keeps a non-empty identifier and otherwise takes the local host name when it can get one. */
  function ResolvedIdentifier(identifier: Option<string>, localHost: Option<string>): Option<string>
  {
    if (identifier.None? || identifier.value == "") && localHost.Some? then localHost else identifier
  }

  class RabbitMqAppender {
    var config: Config
    var identifier: Option<string>

    // the broker link and its counters
    var connection: Handle
    var channel: Handle
    var droppedEvents: nat
    var reconnections: nat

    // the thread pool: its state and the bounded queue in front of its one worker
    var pool: PoolState
    var capacity: nat
    var pending: seq<Task>

    // what the collaborators have seen
    var trace: seq<Effect>
    var reports: seq<ErrorReport>
    var delivered: seq<AmqpMessage>

    /** The pool's queue never holds more than the capacity it was built with. */
    ghost predicate Valid()
      reads this`pending, this`capacity, this`pool
    {
      && |pending| <= capacity
      && (pool.NoPool? ==> pending == [])
      && (!pool.NoPool? ==> capacity > 0)
    }

    /** The fields the broker steps read and change, as one value. */
    function LinkState(): Link
      reads this`connection, this`channel, this`reconnections, this`pool, this`trace, this`reports, this`delivered
    {
      Link(connection, channel, reconnections, pool, trace, reports, delivered)
    }

    constructor (layout: LoggingEvent -> string)
      ensures Valid()
      ensures config == DefaultConfig(layout) && identifier == None
      ensures connection == Absent && channel == Absent && droppedEvents == 0 && reconnections == 0
      ensures pool == NoPool && capacity == 0 && pending == []
      ensures trace == [] && reports == [] && delivered == []
    {
      config := DefaultConfig(layout);
      identifier := None;
      connection := Absent;
      channel := Absent;
      droppedEvents := 0;
      reconnections := 0;
      pool := NoPool;
      capacity := 0;
      pending := [];
      trace := [];
      reports := [];
      delivered := [];
    }

    /** The pool refuses a task: it is shut down, or its queue is full behind the busy worker. */
    predicate RejectsSubmission()
      reads this`pool, this`pending, this`capacity
    {
      pool.ShutDown? || |pending| >= capacity
    }

    // -------------------------------------------------------------------------
    // Admission
    // -------------------------------------------------------------------------

    /**
     * `append`: an event below the threshold is ignored; otherwise a task is
     * built and submitted. A rejected task adds exactly one to `droppedEvents`
     * and is reported; nothing escapes.
     */
    method Append(e: LoggingEvent, millis: nat) returns (outcome: AppendOutcome)
      requires Valid()
      modifies this`pending, this`droppedEvents, this`reports
      ensures Valid()
      ensures outcome == (if !IsAsSevereAsThreshold(config, e.level) then BelowThreshold
                          else if pool.NoPool? then NullThreadPool
                          else if old(RejectsSubmission()) then Dropped
                          else Queued)
      ensures pending == old(pending) + OnlyIf(outcome == Queued, [NewTask(config, identifier, e, millis)])
      ensures droppedEvents == old(droppedEvents) + (if outcome == Dropped then 1 else 0)
      ensures reports == old(reports) + OnlyIf(outcome == Dropped, [DropReport])
    {
      if !IsAsSevereAsThreshold(config, e.level) {
        return BelowThreshold;
      }
      var task := NewTask(config, identifier, e, millis);
      if pool.NoPool? {
        return NullThreadPool;
      }
      if RejectsSubmission() {
        droppedEvents := droppedEvents + 1;
        reports := reports + [DropReport];
        outcome := Dropped;
      } else {
        pending := pending + [task];
        outcome := Queued;
      }
    }

    /** The worker takes the oldest queued task: the queue is first in, first out. */
    method TakeTask() returns (task: Option<Task>)
      requires Valid()
      modifies this`pending
      ensures Valid()
      ensures old(pending) == [] ==> task == None && pending == []
      ensures old(pending) != [] ==> task == Some(old(pending)[0]) && pending == old(pending)[1..]
    {
      if pending == [] {
        task := None;
      } else {
        task := Some(pending[0]);
        pending := pending[1..];
      }
    }

    // -------------------------------------------------------------------------
    // The broker link
    // -------------------------------------------------------------------------

    /** `createConnection`; `ok` false: the dial threw an IOException. */
    method CreateConnection(connects: bool) returns (ok: bool)
      modifies this`connection, this`reconnections, this`trace
      ensures Step(LinkState(), ok) == Connect(old(LinkState()), connects)
    {
      ok := true;
      if !connection.Live() {
        reconnections := reconnections + 1;
        trace := trace + [NewConnection];
        if connects {
          connection := Present(true);
        } else {
          ok := false;
        }
      }
    }

    /** `createChannel`: returns the channel, possibly null, unless opening one threw an IOException. */
    method CreateChannel(opens: Answer) returns (ok: bool, ch: Handle)
      modifies this`connection, this`channel, this`trace
      ensures Step(LinkState(), ok) == OpenChannel(old(LinkState()), opens)
      ensures ch == channel
    {
      ok := true;
      if !channel.Live() && connection.Live() {
        trace := trace + [NewChannel];
        match opens
        case Done =>
          channel := Present(true);
        case IoFailure(disconnects) =>
          CallFailed(disconnects);
          ok := false;
      }
      ch := channel;
    }

    /** The broker closes the channel: `isOpen()` turns false. */
    method ChannelLost()
      modifies this`channel
      ensures channel == Lose(old(channel))
    {
      if channel.Present? {
        channel := Present(false);
      }
    }

    /** A call on the broker threw: the channel is closed, and with `disconnects` the connection with it. */
    method CallFailed(disconnects: bool)
      modifies this`connection, this`channel
      ensures LinkState() == Failed(old(LinkState()), disconnects)
    {
      if disconnects {
        ConnectionLost();
      } else {
        ChannelLost();
      }
    }

    /** `createExchange`; a refusal closes the channel, or the connection. */
    method CreateExchange(declares: Answer) returns (ok: bool)
      modifies this`connection, this`channel, this`trace
      ensures Step(LinkState(), ok) == DeclareExchangeOn(config, old(LinkState()), declares)
    {
      ok := true;
      if channel.Live() {
        trace := trace + [DeclareExchange(config.exchange, config.exchangeType, config.durable)];
        if declares.IoFailure? {
          CallFailed(declares.disconnects);
          ok := false;
        }
      }
    }

    /** `createQueue`; a refused declaration or binding closes the channel, or the connection. */
    method CreateQueue(declares: Answer, binds: Answer) returns (ok: bool)
      modifies this`connection, this`channel, this`trace
      ensures Step(LinkState(), ok) == DeclareQueueOn(config, old(LinkState()), declares, binds)
    {
      ok := true;
      if channel.Live() {
        trace := trace + [DeclareQueue(config.queue, false, false, false)];
        if declares.IoFailure? {
          CallFailed(declares.disconnects);
          return false;
        }
        trace := trace + [BindQueue(config.queue, config.exchange, config.routingKey)];
        if binds.IoFailure? {
          CallFailed(binds.disconnects);
          ok := false;
        }
      }
    }

    /** `shutdownCompleted`: a connection reference nulls only the connection, a channel reference only the channel. */
    method ShutdownCompleted(item: Reference)
      modifies this`connection, this`channel
      ensures connection == (if item == ConnectionRef then Absent else old(connection))
      ensures channel == (if item == ChannelRef then Absent else old(channel))
    {
      if item == ConnectionRef {
        connection := Absent;
      }
      if item == ChannelRef {
        channel := Absent;
      }
    }

    /** The connection closes, and the client closes its channel with it. */
    method ConnectionLost()
      modifies this`connection, this`channel
      ensures LinkState() == Disconnected(old(LinkState()))
    {
      if connection.Present? {
        connection := Present(false);
      }
      ChannelLost();
    }

    // -------------------------------------------------------------------------
    // The publish loop
    // -------------------------------------------------------------------------

    /**
     * The try block of the publish loop: (re)connect, (re)open the channel and
     * publish. `Retry`: an IOException was caught; `Stop`: the block returned or
     * threw something else.
     */
    method TryPublish(msg: AmqpMessage, a: Attempt) returns (turn: Turn)
      modifies this`connection, this`channel, this`reconnections, this`trace, this`delivered
      ensures Iterated(LinkState(), turn) == Iteration(old(LinkState()), msg, a)
    {
      var connected := CreateConnection(a.connects);
      if !connected {
        return Retry;
      }
      if a.connectionLost {
        ConnectionLost();
      }
      var channelOk, ch := CreateChannel(a.opensChannel);
      if !channelOk {
        return Retry;
      }
      if ch == Absent {
        // basicPublish on a null channel: a NullPointerException, not retried
        return Stop(NullChannel);
      }
      trace := trace + [Publish(msg)];
      if !ch.Live() {
        // basicPublish on a closed channel: AlreadyClosedException, not retried
        return Stop(ClosedChannel);
      }
      match a.publish
      case PublishOk =>
        delivered := delivered + [msg];
        turn := Stop(Delivered);
      case PublishIoError(disconnects) =>
        if disconnects {
          ConnectionLost();
        }
        turn := Retry;
      case PublishUnchecked =>
        turn := Stop(Unchecked);
    }

    /**
     * `AppenderTask.call`: (re)connects, (re)opens the channel and publishes,
     * retrying after every IOException with a sleep of the current backoff,
     * which then doubles up to 1024. Other exceptions end the call. `attempts`
     * are the broker's answers to successive iterations; when they run out with
     * every one an IOException, the loop is still retrying.
     */
    method Call(task: Task, attempts: seq<Attempt>) returns (result: CallResult, sleeps: seq<nat>)
      modifies this`connection, this`channel, this`reconnections, this`trace, this`delivered
      ensures Outcome(LinkState(), result, sleeps) == Publishing(old(LinkState()), Publication(config, identifier, task), attempts, 0)
    {
      var msg := Publication(config, identifier, task);
      var done := false;
      var backOff := 1;
      var i := 0;
      sleeps := [];
      result := StillRetrying;
      while i < |attempts| && !done
        invariant 0 <= i <= |attempts|
        invariant !done ==> result == StillRetrying && |sleeps| == i && backOff == Backoff(i)
        invariant !done ==>
          var rest := Publishing(LinkState(), msg, attempts[i..], i);
          Publishing(old(LinkState()), msg, attempts, 0) == Outcome(rest.link, rest.result, sleeps + rest.sleeps)
        invariant done ==> Publishing(old(LinkState()), msg, attempts, 0) == Outcome(LinkState(), result, sleeps)
        decreases |attempts| - i
      {
        var a := attempts[i];
        var turn := TryPublish(msg, a);
        if turn.Stop? {
          result := turn.result;
          done := true;
        }
        assert attempts[i..][0] == a && attempts[i..][1..] == attempts[i + 1..];
        if !done {
          ghost var rest := Publishing(LinkState(), msg, attempts[i + 1..], i + 1);
          assert sleeps + ([Backoff(i)] + rest.sleeps) == (sleeps + [backOff]) + rest.sleeps;
          sleeps := sleeps + [backOff];
          backOff := backOff * 2;
          backOff := Min(backOff, MaxBackoff);
        }
        i := i + 1;
      }
    }

    // -------------------------------------------------------------------------
    // Lifecycle
    // -------------------------------------------------------------------------

    /** A stage's catch block: report the failure and shut the pool down. */
    method Fail(r: ErrorReport)
      requires Valid() && !pool.NoPool?
      modifies this`pool, this`trace, this`reports
      ensures Valid()
      ensures LinkState() == Caught(Step(old(LinkState()), false), r)
    {
      reports := reports + [r];
      pool := ShutDown;
      trace := trace + [ShutdownPool];
    }

    /** The connection stage of `activateOptions`: dial, or report and shut down. */
    method ActivateConnection(tlsFailure: Option<string>, connects: bool)
      requires Valid() && !pool.NoPool?
      modifies this`pool, this`connection, this`reconnections, this`trace, this`reports
      ensures Valid() && !pool.NoPool?
      ensures LinkState() == ConnectionStage(config, old(LinkState()), tlsFailure, connects)
    {
      if config.ssl && tlsFailure.Some? {
        Fail(ConnectFailureReport(config, tlsFailure));
      } else {
        var ok := CreateConnection(connects);
        if !ok {
          Fail(ConnectFailureReport(config, tlsFailure));
        }
      }
    }

    /** The channel stage of `activateOptions`. */
    method ActivateChannel(opensChannel: Answer)
      requires Valid() && !pool.NoPool?
      modifies this`pool, this`connection, this`channel, this`trace, this`reports
      ensures Valid() && !pool.NoPool?
      ensures LinkState() == ChannelStage(old(LinkState()), opensChannel)
    {
      var ok, _ := CreateChannel(opensChannel);
      if !ok {
        Fail(ChannelReport);
      }
    }

    /** The exchange stage of `activateOptions`. */
    method ActivateExchange(declaresExchange: Answer)
      requires Valid() && !pool.NoPool?
      modifies this`pool, this`connection, this`channel, this`trace, this`reports
      ensures Valid() && !pool.NoPool?
      ensures LinkState() == ExchangeStage(config, old(LinkState()), declaresExchange)
    {
      var ok := CreateExchange(declaresExchange);
      if !ok {
        Fail(ExchangeReport(config));
      }
    }

    /** The queue stage of `activateOptions`. */
    method ActivateQueue(declaresQueue: Answer, bindsQueue: Answer)
      requires Valid() && !pool.NoPool?
      modifies this`pool, this`connection, this`channel, this`trace, this`reports
      ensures Valid() && !pool.NoPool?
      ensures LinkState() == QueueStage(config, old(LinkState()), declaresQueue, bindsQueue)
    {
      var ok := CreateQueue(declaresQueue, bindsQueue);
      if !ok {
        Fail(QueueReport(config));
      }
    }

    /** The start of `activateOptions`: a new pool with an empty queue, and the identifier defaulted. */
    method StartPool(localHost: Option<string>)
      requires config.queueLimit > 0
      modifies this`pool, this`capacity, this`pending, this`identifier
      ensures Valid() && pool == Running
      ensures capacity == config.queueLimit && pending == []
      ensures identifier == ResolvedIdentifier(old(identifier), localHost)
      ensures LinkState() == old(LinkState()).(pool := Running)
    {
      pool := Running;
      capacity := config.queueLimit;
      pending := [];
      identifier := ResolvedIdentifier(identifier, localHost);
    }

    /** The four stages of `activateOptions`, run one after another whatever each one did. */
    method RunStages(tlsFailure: Option<string>, connects: bool, opensChannel: Answer, declaresExchange: Answer,
                     declaresQueue: Answer, bindsQueue: Answer)
      requires Valid() && !pool.NoPool?
      modifies this`pool, this`connection, this`channel, this`reconnections, this`trace, this`reports
      ensures Valid()
      ensures LinkState() == Activation(config, old(LinkState()), tlsFailure, connects, opensChannel,
                                        declaresExchange, declaresQueue, bindsQueue)
    {
      ActivateConnection(tlsFailure, connects);
      ActivateChannel(opensChannel);
      ActivateExchange(declaresExchange);
      ActivateQueue(declaresQueue, bindsQueue);
    }

    /**
     * `activateOptions`: builds the pool (a non-positive queue limit makes the
     * queue's constructor throw out of the method: `escaped`), defaults the
     * identifier to the host name, then connects, opens the channel, declares
     * the exchange and the queue. Each stage that fails is reported on its own
     * and shuts the pool down.
     */
    method ActivateOptions(localHost: Option<string>, tlsFailure: Option<string>, connects: bool,
                           opensChannel: Answer, declaresExchange: Answer, declaresQueue: Answer, bindsQueue: Answer)
      returns (escaped: bool)
      requires Valid()
      modifies this`pool, this`capacity, this`pending, this`identifier, this`connection, this`channel,
               this`reconnections, this`trace, this`reports
      ensures Valid()
      ensures escaped <==> config.queueLimit <= 0
      ensures escaped ==>
        && pool == old(pool) && capacity == old(capacity) && pending == old(pending)
        && identifier == old(identifier) && LinkState() == old(LinkState())
      ensures !escaped ==>
        && capacity == config.queueLimit && pending == []
        && identifier == ResolvedIdentifier(old(identifier), localHost)
        && LinkState() == Activation(config, old(LinkState()).(pool := Running), tlsFailure, connects, opensChannel,
                                     declaresExchange, declaresQueue, bindsQueue)
    {
      if config.queueLimit <= 0 {
        return true;
      }
      escaped := false;
      StartPool(localHost);
      RunStages(tlsFailure, connects, opensChannel, declaresExchange, declaresQueue, bindsQueue);
    }

    /** The channel part of `close`. */
    method CloseChannelHandle(closeError: Option<string>)
      modifies this`channel, this`trace, this`reports
      ensures var s := CloseStep(old(LinkState()), old(channel), CloseChannel, closeError);
        LinkState() == s.0.(channel := s.1)
    {
      if channel.Live() {
        trace := trace + [CloseChannel];
        if closeError.Some? {
          reports := reports + [ErrorReport(closeError.value, CloseFailure)];
        } else {
          channel := Present(false);
        }
      }
    }

    /** The connection part of `close`; closing the connection closes its channel with it. */
    method CloseConnectionHandle(closeError: Option<string>)
      modifies this`connection, this`channel, this`trace, this`reports
      ensures var s := CloseStep(old(LinkState()), old(connection), CloseConnection, closeError);
        LinkState() == s.0.(connection := s.1,
                            channel := ChannelAfter(old(connection).Live() && closeError.None?, old(channel)))
    {
      if connection.Live() {
        trace := trace + [CloseConnection];
        if closeError.Some? {
          reports := reports + [ErrorReport(closeError.value, CloseFailure)];
        } else {
          connection := Present(false);
          ChannelLost();
        }
      }
    }

    /**
     * `close`: shuts the pool down first, then closes the channel and then the
     * connection, each only if non-null and open; a failure to close one is
     * reported and does not stop the other. The pool being null (never
     * activated) makes the first call throw: `escaped`.
     */
    method Close(interrupted: bool, channelCloseError: Option<string>, connectionCloseError: Option<string>)
      returns (escaped: bool)
      requires Valid()
      modifies this`pool, this`channel, this`connection, this`trace, this`reports
      ensures Valid()
      ensures escaped <==> old(pool).NoPool?
      ensures escaped ==> LinkState() == old(LinkState())
      ensures !escaped ==> LinkState() == Closing(old(LinkState()), interrupted, channelCloseError, connectionCloseError)
    {
      if pool.NoPool? {
        return true;
      }
      escaped := false;
      pool := ShutDown;
      trace := trace + [ShutdownPool];
      if interrupted {
        reports := reports + [InterruptedReport];
      }
      CloseChannelHandle(channelCloseError);
      CloseConnectionHandle(connectionCloseError);
    }
  }
}
