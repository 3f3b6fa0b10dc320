/**
 * Runs of the appender on fresh instances: each method activates, feeds and
 * closes an appender it creates, on given broker answers, and its contract
 * states the outcome.
 */
module Scenarios {
  import opened Wrappers
  import opened Events
  import opened Delivery
  import opened BrokerLink
  import opened RabbitMQ

  function Render(e: LoggingEvent): string
  {
    e.loggerName
  }

  const Info := Level("INFO", 20000)
  const Event := LoggingEvent("main", Info, 1000, Text("started"), "app", None)

  /** The attempt on which every broker call succeeds. */
  const CleanAttempt := Attempt(true, false, Done, PublishOk)

  /** A fresh appender with the defaults and `queueLimit`, activated against a healthy broker. */
  method Activated(queueLimit: int) returns (a: RabbitMqAppender)
    requires queueLimit > 0
    ensures fresh(a) && a.Valid()
    ensures a.config == DefaultConfig(Render).(queueLimit := queueLimit) && a.identifier == Some("host-1")
    ensures a.pool == Running && a.capacity == queueLimit && a.pending == []
    ensures a.connection == Present(true) && a.channel == Present(true)
    ensures a.reports == [] && a.delivered == [] && a.droppedEvents == 0
  {
    a := new RabbitMqAppender(Render);
    a.config := a.config.(queueLimit := queueLimit);
    ghost var start := a.LinkState().(pool := Running);
    ActivationHealthy(a.config, start, None);
    var _ := a.ActivateOptions(Some("host-1"), None, true, Done, Done, Done, Done);
  }

  /**
   * Admission is bounded: with a queue limit of two and a worker that takes
   * nothing, the third event is dropped, counted once and reported once.
   */
  method BoundedAdmission() returns (first: AppendOutcome, second: AppendOutcome, third: AppendOutcome,
                                     dropped: nat, reports: seq<ErrorReport>)
    ensures first == Queued && second == Queued && third == Dropped
    ensures dropped == 1 && reports == [DropReport]
  {
    var a := Activated(2);
    first := a.Append(Event, 1);
    second := a.Append(Event, 2);
    third := a.Append(Event, 3);
    dropped := a.droppedEvents;
    reports := a.reports;
  }

  /** The next task of an activated appender, as the worker takes it. */
  method QueuedTask() returns (a: RabbitMqAppender, task: Task)
    ensures fresh(a) && a.Valid() && a.config == DefaultConfig(Render) && a.identifier == Some("host-1")
    ensures a.pool == Running && a.connection == Present(true) && a.channel == Present(true)
    ensures a.delivered == [] && task == NewTask(a.config, a.identifier, Event, 7)
  {
    a := Activated(1024);
    var _ := a.Append(Event, 7);
    var next := a.TakeTask();
    task := next.value;
  }

  /**
   * The broker closes the channel and `shutdownCompleted` gets the channel's
   * reference: the next task opens a new channel on the live connection,
   * without dialling, and publishes at once.
   */
  method ChannelClosureRecovery() returns (result: CallResult, sleeps: seq<nat>, delivered: seq<AmqpMessage>,
                                           redialled: bool, reopened: bool)
    ensures result == Delivered && sleeps == [] && |delivered| == 1
    ensures !redialled && reopened
  {
    var a, task := QueuedTask();
    a.ChannelLost();
    a.ShutdownCompleted(ChannelRef);
    var dials := a.reconnections;
    var before := |a.trace|;
    result, sleeps := a.Call(task, [CleanAttempt]);
    delivered := a.delivered;
    redialled := a.reconnections != dials;
    reopened := |a.trace| == before + 2 && a.trace[before] == NewChannel && a.channel.Live();
  }

  /**
   * The broker closes the connection, which closes the channel on it, and
   * `shutdownCompleted` gets both references. The first dial fails and sleeps
   * 1 ms, the second succeeds; each dial counts a reconnection, and a new
   * channel is opened on the new connection before the publish.
   */
  method ConnectionOutage() returns (result: CallResult, sleeps: seq<nat>, dials: nat, delivered: nat, reopened: bool)
    ensures result == Delivered && sleeps == [1] && dials == 2 && delivered == 1 && reopened
  {
    var a, task := QueuedTask();
    a.ConnectionLost();
    a.ShutdownCompleted(ChannelRef);
    a.ShutdownCompleted(ConnectionRef);
    var before := a.reconnections;
    var start := |a.trace|;
    result, sleeps := a.Call(task, [Attempt(false, false, Done, PublishOk), CleanAttempt]);
    dials := a.reconnections - before;
    delivered := |a.delivered|;
    reopened := |a.trace| == start + 4 && a.trace[start + 2] == NewChannel;
  }

  /**
   * The broker closes the channel, and reopening it fails because the
   * connection is going down with it: the loop sleeps 1 ms, finds the
   * connection closed, dials again (one reconnection), opens a new channel
   * and publishes.
   */
  method ChannelOpeningOutage() returns (result: CallResult, sleeps: seq<nat>, dials: nat, delivered: nat)
    ensures result == Delivered && sleeps == [1] && dials == 1 && delivered == 1
  {
    var a, task := QueuedTask();
    a.ChannelLost();
    var before := a.reconnections;
    result, sleeps := a.Call(task, [Attempt(true, false, IoFailure(true), PublishOk), CleanAttempt]);
    dials := a.reconnections - before;
    delivered := |a.delivered|;
  }

  /**
   * A fresh appender with the defaults, activated against a broker that
   * refuses the exchange; with `disconnects` the refusal is a connection
   * exception, such as an unknown exchange type.
   */
  method RefusedExchange(disconnects: bool) returns (a: RabbitMqAppender)
    ensures fresh(a) && a.Valid()
    ensures a.config == DefaultConfig(Render) && a.pool == ShutDown
    ensures a.reports == [ExchangeReport(DefaultConfig(Render))]
    ensures a.connection == Present(!disconnects) && a.channel == Present(false)
    ensures a.trace == [NewConnection, NewChannel, DeclareExchange("amqp-exchange", "direct", false), ShutdownPool]
  {
    a := new RabbitMqAppender(Render);
    ghost var start := a.LinkState().(pool := Running);
    ExchangeFailureClosesChannel(a.config, start, disconnects, Done, Done);
    var _ := a.ActivateOptions(Some("host-1"), None, true, Done, IoFailure(disconnects), Done, Done);
  }

  /**
   * The broker refuses the exchange at start-up: the refusal is the one report,
   * the pool is shut down, and the refusal closed the channel, so no queue is
   * declared and the next event is dropped. A channel-level refusal leaves the
   * connection open, a connection-level one closes it.
   */
  method ExchangeRefusedAtStartup(disconnects: bool)
    returns (reports: seq<ErrorReport>, declaredQueue: bool, channelOpen: bool, connectionOpen: bool,
             outcome: AppendOutcome)
    ensures reports == [ExchangeReport(DefaultConfig(Render))]
    ensures !declaredQueue && !channelOpen && outcome == Dropped
    ensures connectionOpen == !disconnects
  {
    var a := RefusedExchange(disconnects);
    reports := a.reports;
    declaredQueue := DeclareQueue(a.config.queue, false, false, false) in a.trace;
    channelOpen := a.channel.Live();
    connectionOpen := a.connection.Live();
    outcome := a.Append(Event, 1);
  }

  /**
   * No broker at start-up: activation reports the connection details, with the
   * password masked, and shuts the pool down, so every later event is dropped.
   */
  method UnreachableBrokerAtStartup() returns (reports: seq<ErrorReport>, outcome: AppendOutcome, dropped: nat)
    ensures reports == [ErrorReport("Failed to connect to: " + ConnectionDetails("localhost", 5762, "/", "guest", Some("guest"), false),
                                    GenericFailure)]
    ensures outcome == Dropped && dropped == 1
  {
    var a := new RabbitMqAppender(Render);
    ghost var start := a.LinkState().(pool := Running);
    ActivationWithoutBroker(a.config, start, None, false, Done, Done, Done, Done);
    var _ := a.ActivateOptions(Some("host-1"), None, false, Done, Done, Done, Done);
    reports := a.reports;
    outcome := a.Append(Event, 1);
    dropped := a.droppedEvents;
  }

  /**
   * Closing a healthy appender shuts the pool down and closes the channel and
   * then the connection; an event appended afterwards is dropped.
   */
  method ClosedAppenderDropsEvents() returns (escaped: bool, closes: seq<Effect>, outcome: AppendOutcome)
    ensures !escaped && closes == [ShutdownPool, CloseChannel, CloseConnection] && outcome == Dropped
  {
    var a := Activated(1024);
    var before := |a.trace|;
    ghost var open := a.LinkState();
    ClosingTrace(open, false, None, None);
    escaped := a.Close(false, None, None);
    closes := a.trace[before..];
    outcome := a.Append(Event, 1);
  }

  /**
   * An appender that was never activated has no pool: `append` and `close`
   * both throw a NullPointerException, and nothing is reported or counted.
   */
  method NeverActivated() returns (outcome: AppendOutcome, closeEscaped: bool, dropped: nat, reports: seq<ErrorReport>)
    ensures outcome == NullThreadPool && closeEscaped && dropped == 0 && reports == []
  {
    var a := new RabbitMqAppender(Render);
    outcome := a.Append(Event, 1);
    closeEscaped := a.Close(false, None, None);
    dropped := a.droppedEvents;
    reports := a.reports;
  }

  /** The identifier comes from the host name when unset, and the correlation id carries it with the capture time. */
  method IdentifierFromHostName() returns (identifier: Option<string>, id: string)
    ensures identifier == Some("host-1")
    ensures SplitCorrelationId(id) == Some(("host-1", 7))
  {
    var a, task := QueuedTask();
    identifier := a.identifier;
    id := task.id;
    SplitCorrelationIdInverts(Some("host-1"), 7);
  }
}
