/**
 * The RabbitMQ appender's link to the broker as a value, and what each of its
 * steps does to it: `createConnection`, `createChannel`, `createExchange`,
 * `createQueue`, the catch blocks of `activateOptions`, and one iteration of
 * the publish loop in `AppenderTask.call`. The `RabbitMQ` module's class is
 * proved against these functions; the lemmas here state what they promise.
 *
 * The broker client is abstract. Each call that may fail takes its outcome as a
 * parameter (an oracle). `trace` records, in order, every call the appender
 * makes on the thread pool and on the broker client; `reports` records the calls
 * made on log4j's error handler; `delivered` the messages the broker accepted.
 */
module BrokerLink {
  import opened Wrappers
  import opened Events
  import opened Delivery

  /** A nullable `Connection` or `Channel` reference and its `isOpen()` flag. */
  datatype Handle = Absent | Present(isOpen: bool)
  {
    /** Non-null and open: the test `createConnection`/`createChannel` make before reusing a handle. */
    predicate Live()
    {
      Present? && isOpen
    }
  }

  /** The object behind a handle is closed: `isOpen()` turns false while the reference stays. */
  function Lose(h: Handle): Handle
  {
    if h.Present? then Present(false) else h
  }

  /** The state of `threadPool`: not yet built, accepting tasks, or shut down. */
  datatype PoolState = NoPool | Running | ShutDown

  /** A call made on the thread pool or the broker client. */
  datatype Effect =
    | ShutdownPool
    | NewConnection
    | NewChannel
    | DeclareExchange(exchange: string, exchangeType: string, durable: bool)
    | DeclareQueue(queue: string, durable: bool, exclusive: bool, autoDelete: bool)
    | BindQueue(queue: string, exchange: string, routingKey: string)
    | Publish(message: AmqpMessage)
    | CloseChannel
    | CloseConnection

  datatype ErrorCode = GenericFailure | CloseFailure

  /** One call of log4j's `errorHandler.error`. */
  datatype ErrorReport = ErrorReport(message: string, code: ErrorCode)

  /**
   * The appender's bean properties, as log4j sets them before `activateOptions`
   * (the identifier, which activation may rewrite, is kept apart), and the
   * layout and threshold it inherits from `AppenderSkeleton`.
   */
  datatype Config = Config(
    host: string,
    port: int,
    ssl: bool,
    verifySsl: bool,
    username: string,
    password: Option<string>,
    virtualHost: string,
    exchange: string,
    exchangeType: string,
    durable: bool,
    queue: string,
    routingKey: string,
    queueLimit: int,
    threshold: Option<Level>,
    layout: LoggingEvent -> string)

  /** The field initialisers. */
  function DefaultConfig(layout: LoggingEvent -> string): (c: Config)
    ensures c.host == "localhost" && c.port == 5762 && !c.ssl && !c.verifySsl
    ensures c.username == "guest" && c.password == Some("guest") && c.virtualHost == "/"
    ensures c.exchange == "amqp-exchange" && c.exchangeType == "direct" && !c.durable
    ensures c.queue == "amqp-queue" && c.routingKey == "" && c.queueLimit == 1024
    ensures c.threshold == None && c.layout == layout
  {
    Config("localhost", 5762, false, false, "guest", Some("guest"), "/", "amqp-exchange", "direct", false,
           "amqp-queue", "", 1024, None, layout)
  }

  /** The message a task publishes, with the properties `call` builds. */
  function Publication(c: Config, identifier: Option<string>, t: Task): AmqpMessage
  {
    AmqpMessage(c.exchange, c.routingKey, Properties(identifier, t.level, t.id, ContentType), t.payload)
  }

  const ChannelReport := ErrorReport("Failed to create channel", GenericFailure)

  /** A failed connection stage reports the TLS failure's message, or else the connection details. */
  function ConnectFailureReport(c: Config, tlsFailure: Option<string>): ErrorReport
  {
    if c.ssl && tlsFailure.Some? then ErrorReport(tlsFailure.value, GenericFailure)
    else ErrorReport("Failed to connect to: " + ConnectionDetails(c.host, c.port, c.virtualHost, c.username, c.password, c.ssl),
                     GenericFailure)
  }

  function ExchangeReport(c: Config): ErrorReport
  {
    ErrorReport("Failed to create exchange: " + c.exchange, GenericFailure)
  }

  function QueueReport(c: Config): ErrorReport
  {
    ErrorReport("Failed to create queue: " + c.queue, GenericFailure)
  }

  // ---------------------------------------------------------------------------
  // The link and its steps
  // ---------------------------------------------------------------------------

  /** The part of the appender's state the broker steps read and change. */
  datatype Link = Link(
    connection: Handle,
    channel: Handle,
    reconnections: nat,
    pool: PoolState,
    trace: seq<Effect>,
    reports: seq<ErrorReport>,
    delivered: seq<AmqpMessage>)

  /**
   * The connection is closed, and the client closes every channel on it with
   * it: neither handle is live afterwards.
   */
  function Disconnected(l: Link): Link
  {
    l.(connection := Lose(l.connection), channel := Lose(l.channel))
  }

  /** A channel is open only while the connection it was opened on is. */
  predicate ChannelOnConnection(l: Link)
  {
    l.channel.Live() ==> l.connection.Live()
  }

  /**
   * How a synchronous call on the broker that may throw an IOException ends:
   * `createChannel`, `exchangeDeclare`, `queueDeclare`, `queueBind`. On a
   * failure `disconnects` says whether the connection went down with it: a
   * connection exception (503 COMMAND_INVALID for an exchange type the broker
   * does not know, say) or a connection already shutting down. Otherwise it is
   * a channel exception (406 PRECONDITION_FAILED, 404 NOT_FOUND), which closes
   * only the channel.
   */
  datatype Answer = Done | IoFailure(disconnects: bool)
  {
    predicate Disconnects()
    {
      IoFailure? && disconnects
    }
  }

  /** The link after a failed call: the channel is closed, and with `disconnects` the connection too. */
  function Failed(l: Link, disconnects: bool): Link
  {
    if disconnects then Disconnected(l) else l.(channel := Lose(l.channel))
  }

  /** The link after a call answered `a`: unchanged when it succeeded. */
  function Answered(l: Link, a: Answer): Link
  {
    if a.Done? then l else Failed(l, a.disconnects)
  }

  /** A step's new link, and `ok` false when the step threw an IOException. */
  datatype Step = Step(link: Link, ok: bool)

  /**
   * `createConnection`: a live connection is reused; otherwise a reconnection
   * is counted before dialling, so the count rises even when dialling fails.
   */
  function Connect(l: Link, connects: bool): Step
  {
    if l.connection.Live() then Step(l, true)
    else
      Step(l.(connection := if connects then Present(true) else l.connection,
              reconnections := l.reconnections + 1,
              trace := l.trace + [NewConnection]),
           connects)
  }

  /**
   * `createChannel`: a channel is opened only when the current one is not live
   * and the connection is. A failure keeps the old reference, and with
   * `disconnects` the connection is closed too.
   */
  function OpenChannel(l: Link, opens: Answer): Step
  {
    if !l.channel.Live() && l.connection.Live() then
      var asked := l.(trace := l.trace + [NewChannel]);
      Step(if opens.Done? then asked.(channel := Present(true)) else Answered(asked, opens), opens.Done?)
    else Step(l, true)
  }

  /** `createExchange`: a declaration on a live channel only; a refusal closes the channel, or the connection. */
  function DeclareExchangeOn(c: Config, l: Link, declares: Answer): Step
  {
    if l.channel.Live() then
      Step(Answered(l.(trace := l.trace + [DeclareExchange(c.exchange, c.exchangeType, c.durable)]), declares),
           declares.Done?)
    else Step(l, true)
  }

  /**
   * `createQueue`: on a live channel, a declaration (not durable, exclusive or
   * auto-deleted) and then a binding; a refusal of either closes the channel,
   * or the connection, and a refused declaration skips the binding.
   */
  function DeclareQueueOn(c: Config, l: Link, declares: Answer, binds: Answer): Step
  {
    if !l.channel.Live() then Step(l, true)
    else
      var declared := l.(trace := l.trace + [DeclareQueue(c.queue, false, false, false)]);
      if !declares.Done? then Step(Answered(declared, declares), false)
      else Step(Answered(declared.(trace := declared.trace + [BindQueue(c.queue, c.exchange, c.routingKey)]), binds),
                binds.Done?)
  }

  /** The catch block around each stage of `activateOptions`: report, then shut the pool down. */
  function Caught(s: Step, r: ErrorReport): Link
  {
    if s.ok then s.link
    else s.link.(reports := s.link.reports + [r], pool := ShutDown, trace := s.link.trace + [ShutdownPool])
  }

  /** The connection stage: a TLS setup failure (only with `ssl` set) throws before any dial. */
  function ConnectionStage(c: Config, l: Link, tlsFailure: Option<string>, connects: bool): Link
  {
    if c.ssl && tlsFailure.Some? then Caught(Step(l, false), ConnectFailureReport(c, tlsFailure))
    else Caught(Connect(l, connects), ConnectFailureReport(c, tlsFailure))
  }

  function ChannelStage(l: Link, opensChannel: Answer): Link
  {
    Caught(OpenChannel(l, opensChannel), ChannelReport)
  }

  function ExchangeStage(c: Config, l: Link, declaresExchange: Answer): Link
  {
    Caught(DeclareExchangeOn(c, l, declaresExchange), ExchangeReport(c))
  }

  function QueueStage(c: Config, l: Link, declaresQueue: Answer, bindsQueue: Answer): Link
  {
    Caught(DeclareQueueOn(c, l, declaresQueue, bindsQueue), QueueReport(c))
  }

  /** The four stages of `activateOptions`, each run whatever the earlier ones did. */
  function Activation(c: Config, l: Link, tlsFailure: Option<string>, connects: bool, opensChannel: Answer,
                      declaresExchange: Answer, declaresQueue: Answer, bindsQueue: Answer): Link
  {
    var connected := ConnectionStage(c, l, tlsFailure, connects);
    var withChannel := ChannelStage(connected, opensChannel);
    var declared := ExchangeStage(c, withChannel, declaresExchange);
    QueueStage(c, declared, declaresQueue, bindsQueue)
  }

  /** `activateOptions` starting from a fresh pool. */
  predicate FreshPool(l: Link)
  {
    l.pool == Running
  }

  // ---------------------------------------------------------------------------
  // What activation promises
  // ---------------------------------------------------------------------------

  /** A stage either leaves the reports and the pool alone, or adds one report and shuts the pool down. */
  predicate ReportsOnFailure(before: Link, after: Link)
  {
    || (after.reports == before.reports && after.pool == before.pool)
    || (|after.reports| == |before.reports| + 1 && after.pool == ShutDown)
  }

  lemma StagesReportOnFailure(c: Config, l: Link, tlsFailure: Option<string>, connects: bool, opensChannel: Answer,
                              declaresExchange: Answer, declaresQueue: Answer, bindsQueue: Answer)
    ensures ReportsOnFailure(l, ConnectionStage(c, l, tlsFailure, connects))
    ensures ReportsOnFailure(l, ChannelStage(l, opensChannel))
    ensures ReportsOnFailure(l, ExchangeStage(c, l, declaresExchange))
    ensures ReportsOnFailure(l, QueueStage(c, l, declaresQueue, bindsQueue))
  {
  }

  /**
   * The pool ends up shut down exactly when some stage reported an error, and
   * at most one report is made per stage.
   */
  lemma {:induction false} ActivationShutsDownIffReported(c: Config, l: Link, tlsFailure: Option<string>, connects: bool,
                                                          opensChannel: Answer, declaresExchange: Answer,
                                                          declaresQueue: Answer, bindsQueue: Answer)
    requires FreshPool(l)
    ensures var r := Activation(c, l, tlsFailure, connects, opensChannel, declaresExchange, declaresQueue, bindsQueue);
      && (r.pool == ShutDown <==> |r.reports| > |l.reports|)
      && (r.pool == Running <==> r.reports == l.reports)
      && |l.reports| <= |r.reports| <= |l.reports| + 4
  {
    var connected := ConnectionStage(c, l, tlsFailure, connects);
    var withChannel := ChannelStage(connected, opensChannel);
    var declared := ExchangeStage(c, withChannel, declaresExchange);
    var r := QueueStage(c, declared, declaresQueue, bindsQueue);
    StagesReportOnFailure(c, l, tlsFailure, connects, opensChannel, declaresExchange, declaresQueue, bindsQueue);
    StagesReportOnFailure(c, connected, tlsFailure, connects, opensChannel, declaresExchange, declaresQueue, bindsQueue);
    StagesReportOnFailure(c, withChannel, tlsFailure, connects, opensChannel, declaresExchange, declaresQueue, bindsQueue);
    StagesReportOnFailure(c, declared, tlsFailure, connects, opensChannel, declaresExchange, declaresQueue, bindsQueue);
    assert r == Activation(c, l, tlsFailure, connects, opensChannel, declaresExchange, declaresQueue, bindsQueue);
  }

  /**
   * With a reachable broker every stage succeeds: nothing is reported, the
   * pool keeps running, and the broker sees a dial and a channel only where
   * none was live, then the exchange, the queue and the binding, in that order.
   */
  lemma {:induction false} ActivationHealthy(c: Config, l: Link, tlsFailure: Option<string>)
    requires FreshPool(l) && !(c.ssl && tlsFailure.Some?)
    ensures var r := Activation(c, l, tlsFailure, true, Done, Done, Done, Done);
      && r.pool == Running && r.reports == l.reports
      && r.connection.Live() && r.channel.Live()
      && r.reconnections == l.reconnections + (if l.connection.Live() then 0 else 1)
      && r.delivered == l.delivered
      && r.trace == l.trace + OnlyIf(!l.connection.Live(), [NewConnection]) + OnlyIf(!l.channel.Live(), [NewChannel])
                    + [DeclareExchange(c.exchange, c.exchangeType, c.durable),
                       DeclareQueue(c.queue, false, false, false),
                       BindQueue(c.queue, c.exchange, c.routingKey)]
  {
    var withChannel := ChannelStage(ConnectionStage(c, l, tlsFailure, true), Done);
    OpenedLink(c, l, tlsFailure);
    var declared := ExchangeStage(c, withChannel, Done);
    assert declared == withChannel.(trace := withChannel.trace + [DeclareExchange(c.exchange, c.exchangeType, c.durable)]);
    var r := QueueStage(c, declared, Done, Done);
    assert r == declared.(trace := declared.trace + [DeclareQueue(c.queue, false, false, false),
                                                     BindQueue(c.queue, c.exchange, c.routingKey)]);
    assert r == Activation(c, l, tlsFailure, true, Done, Done, Done, Done);
  }

  /**
   * Without a connection, a failed dial or TLS setup is the only report: with
   * no live channel either, no channel, exchange or queue is attempted.
   */
  lemma ActivationWithoutBroker(c: Config, l: Link, tlsFailure: Option<string>, connects: bool, opensChannel: Answer,
                                declaresExchange: Answer, declaresQueue: Answer, bindsQueue: Answer)
    requires FreshPool(l) && !l.connection.Live() && !l.channel.Live()
    requires (c.ssl && tlsFailure.Some?) || !connects
    ensures var r := Activation(c, l, tlsFailure, connects, opensChannel, declaresExchange, declaresQueue, bindsQueue);
      && r.pool == ShutDown
      && r.reports == l.reports + [ConnectFailureReport(c, tlsFailure)]
      && r.trace == l.trace + OnlyIf(!(c.ssl && tlsFailure.Some?), [NewConnection]) + [ShutdownPool]
      && r.connection == l.connection && r.channel == l.channel
  {
  }

  /**
   * A refused declaration or binding fails the call and closes the channel,
   * and a connection exception closes the connection too; an accepted one
   * leaves both handles as they were.
   */
  lemma DeclarationRefusalClosesChannel(c: Config, l: Link, declaresExchange: Answer, declaresQueue: Answer,
                                        bindsQueue: Answer)
    requires l.channel.Live()
    ensures var s := DeclareExchangeOn(c, l, declaresExchange);
      && s.ok == declaresExchange.Done?
      && s.link.channel == (if s.ok then l.channel else Present(false))
      && s.link.connection == (if declaresExchange.Disconnects() then Lose(l.connection) else l.connection)
    ensures var s := DeclareQueueOn(c, l, declaresQueue, bindsQueue);
      && s.ok == (declaresQueue.Done? && bindsQueue.Done?)
      && s.link.channel == (if s.ok then l.channel else Present(false))
      && s.link.connection == (if declaresQueue.Disconnects() || (declaresQueue.Done? && bindsQueue.Disconnects())
                               then Lose(l.connection) else l.connection)
  {
  }

  /**
   * The exchange and queue stages act only on a live channel: without one they
   * change nothing, neither the trace nor the reports nor the pool; with one
   * they always ask the broker something.
   */
  lemma StagesNeedLiveChannel(c: Config, l: Link, declaresExchange: Answer, declaresQueue: Answer, bindsQueue: Answer)
    ensures !l.channel.Live() ==> ExchangeStage(c, l, declaresExchange) == l && QueueStage(c, l, declaresQueue, bindsQueue) == l
    ensures l.channel.Live() ==>
      && |ExchangeStage(c, l, declaresExchange).trace| > |l.trace|
      && |QueueStage(c, l, declaresQueue, bindsQueue).trace| > |l.trace|
  {
  }

  /**
   * A refused exchange declaration is reported and shuts the pool down, and it
   * closes the channel, so the queue stage that still runs finds no live
   * channel and declares nothing, whatever the broker would have answered. The
   * connection survives a channel exception only, and `close` then closes it.
   */
  lemma ExchangeFailureClosesChannel(c: Config, l: Link, disconnects: bool, declaresQueue: Answer, bindsQueue: Answer)
    requires FreshPool(l)
    ensures var r := Activation(c, l, None, true, Done, IoFailure(disconnects), declaresQueue, bindsQueue);
      && r.pool == ShutDown
      && r.reports == l.reports + [ExchangeReport(c)]
      && r.connection == Present(!disconnects) && r.channel == Present(false)
      && r.trace == l.trace + OnlyIf(!l.connection.Live(), [NewConnection]) + OnlyIf(!l.channel.Live(), [NewChannel])
                    + [DeclareExchange(c.exchange, c.exchangeType, c.durable), ShutdownPool]
  {
    var withChannel := ChannelStage(ConnectionStage(c, l, None, true), Done);
    OpenedLink(c, l, None);
    var declared := ExchangeStage(c, withChannel, IoFailure(disconnects));
    var exchange := DeclareExchange(c.exchange, c.exchangeType, c.durable);
    assert declared.trace == withChannel.trace + [exchange, ShutdownPool];
    assert declared.connection == Present(!disconnects) && declared.channel == Present(false);
    assert declared.pool == ShutDown && declared.reports == l.reports + [ExchangeReport(c)];
    QueueStageNeedsLiveChannel(c, declared, declaresQueue, bindsQueue);
    assert Activation(c, l, None, true, Done, IoFailure(disconnects), declaresQueue, bindsQueue) == declared;
  }

  /** A successful dial and channel opening on a fresh pool: both handles live, nothing reported. */
  lemma OpenedLink(c: Config, l: Link, tlsFailure: Option<string>)
    requires FreshPool(l) && !(c.ssl && tlsFailure.Some?)
    ensures var r := ChannelStage(ConnectionStage(c, l, tlsFailure, true), Done);
      && r.connection.Live() && r.channel.Live() && r.pool == Running && r.reports == l.reports
      && r.reconnections == l.reconnections + (if l.connection.Live() then 0 else 1) && r.delivered == l.delivered
      && r.trace == l.trace + OnlyIf(!l.connection.Live(), [NewConnection]) + OnlyIf(!l.channel.Live(), [NewChannel])
  {
    var connected := ConnectionStage(c, l, tlsFailure, true);
    assert connected == Connect(l, true).link;
    assert connected.trace == l.trace + OnlyIf(!l.connection.Live(), [NewConnection]);
    assert ChannelStage(connected, Done) == OpenChannel(connected, Done).link;
  }

  /** Without a live channel the queue stage changes nothing. */
  lemma QueueStageNeedsLiveChannel(c: Config, l: Link, declaresQueue: Answer, bindsQueue: Answer)
    requires !l.channel.Live()
    ensures QueueStage(c, l, declaresQueue, bindsQueue) == l
  {
  }

  /** Without a live channel neither declaration stage changes anything. */
  lemma DeclarationStagesNeedLiveChannel(c: Config, l: Link, declaresExchange: Answer, declaresQueue: Answer,
                                         bindsQueue: Answer)
    requires !l.channel.Live()
    ensures QueueStage(c, ExchangeStage(c, l, declaresExchange), declaresQueue, bindsQueue) == l
  {
    assert ExchangeStage(c, l, declaresExchange) == l;
    QueueStageNeedsLiveChannel(c, l, declaresQueue, bindsQueue);
  }

  /**
   * A failed channel opening at activation is reported and shuts the pool
   * down; no declaration is attempted on the channel that is not there. When
   * the failure took the connection down, `close` finds nothing to close.
   */
  lemma ChannelFailureAtStartup(c: Config, l: Link, disconnects: bool, declaresExchange: Answer, declaresQueue: Answer,
                                bindsQueue: Answer)
    requires FreshPool(l) && !l.channel.Live()
    ensures var r := Activation(c, l, None, true, IoFailure(disconnects), declaresExchange, declaresQueue, bindsQueue);
      && r.pool == ShutDown
      && r.reports == l.reports + [ChannelReport]
      && r.connection == Present(!disconnects) && r.channel == l.channel
      && r.trace == l.trace + OnlyIf(!l.connection.Live(), [NewConnection]) + [NewChannel, ShutdownPool]
      && Closing(r, false, None, None).trace == r.trace + [ShutdownPool] + OnlyIf(!disconnects, [CloseConnection])
  {
    var connected := ConnectionStage(c, l, None, true);
    assert connected == Connect(l, true).link;
    var withChannel := ChannelStage(connected, IoFailure(disconnects));
    assert withChannel == Failed(connected.(trace := connected.trace + [NewChannel]), disconnects)
                            .(reports := l.reports + [ChannelReport], pool := ShutDown,
                              trace := connected.trace + [NewChannel, ShutdownPool]);
    assert withChannel.connection == Present(!disconnects) && withChannel.channel == l.channel;
    DeclarationStagesNeedLiveChannel(c, withChannel, declaresExchange, declaresQueue, bindsQueue);
    assert Activation(c, l, None, true, IoFailure(disconnects), declaresExchange, declaresQueue, bindsQueue) == withChannel;
    ClosingTrace(withChannel, false, None, None);
  }

  /** A refused queue declaration skips the binding: the binding is attempted only after a successful declaration. */
  lemma QueueDeclarationFailureSkipsBinding(c: Config, l: Link, disconnects: bool, binds: Answer)
    requires l.channel.Live()
    ensures var s := DeclareQueueOn(c, l, IoFailure(disconnects), binds);
      !s.ok && s.link.trace == l.trace + [DeclareQueue(c.queue, false, false, false)] && s.link.channel == Present(false)
  {
  }

  /** Activation never leaves a channel open on a connection that is not. */
  lemma {:induction false} ActivationKeepsChannelOnConnection(c: Config, l: Link, tlsFailure: Option<string>, connects: bool,
                                                               opensChannel: Answer, declaresExchange: Answer,
                                                               declaresQueue: Answer, bindsQueue: Answer)
    requires ChannelOnConnection(l)
    ensures ChannelOnConnection(Activation(c, l, tlsFailure, connects, opensChannel, declaresExchange, declaresQueue, bindsQueue))
  {
    var connected := ConnectionStage(c, l, tlsFailure, connects);
    assert ChannelOnConnection(connected);
    var withChannel := ChannelStage(connected, opensChannel);
    ChannelStageKeepsChannelOnConnection(connected, opensChannel);
    var declared := ExchangeStage(c, withChannel, declaresExchange);
    ExchangeStageKeepsChannelOnConnection(c, withChannel, declaresExchange);
    QueueStageKeepsChannelOnConnection(c, declared, declaresQueue, bindsQueue);
  }

  /** A failed call never leaves a channel open on a connection that is not. */
  lemma AnsweredKeepsChannelOnConnection(l: Link, a: Answer)
    requires ChannelOnConnection(l)
    ensures ChannelOnConnection(Answered(l, a))
  {
  }

  lemma ChannelStageKeepsChannelOnConnection(l: Link, opensChannel: Answer)
    requires ChannelOnConnection(l)
    ensures ChannelOnConnection(ChannelStage(l, opensChannel))
  {
    if !l.channel.Live() && l.connection.Live() {
      AnsweredKeepsChannelOnConnection(l.(trace := l.trace + [NewChannel]), opensChannel);
    }
  }

  lemma ExchangeStageKeepsChannelOnConnection(c: Config, l: Link, declaresExchange: Answer)
    requires ChannelOnConnection(l)
    ensures ChannelOnConnection(ExchangeStage(c, l, declaresExchange))
  {
    if l.channel.Live() {
      AnsweredKeepsChannelOnConnection(l.(trace := l.trace + [DeclareExchange(c.exchange, c.exchangeType, c.durable)]),
                                       declaresExchange);
    }
  }

  lemma QueueStageKeepsChannelOnConnection(c: Config, l: Link, declaresQueue: Answer, bindsQueue: Answer)
    requires ChannelOnConnection(l)
    ensures ChannelOnConnection(QueueStage(c, l, declaresQueue, bindsQueue))
  {
    if l.channel.Live() {
      var declared := l.(trace := l.trace + [DeclareQueue(c.queue, false, false, false)]);
      AnsweredKeepsChannelOnConnection(declared, declaresQueue);
      AnsweredKeepsChannelOnConnection(declared.(trace := declared.trace + [BindQueue(c.queue, c.exchange, c.routingKey)]),
                                       bindsQueue);
    }
  }

  // ---------------------------------------------------------------------------
  // Closing
  // ---------------------------------------------------------------------------

  /** Reported when waiting for the pool to terminate was interrupted. */
  const InterruptedReport := ErrorReport("Didn't manage to shutdown in time.", CloseFailure)

  /** Closes one handle: it ends up closed, unless closing it threw an IOException, whose message is reported. */
  function CloseStep(l: Link, h: Handle, closing: Effect, closeError: Option<string>): (Link, Handle)
  {
    if !h.Live() then (l, h)
    else if closeError.Some? then
      (l.(trace := l.trace + [closing], reports := l.reports + [ErrorReport(closeError.value, CloseFailure)]), h)
    else (l.(trace := l.trace + [closing]), Present(false))
  }

  /** The channel after the connection's close: closing a connection closes its channels too. */
  function ChannelAfter(connectionClosed: bool, channel: Handle): Handle
  {
    if connectionClosed then Lose(channel) else channel
  }

  /**
   * `close` on a built pool: shut the pool down and wait for it, then close the
   * channel, then the connection.
   */
  function Closing(l: Link, interrupted: bool, channelCloseError: Option<string>, connectionCloseError: Option<string>): Link
  {
    var stopped := l.(pool := ShutDown, trace := l.trace + [ShutdownPool],
                      reports := l.reports + OnlyIf(interrupted, [InterruptedReport]));
    var (afterChannel, channel) := CloseStep(stopped, stopped.channel, CloseChannel, channelCloseError);
    var (afterConnection, connection) := CloseStep(afterChannel, afterChannel.connection, CloseConnection, connectionCloseError);
    var connectionClosed := afterChannel.connection.Live() && connectionCloseError.None?;
    afterConnection.(channel := ChannelAfter(connectionClosed, channel), connection := connection)
  }

  /** What `close` adds to the trace: the pool shutdown, then a close of each handle that was live. */
  lemma ClosingTrace(l: Link, interrupted: bool, channelCloseError: Option<string>, connectionCloseError: Option<string>)
    ensures Closing(l, interrupted, channelCloseError, connectionCloseError).trace
         == l.trace + [ShutdownPool] + OnlyIf(l.channel.Live(), [CloseChannel]) + OnlyIf(l.connection.Live(), [CloseConnection])
  {
  }

  /** In what `close` adds to the trace, no connection close comes before a channel close. */
  predicate ChannelClosedFirst(added: seq<Effect>)
  {
    forall i, j :: 0 <= i < |added| && 0 <= j < |added| && added[i] == CloseChannel && added[j] == CloseConnection ==> i < j
  }

  /**
   * The pool is shut down before any handle is closed, and the channel before
   * the connection; a handle is closed exactly when it was live, whether or not
   * closing the other one failed.
   */
  lemma ClosingOrder(l: Link, interrupted: bool, channelCloseError: Option<string>, connectionCloseError: Option<string>)
    ensures var added := Closing(l, interrupted, channelCloseError, connectionCloseError).trace[|l.trace|..];
      && |added| > 0 && added[0] == ShutdownPool
      && (CloseChannel in added <==> l.channel.Live())
      && (CloseConnection in added <==> l.connection.Live())
      && ChannelClosedFirst(added)
  {
    var r := Closing(l, interrupted, channelCloseError, connectionCloseError);
    ClosingTrace(l, interrupted, channelCloseError, connectionCloseError);
    var added := r.trace[|l.trace|..];
    assert added == [ShutdownPool] + OnlyIf(l.channel.Live(), [CloseChannel]) + OnlyIf(l.connection.Live(), [CloseConnection]);
    if l.channel.Live() && l.connection.Live() {
      assert added == [ShutdownPool, CloseChannel, CloseConnection];
    } else if l.channel.Live() {
      assert added == [ShutdownPool, CloseChannel];
    } else if l.connection.Live() {
      assert added == [ShutdownPool, CloseConnection];
    } else {
      assert added == [ShutdownPool];
    }
  }

  /**
   * After `close` the pool is shut down. The connection is still live only when
   * closing it failed; the channel only when closing it failed and this `close`
   * did not close the connection, which would have closed it too. The counters
   * and deliveries are untouched.
   */
  lemma ClosingHandles(l: Link, interrupted: bool, channelCloseError: Option<string>, connectionCloseError: Option<string>)
    ensures var r := Closing(l, interrupted, channelCloseError, connectionCloseError);
      && r.pool == ShutDown
      && r.connection == (if l.connection.Live() && connectionCloseError.None? then Present(false) else l.connection)
      && r.channel == (if l.channel.Live() && (channelCloseError.None? || (l.connection.Live() && connectionCloseError.None?))
                       then Present(false) else l.channel)
      && (r.connection.Live() ==> connectionCloseError.Some?)
      && (r.channel.Live() ==> channelCloseError.Some? && !(l.connection.Live() && connectionCloseError.None?))
      && r.reconnections == l.reconnections && r.delivered == l.delivered
  {
  }

  /** From a link whose channel lives on its connection, `close` leaves a live channel only on a live connection. */
  lemma ClosingKeepsChannelOnConnection(l: Link, interrupted: bool, channelCloseError: Option<string>,
                                        connectionCloseError: Option<string>)
    requires ChannelOnConnection(l)
    ensures ChannelOnConnection(Closing(l, interrupted, channelCloseError, connectionCloseError))
  {
  }

  /** A failed close of a live handle reports the IOException's message. */
  function FailedClose(h: Handle, closeError: Option<string>): seq<ErrorReport>
  {
    if h.Live() && closeError.Some? then [ErrorReport(closeError.value, CloseFailure)] else []
  }

  /**
   * One report per failure, in order: the interrupted wait, then a failed close
   * of each handle that was live.
   */
  lemma ClosingReports(l: Link, interrupted: bool, channelCloseError: Option<string>, connectionCloseError: Option<string>)
    ensures Closing(l, interrupted, channelCloseError, connectionCloseError).reports
         == l.reports + OnlyIf(interrupted, [InterruptedReport])
                      + FailedClose(l.channel, channelCloseError) + FailedClose(l.connection, connectionCloseError)
  {
  }

  // ---------------------------------------------------------------------------
  // The publish loop
  // ---------------------------------------------------------------------------

  /**
   * How `basicPublish` on an open channel ends. After an IOException the
   * client may or may not have closed the connection, and its channels with
   * it, by the time the next try tests `isOpen()`: `disconnects` says which.
   */
  datatype PublishOutcome = PublishOk | PublishIoError(disconnects: bool) | PublishUnchecked

  /**
   * The broker's answers during one iteration of the publish loop: whether
   * `newConnection` succeeds (when a connection is needed), whether the broker
   * closes the connection (and with it the channel) right after
   * `createConnection` returns, how `createChannel` ends (when a channel is
   * needed), and how `basicPublish` on an open channel ends.
   */
  datatype Attempt = Attempt(connects: bool, connectionLost: bool, opensChannel: Answer, publish: PublishOutcome)
  {
    /** Every broker call this iteration may make ends without an IOException. */
    predicate Clean()
    {
      connects && opensChannel.Done? && !publish.PublishIoError?
    }
  }

  /**
   * How `AppenderTask.call` ended: after a publish, by a NullPointerException
   * (no channel to publish on), by the unchecked `AlreadyClosedException` that
   * `basicPublish` throws on a closed channel, by another unchecked exception
   * from `basicPublish`, or not yet, because every attempt offered raised an
   * IOException.
   */
  datatype CallResult = Delivered | NullChannel | ClosedChannel | Unchecked | StillRetrying

  /** After one iteration: sleep and go round again, or leave `call`. */
  datatype Turn = Retry | Stop(result: CallResult)

  datatype Iterated = Iterated(link: Link, turn: Turn)

  /** `basicPublish` on the channel `createChannel` returned: null, closed, or open. */
  function PublishOn(l: Link, msg: AmqpMessage, publish: PublishOutcome): Iterated
  {
    if l.channel.Absent? then Iterated(l, Stop(NullChannel))
    else
      var sent := l.(trace := l.trace + [Publish(msg)]);
      if !sent.channel.Live() then Iterated(sent, Stop(ClosedChannel))
      else
        match publish
        case PublishOk => Iterated(sent.(delivered := sent.delivered + [msg]), Stop(Delivered))
        case PublishIoError(disconnects) => Iterated(if disconnects then Disconnected(sent) else sent, Retry)
        case PublishUnchecked => Iterated(sent, Stop(Unchecked))
  }

  /** One iteration of the do-while loop in `call`. */
  function Iteration(l: Link, msg: AmqpMessage, a: Attempt): Iterated
  {
    var connected := Connect(l, a.connects);
    if !connected.ok then Iterated(connected.link, Retry)
    else
      var withChannel := OpenChannel(if a.connectionLost then Disconnected(connected.link) else connected.link,
                                     a.opensChannel);
      if !withChannel.ok then Iterated(withChannel.link, Retry)
      else PublishOn(withChannel.link, msg, a.publish)
  }

  /** Where `call` ends, and the sleeps it took on the way. */
  datatype Outcome = Outcome(link: Link, result: CallResult, sleeps: seq<nat>)

  /**
   * `call` run on the broker's successive answers, after `failures` earlier
   * IOExceptions: each IOException sleeps the current backoff and goes round again.
   */
  function Publishing(l: Link, msg: AmqpMessage, attempts: seq<Attempt>, failures: nat): Outcome
    decreases |attempts|
  {
    if attempts == [] then Outcome(l, StillRetrying, [])
    else
      var it := Iteration(l, msg, attempts[0]);
      if it.turn.Stop? then Outcome(it.link, it.turn.result, [])
      else
        var rest := Publishing(it.link, msg, attempts[1..], failures + 1);
        Outcome(rest.link, rest.result, [Backoff(failures)] + rest.sleeps)
  }

  // ---------------------------------------------------------------------------
  // What the publish loop promises
  // ---------------------------------------------------------------------------

  /**
   * An iteration goes round again only after an IOException, a clean one
   * always leaves the loop, and none leaves it still retrying.
   */
  lemma IterationRetriesOnlyOnIoError(l: Link, msg: AmqpMessage, a: Attempt)
    ensures Iteration(l, msg, a).turn == Retry ==> !a.Clean()
    ensures a.Clean() ==> Iteration(l, msg, a).turn.Stop?
    ensures Iteration(l, msg, a).turn != Stop(StillRetrying)
  {
  }

  /** One iteration leaves the pool and the reports alone, dials at most once, and delivers only on a normal return. */
  lemma IterationFrame(l: Link, msg: AmqpMessage, a: Attempt)
    ensures var it := Iteration(l, msg, a);
      && it.link.pool == l.pool && it.link.reports == l.reports
      && l.reconnections <= it.link.reconnections <= l.reconnections + 1
      && it.link.delivered == l.delivered + OnlyIf(it.turn == Stop(Delivered), [msg])
      && it.turn != Stop(StillRetrying)
  {
  }

  /** One iteration only adds dials, channel openings and publishes of this message to the trace. */
  lemma IterationTrace(l: Link, msg: AmqpMessage, a: Attempt)
    ensures var it := Iteration(l, msg, a);
      && l.trace <= it.link.trace
      && (forall k :: |l.trace| <= k < |it.link.trace| ==> it.link.trace[k] in {NewConnection, NewChannel, Publish(msg)})
  {
  }

  /**
   * How an iteration that leaves the loop got there: a publish is accepted
   * only on a live channel of a live connection that was not lost on the way.
   */
  lemma IterationStops(l: Link, msg: AmqpMessage, a: Attempt)
    ensures var it := Iteration(l, msg, a);
      && (it.turn == Stop(Delivered) ==>
            a.publish == PublishOk && !a.connectionLost && it.link.channel.Live() && it.link.connection.Live())
      && (it.turn == Stop(Unchecked) ==> a.publish == PublishUnchecked && it.link.channel.Live())
      && (it.turn == Stop(NullChannel) ==> it.link.channel == Absent)
      && (it.turn == Stop(ClosedChannel) ==> it.link.channel == Present(false))
  {
  }

  /**
   * When the client closed the connection after an IOException from
   * `basicPublish`, neither handle is live, so the next try dials again and
   * counts a reconnection.
   */
  lemma PublishFailureDisconnects(l: Link, msg: AmqpMessage, a: Attempt, next: Attempt)
    requires a.connects && a.opensChannel == Done && a.publish == PublishIoError(true)
    ensures var it := Iteration(l, msg, a);
      it.turn == Retry ==>
        && !it.link.connection.Live() && !it.link.channel.Live()
        && Iteration(it.link, msg, next).link.reconnections == it.link.reconnections + 1
  {
  }

  /**
   * When the connection is still open after an IOException from `basicPublish`,
   * the loop goes round again with both handles as they were, and the next try
   * publishes on them at once: no dial, no new channel, whatever it is answered.
   */
  lemma PublishFailureKeepsLink(l: Link, msg: AmqpMessage, a: Attempt, next: Attempt)
    requires l.connection.Live() && l.channel.Live()
    requires !a.connectionLost && a.publish == PublishIoError(false) && !next.connectionLost
    ensures var it := Iteration(l, msg, a);
      && it == Iterated(l.(trace := l.trace + [Publish(msg)]), Retry)
      && Iteration(it.link, msg, next).link.trace == it.link.trace + [Publish(msg)]
      && Iteration(it.link, msg, next).link.reconnections == l.reconnections
  {
  }

  /**
   * When opening the channel failed because the connection went down, the
   * loop goes round again with neither handle live, so the next try dials
   * again and counts a reconnection.
   */
  lemma ChannelFailureDisconnects(l: Link, msg: AmqpMessage, a: Attempt, next: Attempt)
    requires !l.channel.Live() && a.connects && !a.connectionLost && a.opensChannel == IoFailure(true)
    ensures var it := Iteration(l, msg, a);
      && it.turn == Retry
      && !it.link.connection.Live() && !it.link.channel.Live()
      && it.link.trace == l.trace + OnlyIf(!l.connection.Live(), [NewConnection]) + [NewChannel]
      && Iteration(it.link, msg, next).link.reconnections == it.link.reconnections + 1
  {
  }

  /**
   * When opening the channel failed on a connection that stays open, the loop
   * goes round again on the same connection, and the next try opens a channel
   * on it without dialling.
   */
  lemma ChannelFailureKeepsConnection(l: Link, msg: AmqpMessage, a: Attempt, next: Attempt)
    requires l.connection.Live() && !l.channel.Live()
    requires !a.connectionLost && a.opensChannel == IoFailure(false) && !next.connectionLost
    ensures var it := Iteration(l, msg, a);
      && it == Iterated(l.(trace := l.trace + [NewChannel]), Retry)
      && var n := Iteration(it.link, msg, next).link;
         && n.reconnections == l.reconnections
         && |n.trace| > |it.link.trace| && n.trace[|it.link.trace|] == NewChannel
  {
  }

  /** An iteration never leaves a channel open on a connection that is not. */
  lemma IterationKeepsChannelOnConnection(l: Link, msg: AmqpMessage, a: Attempt)
    requires ChannelOnConnection(l)
    ensures ChannelOnConnection(Iteration(l, msg, a).link)
  {
  }

  /**
   * The sleeps follow the backoff schedule (1, 2, 4, ... capped at 1024 ms),
   * one per IOException; the loop is still retrying exactly when every attempt
   * offered raised an IOException.
   */
  lemma {:induction false} PublishingSleeps(l: Link, msg: AmqpMessage, attempts: seq<Attempt>, failures: nat)
    ensures var o := Publishing(l, msg, attempts, failures);
      && |o.sleeps| <= |attempts|
      && (forall k :: 0 <= k < |o.sleeps| ==> o.sleeps[k] == Backoff(failures + k))
      && (o.result == StillRetrying <==> |o.sleeps| == |attempts|)
    decreases |attempts|
  {
    if attempts != [] {
      var it := Iteration(l, msg, attempts[0]);
      IterationRetriesOnlyOnIoError(l, msg, attempts[0]);
      var o := Publishing(l, msg, attempts, failures);
      if it.turn.Stop? {
        assert o == Outcome(it.link, it.turn.result, []);
      } else {
        PublishingSleeps(it.link, msg, attempts[1..], failures + 1);
        var rest := Publishing(it.link, msg, attempts[1..], failures + 1);
        assert o == Outcome(rest.link, rest.result, [Backoff(failures)] + rest.sleeps);
        forall k | 0 <= k < |o.sleeps|
          ensures o.sleeps[k] == Backoff(failures + k)
        {
          if k > 0 {
            assert o.sleeps[k] == rest.sleeps[k - 1];
          }
        }
      }
    }
  }

  /** Every attempt that led to a sleep raised an IOException: none of them was clean. */
  lemma {:induction false} PublishingRetriesOnlyOnIoError(l: Link, msg: AmqpMessage, attempts: seq<Attempt>, failures: nat)
    ensures var o := Publishing(l, msg, attempts, failures);
      && |o.sleeps| <= |attempts|
      && (forall k :: 0 <= k < |o.sleeps| ==> !attempts[k].Clean())
    decreases |attempts|
  {
    PublishingSleeps(l, msg, attempts, failures);
    if attempts != [] {
      var it := Iteration(l, msg, attempts[0]);
      IterationRetriesOnlyOnIoError(l, msg, attempts[0]);
      var o := Publishing(l, msg, attempts, failures);
      if it.turn.Retry? {
        PublishingRetriesOnlyOnIoError(it.link, msg, attempts[1..], failures + 1);
        var rest := Publishing(it.link, msg, attempts[1..], failures + 1);
        assert o == Outcome(rest.link, rest.result, [Backoff(failures)] + rest.sleeps);
        forall k | 0 < k < |o.sleeps|
          ensures !attempts[k].Clean()
        {
          assert attempts[k] == attempts[1..][k - 1];
        }
      }
    }
  }

  /**
   * What the loop ends with: the message is delivered at most once, and only
   * when the call returns normally; the last attempt's answer explains how the call ended.
   */
  lemma {:induction false} PublishingResult(l: Link, msg: AmqpMessage, attempts: seq<Attempt>, failures: nat)
    ensures var o := Publishing(l, msg, attempts, failures);
      && o.link.delivered == l.delivered + OnlyIf(o.result == Delivered, [msg])
      && (o.result == Delivered ==> |o.sleeps| < |attempts| && attempts[|o.sleeps|].publish == PublishOk
                                    && o.link.channel.Live() && o.link.connection.Live())
      && (o.result == Unchecked ==> |o.sleeps| < |attempts| && attempts[|o.sleeps|].publish == PublishUnchecked)
      && (o.result == NullChannel ==> o.link.channel == Absent)
      && (o.result == ClosedChannel ==> o.link.channel == Present(false))
    decreases |attempts|
  {
    PublishingSleeps(l, msg, attempts, failures);
    if attempts != [] {
      var it := Iteration(l, msg, attempts[0]);
      IterationFrame(l, msg, attempts[0]);
      IterationStops(l, msg, attempts[0]);
      var o := Publishing(l, msg, attempts, failures);
      if it.turn.Stop? {
        assert o == Outcome(it.link, it.turn.result, []);
      } else {
        PublishingResult(it.link, msg, attempts[1..], failures + 1);
        PublishingSleeps(it.link, msg, attempts[1..], failures + 1);
        var rest := Publishing(it.link, msg, attempts[1..], failures + 1);
        assert o == Outcome(rest.link, rest.result, [Backoff(failures)] + rest.sleeps);
        if rest.result != StillRetrying {
          assert attempts[|rest.sleeps| + 1] == attempts[1..][|rest.sleeps|];
        }
      }
    }
  }

  /**
   * The loop touches only the connection, the channel, the reconnection count,
   * the trace and the deliveries; it counts at most one reconnection per attempt
   * and adds to the trace only dials, channel openings and publishes of this message.
   */
  lemma {:induction false} PublishingFrame(l: Link, msg: AmqpMessage, attempts: seq<Attempt>, failures: nat)
    ensures var o := Publishing(l, msg, attempts, failures);
      && o.link.pool == l.pool && o.link.reports == l.reports
      && l.reconnections <= o.link.reconnections <= l.reconnections + |attempts|
      && l.trace <= o.link.trace
      && (forall k :: |l.trace| <= k < |o.link.trace| ==> o.link.trace[k] in {NewConnection, NewChannel, Publish(msg)})
    decreases |attempts|
  {
    if attempts != [] {
      var it := Iteration(l, msg, attempts[0]);
      IterationFrame(l, msg, attempts[0]);
      IterationTrace(l, msg, attempts[0]);
      if it.turn == Retry {
        PublishingFrame(it.link, msg, attempts[1..], failures + 1);
        var o := Publishing(l, msg, attempts, failures);
        forall k | |l.trace| <= k < |o.link.trace|
          ensures o.link.trace[k] in {NewConnection, NewChannel, Publish(msg)}
        {
          if k < |it.link.trace| {
            assert it.link.trace <= o.link.trace;
            assert o.link.trace[k] == it.link.trace[k];
          }
        }
      }
    }
  }

  /** The whole loop never leaves a channel open on a connection that is not. */
  lemma {:induction false} PublishingKeepsChannelOnConnection(l: Link, msg: AmqpMessage, attempts: seq<Attempt>,
                                                               failures: nat)
    requires ChannelOnConnection(l)
    ensures ChannelOnConnection(Publishing(l, msg, attempts, failures).link)
    decreases |attempts|
  {
    if attempts != [] {
      var it := Iteration(l, msg, attempts[0]);
      IterationKeepsChannelOnConnection(l, msg, attempts[0]);
      if it.turn == Retry {
        PublishingKeepsChannelOnConnection(it.link, msg, attempts[1..], failures + 1);
      }
    }
  }

  /**
   * While the broker stays unreachable, every attempt dials once, so each one
   * adds one to the reconnection count, and the loop keeps sleeping.
   */
  lemma {:induction false} UnreachableBrokerCountsEveryDial(l: Link, msg: AmqpMessage, attempts: seq<Attempt>, failures: nat)
    requires !l.connection.Live()
    requires forall k :: 0 <= k < |attempts| ==> !attempts[k].connects
    ensures var o := Publishing(l, msg, attempts, failures);
      && o.result == StillRetrying
      && o.link.reconnections == l.reconnections + |attempts|
      && o.link.connection == l.connection
      && |o.sleeps| == |attempts|
    decreases |attempts|
  {
    if attempts != [] {
      var it := Iteration(l, msg, attempts[0]);
      assert it.link == l.(reconnections := l.reconnections + 1, trace := l.trace + [NewConnection]);
      UnreachableBrokerCountsEveryDial(it.link, msg, attempts[1..], failures + 1);
    }
  }

  /** On a live connection and channel, a clean publish reuses both: no dial, no new channel, no sleep. */
  lemma LiveLinkPublishesAtOnce(l: Link, msg: AmqpMessage, attempts: seq<Attempt>, failures: nat)
    requires l.connection.Live() && l.channel.Live()
    requires |attempts| > 0 && attempts[0] == Attempt(true, false, Done, PublishOk)
    ensures Publishing(l, msg, attempts, failures)
            == Outcome(l.(trace := l.trace + [Publish(msg)], delivered := l.delivered + [msg]), Delivered, [])
  {
  }
}
