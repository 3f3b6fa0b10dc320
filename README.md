# rabbitmq-log4j-appender, modelled in Dafny

A model of the log4j appender that publishes logging events to a RabbitMQ
exchange, and of the two JSON layouts it ships with.

- `RabbitMQAppender` hands each event above the threshold to a thread pool. The
  pool has one worker and a bounded queue. When the pool refuses an event, the
  event is counted as dropped and reported. `activateOptions` builds the pool,
  defaults the identifier to the host name, then runs four stages: connect,
  open a channel, declare the exchange, declare and bind the queue. Each stage
  that fails is reported and shuts the pool down. The worker's `AppenderTask`
  reconnects, reopens the channel and publishes. After every IOException it
  sleeps, and the sleep doubles each time up to 1024 ms. `close` shuts the pool
  down and then closes the channel and the connection. `shutdownCompleted`
  forgets a handle that the broker closed.
- `JSONLayout` renders an event as one JSON object. The object has five basic
  keys. When the event carries a throwable, it also has a `throwable` object
  and, beside it, a `stackTrace` list.
- `ElasticSearchJSONLayout` renders an Elasticsearch bulk entry: an action line
  naming the index and mapping type, then a source line. The source holds the
  same object, wrapped under the type.

Files:

| file | module | contents |
|---|---|---|
| `wrappers.dfy` | `Wrappers` | `Option`, `OnlyIf`, `Min` |
| `java_text.dfy` | `JavaText` | decimal text of integers and its parser; `String.valueOf` of booleans; `indexOf` and `lastIndexOf` |
| `events.dfy` | `Events` | the part of a log4j `LoggingEvent` that is read |
| `json.dfy` | `Json` | the JSON value type, and `JsonObject` (org.json's `JSONObject`), which `put` updates in place |
| `json_layout.dfy` | `JsonLayout` | `writeBasic`, `writeThrowable` and `format`, proved against `FormatObject`, plus a decoder that reads the object back |
| `elasticsearch_layout.dfy` | `ElasticSearchLayout` | the layout class with its `index` and `type` fields, and the bulk framing |
| `delivery.dfy` | `Delivery` | the backoff schedule, the correlation id, publish properties, and `getConnectionDetails` |
| `broker_link.dfy` | `BrokerLink` | the appender's broker-facing state as a value (`Link`), and a pure step function for each broker-facing operation, with lemmas about them |
| `appender.dfy` | `RabbitMQ` | the `RabbitMqAppender` class. Each broker-facing method is proved equal to its `BrokerLink` step on the state its fields make up; admission, the task queue and `shutdownCompleted` are stated on the fields directly |
| `scenarios.dfy` | `Scenarios` | complete runs on fresh appenders, with concrete outcomes |

The broker, the network, TLS setup, the clock and the host-name lookup become
parameters:

- Whether a dial succeeds is a boolean. A channel opening, a declaration or a binding answers `Done` or `IoFailure(disconnects)`.
- `Attempt` holds the broker's answers for one try of the publish loop.
- An optional message stands for a TLS failure or a failed close.
- `millis` is the capture time and `localHost` is the host name.

The broker client's own rules about handles are kept. A channel lives on its
connection: when the connection closes, so does the channel. A
`createChannel`, declaration or binding that throws an IOException answers
`IoFailure(disconnects)`. Without the flag, the failure was a channel
exception of AMQP 0-9-1 (406 PRECONDITION_FAILED, 404 NOT_FOUND), and the
broker closes only the channel. With it, the failure was a connection exception
(503 COMMAND_INVALID for an exchange type the broker does not know) or a
connection already going down, and the connection closes with its channel. After an IOException from `basicPublish` the client may
or may not have closed the connection, and its channel, by the time the next
try tests `isOpen()`; the answer `PublishIoError(disconnects)` says which. The broker
closing a handle on its own is `ConnectionLost` or `ChannelLost`. The client's
callback that follows is `ShutdownCompleted`.

The appender records what it asked of the broker as a `trace` of effects. It
records what its error handler received as `reports`, and what was published
as `delivered`.

The default port is 5762, as the source writes it. The standard AMQP port is
5672; the model keeps the source's value.

## Model

| member | source | states |
|---|---|---|
| Json.JsonObject.Put | src/main/java/com/plant42/log4j/layouts/JSONLayout.java:103-107 | a put sets the one key to the value and keeps every other key |
| JsonLayout.WriteBasic | src/main/java/com/plant42/log4j/layouts/JSONLayout.java:102-108 | with an acceptable message, the five basic keys are put in order on top of the object. With a message org.json refuses, only the first three are put and `ok` is false |
| JsonLayout.WriteThrowable | src/main/java/com/plant42/log4j/layouts/JSONLayout.java:72-93 | without a throwable the object is unchanged. With one, it gains `stackTrace` (one frame object per stack frame, built by the loop) and `throwable` |
| JsonLayout.Format | src/main/java/com/plant42/log4j/layouts/JSONLayout.java:47-63 | never fails; returns the serialisation of `FormatObject(e)`, so the helpers' exception is swallowed and the partial object is returned |
| JsonLayout.BasicKeysFromEvent | src/main/java/com/plant42/log4j/layouts/JSONLayout.java:102-108 | the output has all five basic keys, each holding the event's own field |
| JsonLayout.NoThrowableNoExtraKeys | src/main/java/com/plant42/log4j/layouts/JSONLayout.java:73-74 | without throwable information the keys are exactly the five basic ones, with no `throwable` and no `stackTrace` |
| JsonLayout.ThrowableShape | src/main/java/com/plant42/log4j/layouts/JSONLayout.java:74-91 | with a throwable, `throwable` holds exactly `message` and `className`. `stackTrace` is at the top level and not inside `throwable`. It has one element per frame, in frame order, and each element has exactly `class`, `method`, `line` and `file` |
| JsonLayout.RefusedMessageKeepsPrefix | src/main/java/com/plant42/log4j/layouts/JSONLayout.java:51-62 | when the message put throws, the output still holds `threadName`, `level` and `timestamp`, and nothing else |
| JsonLayout.IgnoresThrowable | src/main/java/com/plant42/log4j/layouts/JSONLayout.java:114-117 | constant false: the layout renders the throwable itself, so log4j does not print it separately |
| JsonLayout.ThrowableRenderedIffPresent | src/main/java/com/plant42/log4j/layouts/JSONLayout.java:47-63 | since the layout does not ignore throwables, when the message is accepted the output has `throwable` and `stackTrace` if and only if the event carries throwable information |
| JsonLayout.DecodeFramesInvertsFrameObjects | src/main/java/com/plant42/log4j/layouts/JSONLayout.java:80-88 | the frame list can be read back into the same frames, in order |
| JsonLayout.DecodeThrowableOfFormat | src/main/java/com/plant42/log4j/layouts/JSONLayout.java:72-93 | the throwable part can be read back: no throwable when there was none, otherwise the same message, class name and frames |
| JsonLayout.DecodeInvertsFormat | src/main/java/com/plant42/log4j/layouts/JSONLayout.java:72-108 | the object can be read back into every field the layout writes (all but the level's priority) |
| ElasticSearchLayout.ElasticSearchJsonLayout.constructor | src/main/java/com/plant42/log4j/layouts/ElasticSearchJSONLayout.java:41-42 | the index defaults to `json-index` and the type to `json` |
| ElasticSearchLayout.ElasticSearchJsonLayout.SetIndex | src/main/java/com/plant42/log4j/layouts/ElasticSearchJSONLayout.java:95-97 | sets the index and leaves the type alone |
| ElasticSearchLayout.ElasticSearchJsonLayout.SetType | src/main/java/com/plant42/log4j/layouts/ElasticSearchJSONLayout.java:103-105 | sets the type and leaves the index alone |
| ElasticSearchLayout.ElasticSearchJsonLayout.ActionObject | src/main/java/com/plant42/log4j/layouts/ElasticSearchJSONLayout.java:59-62 | builds the action object from the current index and type |
| ElasticSearchLayout.ElasticSearchJsonLayout.SourceObject | src/main/java/com/plant42/log4j/layouts/ElasticSearchJSONLayout.java:67-75 | builds the source object: the parent layout's fields under the type, or an empty object when `writeBasic` threw |
| ElasticSearchLayout.ElasticSearchJsonLayout.Format | src/main/java/com/plant42/log4j/layouts/ElasticSearchJSONLayout.java:51-88 | returns the serialised action, a newline, the serialised source, a newline. The action and source are built from the current index and type |
| ElasticSearchLayout.BulkEntryIsTwoLines | src/main/java/com/plant42/log4j/layouts/ElasticSearchJSONLayout.java:81-86 | if the serialiser emits no newline, the entry is exactly two lines (action, then source) and ends with a newline |
| ElasticSearchLayout.ActionShape | src/main/java/com/plant42/log4j/layouts/ElasticSearchJSONLayout.java:59-62 | the action is `{"index": {"_index": index, "_type": type}}` and has no other keys |
| ElasticSearchLayout.SourceWrapsParentFields | src/main/java/com/plant42/log4j/layouts/ElasticSearchJSONLayout.java:67-75 | the source has exactly one key, the type, whose value is the object the parent layout builds |
| ElasticSearchLayout.RefusedMessageEmptySource | src/main/java/com/plant42/log4j/layouts/ElasticSearchJSONLayout.java:67-79 | when the message put throws, the wrapping put is skipped and the source is an empty object |
| ElasticSearchLayout.ElasticSearchJsonLayout.IgnoresThrowable | src/main/java/com/plant42/log4j/layouts/ElasticSearchJSONLayout.java:116-119 | constant false, as in the parent layout |
| ElasticSearchLayout.SourceRendersThrowableIffPresent | src/main/java/com/plant42/log4j/layouts/ElasticSearchJSONLayout.java:67-75 | the layout does not ignore throwables: when the message is accepted, the object under the type has `throwable` and `stackTrace` if and only if the event carries throwable information |
| Delivery.Backoff | src/main/java/com/plant42/log4j/appenders/RabbitMQAppender.java:548-557 | every sleep is between 1 and 1024 ms |
| Delivery.BackoffIsPowerOfTwo | src/main/java/com/plant42/log4j/appenders/RabbitMQAppender.java:548-557 | the sleep after the k-th consecutive IOException is 2^min(k, 10) |
| Delivery.BackoffNonDecreasing | src/main/java/com/plant42/log4j/appenders/RabbitMQAppender.java:556-557 | sleeps never get shorter |
| Delivery.BackoffSaturates | src/main/java/com/plant42/log4j/appenders/RabbitMQAppender.java:557 | from the eleventh consecutive failure (index 10) on, every sleep is the 1024 ms cap |
| Delivery.BackoffPrefix | src/main/java/com/plant42/log4j/appenders/RabbitMQAppender.java:548-557 | the schedule starts 1, 2, 4, …, 512, 1024, 1024 |
| JavaText.ParseDecimalInvertsDecimal | src/main/java/com/plant42/log4j/appenders/RabbitMQAppender.java:528 | the decimal text of a time reads back as the same number |
| Delivery.SplitCorrelationIdInverts | src/main/java/com/plant42/log4j/appenders/RabbitMQAppender.java:528 | splitting a correlation id at its last colon gives back the identifier text (`null` when unset) and the capture time, even when the identifier contains colons |
| Delivery.CorrelationId | src/main/java/com/plant42/log4j/appenders/RabbitMQAppender.java:528 | `String.format("%s:%s", identifier, millis)`: the identifier text (`null` when unset), a colon, the decimal time. Its partner is `SplitCorrelationIdInverts` |
| Delivery.ConnectionDetailsMaskPassword | src/main/java/com/plant42/log4j/appenders/RabbitMQAppender.java:91-99 | two descriptions that differ only in the password are equal if and only if both have a password or neither does. The password itself never shows |
| Delivery.ConnectionDetails | src/main/java/com/plant42/log4j/appenders/RabbitMQAppender.java:91-99 | the debugging description: host, port, virtual host, user, `******` for a set non-empty password and nothing otherwise, and the TLS flag, each field followed by a comma. Its partner is `ConnectionDetailsMaskPassword` |
| BrokerLink.DefaultConfig | src/main/java/com/plant42/log4j/appenders/RabbitMQAppender.java:50-64 | every configuration default: host, port 5762, no TLS, user and password `guest`, vhost `/`, exchange `amqp-exchange` of type `direct`, not durable, queue `amqp-queue`, empty routing key, queue limit 1024 |
| BrokerLink.Publication | src/main/java/com/plant42/log4j/appenders/RabbitMQAppender.java:541-545 | the message a task publishes: the configured exchange and routing key, the properties appId = identifier, type = level, correlationId = id and contentType `text/json`, and the payload |
| BrokerLink.StagesReportOnFailure | src/main/java/com/plant42/log4j/appenders/RabbitMQAppender.java:122-155 | each stage either leaves the reports and the pool alone, or adds exactly one report and shuts the pool down |
| BrokerLink.ActivationShutsDownIffReported | src/main/java/com/plant42/log4j/appenders/RabbitMQAppender.java:106-156 | after activation the pool is shut down if and only if some stage reported, and it runs if and only if nothing was reported. At most four reports are made |
| BrokerLink.ActivationHealthy | src/main/java/com/plant42/log4j/appenders/RabbitMQAppender.java:122-155 | against a healthy broker: nothing is reported and the pool runs. The connection and channel end up live. It dials and opens a channel only where none was live (counting a reconnection for the dial), then declares the exchange, declares the queue and binds it, in that order |
| BrokerLink.ActivationWithoutBroker | src/main/java/com/plant42/log4j/appenders/RabbitMQAppender.java:122-155 | with no connection, a failed dial or TLS setup is the only report: the TLS message, or `Failed to connect to: ` and the details. No channel, exchange or queue is attempted, and the pool is shut down |
| BrokerLink.DeclarationRefusalClosesChannel | src/main/java/com/plant42/log4j/appenders/RabbitMQAppender.java:414-434 | on a live channel, a declaration or binding fails if and only if it was refused. A refusal leaves the channel closed, and the connection closed too exactly when the failure was a connection exception; a refused queue declaration decides alone, since no binding follows it |
| BrokerLink.StagesNeedLiveChannel | src/main/java/com/plant42/log4j/appenders/RabbitMQAppender.java:141-155 | without a live channel the exchange and queue stages change nothing: no broker call, no report, no pool shutdown. With one they always call the broker |
| BrokerLink.ExchangeFailureClosesChannel | src/main/java/com/plant42/log4j/appenders/RabbitMQAppender.java:141-155 | after a successful dial and channel opening, a refused exchange declaration is reported once and shuts the pool down. It closes the channel, so the queue stage that still runs declares and binds nothing, whatever the broker would answer. The connection stays open after a channel exception and is closed after a connection exception |
| BrokerLink.ChannelFailureAtStartup | src/main/java/com/plant42/log4j/appenders/RabbitMQAppender.java:134-139 | a failed channel opening at activation is reported once with `Failed to create channel` and shuts the pool down. No declaration follows. The connection stays open unless the failure took it down, and `close` then closes the connection only if it is still open |
| BrokerLink.QueueDeclarationFailureSkipsBinding | src/main/java/com/plant42/log4j/appenders/RabbitMQAppender.java:427-434 | a refused queue declaration, channel- or connection-level, fails the stage before any binding is attempted, and the channel is closed |
| BrokerLink.ActivationKeepsChannelOnConnection | src/main/java/com/plant42/log4j/appenders/RabbitMQAppender.java:106-156 | activation never leaves a channel open on a connection that is not |
| BrokerLink.ClosingTrace | src/main/java/com/plant42/log4j/appenders/RabbitMQAppender.java:468-491 | `close` asks the broker for the pool shutdown, then a channel close if the channel was live, then a connection close if the connection was live |
| BrokerLink.ClosingOrder | src/main/java/com/plant42/log4j/appenders/RabbitMQAppender.java:468-491 | the pool is shut down before any handle is closed, and the channel is closed before the connection. Each handle is closed if and only if it was live, whatever happened to the other |
| BrokerLink.ClosingHandles | src/main/java/com/plant42/log4j/appenders/RabbitMQAppender.java:476-490 | after `close` the pool is shut down. The connection stays live only if closing it failed. The channel stays live only if closing it failed and this `close` did not close the connection, since closing a connection closes its channel. The counters and deliveries are unchanged |
| BrokerLink.ClosingKeepsChannelOnConnection | src/main/java/com/plant42/log4j/appenders/RabbitMQAppender.java:468-491 | from a link whose channel lives on its connection, `close` leaves a live channel only on a live connection |
| BrokerLink.ClosingReports | src/main/java/com/plant42/log4j/appenders/RabbitMQAppender.java:470-490 | `close` reports the interrupted wait, then each failed close with its exception's message, in that order and nothing else |
| BrokerLink.IterationRetriesOnlyOnIoError | src/main/java/com/plant42/log4j/appenders/RabbitMQAppender.java:549-559 | the loop goes round again only after an IOException, an attempt where every broker call succeeds always leaves it, and no try leaves it still retrying |
| BrokerLink.IterationFrame | src/main/java/com/plant42/log4j/appenders/RabbitMQAppender.java:550-558 | one try leaves the pool and reports alone and dials at most once. It delivers the message only when the publish returns normally |
| BrokerLink.IterationTrace | src/main/java/com/plant42/log4j/appenders/RabbitMQAppender.java:551-552 | one try only dials, opens channels and publishes this message |
| BrokerLink.IterationStops | src/main/java/com/plant42/log4j/appenders/RabbitMQAppender.java:550-558 | a try leaves the loop in one of four ways. A normal publish is delivered, and only on a live channel of a live connection that was not lost during the try. An unchecked exception from the publish ends it. A null channel ends it with a NullPointerException, and a closed channel with the unchecked AlreadyClosedException; neither is retried |
| BrokerLink.PublishFailureDisconnects | src/main/java/com/plant42/log4j/appenders/RabbitMQAppender.java:549-558 | when the client closed the connection after a publish IOException, neither handle is live, so the next try dials again and counts a reconnection |
| BrokerLink.PublishFailureKeepsLink | src/main/java/com/plant42/log4j/appenders/RabbitMQAppender.java:441-461 | when the connection is still open after a publish IOException, the loop goes round with both handles unchanged, and the next try publishes on them at once: no dial, no new channel, no reconnection counted |
| BrokerLink.ChannelFailureDisconnects | src/main/java/com/plant42/log4j/appenders/RabbitMQAppender.java:441-461 | when `createChannel` failed because the connection went down, the loop goes round with neither handle live, so the next try dials again and counts a reconnection |
| BrokerLink.ChannelFailureKeepsConnection | src/main/java/com/plant42/log4j/appenders/RabbitMQAppender.java:441-461 | when `createChannel` failed on a connection that stays open, the loop goes round on the same connection, and the next try opens a channel on it without dialling or counting a reconnection |
| BrokerLink.IterationKeepsChannelOnConnection | src/main/java/com/plant42/log4j/appenders/RabbitMQAppender.java:550-553 | one try never leaves a channel open on a connection that is not |
| BrokerLink.PublishingSleeps | src/main/java/com/plant42/log4j/appenders/RabbitMQAppender.java:547-559 | one sleep per IOException, the k-th being `Backoff(k)`. The loop is still retrying if and only if every attempt offered ended in an IOException |
| BrokerLink.PublishingRetriesOnlyOnIoError | src/main/java/com/plant42/log4j/appenders/RabbitMQAppender.java:549-558 | every attempt that led to a sleep raised an IOException: none of them was clean |
| BrokerLink.PublishingResult | src/main/java/com/plant42/log4j/appenders/RabbitMQAppender.java:547-560 | the message is delivered at most once, and only when `call` returns normally, with a live connection and channel. The attempt after the last sleep explains how the call ended |
| BrokerLink.PublishingFrame | src/main/java/com/plant42/log4j/appenders/RabbitMQAppender.java:547-559 | the loop never touches the pool or the reports. It counts at most one reconnection per attempt and only dials, opens channels and publishes this message |
| BrokerLink.PublishingKeepsChannelOnConnection | src/main/java/com/plant42/log4j/appenders/RabbitMQAppender.java:547-559 | however the loop ends, no channel is left open on a connection that is not |
| BrokerLink.UnreachableBrokerCountsEveryDial | src/main/java/com/plant42/log4j/appenders/RabbitMQAppender.java:549-558 | while the broker stays unreachable, every attempt adds one reconnection and one sleep, and the call keeps retrying |
| BrokerLink.LiveLinkPublishesAtOnce | src/main/java/com/plant42/log4j/appenders/RabbitMQAppender.java:551-553 | on a live connection and channel, a clean attempt publishes at once with no dial, no new channel and no sleep |
| RabbitMQ.RabbitMqAppender.constructor | src/main/java/com/plant42/log4j/appenders/RabbitMQAppender.java:46-67 | a new appender has the defaults, no handles, zero counters, no pool and no identifier |
| RabbitMQ.IsAsSevereAsThreshold | src/main/java/com/plant42/log4j/appenders/RabbitMQAppender.java:75 | log4j's threshold test: true with no threshold, else when the level's priority is at least the threshold's |
| RabbitMQ.ThresholdUpwardClosed | src/main/java/com/plant42/log4j/appenders/RabbitMQAppender.java:75 | a level that passes the threshold passes it with every level at least as severe |
| RabbitMQ.NewTask | src/main/java/com/plant42/log4j/appenders/RabbitMQAppender.java:524-530 | the task built at `append` time: the layout's rendering, the correlation id and the level's name |
| RabbitMQ.NewTaskIdentifiesEvent | src/main/java/com/plant42/log4j/appenders/RabbitMQAppender.java:524-530 | the task carries the layout's rendering and the level's name, and its correlation id splits back into the identifier and the capture time |
| RabbitMQ.ResolvedIdentifier | src/main/java/com/plant42/log4j/appenders/RabbitMQAppender.java:113-119 | a non-empty identifier is kept. An unset or empty one becomes the host name when the lookup succeeds, and stays as it was when the lookup fails |
| RabbitMQ.RabbitMqAppender.Append | src/main/java/com/plant42/log4j/appenders/RabbitMQAppender.java:74-85 | below the threshold nothing happens. With no pool, a NullPointerException escapes. A refusing pool (shut down, or its queue full) counts one dropped event and reports it. Otherwise the task built from the event joins the queue |
| RabbitMQ.RabbitMqAppender.TakeTask | src/main/java/com/plant42/log4j/appenders/RabbitMQAppender.java:108-110 | the worker takes the oldest queued task, first in first out |
| RabbitMQ.RabbitMqAppender.CreateConnection | src/main/java/com/plant42/log4j/appenders/RabbitMQAppender.java:454-461 | equals `Connect`: a live connection is kept and nothing is counted. Otherwise a reconnection is counted before the dial, so it counts even when the dial fails |
| RabbitMQ.RabbitMqAppender.CreateChannel | src/main/java/com/plant42/log4j/appenders/RabbitMQAppender.java:441-447 | equals `OpenChannel`: a channel is opened only when the current one is not live and the connection is. It returns the resulting channel, which may be null. A failure keeps the old reference, and a failure that took the connection down closes the connection |
| RabbitMQ.RabbitMqAppender.CreateExchange | src/main/java/com/plant42/log4j/appenders/RabbitMQAppender.java:414-420 | equals `DeclareExchangeOn`: the configured exchange, type and durability are declared only on a live channel. A refusal closes the channel, and a connection-level refusal closes the connection too |
| RabbitMQ.RabbitMqAppender.CreateQueue | src/main/java/com/plant42/log4j/appenders/RabbitMQAppender.java:427-434 | equals `DeclareQueueOn`: only on a live channel, the queue is declared (not durable, exclusive or auto-deleted) and then bound. A refusal of either closes the channel, and a connection-level refusal closes the connection too |
| RabbitMQ.RabbitMqAppender.ShutdownCompleted | src/main/java/com/plant42/log4j/appenders/RabbitMQAppender.java:504-512 | a connection reference clears only the connection and a channel reference only the channel. Any other reference changes nothing |
| RabbitMQ.RabbitMqAppender.ConnectionLost | src/main/java/com/plant42/log4j/appenders/RabbitMQAppender.java:442-455 | the broker closes the connection: equals `Disconnected`, so both the connection and its channel stop being open while their references stay. This is the state the `isOpen()` tests see |
| RabbitMQ.RabbitMqAppender.ChannelLost | src/main/java/com/plant42/log4j/appenders/RabbitMQAppender.java:442 | the broker closes the channel: it stops being open while its reference stays, and nothing else changes |
| RabbitMQ.RabbitMqAppender.CallFailed | src/main/java/com/plant42/log4j/appenders/RabbitMQAppender.java:414-447 | a failed call on the broker closes the channel, and with `disconnects` the connection and its channel (`Failed`) |
| RabbitMQ.RabbitMqAppender.TryPublish | src/main/java/com/plant42/log4j/appenders/RabbitMQAppender.java:550-558 | equals `Iteration`: connect, open the channel and publish. An IOException from `createChannel` or the publish goes round again, dropping both handles only when the connection went down with it; a normal return or another exception, including a null or closed channel, leaves |
| RabbitMQ.RabbitMqAppender.Call | src/main/java/com/plant42/log4j/appenders/RabbitMQAppender.java:538-561 | equals `Publishing` on the broker's answers. The message carries the exchange and routing key, and the properties appId = identifier, type = level, correlationId = id and contentType `text/json`. The loop's sleeps follow the backoff |
| RabbitMQ.RabbitMqAppender.StartPool | src/main/java/com/plant42/log4j/appenders/RabbitMQAppender.java:108-119 | a running pool whose empty queue has the configured capacity; the identifier is kept when non-empty and otherwise becomes the host name if one is known |
| RabbitMQ.RabbitMqAppender.Fail | src/main/java/com/plant42/log4j/appenders/RabbitMQAppender.java:125-154 | a stage's catch block: one report, the pool shut down, and its shutdown in the trace; nothing else changes |
| RabbitMQ.RabbitMqAppender.RunStages | src/main/java/com/plant42/log4j/appenders/RabbitMQAppender.java:121-155 | equals `Activation`: the four stages run one after another whatever each earlier one did. A failed stage closes the connection when the broker's answer says it went down |
| RabbitMQ.RabbitMqAppender.ActivateConnection | src/main/java/com/plant42/log4j/appenders/RabbitMQAppender.java:122-131 | equals `ConnectionStage`: a TLS failure or a failed dial is reported and shuts the pool down |
| RabbitMQ.RabbitMqAppender.ActivateChannel | src/main/java/com/plant42/log4j/appenders/RabbitMQAppender.java:134-139 | equals `ChannelStage`: a failed opening is reported and shuts the pool down, and it closes the connection when the answer says so |
| RabbitMQ.RabbitMqAppender.ActivateExchange | src/main/java/com/plant42/log4j/appenders/RabbitMQAppender.java:142-147 | equals `ExchangeStage`: a refusal is reported and shuts the pool down. It closes the channel, or the connection and its channel for a connection exception |
| RabbitMQ.RabbitMqAppender.ActivateQueue | src/main/java/com/plant42/log4j/appenders/RabbitMQAppender.java:150-155 | equals `QueueStage` |
| RabbitMQ.RabbitMqAppender.ActivateOptions | src/main/java/com/plant42/log4j/appenders/RabbitMQAppender.java:106-156 | it escapes before changing anything if and only if the queue limit is not positive. Otherwise it builds an empty pool with that capacity and keeps a non-empty identifier, else takes the host name. It then runs `Activation`, all four stages in order |
| RabbitMQ.RabbitMqAppender.CloseChannelHandle | src/main/java/com/plant42/log4j/appenders/RabbitMQAppender.java:476-482 | equals `CloseStep` on the channel |
| RabbitMQ.RabbitMqAppender.CloseConnectionHandle | src/main/java/com/plant42/log4j/appenders/RabbitMQAppender.java:484-490 | equals `CloseStep` on the connection. Closing a live connection successfully closes its channel too; a failed close, or a connection that was not live, leaves the channel as it was |
| RabbitMQ.RabbitMqAppender.Close | src/main/java/com/plant42/log4j/appenders/RabbitMQAppender.java:468-491 | it escapes without changing anything if and only if there is no pool. Otherwise it equals `Closing` |
| Scenarios.BoundedAdmission | src/main/java/com/plant42/log4j/appenders/RabbitMQAppender.java:74-85 | with a queue limit of 2 and a worker that takes nothing, two events are queued and the third is dropped, counted and reported once |
| Scenarios.ChannelClosureRecovery | src/main/java/com/plant42/log4j/appenders/RabbitMQAppender.java:504-512 | after the broker closes the channel and the callback clears it, the next task opens a new channel without dialling and publishes at once |
| Scenarios.ConnectionOutage | src/main/java/com/plant42/log4j/appenders/RabbitMQAppender.java:547-559 | after the broker closes the connection, and its channel with it, a failed dial sleeps 1 ms and the next dial succeeds. Two reconnections are counted, a new channel is opened, and the message is published once |
| Scenarios.ChannelOpeningOutage | src/main/java/com/plant42/log4j/appenders/RabbitMQAppender.java:441-461 | after the broker closes the channel, a channel opening that takes the connection down sleeps 1 ms. The next try dials again (one reconnection), opens a channel and publishes the message once |
| Scenarios.UnreachableBrokerAtStartup | src/main/java/com/plant42/log4j/appenders/RabbitMQAppender.java:122-131 | with no broker at start-up, the one report is `Failed to connect to: ` and the default details, and the next event is dropped |
| Scenarios.ExchangeRefusedAtStartup | src/main/java/com/plant42/log4j/appenders/RabbitMQAppender.java:141-155 | a refused exchange at start-up is the one report. The channel it closed is not open, no queue is declared, and the next event is dropped. The connection is still open after a channel-level refusal and closed after a connection-level one |
| Scenarios.ClosedAppenderDropsEvents | src/main/java/com/plant42/log4j/appenders/RabbitMQAppender.java:468-491 | closing a healthy appender shuts the pool down, closes the channel, then the connection, and the next event is dropped |
| Scenarios.NeverActivated | src/main/java/com/plant42/log4j/appenders/RabbitMQAppender.java:74-85 | without `activateOptions`, both `append` and `close` throw, and nothing is counted or reported |
| Scenarios.IdentifierFromHostName | src/main/java/com/plant42/log4j/appenders/RabbitMQAppender.java:113-119 | an unset identifier becomes the host name, and the task's correlation id splits back into that name and the capture time |

## Left out

- TLS setup (`setFactoryConfiguration`, `getTrustManager`): left out. The model keeps only whether it threw a GeneralSecurityException and that exception's message (`tlsFailure`). The `ConnectionFactory` settings are not modelled.
- Broker calls: these are library code that cannot be seen from here. The model keeps only their outcome.
- Threads: the worker thread, the `synchronized` blocks and the asynchronous `shutdownCompleted` callback are left out. The model runs the worker's steps (`TakeTask`, `Call`) and the callback only when a caller invokes them, one at a time.
- Pool internals: the worker's 1000 ms keep-alive and the task a busy worker holds are not modelled. The bounded queue is `pending`, and the pool refuses a task when `pending` is full.
- Re-activation: calling `activateOptions` again leaves the old pool orphaned in the source. The model replaces the pool state.
- RabbitMQ.RabbitMqAppender.Call: the source loops until a publish succeeds, with no bound. The model runs over a finite list of attempts and ends as `StillRetrying` when the list runs out.
- RabbitMQ.RabbitMqAppender.Call: an interrupt while sleeping, which would end `call` with InterruptedException, is not modelled.
- RabbitMQ.RabbitMqAppender.Call: each sleep is recorded as a duration. No time passes in the model.
- RabbitMQ.RabbitMqAppender.Close: the source waits up to 10 seconds for the worker to drain the queued tasks before the handles close, and ignores a timed-out wait. The model's `Close` does not run the worker: tasks still in `pending` are not published. A caller models the drain by running `TakeTask` and `Call` before `Close`.
- RabbitMQ.RabbitMqAppender.Close: an interrupted wait is the `interrupted` parameter.
- The clock and the host-name lookup are parameters: `System.currentTimeMillis` is `millis` and `InetAddress.getLocalHost` is `localHost`.
- RabbitMQ.RabbitMqAppender.Append: `droppedEvents` and `reconnections` are `long` in the source. The model uses unbounded naturals, so wrap-around past 2^63 is not modelled.
- RabbitMQ.RabbitMqAppender.ActivateOptions: only IOException is caught in the connection and channel stages. A runtime exception escaping from there is not modelled.
- Errors: `errorHandler` is the `reports` list of message and code. The exception attached to each report is dropped.
- Configuration: the appender's getters and setters are field reads and writes of `config`, so they have no members of their own.
- Output format: `layout.format` is the configuration's `layout` function, and the publish body is kept as text. `getBytes` and its character encoding are not modelled.
- Framework hooks: `requiresLayout`, `super.activateOptions` and the layouts' empty `activateOptions` do nothing that the model observes.
- Callback registration: `addShutdownListener` is taken as done. `shutdownCompleted` is invoked directly.
- RabbitMQ.RabbitMqAppender.ShutdownCompleted: the reference says only whether it is a connection or a channel, not which one. A late callback for an old connection, which in the source clears the current one, is the same call here.
- Asynchronous closes: inside a step, the broker closes a handle only through that step's answers: a connection lost right after `createConnection` (`Attempt.connectionLost`), a failed call (`IoFailure`) or a failed publish (`PublishIoError`). Between steps it is `ConnectionLost` or `ChannelLost`. A publish the broker refuses after `basicPublish` returned, which closes the channel later, is `ChannelLost` after the `Call`.
- JsonLayout.Format: the org.json serialiser is the `ser` parameter. Escaping and key order belong to it.
- JSON null values: the model puts strings and does not model `put(key, null)` removing the key.
- JSON message kinds: a message is either a value org.json accepts or a non-finite number, the one value `put` refuses. The model renders every accepted message as a JSON string of its text. org.json keeps a Number or Boolean message as itself, so it would serialise as `42`, not `"42"`.
- The stack trace printed by the swallowed `JSONException` is left out.
- JsonLayout.WriteBasic: `writeBasic` and `writeThrowable` are private in the parent layout, yet the Elasticsearch layout calls them. The model shares them between the two layouts.
- ElasticSearchLayout.ElasticSearchJsonLayout.Format: index and type are never null in the model, so the exception a null key raises is not modelled.
- ElasticSearchLayout: the getters `getIndex` and `getType` are the fields themselves.
