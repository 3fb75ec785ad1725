# Notification service: event dispatch, in Dafny

This project models the core of an e-commerce notification worker written in
Go. The worker consumes order and payment events from Kafka, routes each event
by topic, renders an email from a format template, sends it through SMTP,
records the outcome as a notification document in MongoDB, and commits the
message offset. It also models the configuration rules the worker starts with:
environment lookups with fallbacks, the broker override, and the bounded retry
of the remote configuration fetch.

The modules follow the Go packages:

- `Wrappers`: `Option` and `Result`.
- `Numerals`: decimal digit values and powers, used by the JSON number range rule and by `%d` scanning.
- `Events` (the payload structs of `internal/processor/handler.go`): `json.Unmarshal` into
  `OrderCreatedEvent` and `PaymentEvent` over an abstract parsed JSON value. It keeps Go's
  lenient zero values, its type-error messages, and the float64 range check on the amount.
- `Models` (`models/notification.go`): the `Notification` record, the `SENT`/`FAILED` and
  `EMAIL`/`SMS` enums, and which BSON keys are omitted when empty.
- `Templates` (`internal/notification/templates.go`): the eight format constants and
  `fmt.Sprintf` restricted to `%s` verbs, including `%!s(MISSING)` and `%!(EXTRA ...)`.
- `Senders` (`internal/notification/email.go`, `sms.go`): the flag-gated email sender over a
  transport that records each `DialAndSend`, and the mock SMS sender.
- `Store` (`repository/notification_repository.go`): `Create`. It stamps the caller's record in
  place from two reads of a monotone clock, then calls `InsertOne` on an append-only collection.
- `Processor` (`internal/processor/handler.go`): the pure specification `Step`/`Run` over an
  observable `World`, and the class `NotificationProcessor`, whose methods are proved equal
  to it.
- `Consumer` (`internal/event/consumer.go`): the subscription list, a `Reader` driven by a finite
  script of fetch outcomes, and `Start`, proved against the trace function `Trace` and against
  `Processor.Run`.
- `Config` (`config/config.go` and the database-name rule of `internal/database/mongo.go`):
  `getEnv`, `getEnvInt` with `fmt.Sscanf`'s `%d`, local defaults, the broker override, and
  `fetchRemoteConfig`'s retry loop.

Foreign calls are oracles held in `const` function fields:

- the transport outcome, indexed by call number and message;
- the insert outcome, indexed by attempt number and record;
- the clock increment, indexed by read number;
- the JSON parser;
- the commit outcome;
- the config service's answers, the gRPC client construction and the decoding of the remote
  configuration document.

Each effectful method is specified by a pure function of these oracles.

## Model

| member | source | states |
|---|---|---|
| Templates.SubjectsEndWithOrderId | internal/notification/templates.go:4-13 | each of the four subject templates has only `%s` verbs, exactly one; it renders as a fixed prefix ending in `Order #` followed by the id |
| Templates.OrderCreatedBodyRenders | internal/notification/templates.go:5 | the order-created body has exactly one `%s`; it renders as its head, the order id, then its tail |
| Templates.OrderCancelledBodyRenders | internal/notification/templates.go:11 | the order-cancelled body has exactly one `%s`, filled with the order id |
| Templates.PaymentFailedBodyRenders | internal/notification/templates.go:14 | the payment-failed body has exactly one `%s`, filled with the order id |
| Templates.PaymentSuccessBodyRenders | internal/notification/templates.go:8 | the payment-success body has exactly two `%s`: the first is filled with the order id, the second with the amount |
| Templates.Fill | internal/notification/templates.go:3-15 | a `%`-free prefix, one `%s` and a `%`-free suffix consume exactly one operand and render as prefix, operand, suffix |
| Templates.LeftoverIsUnused | internal/notification/templates.go:3-15 | the verbs consume operands left to right, so the operands left over are exactly those past the number of verbs |
| Templates.Sprintf | internal/processor/handler.go:79-80 | fmt.Sprintf with `%s` verbs: with no more operands than verbs it is the rendered format; with more, the rendered format followed by `%!(EXTRA string=...)` listing the surplus operands |
| Templates.TwoVerbs | internal/notification/templates.go:8 | two `%s` among `%`-free pieces, given two operands, render the operands in order with no trailing list |
| Events.StringField | internal/processor/handler.go:30-39 | a string field is "" when its key is absent or null, is the text when it is a JSON string, and is an error exactly when it has another kind |
| Events.NumberField | internal/processor/handler.go:32 | the float64 amount is "0" when absent or null and the literal when it is a number within the float64 range; a number beyond that range is an error naming the literal (`cannot unmarshal number 1e400 ...`); any other kind is an error |
| Events.OrderCreatedRoundTrip | internal/processor/handler.go:29-34 | decoding the JSON object a producer writes for an OrderCreatedEvent gives back the event |
| Events.PaymentRoundTrip | internal/processor/handler.go:36-40 | decoding the JSON object a producer writes for a PaymentEvent gives back the event |
| Events.OrderCreatedLenient | internal/processor/handler.go:67-70 | an object decodes exactly when none of its four tagged members has the wrong kind and the amount, when a number, is within the float64 range; absent `user_email` and `order_id` give empty strings |
| Events.OverflowingAmountIsRejected | internal/processor/handler.go:32 | when the fields before it decode, an amount beyond the float64 range makes the decode fail with the type error naming the literal |
| Events.LargeAmountOverflows | internal/processor/handler.go:32 | `1e400` is beyond the float64 range |
| Events.SmallAmountFits | internal/processor/handler.go:32 | `1e-400` is not: a magnitude too small for float64 rounds to zero without error |
| Events.Float64LimitIsMidpoint | internal/processor/handler.go:32 | the overflow threshold is 2^1024 - 2^970, the midpoint between the largest float64 and 2^1024, a 309-digit number |
| Events.OrderCreatedFromJson | internal/processor/handler.go:29-34 | null decodes to the zero event; a non-object is a type error naming processor.OrderCreatedEvent; a decoded object's string fields carry the member's text, or "" when absent or null, and the amount carries the number's literal |
| Events.PaymentFromJson | internal/processor/handler.go:36-40 | the same for PaymentEvent and its three string fields |
| Events.DecodeOrderCreated | internal/processor/handler.go:67-68 | a syntax error is the decode error; otherwise the parsed document is unmarshalled into an OrderCreatedEvent |
| Events.DecodePayment | internal/processor/handler.go:106-107 | a syntax error is the decode error; otherwise the parsed document is unmarshalled into a PaymentEvent |
| Events.PaymentLenient | internal/processor/handler.go:106-109 | an object decodes into a PaymentEvent exactly when none of its three tagged members has the wrong kind |
| Models.Status.Text | models/notification.go:13-14 | a status prints as `SENT` exactly when it is Sent, and as `FAILED` exactly when it is Failed |
| Models.Channel.Text | models/notification.go:16-17 | a channel prints as `EMAIL` exactly when it is Email, and as `SMS` exactly when it is Sms |
| Models.StoredKeys | models/notification.go:20-31 | the stored document has `_id` iff an id is set, `user_id` iff the user id is non-empty, and `error` iff the error text is non-empty; every other field is always present |
| Senders.MailMessage.constructor | internal/notification/email.go:29 | a new message has no headers and no body parts |
| Senders.MailMessage.SetHeader | internal/notification/email.go:30-32 | sets the one header to a single value and leaves the body alone |
| Senders.MailMessage.SetBody | internal/notification/email.go:33 | the body becomes one part of the given content type and the headers are unchanged |
| Senders.Transport.DialAndSend | internal/notification/email.go:35 | appends the message to the transport's log and returns the outcome for that call |
| Senders.EmailEffect | internal/notification/email.go:23-40 | disabled or absent `enable_email`: no call and nil; enabled: exactly one message with From, To, Subject and an HTML body; nil iff the transport succeeded; otherwise `failed to send email: ` followed by the cause |
| Senders.EmailSender.Send | internal/notification/email.go:23-40 | builds the message header by header and makes at most one transport call, with exactly the log and result EmailEffect gives |
| Senders.SMSSender.Send | internal/notification/sms.go:15-24 | returns nil on every path, changes no state, and records a mock send iff `enable_sms` is present and true |
| Store.Clock.Now | repository/notification_repository.go:23-24 | a read advances the clock by a non-negative amount and returns the new time |
| Store.Notification.constructor | internal/processor/handler.go:93-101 | the composite literal leaves the id unset and both timestamps at the zero time |
| Store.Collection.InsertOne | repository/notification_repository.go:25 | counts the attempt; stores the record with a fresh id exactly when the insert succeeds; returns the insert's outcome |
| Store.CreateEffect | repository/notification_repository.go:22-27 | only the two timestamps of the record change, from two clock reads, with updatedAt >= createdAt >= the clock's prior time; the result is the insert's error; exactly one insert attempt; the record is appended iff the insert succeeded |
| Store.Repository.Create | repository/notification_repository.go:22-27 | stamps the caller's record in place even when the insert then fails, and has exactly the effect CreateEffect gives |
| Store.CreateKeepsConsistent | repository/notification_repository.go:11-14 | Create keeps ids increasing and timestamps ordered, and never updates or removes a stored document |
| Store.StampsMayDiffer | repository/notification_repository.go:23-24 | with a clock that advances on each read, updatedAt is later than createdAt |
| Processor.BranchOf | internal/processor/handler.go:48-61 | the switch picks the order-created branch iff the topic is `order.created`, the payment-success branch iff it is `payment.success`, and the no-op branch iff it is `order.cancelled` or `payment.failed` |
| Processor.OrderCreatedStep | internal/processor/handler.go:66-103 | a decode error changes nothing and returns it behind `invalid payload: `; a decoded event appends one email call followed by one Create call, makes one insert attempt, and only extends the transport log and the store |
| Processor.PaymentSuccessStep | internal/processor/handler.go:105-133 | the same shape of effects for a payment-success event |
| Processor.Step | internal/processor/handler.go:42-64 | any other topic returns nil with the world unchanged; only a decoded event on a routed topic changes the world, and then only by extending the calls, the transport log and the store |
| Processor.Run | internal/event/consumer.go:79-89 | processing events one after another only extends the calls, the transport log and the store |
| Processor.IdleRun | internal/processor/handler.go:42-64 | a run in which no event is dispatched leaves the world unchanged |
| Processor.RecordsReflectDelivery | internal/processor/handler.go:84-131 | a record is SENT with empty error iff the send returned nil, otherwise FAILED with the send's text; it has the topic as event type, channel EMAIL, reference the order id (never the payment id), and a user id only for order.created |
| Processor.OtherTopicsAreIgnored | internal/processor/handler.go:48-63 | any topic other than order.created and payment.success returns nil, sends nothing and records nothing |
| Processor.DecodeErrorsChangeNothing | internal/processor/handler.go:66-109 | a payload that does not decode on a handled topic changes nothing and returns an error starting `invalid payload: ` |
| Processor.OrderCreatedEffects | internal/processor/handler.go:66-103 | a decoded order-created event leads to exactly one email, to the event's address or to customer@example.com when it is empty, then exactly one Create of the matching record; the result is Create's result |
| Processor.PaymentSuccessEffects | internal/processor/handler.go:105-133 | a decoded payment event leads to exactly one email, always to customer@example.com, with the order id and `PAID` in the body, then exactly one Create; the result is Create's result |
| Processor.StepKeepsAudited | internal/processor/handler.go:42-64 | one event keeps every stored record an EMAIL record for a handled topic, with empty error iff SENT; the store, the transport log and the call list only grow |
| Processor.RunKeepsAudited | internal/processor/handler.go:42-133 | over any sequence of events, the store stays consistent and append-only, no record has channel SMS, and the SMS sender is never called |
| Processor.RunCounts | internal/processor/handler.go:42-133 | over any sequence of events: one Create and one email call per decoded handled event, and one transport call per such event only when email is enabled |
| Processor.NotificationProcessor.constructor | internal/processor/handler.go:20-26 | the processor holds the given repository and senders, and no call has been made yet |
| Processor.NotificationProcessor.ProcessEvent | internal/processor/handler.go:42-64 | the calls, transport log, store and result are exactly what Step gives |
| Processor.NotificationProcessor.HandleOrderCreated | internal/processor/handler.go:66-103 | decode, recipient fallback, render, send, then Create, with exactly the effect and result OrderCreatedStep gives |
| Processor.NotificationProcessor.HandlePaymentSuccess | internal/processor/handler.go:105-133 | decode, render with `PAID`, send to the fallback address, then Create, with exactly the effect and result PaymentSuccessStep gives |
| Consumer.SubscriptionTopics | internal/event/consumer.go:35-48 | the list holds exactly the values of the topic map, one per entry, in some order; for an empty map it is exactly the four default names |
| Consumer.Reader.constructor | internal/event/consumer.go:50-57 | the reader holds its configuration and script, and has fetched, committed and closed nothing |
| Consumer.Reader.FetchMessage | internal/event/consumer.go:63 | returns the next outcome of the script and advances past it |
| Consumer.Reader.CommitMessages | internal/event/consumer.go:87 | records the commit and returns its outcome |
| Consumer.Reader.Close | internal/event/consumer.go:92 | counts one close |
| Consumer.Consumer.constructor | internal/event/consumer.go:17-19 | the consumer holds the given processor |
| Consumer.Consumer.Start | internal/event/consumer.go:21-93 | no broker: no reader, no fetch, nothing changed; otherwise the reader is configured with the brokers, the subscription list, the group and the fixed fetch limits, and the trace, commits, close count and world are those of the loop |
| Consumer.Consumer.Poll | internal/event/consumer.go:61-92 | the actions equal Trace(script); the commits are the fetched messages in order; the reader is closed once iff a fetch failed after cancellation; the world is Run over the fetched (topic, payload) pairs |
| Consumer.Consumer.TakeTurn | internal/event/consumer.go:63-89 | one fetch; an error without cancellation only backs off; a message is processed and then committed; an error after cancellation stops the loop |
| Consumer.Consumer.Handle | internal/event/consumer.go:79-89 | ProcessEvent with the physical topic, then CommitMessages, whatever either returns |
| Consumer.Trace | internal/event/consumer.go:61-92 | every turn of the loop starts with a fetch, and a non-empty script gives at least a fetch and one more action |
| Consumer.TraceEndsInClose | internal/event/consumer.go:65-66 | the trace ends with Close exactly when a fetch failed after cancellation |
| Consumer.EachFetchedMessageProcessedAndCommittedOnce | internal/event/consumer.go:61-92 | each fetched message is processed once and committed once, in fetch order; Close happens exactly once iff some fetch failed after cancellation, and never otherwise |
| Consumer.TraceOrdering | internal/event/consumer.go:61-90 | a Process action is immediately followed by the Commit of the same message; a Commit is immediately followed by the next Fetch; Close is the last action |
| Consumer.RemappedTopicsAreNeverRouted | internal/event/consumer.go:79 | when the topic map renames both routed topics, every message fetched from its physical topics leaves the world unchanged: no email and no record |
| Config.GetEnv | config/config.go:138-143 | the variable's value whenever it is set, even when empty; the fallback only when it is unset |
| Config.ScanInt | config/config.go:148 | a scanned value is within the int64 range; a value starting with a newline, and a value that is empty or all white space, do not scan |
| Config.ScanToken | config/config.go:148 | a token that scans starts with a sign or a digit and is within the int64 range; it is non-positive after `-` and non-negative otherwise |
| Config.GetEnvInt | config/config.go:145-152 | the fallback only when the variable is unset; a set value gives what Sscanf `%d` reads, or 0 when that fails |
| Config.ScanIntRoundTrip | config/config.go:148 | Sscanf `%d` reads back every int64 written in decimal, whatever non-digit text follows it |
| Config.UnparsablePortIsZero | config/config.go:52 | SMTP_PORT set to `abc`, to a newline before digits, or to the empty string gives port 0, not 587 |
| Config.PortIsScanned | config/config.go:52 | SMTP_PORT set to a decimal port, with or without trailing text, gives that port |
| Config.LocalConfig | config/config.go:48-61 | an unset variable gives smtp.gmail.com, 587, empty user and password, no-reply@ecommerce.com, notification-service-group and 8086; a set variable gives its own value |
| Config.Brokers | config/config.go:124-130 | a non-empty KAFKA_BROKERS becomes a one-element list holding the raw string; otherwise the remote list is used |
| Config.Apply | config/config.go:120-133 | the Mongo URI and database, the topics and the feature flags are copied verbatim; the brokers follow the override; the local settings stay |
| Config.FirstSuccess | config/config.go:85-98 | the first attempt index whose call succeeds, with every earlier attempt failed |
| Config.Attempts | config/config.go:85-98 | between 1 and 10 calls; every call before the last failed; fewer than 10 only when the last one succeeded |
| Config.Fetch | config/config.go:73-136 | a client-construction failure is fatal with `Failed to create gRPC client: `; success needs a successful last attempt |
| Config.RetriesAreBounded | config/config.go:85-102 | when all 10 attempts fail, the fetch is fatal with the last error; when one succeeds, the calls stop at or before it |
| Config.DatabaseName | internal/database/mongo.go:34-37 | the configured database name, or ecommerce_notifications when it is empty |
| Config.ConfigClient.GetConfig | config/config.go:87-89 | records the request and returns that call's answer |
| Config.Loader.FetchRemoteConfig | config/config.go:73-136 | makes exactly Attempts calls for `notification-service`, or none when the client cannot be built; on success the configuration becomes Apply of the remote document; otherwise it returns the fatal message Fetch gives |
| Config.Loader.LoadConfig | config/config.go:42-71 | the local settings first, then the fetch from CONFIG_SERVICE_URL (default 127.0.0.1:50051), with the outcome Fetch gives |

## Left out

- JSON parsing itself is an oracle from bytes to a JSON value. encoding/json's case-insensitive key matching is not modelled: keys match exactly.
- When several members have the wrong kind, the model reports the first in struct order. Go reports the first in document order. Only the message text differs.
- The float64 `Amount` is carried as its literal text. Its only effect is the range check: a number beyond the float64 range fails the decode. The value itself never drives any logic.
- The remote configuration document's JSON decoding is an oracle, like the event parser.
- Templates.Sprintf: covers only `%s` verbs with string operands, the only case the templates and handlers use (it requires OnlyStringVerbs).
- SMTP dialing, TLS, gomail's header encoding and MIME layout are not modelled. The same goes for the dialer's host, port, user and password from NewEmailSender.
- The Mongo driver is an oracle. A generated ObjectID is modelled as the attempt number, which is unique and increasing.
- The kafka-go reader is an oracle. Group balancing and the fetch limits are kept only as recorded configuration values.
- Consumer.Consumer.Start: the fetch loop is unbounded in Go. The model runs over a finite script of fetch outcomes. When the script ends without a cancelled failure, Start returns with the reader still open: that is the run observed so far.
- Consumer.Reader.FetchMessage: requires an outcome left in the script. This stands in for a fetch that blocks.
- Commit outcomes: the commit after cancellation uses the cancelled context and may fail. Commits are an oracle whose results the loop ignores. The postconditions of Start do not depend on that oracle.
- Logging, the 1-second fetch backoff and the 2-second retry sleep are not modelled. The fetch backoff appears only as the `Backoff` trace action. The per-attempt 5-second timeout and the SMTP password warning are also left out.
- The process-wide `AppConfig` is not modelled as a global. The senders take `Settings`, and Start takes the brokers, topic map and group id as parameters.
- The `context.Context` argument is not modelled as a value. ProcessEvent forwards it to the handlers, and Create forwards it to `InsertOne` (repository/notification_repository.go:25). Its effect, including an insert that fails because the context was cancelled, is part of the insert oracle. A message fetched after cancellation is still processed with the cancelled context (internal/event/consumer.go:79), so its insert may fail for that reason.
- Go's map iteration order is unspecified. Consumer.SubscriptionTopics therefore states the list only up to order.
- The `.env` loading by godotenv is not modelled: the environment map is given.
- cmd/worker/main.go (goroutine and signal lifecycle), cmd/api/main.go (health endpoint), pkg/utils/utils.go (logger) and the Mongo connection plumbing are not part of this model.
- createdAt and updatedAt come from two separate clock reads (repository/notification_repository.go:23-24), so they may differ: Store.StampsMayDiffer.
- The loop hands the fetched physical topic to the router unchanged (internal/event/consumer.go:79), so a topic the topic map renames is never routed: Consumer.RemappedTopicsAreNeverRouted.
