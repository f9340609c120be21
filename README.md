# lib-events: a Dafny model of the consumer-group event core

This project models the core of `lib-events`, a Go library for delivering
events over Redis streams with consumer groups. It covers four source files:

- **Event-name rule** (`validator.go`). An event name must be non-empty, use
  only `A–Z` and `_`, and must not end in `_EVENT`. The checks run in that
  order and each failure has its own error. `Validations` is the table that
  registers this rule as `event_name`.
- **Envelope** (`contract/header.go`). The `Header` record has struct tags
  that say which fields are required and which rule each field must pass.
  The tags are modelled as data (`Contract.HEADER_TAGS`). They are evaluated
  the way the validation library evaluates them: `required`, `omitempty`,
  then the named rule. `contract.Message` is used by the code but its file is
  not part of this model, so it is defined here as a header plus an opaque
  string body.
- **Handler registry** (`handler.go`). `BasicHandler` is a class. Its
  `handlers` field is `None` for a nil Go map. `Register` updates the map in
  place. `MsgReceived` is the dispatch state machine. It returns its
  observable effects in order:
  - `Invoked(body)`: the service handler is called.
  - `PointWritten`: `metrics.WritePoint` is called.
  - `Acked`: the `ack` callback is called.

  A service handler is modelled as the outcome it has on a body: it returns
  (a nil error or an error text) or it panics (the recovered value, as `%v`
  renders it).
- **Subscriber** (`subscriber.go`). `Subscriber` is a class that holds the
  subscription table. The model covers:
  - the group bootstrap (`subscribe`) and its `BUSYGROUP` policy;
  - the construction of the read arguments;
  - the decoding of an entry's header;
  - routing of a delivered batch;
  - `Listen` over a finite list of read replies.

  Go iterates over maps in no fixed order. The model picks the next key
  nondeterministically (`:|`), so the contracts hold for every order. Replies
  from Redis are inputs. Calls made to Redis and dispatches to handlers are
  recorded in order as a trace of `Call`s: `XGroupCreateMkStream`, `XAck`
  and `Dispatched`.

Calls into code outside the core are parameters:
- `json.Unmarshal` of a header is a `Parse` function.
- `json.Marshal` of a body is a `Marshal` function.
- The library's `uuid` and `date_time` rules are the fields of
  `Contract.Library`.
- The result of `XGroupCreateMkStream` for each stream is a `create`
  function.
- The result of each `XReadGroup` is a `ReadReply`.

## Behaviour of the code worth noting

The model follows the code in these places:

- **Ack timing.** The subscriber acknowledges an entry (`XAck`) before it
  dispatches it (subscriber.go:123-127). It also ignores the reply of
  `XAck`. `handler.go` does not acknowledge after a panic, but that rule has
  no effect end to end: `MsgReceived` is called without its `ack` callback
  (subscriber.go:127 against handler.go:61). The two components are
  therefore modelled separately, each with its own contract.
  `Subscription.RoutedShape` states the subscriber's side: every dispatch
  comes right after its acknowledgement. `Handling.AckedOnceUnlessPanicked`
  states the handler's side.
- **Undecodable headers.** An entry whose header is missing, is not a
  string, does not parse or fails validation is skipped without an
  acknowledgement (subscriber.go:108-112). It stays pending, even though a
  poison message is meant to be acknowledged and dropped.
- **Validation in MsgReceived never rejects, while the validator is not
  replaced.** The subscriber validates the
  header before it dispatches. So when every handler shares the subscriber's
  validator, the invalid-header branch of `MsgReceived` cannot be reached
  from the subscriber (`Subscription.DispatchedPassHandlerValidation`). The
  subscriber's invariant `Valid` gives exactly that precondition. The
  constructor establishes it, `Subscribe` keeps it, and
  `Subscription.Subscriber.ProcessBatch` ensures the conclusion for its own
  table.
- **Subscribe.** `subscriber.go:32` assigns a pointer-to-map to a map field.
  `subscriber.go:35` stores a `BasicHandler` where a `domain.EventHandler` is
  expected, but the method sets differ (domain/handler.go:11-15). The model
  follows the evident intent: a fresh handler with `channel = stream`, an
  empty non-nil map and the subscriber's validator.
- **Marshal error payload.** When the body cannot be marshalled, the payload
  is the literal text `Error: cannot marshal body: %e` followed by the error.
  The `%e` is not a format verb here; it is kept as written.

## Model

| member | source | states |
|---|---|---|
| `Validation.EventNameValidator` | validator.go:13-31 | It has no contract of its own. It runs the three checks in the source's order, and `Validation.EventNameValidatorOutcomes` characterises its result. |
| `Validation.EventNameValidatorOutcomes` | validator.go:13-31 | The name is accepted exactly when it is non-empty, all its characters are in `[A-Z_]` and it is not some string followed by `_EVENT`. The empty name gets the empty-name error. A non-empty name with a character outside the class gets the pattern error, whatever its suffix. The suffix error goes only to names that pass the pattern. |
| `Validation.MatchesNamePatternIff` | validator.go:21-22 | The matcher for `^[A-Z_]+$` accepts exactly the non-empty strings whose characters are all in `[A-Z_]`. |
| `Validation.MatchesNamePatternByMembership` | validator.go:21-22 | The same condition, stated by membership: every character that occurs in the name is in `[A-Z_]`. |
| `Validation.HasSuffixIff` | validator.go:27 | `HasSuffix(s, x)` holds exactly when `s` is some string followed by `x`. |
| `Validation.Validations` | validator.go:33-37 | The custom-rule table has exactly one key, `event_name`, which maps to the event-name rule. |
| `Validation.AcceptsUserCreated` | validator.go:14-30 | `USER_CREATED` is accepted. |
| `Validation.RejectsLowerCase` | validator.go:21-24 | `user_created` gets the pattern error. |
| `Validation.RejectsEventSuffix` | validator.go:27-29 | `ORDER_PLACED_EVENT`, written `ORDER_PLACED` followed by the suffix, gets the suffix error. |
| `Validation.PatternCheckedBeforeSuffix` | validator.go:21-29 | A name with lower-case letters that ends in `_EVENT` gets the pattern error, not the suffix error. |
| `Validation.ErrorTextsDistinct` | validator.go:16-29 | The three rejections have three different error texts. |
| `Contract.Rules` | contract/header.go:3-8 | The validator knows exactly the rules `date_time`, `uuid` and `event_name`. The first two are the library's. `event_name` passes exactly when the event-name rule returns no error. |
| `Contract.RulesRegisterValidations` | validator.go:33-37 | The `event_name` entry of the rule table passes exactly when the rule in the `Validations` table returns no error. |
| `Contract.RequiredRule` | contract/header.go:4-6 | A `required,<rule>` tag passes exactly on a non-empty string that the rule accepts. |
| `Contract.OptionalRule` | contract/header.go:7 | An `omitempty,<rule>` tag on a pointer passes when the pointer is nil, or when the rule accepts its target. |
| `Contract.ValidHeader` | contract/header.go:3-8 | It has no contract of its own. It is `validator.Struct(header)` returning no error: every field passes its tags. `Contract.ValidHeaderIff` characterises it. |
| `Contract.ValidHeaderIff` | contract/header.go:3-8 | A header is valid exactly when all four hold: `date` is non-empty and a `date_time`; `event` is non-empty and passes the event-name rule; `correlationId` is non-empty and a `uuid`; `userId` is absent or a `uuid`. |
| `Contract.ValidHeaderEventName` | contract/header.go:5 | The event of a valid header is non-empty, uses only `[A-Z_]` and does not end in `_EVENT`. |
| `Handling.CreateMetricsForRequest` | handler.go:25-43 | The metric has the handler's channel, the message's event and an empty message. Its payload is the marshalled body, or the marshalling error after the literal prefix. |
| `Handling.HandleResponse` | handler.go:45-53 | It writes one received-events point. Its message is `Error: ` + the error when there is one, and is unchanged otherwise. The other fields are unchanged. |
| `Handling.HandlePanic` | handler.go:55-59 | It writes one received-events point with message `Panic ` + the recovered value. The other fields are unchanged. |
| `Handling.OutcomePointInjective` | handler.go:45-59 | Starting from an empty message, the point written determines the handler's outcome: two outcomes that write the same point are equal. |
| `Handling.UnhandledEventAcked` | handler.go:62-72 | With a nil map, or no entry for the event, the only effect is one ack. No handler runs, whether or not the header is valid. |
| `Handling.InvalidHeaderAcked` | handler.go:74-82 | A registered event with an invalid header is acked once. No handler runs and no point is written. |
| `Handling.ReturnedHandlerAckedAfterPoint` | handler.go:84-91 | When the handler is registered, the header is valid and the handler returns, the effects are exactly three: one invocation with the body, one received-events point, then one ack as the last effect. |
| `Handling.PanickedHandlerNotAcked` | handler.go:84-91 | When the handler panics, it runs once and one point is written with `Panic <v>`. There is no ack. |
| `Handling.AckedOnceUnlessPanicked` | handler.go:61-92 | For every message: ack happens exactly once unless the handler panicked, in which case it never happens. An ack is always the last effect. At most one point is written. The handler runs exactly when the event is registered and the header is valid. |
| `Handling.BasicHandler.constructor` | handler.go:19-23 | The record holds the given channel, map and validator. |
| `Handling.BasicHandler.Register` | handler.go:94-101 | On a non-nil map, the entry for the event becomes the new handler (the last write wins) and every other key keeps its entry. On a nil map nothing changes. |
| `Handling.BasicHandler.MsgReceived` | handler.go:61-92 | Its effects are those of the dispatch specification `DispatchEffects`. It has no `modifies` clause, so the handler map is left unchanged. |
| `Subscription.Subscriber.constructor` | subscriber.go:133-141 | The subscription table starts empty. The host, the service and the validator are the given ones. |
| `Subscription.Subscriber.Subscribe` | subscriber.go:29-38 | The stream's entry becomes a fresh handler with `channel = stream`, an empty map and the subscriber's validator. It replaces any earlier entry. Other streams are unchanged. |
| `Subscription.Subscriber.SubscribeGroups` | subscriber.go:40-48 | It attempts the service's group at `0` on distinct subscribed streams. Every attempt before the last succeeded or hit `BUSYGROUP`. On an error it stops and returns the wrapped error of the last stream. It returns nil, having attempted every stream, exactly when no stream's creation error is fatal. |
| `Subscription.ContainsAt` | subscriber.go:43 | Any occurrence of the marker, after any prefix, is found. |
| `Subscription.ContainsIff` | subscriber.go:43 | `Contains(s, x)` holds exactly when `s` is some text, then `x`, then more text. |
| `Subscription.IsFatalGroupError` | subscriber.go:43 | It has no contract of its own. It is the bootstrap's policy: a creation error is fatal unless its text contains `BUSYGROUP`. `Subscription.ContainsIff`, `Subscription.BusyGroupTolerated` and `Subscription.OtherGroupErrorFatal` characterise it. |
| `Subscription.BusyGroupTolerated` | subscriber.go:43 | The "group already exists" reply is not fatal. |
| `Subscription.OtherGroupErrorFatal` | subscriber.go:43-44 | An error without `BUSYGROUP` is fatal. Success is not an error. |
| `Subscription.DecodeHeader` | subscriber.go:50-66 | It fails for three reasons: the `header` field is missing or not a string, the field does not parse, or the parsed header is invalid. A header it returns is the field's parse and is valid. |
| `Subscription.DecodeErrorTextsDistinct` | subscriber.go:50-63 | The three decoding failures return three different error texts. |
| `Subscription.BodyOf` | subscriber.go:117 | The body is the `message` field when that is a string, and `""` otherwise. |
| `Subscription.Subscriber.StreamArgs` | subscriber.go:75-84 | It uses the service's group and this host as consumer. The stream list has length 2·\|subscriptions\| and pairs every subscribed stream, in some order, with `>`. |
| `Subscription.InterleaveAt` | subscriber.go:76-78 | Position 2i of the interleaving is the i-th stream. Position 2i+1 is `>`. |
| `Subscription.StreamListShape` | subscriber.go:75-78 | A stream list has two entries per subscription. Each even entry is a subscribed stream and is followed by `>`. Every subscribed stream appears once at an even entry. |
| `Subscription.Subscriber.ProcessBatch` | subscriber.go:94-129 | The calls made for a batch are those of `Routed`, the batch routing specification. When the subscriber's invariant `Valid` holds (every handler shares its validator, as `Subscribe` ensures), no dispatched message takes the invalid-header branch of `MsgReceived`. |
| `Subscription.Subscriber.ProcessStream` | subscriber.go:100-128 | The calls made for one subscribed stream's entries are those of `RouteMessages`, the per-stream routing specification. |
| `Subscription.RouteMessagesAppend` | subscriber.go:100-128 | Routing the entries of a stream keeps their order: the calls for two parts in sequence are the calls for the first part, then for the second. |
| `Subscription.RoutedAppend` | subscriber.go:94-129 | Routing a batch keeps its order: the calls for two parts in sequence are the calls for the first part, then for the second. |
| `Subscription.SingleEntry` | subscriber.go:96-127 | An entry on a stream with no subscription, or a nil one, is neither acked nor dispatched. So is an entry whose header does not decode. Any other entry is XAcked with (stream, service, id) and then dispatched to the stream's handler with its decoded header and body. |
| `Subscription.RoutedShape` | subscriber.go:94-128 | In every routed batch, each dispatch comes immediately after the XAck of the same entry, and each XAck comes immediately before its dispatch. Only subscribed streams appear, and every dispatched header is valid. |
| `Subscription.DispatchedPassHandlerValidation` | subscriber.go:108-127 | If the handlers share the subscriber's validator, no dispatched message takes the invalid-header branch of `MsgReceived`. |
| `Subscription.Subscriber.ListenIteration` | subscriber.go:74-129 | It builds the read arguments. `redis.Nil` goes on with no calls. Any other read error returns `XReadGroup error: ` + the error. A batch is routed. |
| `Subscription.ReadLoopStopsAtFirstError` | subscriber.go:86-92 | The loop returns the error of the first failed read, after exactly that many reads, and looks at no later reply. |
| `Subscription.Subscriber.RunReadLoop` | subscriber.go:74-131 | Over a finite list of replies, its error, number of reads and calls are those of `ReadLoop`. Every read uses this subscriber's arguments. |
| `Subscription.Subscriber.Listen` | subscriber.go:68-131 | The trace starts with the bootstrap: group creations at `0` on distinct subscribed streams, every one before the last non-fatal. When some stream's creation error is fatal, `Listen` returns `subscribe`'s error unchanged: the wrapped error of the first fatal stream it reached, which is the last one attempted. No read is issued and the trace is the bootstrap alone. Otherwise every stream was attempted, and the error, the number of reads and the calls after the bootstrap are those of the read loop. |

## Left out

- The Redis transport (`XGroupCreateMkStream`, `XReadGroup`, `XAck`) is not modelled. Its replies are inputs, its calls are recorded in a trace, and the remote pending set is not modelled.
- Pending-entry recovery and claim are not in the code, so they are not in the model.
- `publisher.go` is not part of this model. It formats a header from the clock and the context, marshals the message, publishes it and writes a metric.
- `decode.go` is not part of this model. It is a reflection-driven JSON round trip followed by library validation.
- JSON unmarshalling and marshalling are the abstract `Parse` and `Marshal` functions.
- The library's `uuid` and `date_time` rules are uninterpreted predicates, and the regular-expression engine is replaced by a matcher for the one pattern used. A tag that names an unregistered rule fails in the model, but panics in the library; the header uses none.
- Logging, `metrics.SetTag`, the internals of `WritePoint`, `debug.Stack` and context logger propagation are not modelled. The return value of `WritePoint` is ignored by the code and by the model.
- `Listen`'s infinite loop, blocking reads and context cancellation are not modelled. `Listen` is modelled over a finite list of read replies; when the list runs out without an error, the loop is still running.
- The reply of the subscriber's `XAck` is only logged by the code, so it is not an input of the model. Dispatch happens whatever it is.
- `Subscription.Subscriber.Valid` assumes that the exported `Validator` field (subscriber.go:25) is not reassigned after construction, which is why the model makes it a `const`. `Subscribe` copies the validator into each handler (subscriber.go:33). If a caller replaces `Validator` later, `DecodeHeader` and `MsgReceived` validate with different validators, and the invalid-header branch of `MsgReceived` becomes reachable from the subscriber.
- `Handling.AckedOnceUnlessPanicked` and `Handling.DispatchEffects` assume that the `ack` callback and `metrics.WritePoint` return normally. In the code the deferred `recover` of handler.go:84-88 also covers `handleResponse` and `ack()`. If either panics after the response point, a second point `Panic <v>` is written; the model does not cover that case.
- `Handling.HandlerOutcome` does not model `panic(nil)` under Go versions before 1.21. There, `recover()` returns nil, so no panic point is written and there is still no ack.
- Registering a nil handler function is not modelled. Calling it would panic, and dispatch would follow the panic path.
- Strings are sequences of characters, not of bytes. For the ASCII checks of the event-name rule the two readings agree.
- `domain/log.go`, `domain/metrics.go`, `metrics/message_received.go`, `domain/error.go` and `domain/handler.go` hold only constants and types. They are reused as data shapes (`RECEIVED_EVENTS_POINT`, `MessageReceivedMetric`).
