/**
  The per-channel handler registry (handler.go). A `BasicHandler` maps event
  names to service handlers; `MsgReceived` is the dispatch state machine that
  decides, for one message, whether the service handler runs, which metric
  point is written and whether the `ack` callback is called. Calls of `ack`,
  writes of metric points and invocations of the service handler are recorded,
  in order, as a trace of effects.
*/
module Handling {
  import opened Wrappers
  import opened Contract

  /** `domain.ReceivedEventsMetricPointName`. */
  const RECEIVED_EVENTS_POINT: string := "received_events"

  /** The literal prefix of the payload written when the body cannot be marshalled (`%e` is not formatted). */
  const MARSHAL_ERROR_PREFIX: string := "Error: cannot marshal body: %e"

  const ERROR_PREFIX: string := "Error: "
  const PANIC_PREFIX: string := "Panic "

  /** `domain.MessageReceivedMetric`. */
  datatype MessageReceivedMetric = MessageReceivedMetric(channel: string, event: string, payload: string, message: string)

  /**
    How one call of a service handler ends: it returns (a nil error, or the
    text of its error), or it panics (the recovered value, rendered as `%v`
    renders it).
  */
  datatype HandlerOutcome = Returned(err: Option<string>) | Panicked(recovered: string)

  /** `domain.EventHandlerFunc`: the service handler, as the outcome it has on a body. */
  type EventHandlerFunc = string -> HandlerOutcome

  /** `json.Marshal` of a body: its encoding, or the text of the marshalling error. */
  type Marshal = string -> Result<string, string>

  /** What `MsgReceived` does that can be observed, in order. */
  datatype Effect =
    | Invoked(body: string)                                    // the service handler is called with this body
    | PointWritten(name: string, metric: MessageReceivedMetric) // `metrics.WritePoint`
    | Acked                                                     // the `ack` callback is called

  /** The number of times `e` occurs in `t`. */
  function Count(t: seq<Effect>, e: Effect): nat
  {
    if t == [] then 0 else (if t[0] == e then 1 else 0) + Count(t[1..], e)
  }

  /** The number of metric points written in `t`. */
  function PointCount(t: seq<Effect>): nat
  {
    if t == [] then 0 else (if t[0].PointWritten? then 1 else 0) + PointCount(t[1..])
  }

  /** The number of service-handler invocations in `t`. */
  function InvocationCount(t: seq<Effect>): nat
  {
    if t == [] then 0 else (if t[0].Invoked? then 1 else 0) + InvocationCount(t[1..])
  }

  /**
    `CreateMetricsForRequest`: the metric of a request names the handler's
    channel and the message's event, renders the body as payload (or the
    marshalling error), and starts with an empty message.
  */
  function CreateMetricsForRequest(channel: string, marshal: Marshal, event: Message): (m: MessageReceivedMetric)
    ensures m.channel == channel && m.event == event.header.event && m.message == ""
    ensures marshal(event.body).Ok? ==> m.payload == marshal(event.body).value
    ensures marshal(event.body).Err? ==> m.payload == MARSHAL_ERROR_PREFIX + marshal(event.body).error
  {
    var payload := match marshal(event.body)
      case Ok(data) => data
      case Err(e) => MARSHAL_ERROR_PREFIX + e;
    MessageReceivedMetric(channel, event.header.event, payload, "")
  }

  /** `handleResponse`: the received-events point written after the handler returns. */
  function HandleResponse(err: Option<string>, metric: MessageReceivedMetric): (p: Effect)
    ensures p.PointWritten? && p.name == RECEIVED_EVENTS_POINT
    ensures p.metric == metric.(message := if err.Some? then ERROR_PREFIX + err.value else metric.message)
  {
    var m := if err.Some? then metric.(message := ERROR_PREFIX + err.value) else metric;
    PointWritten(RECEIVED_EVENTS_POINT, m)
  }

  /** `handlePanic`: the received-events point written by the deferred recovery. */
  function HandlePanic(metric: MessageReceivedMetric, recovered: string): (p: Effect)
    ensures p.PointWritten? && p.name == RECEIVED_EVENTS_POINT
    ensures p.metric == metric.(message := PANIC_PREFIX + recovered)
  {
    PointWritten(RECEIVED_EVENTS_POINT, metric.(message := PANIC_PREFIX + recovered))
  }

  /** The point written for an outcome of the service handler. */
  function OutcomePoint(o: HandlerOutcome, metric: MessageReceivedMetric): Effect
  {
    match o
    case Returned(err) => HandleResponse(err, metric)
    case Panicked(v) => HandlePanic(metric, v)
  }

  /**
    The written point tells the outcome apart: starting from a metric with an
    empty message, two outcomes that write the same point are the same
    outcome (success leaves the message empty, an error writes "Error: ...",
    a panic "Panic ...").
  */
  lemma OutcomePointInjective(o1: HandlerOutcome, o2: HandlerOutcome, metric: MessageReceivedMetric)
    requires metric.message == ""
    requires OutcomePoint(o1, metric) == OutcomePoint(o2, metric)
    ensures o1 == o2
  {
    var m1 := OutcomePoint(o1, metric).metric.message;
    var m2 := OutcomePoint(o2, metric).metric.message;
    assert forall e :: (ERROR_PREFIX + e)[0] == 'E' && (ERROR_PREFIX + e)[|ERROR_PREFIX|..] == e;
    assert forall v :: (PANIC_PREFIX + v)[0] == 'P' && (PANIC_PREFIX + v)[|PANIC_PREFIX|..] == v;
  }

  /** The counts of a trace are those of its head plus those of its tail. */
  lemma CountsCons(x: Effect, t: seq<Effect>, e: Effect)
    ensures Count([x] + t, e) == (if x == e then 1 else 0) + Count(t, e)
    ensures PointCount([x] + t) == (if x.PointWritten? then 1 else 0) + PointCount(t)
    ensures InvocationCount([x] + t) == (if x.Invoked? then 1 else 0) + InvocationCount(t)
  {
    assert ([x] + t)[1..] == t;
  }

  /** Which way `MsgReceived` goes for a message, decided before any effect. */
  datatype Route =
    | Unhandled                          // nil map, or no handler for the event
    | Rejected                           // the handler exists but the header fails validation
    | Handled(handler: EventHandlerFunc) // the handler runs

  function RouteOf(handlers: Option<map<string, EventHandlerFunc>>, lib: Library, header: Header): Route
  {
    if handlers.None? || header.event !in handlers.value then Unhandled
    else if !ValidHeader(lib, header) then Rejected
    else Handled(handlers.value[header.event])
  }

  /**
    The effects of `MsgReceived` for a handler of `channel` with map
    `handlers` and validator `lib`: an unhandled or rejected message is only
    acknowledged; otherwise the service handler runs once on the body, its
    outcome's point is written, and the message is acknowledged after the
    point, unless the handler panicked.
  */
  function DispatchEffects(channel: string, handlers: Option<map<string, EventHandlerFunc>>, lib: Library,
                           marshal: Marshal, event: Message): seq<Effect>
  {
    match RouteOf(handlers, lib, event.header)
    case Unhandled => [Acked]
    case Rejected => [Acked]
    case Handled(f) =>
      var outcome := f(event.body);
      var point := OutcomePoint(outcome, CreateMetricsForRequest(channel, marshal, event));
      if outcome.Panicked? then [Invoked(event.body), point] else [Invoked(event.body), point, Acked]
  }

  /**
    An event with no handler (a nil map, or no entry for it) is acknowledged
    exactly once and nothing else happens, whether or not its header is
    valid: the lookup comes before validation.
  */
  lemma UnhandledEventAcked(channel: string, handlers: Option<map<string, EventHandlerFunc>>, lib: Library,
                            marshal: Marshal, event: Message)
    requires handlers.None? || event.header.event !in handlers.value
    ensures DispatchEffects(channel, handlers, lib, marshal, event) == [Acked]
    ensures Count(DispatchEffects(channel, handlers, lib, marshal, event), Acked) == 1
  {
  }

  /** A registered event whose header fails validation is acknowledged once; no handler runs and no point is written. */
  lemma InvalidHeaderAcked(channel: string, handlers: Option<map<string, EventHandlerFunc>>, lib: Library,
                           marshal: Marshal, event: Message)
    requires handlers.Some? && event.header.event in handlers.value
    requires !ValidHeader(lib, event.header)
    ensures var t := DispatchEffects(channel, handlers, lib, marshal, event);
      Count(t, Acked) == 1 && InvocationCount(t) == 0 && PointCount(t) == 0
  {
  }

  /**
    When the handler is registered, the header is valid and the handler
    returns (with or without an error), the handler is invoked exactly once
    with the body, one received-events point is written, then `ack` is called
    exactly once, as the last effect.
  */
  lemma ReturnedHandlerAckedAfterPoint(channel: string, handlers: Option<map<string, EventHandlerFunc>>, lib: Library,
                                       marshal: Marshal, event: Message)
    requires handlers.Some? && event.header.event in handlers.value
    requires ValidHeader(lib, event.header)
    requires handlers.value[event.header.event](event.body).Returned?
    ensures var t := DispatchEffects(channel, handlers, lib, marshal, event);
      var err := handlers.value[event.header.event](event.body).err;
      && |t| == 3
      && t[0] == Invoked(event.body) && InvocationCount(t) == 1
      && t[1] == HandleResponse(err, CreateMetricsForRequest(channel, marshal, event)) && PointCount(t) == 1
      && t[2] == Acked && Count(t, Acked) == 1
  {
    var t := DispatchEffects(channel, handlers, lib, marshal, event);
    assert t == [t[0]] + ([t[1]] + ([t[2]] + []));
    CountsCons(t[2], [], Acked);
    CountsCons(t[1], [t[2]], Acked);
    CountsCons(t[0], [t[1], t[2]], Acked);
  }

  /**
    When the handler panics, one point is written whose message is "Panic "
    followed by the recovered value, and `ack` is never called.
  */
  lemma PanickedHandlerNotAcked(channel: string, handlers: Option<map<string, EventHandlerFunc>>, lib: Library,
                                marshal: Marshal, event: Message)
    requires handlers.Some? && event.header.event in handlers.value
    requires ValidHeader(lib, event.header)
    requires handlers.value[event.header.event](event.body).Panicked?
    ensures var t := DispatchEffects(channel, handlers, lib, marshal, event);
      var v := handlers.value[event.header.event](event.body).recovered;
      && t == [Invoked(event.body), HandlePanic(CreateMetricsForRequest(channel, marshal, event), v)]
      && t[1].metric.message == PANIC_PREFIX + v
      && Count(t, Acked) == 0 && PointCount(t) == 1 && InvocationCount(t) == 1
  {
    var t := DispatchEffects(channel, handlers, lib, marshal, event);
    assert t == [t[0]] + ([t[1]] + []);
    CountsCons(t[1], [], Acked);
    CountsCons(t[0], [t[1]], Acked);
  }

  /**
    Over all messages: `ack` is called at most once, exactly when the handler
    did not panic, and when it is called it is the last effect; at most one
    point is written and the service handler runs at most once.
  */
  lemma AckedOnceUnlessPanicked(channel: string, handlers: Option<map<string, EventHandlerFunc>>, lib: Library,
                                marshal: Marshal, event: Message)
    ensures var t := DispatchEffects(channel, handlers, lib, marshal, event);
      var r := RouteOf(handlers, lib, event.header);
      && Count(t, Acked) == (if r.Handled? && r.handler(event.body).Panicked? then 0 else 1)
      && (Count(t, Acked) == 1 ==> t[|t| - 1] == Acked)
      && PointCount(t) <= 1 && InvocationCount(t) == (if r.Handled? then 1 else 0)
  {
    var t := DispatchEffects(channel, handlers, lib, marshal, event);
    var r := RouteOf(handlers, lib, event.header);
    if r.Handled? {
      if r.handler(event.body).Panicked? {
        PanickedHandlerNotAcked(channel, handlers, lib, marshal, event);
      } else {
        ReturnedHandlerAckedAfterPoint(channel, handlers, lib, marshal, event);
      }
    }
  }

  /** `BasicHandler`: the handler registry of one channel. A nil Go map is `None`. */
  class BasicHandler {
    const channel: string
    var handlers: Option<map<string, EventHandlerFunc>>
    const validator: Library

    /** The struct literal `BasicHandler{channel, handlers, validator}`. */
    constructor (channel: string, handlers: Option<map<string, EventHandlerFunc>>, validator: Library)
      ensures this.channel == channel && this.handlers == handlers && this.validator == validator
    {
      this.channel := channel;
      this.handlers := handlers;
      this.validator := validator;
    }

    /**
      `Register`: on a non-nil map the entry for `event` becomes `handler`
      (the last registration wins) and every other entry is kept; on a nil
      map nothing changes.
    */
    method Register(event: string, handler: EventHandlerFunc)
      modifies this
      ensures old(handlers).None? ==> handlers == old(handlers)
      ensures old(handlers).Some? ==> handlers == Some(old(handlers).value[event := handler])
      ensures handlers.Some? ==> event in handlers.value && handlers.value[event] == handler
      ensures handlers.Some? ==> forall k | k != event ::
        (k in handlers.value <==> k in old(handlers).value) &&
        (k in handlers.value ==> handlers.value[k] == old(handlers).value[k])
    {
      if handlers.None? {
        return;
      }
      handlers := Some(handlers.value[event := handler]);
    }

    /**
      `MsgReceived`, with the callback `ack` and the metric sink recorded as
      effects. It changes no field, so the handler map is left as it was.
    */
    method MsgReceived(marshal: Marshal, event: Message) returns (effects: seq<Effect>)
      ensures effects == DispatchEffects(channel, handlers, validator, marshal, event)
    {
      effects := [];
      if handlers.None? {
        effects := effects + [Acked];
        return;
      }
      if event.header.event !in handlers.value {
        effects := effects + [Acked];
        return;
      }
      var serviceHandler := handlers.value[event.header.event];
      var metric := CreateMetricsForRequest(channel, marshal, event);
      if !ValidHeader(validator, event.header) {
        effects := effects + [Acked];
        return;
      }
      effects := effects + [Invoked(event.body)];
      var outcome := serviceHandler(event.body);
      match outcome {
        case Panicked(v) =>
          // the deferred recovery writes the panic point; the `ack` after the call is never reached
          effects := effects + [HandlePanic(metric, v)];
        case Returned(err) =>
          effects := effects + [HandleResponse(err, metric)];
          effects := effects + [Acked];
      }
    }
  }
}
