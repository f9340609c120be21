/**
  The consumer-group subscriber (subscriber.go): the subscription table from
  stream to handler registry, the consumer-group bootstrap with its error
  policy, the arguments of the group read, the decoding of a delivered entry's
  header, and one pass of the read loop over a delivered batch. The transport's
  replies are inputs; the calls made on it and the dispatches to handlers are
  recorded, in order, as a trace.
*/
module Subscription {
  import opened Wrappers
  import opened Contract
  import opened Handling

  /** The marker in the transport's "group already exists" error. */
  const BUSYGROUP: string := "BUSYGROUP"
  /** The id a new consumer group starts at: the beginning of the stream. */
  const GROUP_START: string := "0"
  /** The read cursor meaning "entries never delivered to this group". */
  const NEW_ENTRIES: string := ">"
  const HEADER_KEY: string := "header"
  const MESSAGE_KEY: string := "message"
  const READ_ERROR_PREFIX: string := "XReadGroup error: "

  /** A value of a stream entry's field map: a string, or a value of some other type. */
  datatype Value = StringValue(s: string) | OtherValue

  /** `redis.XMessage`: an entry's id and its fields. */
  datatype XMessage = XMessage(id: string, values: map<string, Value>)

  /** `redis.XStream`: the entries delivered from one stream. */
  datatype XStream = XStream(stream: string, messages: seq<XMessage>)

  /** `redis.XReadGroupArgs`: alternating stream names and cursors. */
  datatype XReadGroupArgs = XReadGroupArgs(group: string, consumer: string, streams: seq<string>)

  /** The reply to the group read: a batch, `redis.Nil` (nothing delivered), or another error. */
  datatype ReadReply = Delivered(xstreams: seq<XStream>) | NilReply | ReadFailed(err: string)

  /** What the loop does after a read: go on, or return an error from `Listen`. */
  datatype Step = KeepListening | ReturnError(err: string)

  /** The three ways `DecodeHeader` fails. */
  datatype DecodeError = HeaderNotString | HeaderUnparsable | HeaderInvalid

  /** `json.Unmarshal` of a raw header into a `Header`, or None when it does not parse. */
  type Parse = string -> Option<Header>

  /** The calls the subscriber makes, in order. */
  datatype Call =
    | XGroupCreateMkStream(stream: string, group: string, start: string)
    | XAck(stream: string, group: string, id: string)
    | Dispatched(stream: string, id: string, handler: BasicHandler, msg: Message) // `handler.MsgReceived(ctx, msg)`

  /** The text of the error `DecodeHeader` returns for each kind of failure. */
  function DecodeErrorText(e: DecodeError): string
  {
    match e
    case HeaderNotString => "expecting string header but got unsupported format"
    case HeaderUnparsable => "unable to unmarshal raw header"
    case HeaderInvalid => "header failed to validate"
  }

  /** The three decoding failures carry three different error texts. */
  lemma DecodeErrorTextsDistinct(a: DecodeError, b: DecodeError)
    requires a != b
    ensures DecodeErrorText(a) != DecodeErrorText(b)
  {
    assert |DecodeErrorText(a)| != |DecodeErrorText(b)|;
  }

  /** `strings.Contains`. */
  predicate Contains(s: string, sub: string)
    decreases |s|
  {
    if |s| < |sub| then false else s[..|sub|] == sub || Contains(s[1..], sub)
  }

  /** An occurrence of `sub` after the prefix `p` is found by `Contains`. */
  lemma {:induction false} ContainsAt(s: string, sub: string, p: string, q: string)
    requires s == p + sub + q
    ensures Contains(s, sub)
    decreases |p|
  {
    if p == [] {
      assert s[..|sub|] == sub;
    } else {
      assert s[1..] == p[1..] + sub + q;
      ContainsAt(s[1..], sub, p[1..], q);
    }
  }

  /** When `Contains` holds, `s` splits around an occurrence of `sub`. */
  lemma {:induction false} ContainsSplit(s: string, sub: string) returns (p: string, q: string)
    requires Contains(s, sub)
    ensures s == p + sub + q
    decreases |s|
  {
    if s[..|sub|] == sub {
      p, q := [], s[|sub|..];
      assert s == s[..|sub|] + s[|sub|..];
    } else {
      var p', q' := ContainsSplit(s[1..], sub);
      p, q := [s[0]] + p', q';
      assert s == [s[0]] + s[1..];
    }
  }

  /** `s` contains `sub` exactly when `s` is some text, then `sub`, then some more text. */
  lemma ContainsIff(s: string, sub: string)
    ensures Contains(s, sub) <==> exists p: string, q: string :: s == p + sub + q
  {
    if Contains(s, sub) {
      var p, q := ContainsSplit(s, sub);
    }
    if p: string, q: string :| s == p + sub + q {
      ContainsAt(s, sub, p, q);
    }
  }

  /** The bootstrap's error policy: a failed group creation is fatal unless its text mentions BUSYGROUP. */
  predicate IsFatalGroupError(r: Option<string>)
  {
    r.Some? && !Contains(r.value, BUSYGROUP)
  }

  /** The transport's reply for an existing group is tolerated. */
  lemma BusyGroupTolerated()
    ensures !IsFatalGroupError(Some(BUSYGROUP + " Consumer Group name already exists"))
  {
    var q := " Consumer Group name already exists";
    assert BUSYGROUP + q == [] + BUSYGROUP + q;
    ContainsAt(BUSYGROUP + q, BUSYGROUP, [], q);
  }

  /** An error whose text lacks the marker is fatal; success is not an error. */
  lemma OtherGroupErrorFatal()
    ensures IsFatalGroupError(Some("ERR"))
    ensures !IsFatalGroupError(None)
  {
  }

  /** The error `subscribe` returns when creating the group of `stream` failed with `err`. */
  function GroupCreateErrorText(stream: string, err: string): string
  {
    "XGroupCreateMkStream failed for " + stream + ": " + err
  }

  /** The `header` field as a string, when it is present and a string (the type assertion). */
  function RawHeader(values: map<string, Value>): Option<string>
  {
    if HEADER_KEY in values && values[HEADER_KEY].StringValue? then Some(values[HEADER_KEY].s) else None
  }

  /**
    `DecodeHeader`: it fails when the `header` field is missing or not a
    string, when the string does not parse, or when the parsed header fails
    validation; a header it returns is the parse of the raw field and is
    valid.
  */
  function DecodeHeader(lib: Library, parse: Parse, msg: XMessage): (r: Result<Header, DecodeError>)
    ensures r == Err(HeaderNotString) <==> RawHeader(msg.values).None?
    ensures r == Err(HeaderUnparsable) <==> RawHeader(msg.values).Some? && parse(RawHeader(msg.values).value).None?
    ensures r == Err(HeaderInvalid) <==>
      && RawHeader(msg.values).Some?
      && parse(RawHeader(msg.values).value).Some?
      && !ValidHeader(lib, parse(RawHeader(msg.values).value).value)
    ensures r.Ok? ==>
      && RawHeader(msg.values).Some?
      && parse(RawHeader(msg.values).value) == Some(r.value)
      && ValidHeader(lib, r.value)
  {
    match RawHeader(msg.values)
    case None => Err(HeaderNotString)
    case Some(raw) =>
      match parse(raw)
      case None => Err(HeaderUnparsable)
      case Some(header) =>
        if !ValidHeader(lib, header) then Err(HeaderInvalid) else Ok(header)
  }

  /** The body handed on: the `message` field when it is a string, and the empty string otherwise. */
  function BodyOf(values: map<string, Value>): (body: string)
    ensures MESSAGE_KEY in values && values[MESSAGE_KEY].StringValue? ==> body == values[MESSAGE_KEY].s
    ensures !(MESSAGE_KEY in values && values[MESSAGE_KEY].StringValue?) ==> body == ""
  {
    if MESSAGE_KEY in values && values[MESSAGE_KEY].StringValue? then values[MESSAGE_KEY].s else ""
  }

  /** A stream has a subscription whose handler is not nil. */
  predicate Subscribed(subs: map<string, BasicHandler?>, stream: string)
  {
    stream in subs && subs[stream] != null
  }

  /** The calls made for one entry of a subscribed stream: none if its header does not decode, else the ack, then the dispatch. */
  function RouteMessage(h: BasicHandler, stream: string, group: string, lib: Library, parse: Parse, m: XMessage): seq<Call>
  {
    match DecodeHeader(lib, parse, m)
    case Err(_) => []
    case Ok(header) => [XAck(stream, group, m.id), Dispatched(stream, m.id, h, Message(header, BodyOf(m.values)))]
  }

  /** The results of `f` on the elements of `xs`, concatenated in order. */
  function FlatMap<T, U>(f: T -> seq<U>, xs: seq<T>): seq<U>
  {
    if xs == [] then [] else FlatMap(f, xs[..|xs| - 1]) + f(xs[|xs| - 1])
  }

  /** `FlatMap` over two parts in sequence is the result for the first part, then for the second. */
  lemma {:induction false} FlatMapAppend<T, U>(f: T -> seq<U>, xs: seq<T>, ys: seq<T>)
    ensures FlatMap(f, xs + ys) == FlatMap(f, xs) + FlatMap(f, ys)
    decreases |ys|
  {
    if ys == [] {
      assert xs + ys == xs;
    } else {
      var zs := xs + ys;
      var init, last := ys[..|ys| - 1], ys[|ys| - 1];
      assert zs[..|zs| - 1] == xs + init;
      assert zs[|zs| - 1] == last;
      FlatMapAppend(f, xs, init);
    }
  }

  /** `RouteMessage` for one stream's handler, as a function of the entry. */
  function EntryRoute(h: BasicHandler, stream: string, group: string, lib: Library, parse: Parse): XMessage -> seq<Call>
  {
    m => RouteMessage(h, stream, group, lib, parse, m)
  }

  /** The calls made for the entries of a subscribed stream, entry by entry. */
  function RouteMessages(h: BasicHandler, stream: string, group: string, lib: Library, parse: Parse,
                         ms: seq<XMessage>): seq<Call>
  {
    FlatMap(EntryRoute(h, stream, group, lib, parse), ms)
  }

  /** The calls made for one delivered stream: none when it has no subscription or a nil one. */
  function RouteStream(subs: map<string, BasicHandler?>, group: string, lib: Library, parse: Parse, x: XStream): seq<Call>
  {
    if Subscribed(subs, x.stream) then RouteMessages(subs[x.stream], x.stream, group, lib, parse, x.messages) else []
  }

  /** `RouteStream` for one subscription table, as a function of the delivered stream. */
  function StreamRoute(subs: map<string, BasicHandler?>, group: string, lib: Library, parse: Parse): XStream -> seq<Call>
  {
    x => RouteStream(subs, group, lib, parse, x)
  }

  /** The calls made for a delivered batch, stream by stream. */
  function Routed(subs: map<string, BasicHandler?>, group: string, lib: Library, parse: Parse, xs: seq<XStream>): seq<Call>
  {
    FlatMap(StreamRoute(subs, group, lib, parse), xs)
  }

  /** Routing the entries of a stream in two parts gives the calls of the first part, then those of the second. */
  lemma RouteMessagesAppend(h: BasicHandler, stream: string, group: string, lib: Library, parse: Parse,
                            ms1: seq<XMessage>, ms2: seq<XMessage>)
    ensures RouteMessages(h, stream, group, lib, parse, ms1 + ms2) ==
            RouteMessages(h, stream, group, lib, parse, ms1) + RouteMessages(h, stream, group, lib, parse, ms2)
  {
    FlatMapAppend(EntryRoute(h, stream, group, lib, parse), ms1, ms2);
  }

  /** Routing a batch in two parts gives the calls of the first part, then those of the second: the order of the batch is kept. */
  lemma RoutedAppend(subs: map<string, BasicHandler?>, group: string, lib: Library, parse: Parse,
                     xs1: seq<XStream>, xs2: seq<XStream>)
    ensures Routed(subs, group, lib, parse, xs1 + xs2) ==
            Routed(subs, group, lib, parse, xs1) + Routed(subs, group, lib, parse, xs2)
  {
    FlatMapAppend(StreamRoute(subs, group, lib, parse), xs1, xs2);
  }

  /**
    A batch of one entry: an entry of a stream without a (non-nil)
    subscription, or whose header does not decode, is neither acknowledged
    nor dispatched; any other entry is acknowledged for the service's group
    and then dispatched to the stream's handler with its decoded header and
    its body.
  */
  lemma SingleEntry(subs: map<string, BasicHandler?>, group: string, lib: Library, parse: Parse, stream: string, m: XMessage)
    ensures var calls := Routed(subs, group, lib, parse, [XStream(stream, [m])]);
      && (!Subscribed(subs, stream) ==> calls == [])
      && (DecodeHeader(lib, parse, m).Err? ==> calls == [])
      && (Subscribed(subs, stream) && DecodeHeader(lib, parse, m).Ok? ==>
            calls == [XAck(stream, group, m.id),
                      Dispatched(stream, m.id, subs[stream], Message(DecodeHeader(lib, parse, m).value, BodyOf(m.values)))])
  {
    var xs := [XStream(stream, [m])];
    assert xs[..0] == [];
    assert [m][..0] == [];
    var f := StreamRoute(subs, group, lib, parse);
    assert FlatMap(f, xs) == FlatMap(f, xs[..0]) + f(xs[0]);
    if Subscribed(subs, stream) {
      var g := EntryRoute(subs[stream], stream, group, lib, parse);
      assert FlatMap(g, [m]) == FlatMap(g, [m][..0]) + g(m);
    }
  }

  /**
    The shape of a routed trace: every call is an acknowledgement for the
    service's group on a subscribed stream, immediately followed by the
    dispatch of the same entry, or a dispatch to that stream's handler of a
    message whose header is valid, immediately preceded by the
    acknowledgement of the same entry.
  */
  ghost predicate AckThenDispatch(calls: seq<Call>, subs: map<string, BasicHandler?>, group: string, lib: Library)
  {
    forall i | 0 <= i < |calls| :: WellPlaced(calls, i, subs, group, lib)
  }

  /** The condition `AckThenDispatch` puts on the call at position `i`. */
  ghost predicate WellPlaced(calls: seq<Call>, i: int, subs: map<string, BasicHandler?>, group: string, lib: Library)
    requires 0 <= i < |calls|
  {
    match calls[i]
    case XGroupCreateMkStream(_, _, _) => false
    case XAck(s, g, id) =>
      && g == group && Subscribed(subs, s)
      && i + 1 < |calls| && calls[i + 1].Dispatched? && calls[i + 1].stream == s && calls[i + 1].id == id
    case Dispatched(s, id, h, msg) =>
      && Subscribed(subs, s) && h == subs[s] && ValidHeader(lib, msg.header)
      && 0 < i && calls[i - 1] == XAck(s, group, id)
  }

  lemma AckThenDispatchAppend(a: seq<Call>, b: seq<Call>, subs: map<string, BasicHandler?>, group: string, lib: Library)
    requires AckThenDispatch(a, subs, group, lib) && AckThenDispatch(b, subs, group, lib)
    ensures AckThenDispatch(a + b, subs, group, lib)
  {
    var c := a + b;
    forall i | 0 <= i < |c|
      ensures WellPlaced(c, i, subs, group, lib)
    {
      if i < |a| {
        assert WellPlaced(a, i, subs, group, lib);
        assert c[i] == a[i];
        if a[i].XAck? { assert c[i + 1] == a[i + 1]; }
        if a[i].Dispatched? { assert c[i - 1] == a[i - 1]; }
      } else {
        var j := i - |a|;
        assert WellPlaced(b, j, subs, group, lib);
        assert c[i] == b[j];
        if b[j].XAck? { assert c[i + 1] == b[j + 1]; }
        if b[j].Dispatched? { assert c[i - 1] == b[j - 1]; }
      }
    }
  }

  lemma {:induction false} RouteMessagesShape(subs: map<string, BasicHandler?>, stream: string, group: string, lib: Library,
                                             parse: Parse, ms: seq<XMessage>)
    requires Subscribed(subs, stream)
    ensures AckThenDispatch(RouteMessages(subs[stream], stream, group, lib, parse, ms), subs, group, lib)
    decreases |ms|
  {
    if ms != [] {
      var h := subs[stream];
      RouteMessagesShape(subs, stream, group, lib, parse, ms[..|ms| - 1]);
      var last := RouteMessage(h, stream, group, lib, parse, ms[|ms| - 1]);
      assert AckThenDispatch(last, subs, group, lib);
      AckThenDispatchAppend(RouteMessages(h, stream, group, lib, parse, ms[..|ms| - 1]), last, subs, group, lib);
    }
  }

  /**
    Every routed batch has the shape of `AckThenDispatch`: nothing is
    dispatched without being acknowledged just before, nothing is
    acknowledged without being dispatched just after, only subscribed streams
    appear, and every dispatched header is valid.
  */
  lemma {:induction false} RoutedShape(subs: map<string, BasicHandler?>, group: string, lib: Library, parse: Parse,
                                      xs: seq<XStream>)
    ensures AckThenDispatch(Routed(subs, group, lib, parse, xs), subs, group, lib)
    decreases |xs|
  {
    if xs != [] {
      RoutedShape(subs, group, lib, parse, xs[..|xs| - 1]);
      var x := xs[|xs| - 1];
      if Subscribed(subs, x.stream) {
        RouteMessagesShape(subs, x.stream, group, lib, parse, x.messages);
      }
      AckThenDispatchAppend(Routed(subs, group, lib, parse, xs[..|xs| - 1]), RouteStream(subs, group, lib, parse, x),
                            subs, group, lib);
    }
  }

  /**
    When every handler in the table shares the subscriber's validator, the
    handler's own header check never rejects a dispatched message: its
    header was already validated by `DecodeHeader`.
  */
  lemma DispatchedPassHandlerValidation(subs: map<string, BasicHandler?>, group: string, lib: Library, parse: Parse,
                                        xs: seq<XStream>)
    requires forall s | Subscribed(subs, s) :: subs[s].validator == lib
    ensures var calls := Routed(subs, group, lib, parse, xs);
      forall i | 0 <= i < |calls| && calls[i].Dispatched? ::
        RouteOf(calls[i].handler.handlers, calls[i].handler.validator, calls[i].msg.header) != Rejected
  {
    var calls := Routed(subs, group, lib, parse, xs);
    RoutedShape(subs, group, lib, parse, xs);
    forall i | 0 <= i < |calls| && calls[i].Dispatched?
      ensures RouteOf(calls[i].handler.handlers, calls[i].handler.validator, calls[i].msg.header) != Rejected
    {
      assert WellPlaced(calls, i, subs, group, lib);
    }
  }

  /** The entries of `XReadGroup`'s stream list: each stream name followed by the new-entries cursor. */
  function Interleave(order: seq<string>): (streams: seq<string>)
    ensures |streams| == 2 * |order|
  {
    if order == [] then [] else Interleave(order[..|order| - 1]) + [order[|order| - 1], NEW_ENTRIES]
  }

  lemma {:induction false} InterleaveAt(order: seq<string>, i: nat)
    requires i < |order|
    ensures Interleave(order)[2 * i] == order[i] && Interleave(order)[2 * i + 1] == NEW_ENTRIES
    decreases |order|
  {
    var n := |order| - 1;
    if i < n {
      InterleaveAt(order[..n], i);
    }
  }

  /** `order` lists every key of `keys` exactly once. */
  ghost predicate Enumerates(order: seq<string>, keys: set<string>)
  {
    && |order| == |keys|
    && (forall i | 0 <= i < |order| :: order[i] in keys)
    && (forall k | k in keys :: k in order)
    && (forall i, j | 0 <= i < j < |order| :: order[i] != order[j])
  }

  /** `streams` pairs every subscribed stream, in some order, with the new-entries cursor. */
  ghost predicate IsStreamList(streams: seq<string>, keys: set<string>)
  {
    exists order :: Enumerates(order, keys) && streams == Interleave(order)
  }

  /** The arguments of a group read for `group`, with `consumer` as consumer, over the streams `keys`. */
  ghost predicate IsReadArgs(args: XReadGroupArgs, group: string, consumer: string, keys: set<string>)
  {
    args.group == group && args.consumer == consumer && IsStreamList(args.streams, keys)
  }

  /** The stream name of the `i`-th pair of a stream list. */
  function StreamAt(streams: seq<string>, i: nat): string
    requires 2 * i < |streams|
  {
    streams[2 * i]
  }

  /** The cursor of the `i`-th pair of a stream list. */
  function CursorAt(streams: seq<string>, i: nat): string
    requires 2 * i + 1 < |streams|
  {
    streams[2 * i + 1]
  }

  /**
    A stream list has two entries per subscribed stream; every even entry is
    a subscribed stream and is followed by ">"; every subscribed stream occurs
    at an even entry, and no stream occurs twice.
  */
  lemma StreamListShape(streams: seq<string>, keys: set<string>)
    requires IsStreamList(streams, keys)
    ensures |streams| == 2 * |keys|
    ensures forall i | 0 <= i < |keys| :: StreamAt(streams, i) in keys && CursorAt(streams, i) == NEW_ENTRIES
    ensures forall k | k in keys :: exists i | 0 <= i < |keys| :: StreamAt(streams, i) == k
    ensures forall i, j | 0 <= i < j < |keys| :: StreamAt(streams, i) != StreamAt(streams, j)
  {
    var order :| Enumerates(order, keys) && streams == Interleave(order);
    forall i | 0 <= i < |keys|
      ensures StreamAt(streams, i) == order[i] && CursorAt(streams, i) == NEW_ENTRIES
    {
      InterleaveAt(order, i);
    }
    forall k | k in keys
      ensures exists i | 0 <= i < |keys| :: StreamAt(streams, i) == k
    {
      var i :| 0 <= i < |order| && order[i] == k;
      assert StreamAt(streams, i) == k;
    }
  }

  /** The streams whose group creation was attempted by `calls`. */
  function AttemptedStreams(calls: seq<Call>): set<string>
  {
    if calls == [] then {} else AttemptedStreams(calls[..|calls| - 1]) + {calls[|calls| - 1].stream}
  }

  /** What the read loop has done after a number of reads: its error if it returned, the reads issued and the calls made. */
  datatype LoopRun = LoopRun(err: Option<string>, readCount: nat, calls: seq<Call>)

  /**
    The read loop of `Listen` over the replies of its successive group reads:
    `redis.Nil` moves on, a batch is routed, and the first other error ends
    the loop with that error. When the replies run out without an error the
    loop is still running (`err` is None).
  */
  function ReadLoop(subs: map<string, BasicHandler?>, group: string, lib: Library, parse: Parse,
                    replies: seq<ReadReply>): (run: LoopRun)
    ensures run.readCount <= |replies|
    ensures run.err.None? ==> run.readCount == |replies|
  {
    if replies == [] then LoopRun(None, 0, [])
    else
      var rest := ReadLoop(subs, group, lib, parse, replies[1..]);
      match replies[0]
      case ReadFailed(e) => LoopRun(Some(READ_ERROR_PREFIX + e), 1, [])
      case NilReply => rest.(readCount := rest.readCount + 1)
      case Delivered(xs) => rest.(readCount := rest.readCount + 1, calls := Routed(subs, group, lib, parse, xs) + rest.calls)
  }

  /**
    The loop returns the error of the first failed read and looks at no
    reply after it: its run is that of the replies up to and including that
    one, and it issued exactly that many reads.
  */
  lemma {:induction false} ReadLoopStopsAtFirstError(subs: map<string, BasicHandler?>, group: string, lib: Library,
                                                      parse: Parse, replies: seq<ReadReply>, k: nat)
    requires k < |replies| && replies[k].ReadFailed?
    requires forall i | 0 <= i < k :: !replies[i].ReadFailed?
    ensures var run := ReadLoop(subs, group, lib, parse, replies);
      && run == ReadLoop(subs, group, lib, parse, replies[..k + 1])
      && run.err == Some(READ_ERROR_PREFIX + replies[k].err)
      && run.readCount == k + 1
    decreases k
  {
    if k > 0 {
      assert replies[..k + 1][1..] == replies[1..][..k];
      ReadLoopStopsAtFirstError(subs, group, lib, parse, replies[1..], k - 1);
    }
  }

  /** One step of the read loop from the `k`-th reply on: a failed read ends it, any other reply adds one read and its batch's calls. */
  lemma ReadLoopStep(subs: map<string, BasicHandler?>, group: string, lib: Library, parse: Parse,
                     replies: seq<ReadReply>, k: nat)
    requires k < |replies|
    ensures var cur := ReadLoop(subs, group, lib, parse, replies[k..]);
      var next := ReadLoop(subs, group, lib, parse, replies[k + 1..]);
      && (replies[k].ReadFailed? ==> cur == LoopRun(Some(READ_ERROR_PREFIX + replies[k].err), 1, []))
      && (!replies[k].ReadFailed? ==>
            var batch := if replies[k].Delivered? then Routed(subs, group, lib, parse, replies[k].xstreams) else [];
            cur == LoopRun(next.err, next.readCount + 1, batch + next.calls))
  {
    assert replies[k..][0] == replies[k];
    assert replies[k..][1..] == replies[k + 1..];
  }

  /** `Subscriber`: the subscription table and the identity the process consumes under. */
  class Subscriber {
    const hostName: string
    const serviceName: string
    const validator: Library
    var subscriptions: map<string, BasicHandler?>

    /** Every handler in the table belongs to its stream and shares the subscriber's validator. */
    ghost predicate Valid()
      reads this
    {
      forall s | Subscribed(subscriptions, s) :: subscriptions[s].channel == s && subscriptions[s].validator == validator
    }

    /** `NewSubscriber`: the table starts empty. */
    constructor (validator: Library, serviceName: string, hostName: string)
      ensures this.validator == validator && this.serviceName == serviceName && this.hostName == hostName
      ensures subscriptions == map[]
      ensures Valid()
    {
      this.hostName := hostName;
      this.serviceName := serviceName;
      this.validator := validator;
      subscriptions := map[];
    }

    /**
      `Subscribe`: the stream's entry becomes a fresh handler for that
      channel, with an empty (non-nil) map and the subscriber's validator,
      replacing any earlier one; the other streams keep theirs.
    */
    method Subscribe(stream: string) returns (h: BasicHandler)
      requires Valid()
      modifies this
      ensures Valid()
      ensures fresh(h) && h.channel == stream && h.handlers == Some(map[]) && h.validator == validator
      ensures subscriptions == old(subscriptions)[stream := h]
    {
      h := new BasicHandler(stream, Some(map[]), validator);
      subscriptions := subscriptions[stream := h];
    }

    /**
      `subscribe`, the group bootstrap: it tries to create the service's group
      on the subscribed streams one by one, in the map's unspecified order,
      and stops at the first creation error that is not BUSYGROUP, returning
      it with the stream's name. It returns nil exactly when no subscribed
      stream's creation result is fatal.
    */
    method SubscribeGroups(create: string -> Option<string>) returns (err: Option<string>, calls: seq<Call>)
      ensures forall i | 0 <= i < |calls| ::
        calls[i] == XGroupCreateMkStream(calls[i].stream, serviceName, GROUP_START) && calls[i].stream in subscriptions
      ensures forall i, j | 0 <= i < j < |calls| :: calls[i].stream != calls[j].stream
      ensures forall i | 0 <= i < |calls| - 1 :: !IsFatalGroupError(create(calls[i].stream))
      ensures err.None? ==> AttemptedStreams(calls) == subscriptions.Keys
      ensures err.Some? ==>
        && |calls| > 0
        && var s := calls[|calls| - 1].stream;
        && IsFatalGroupError(create(s))
        && err.value == GroupCreateErrorText(s, create(s).value)
      ensures err.None? <==> forall s | s in subscriptions :: !IsFatalGroupError(create(s))
    {
      calls := [];
      var remaining := subscriptions.Keys;
      while remaining != {}
        invariant remaining <= subscriptions.Keys
        invariant AttemptedStreams(calls) + remaining == subscriptions.Keys
        invariant forall i | 0 <= i < |calls| ::
          && calls[i] == XGroupCreateMkStream(calls[i].stream, serviceName, GROUP_START)
          && calls[i].stream in subscriptions && calls[i].stream !in remaining
        invariant forall i, j | 0 <= i < j < |calls| :: calls[i].stream != calls[j].stream
        invariant forall i | 0 <= i < |calls| :: !IsFatalGroupError(create(calls[i].stream))
        invariant forall s | s in subscriptions && s !in remaining :: !IsFatalGroupError(create(s))
        decreases remaining
      {
        var stream :| stream in remaining;
        ghost var before := calls;
        calls := calls + [XGroupCreateMkStream(stream, serviceName, GROUP_START)];
        assert calls[..|calls| - 1] == before;
        var r := create(stream);
        if IsFatalGroupError(r) {
          err := Some(GroupCreateErrorText(stream, r.value));
          return;
        }
        remaining := remaining - {stream};
      }
      err := None;
    }

    /**
      The read arguments built at the top of each loop iteration: the
      service's group, this host as consumer, and every subscribed stream (in
      the map's unspecified order) each followed by ">".
    */
    method StreamArgs() returns (args: XReadGroupArgs)
      ensures args.group == serviceName && args.consumer == hostName
      ensures |args.streams| == 2 * |subscriptions|
      ensures IsStreamList(args.streams, subscriptions.Keys)
    {
      var streams: seq<string> := [];
      ghost var order: seq<string> := [];
      var remaining := subscriptions.Keys;
      while remaining != {}
        invariant remaining <= subscriptions.Keys
        invariant |order| + |remaining| == |subscriptions.Keys|
        invariant forall i | 0 <= i < |order| :: order[i] in subscriptions.Keys && order[i] !in remaining
        invariant forall k | k in subscriptions.Keys :: k in order || k in remaining
        invariant forall i, j | 0 <= i < j < |order| :: order[i] != order[j]
        invariant streams == Interleave(order)
        decreases remaining
      {
        var stream :| stream in remaining;
        ghost var before := order;
        streams := streams + [stream, NEW_ENTRIES];
        order := order + [stream];
        assert order[..|order| - 1] == before;
        remaining := remaining - {stream};
      }
      assert Enumerates(order, subscriptions.Keys);
      args := XReadGroupArgs(serviceName, hostName, streams);
    }

    /**
      One pass over a delivered batch, in delivery order: streams without a
      (non-nil) subscription are skipped, entries whose header does not
      decode are skipped, and every other entry is acknowledged for the
      service's group and then dispatched, whatever the acknowledgement's
      reply (a failed acknowledgement is only logged).
    */
    method ProcessBatch(parse: Parse, xstreams: seq<XStream>) returns (calls: seq<Call>)
      ensures calls == Routed(subscriptions, serviceName, validator, parse, xstreams)
      ensures Valid() ==> forall i | 0 <= i < |calls| && calls[i].Dispatched? ::
        RouteOf(calls[i].handler.handlers, calls[i].handler.validator, calls[i].msg.header) != Rejected
    {
      calls := [];
      var i := 0;
      while i < |xstreams|
        invariant 0 <= i <= |xstreams|
        invariant calls == Routed(subscriptions, serviceName, validator, parse, xstreams[..i])
      {
        var x := xstreams[i];
        assert xstreams[..i + 1][..i] == xstreams[..i];
        assert Routed(subscriptions, serviceName, validator, parse, xstreams[..i + 1]) ==
               Routed(subscriptions, serviceName, validator, parse, xstreams[..i]) + RouteStream(subscriptions, serviceName, validator, parse, x);
        if x.stream in subscriptions && subscriptions[x.stream] != null {
          var batch := ProcessStream(parse, subscriptions[x.stream], x.stream, x.messages);
          calls := calls + batch;
        }
        i := i + 1;
      }
      assert xstreams[..i] == xstreams;
      if Valid() {
        DispatchedPassHandlerValidation(subscriptions, serviceName, validator, parse, xstreams);
      }
    }

    /** The entries of one subscribed stream, in delivery order. */
    method ProcessStream(parse: Parse, h: BasicHandler, stream: string, messages: seq<XMessage>) returns (calls: seq<Call>)
      ensures calls == RouteMessages(h, stream, serviceName, validator, parse, messages)
    {
      calls := [];
      var j := 0;
      while j < |messages|
        invariant 0 <= j <= |messages|
        invariant calls == RouteMessages(h, stream, serviceName, validator, parse, messages[..j])
      {
        var msg := messages[j];
        assert messages[..j + 1][..j] == messages[..j];
        assert RouteMessages(h, stream, serviceName, validator, parse, messages[..j + 1]) ==
               RouteMessages(h, stream, serviceName, validator, parse, messages[..j]) + RouteMessage(h, stream, serviceName, validator, parse, msg);
        var header := DecodeHeader(validator, parse, msg);
        if header.Ok? {
          var body := BodyOf(msg.values);
          calls := calls + [XAck(stream, serviceName, msg.id)];
          calls := calls + [Dispatched(stream, msg.id, h, Message(header.value, body))];
        }
        j := j + 1;
      }
      assert messages[..j] == messages;
    }

    /**
      One iteration of the read loop of `Listen`, given the transport's reply
      to the group read: `redis.Nil` goes on to the next read, any other error
      ends `Listen` with that error, and a batch is routed.
    */
    method ListenIteration(parse: Parse, reply: ReadReply) returns (args: XReadGroupArgs, step: Step, calls: seq<Call>)
      ensures args.group == serviceName && args.consumer == hostName && IsStreamList(args.streams, subscriptions.Keys)
      ensures step == (if reply.ReadFailed? then ReturnError(READ_ERROR_PREFIX + reply.err) else KeepListening)
      ensures calls == (if reply.Delivered? then Routed(subscriptions, serviceName, validator, parse, reply.xstreams) else [])
    {
      args := StreamArgs();
      match reply {
        case NilReply =>
          step, calls := KeepListening, [];
        case ReadFailed(e) =>
          step, calls := ReturnError(READ_ERROR_PREFIX + e), [];
        case Delivered(xs) =>
          calls := ProcessBatch(parse, xs);
          step := KeepListening;
      }
    }

    /**
      `Listen` over the replies of its first group reads: the bootstrap runs
      first, and a fatal creation error ends `Listen` before any read;
      otherwise the read loop runs.
    */
    method Listen(create: string -> Option<string>, parse: Parse, replies: seq<ReadReply>)
      returns (err: Option<string>, bootstrap: seq<Call>, issued: seq<XReadGroupArgs>, calls: seq<Call>)
      ensures forall i | 0 <= i < |bootstrap| ::
        bootstrap[i] == XGroupCreateMkStream(bootstrap[i].stream, serviceName, GROUP_START) && bootstrap[i].stream in subscriptions
      ensures forall i, j | 0 <= i < j < |bootstrap| :: bootstrap[i].stream != bootstrap[j].stream
      ensures forall i | 0 <= i < |bootstrap| - 1 :: !IsFatalGroupError(create(bootstrap[i].stream))
      ensures (exists s | s in subscriptions :: IsFatalGroupError(create(s))) ==>
        && issued == [] && calls == bootstrap && |bootstrap| > 0
        && var s := bootstrap[|bootstrap| - 1].stream;
        && IsFatalGroupError(create(s))
        && err == Some(GroupCreateErrorText(s, create(s).value))
      ensures (forall s | s in subscriptions :: !IsFatalGroupError(create(s))) ==>
        && AttemptedStreams(bootstrap) == subscriptions.Keys
        && var run := ReadLoop(subscriptions, serviceName, validator, parse, replies);
        && err == run.err && |issued| == run.readCount && calls == bootstrap + run.calls
      ensures forall i | 0 <= i < |issued| :: IsReadArgs(issued[i], serviceName, hostName, subscriptions.Keys)
    {
      err, bootstrap := SubscribeGroups(create);
      if err.Some? {
        issued, calls := [], bootstrap;
        return;
      }
      var loopCalls;
      err, issued, loopCalls := RunReadLoop(parse, replies);
      calls := bootstrap + loopCalls;
    }

    /**
      The read loop of `Listen`: each iteration rebuilds the read arguments,
      issues the read and handles its reply, until a read fails or the
      replies run out.
    */
    method RunReadLoop(parse: Parse, replies: seq<ReadReply>)
      returns (err: Option<string>, issued: seq<XReadGroupArgs>, calls: seq<Call>)
      ensures var run := ReadLoop(subscriptions, serviceName, validator, parse, replies);
        err == run.err && |issued| == run.readCount && calls == run.calls
      ensures forall i | 0 <= i < |issued| :: IsReadArgs(issued[i], serviceName, hostName, subscriptions.Keys)
    {
      err, issued, calls := None, [], [];
      ghost var run := ReadLoop(subscriptions, serviceName, validator, parse, replies);
      assert replies[0..] == replies;
      ghost var rest := run;
      var k := 0;
      while k < |replies|
        invariant 0 <= k <= |replies|
        invariant err.None?
        invariant rest == ReadLoop(subscriptions, serviceName, validator, parse, replies[k..])
        invariant run.err == rest.err && run.readCount == |issued| + rest.readCount && run.calls == calls + rest.calls
        invariant forall i | 0 <= i < |issued| :: IsReadArgs(issued[i], serviceName, hostName, subscriptions.Keys)
      {
        ghost var next := ReadLoop(subscriptions, serviceName, validator, parse, replies[k + 1..]);
        ReadLoopStep(subscriptions, serviceName, validator, parse, replies, k);
        var args, step, batch := ListenIteration(parse, replies[k]);
        issued := issued + [args];
        calls := calls + batch;
        assert IsReadArgs(args, serviceName, hostName, subscriptions.Keys);
        if step.ReturnError? {
          assert replies[k].ReadFailed? && batch == [];
          assert rest == LoopRun(Some(step.err), 1, []);
          err := Some(step.err);
          return;
        }
        assert rest == LoopRun(next.err, next.readCount + 1, batch + next.calls);
        rest := next;
        k := k + 1;
      }
      assert replies[k..] == [];
    }
  }
}
