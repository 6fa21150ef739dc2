/** The gRPC logging interceptors: one call logger per call, closed exactly
    once however the call ends, and the wrappers that drive it from the request
    and response streams of client and server calls. What the loggers emit
    (to `logging` and to trace logging) is recorded as a trace of events. */
module Loggers {
  import opened Runtime

  datatype Side = Client | Server

  /** The numeric levels of Python's `logging`. */
  const DEBUG := 10
  const INFO := 20

  /** `Logger.isEnabledFor`: a level is enabled when it is at least the
      logger's effective level. */
  predicate IsEnabledFor(effectiveLevel: int, level: int) {
    level >= effectiveLevel
  }

  /** `is_enabled` of the two call loggers: the client logs at DEBUG, the
      server summarises at INFO, and both are on while trace logging is. */
  predicate CallLoggingEnabled(side: Side, effectiveLevel: int, traceLogging: bool) {
    traceLogging || IsEnabledFor(effectiveLevel, if side == Client then DEBUG else INFO)
  }

  /** Whenever client calls are logged, server calls are too; and a server
      logger enabled by its level, not by trace logging, always writes its
      INFO summary. */
  lemma ServerLoggingCoversClient(effectiveLevel: int, traceLogging: bool)
    ensures CallLoggingEnabled(Client, effectiveLevel, traceLogging) ==> CallLoggingEnabled(Server, effectiveLevel, traceLogging)
    ensures CallLoggingEnabled(Server, effectiveLevel, traceLogging) && !traceLogging ==> IsEnabledFor(effectiveLevel, INFO)
  {
  }

  /** One record emitted by a call logger. */
  datatype LogEvent =
    | CallStarting(rpc: string)
    | StreamingRequest(rpc: string)
    | StreamingResponse(rpc: string)
    /** The one-line INFO summary of a server call, without its elapsed time. */
    | Responded(rpc: string, code: StatusCode)
    | CallComplete(rpc: string)

  /** `_get_status_code`: the status a call that ended with `outcome` reports. */
  function StatusCodeOf(outcome: Option<Exception>): (code: StatusCode)
  {
    match outcome
    case None => OK
    case Some(RpcError(c, _)) => c
    case Some(_) => Unknown
  }

  /** Only an RpcError can report a status other than OK or UNKNOWN, and it
      reports its own code; an exception that is not an RpcError reports
      UNKNOWN, so an abort that reached the logger as a bare Exception would be
      logged as UNKNOWN whatever code it was given. */
  lemma StatusCodeClassification(outcome: Option<Exception>)
    ensures StatusCodeOf(outcome) !in {OK, Unknown} ==>
      outcome.Some? && outcome.value.RpcError? && outcome.value.code == StatusCodeOf(outcome)
    ensures outcome.Some? && !outcome.value.RpcError? ==> StatusCodeOf(outcome) == Unknown
    ensures outcome.Some? && outcome.value.RpcError? ==> StatusCodeOf(outcome) == outcome.value.code
  {
  }

  /** What `_close` emits: the server adds its INFO summary, with the status
      of the outcome, when INFO is enabled. */
  function CloseRecords(side: Side, rpc: string, infoEnabled: bool, outcome: Option<Exception>): (records: seq<LogEvent>)
    ensures |records| >= 1 && records[|records| - 1] == CallComplete(rpc)
    ensures |records| == 2 <==> side == Server && infoEnabled
  {
    if side == Server && infoEnabled then [Responded(rpc, StatusCodeOf(outcome)), CallComplete(rpc)]
    else [CallComplete(rpc)]
  }

  /** How many "call complete" records a trace holds. */
  function Completions(trace: seq<LogEvent>): nat {
    if trace == [] then 0
    else Completions(trace[..|trace| - 1]) + (if trace[|trace| - 1].CallComplete? then 1 else 0)
  }

  lemma {:induction false} CompletionsAppend(a: seq<LogEvent>, b: seq<LogEvent>)
    ensures Completions(a + b) == Completions(a) + Completions(b)
    decreases |b|
  {
    if b == [] {
      assert a + b == a;
    } else {
      assert (a + b)[..|a + b| - 1] == a + b[..|b| - 1];
      CompletionsAppend(a, b[..|b| - 1]);
    }
  }

  /** The records of one `_close` complete the call exactly once. */
  lemma CloseCompletesOnce(side: Side, rpc: string, infoEnabled: bool, outcome: Option<Exception>)
    ensures Completions(CloseRecords(side, rpc, infoEnabled, outcome)) == 1
  {
    var r := CloseRecords(side, rpc, infoEnabled, outcome);
    if |r| == 2 {
      var head := r[..1];
      assert head[..0] == [] && !head[0].CallComplete?;
      assert Completions(head) == 0;
      assert r[..|r| - 1] == head;
    } else {
      assert r[..0] == [];
    }
  }

  /** A logger's flag and trace, as the values the state-changing methods act on. */
  datatype LoggerState = LoggerState(closed: bool, trace: seq<LogEvent>)

  /** The state after `close(outcome)`: only the first close emits. */
  function AfterClose(s: LoggerState, side: Side, rpc: string, infoEnabled: bool, outcome: Option<Exception>): LoggerState {
    if s.closed then s else LoggerState(true, s.trace + CloseRecords(side, rpc, infoEnabled, outcome))
  }

  /** The state after a series of closes. */
  function AfterCloses(s: LoggerState, side: Side, rpc: string, infoEnabled: bool, outcomes: seq<Option<Exception>>): LoggerState
    decreases |outcomes|
  {
    if outcomes == [] then s
    else AfterCloses(AfterClose(s, side, rpc, infoEnabled, outcomes[0]), side, rpc, infoEnabled, outcomes[1..])
  }

  /** However many times an open logger is closed, `_close` runs once, with the
      outcome given to the first close. */
  lemma {:induction false} CloseIsIdempotent(s: LoggerState, side: Side, rpc: string, infoEnabled: bool, outcomes: seq<Option<Exception>>)
    requires !s.closed && |outcomes| >= 1
    ensures AfterCloses(s, side, rpc, infoEnabled, outcomes)
      == LoggerState(true, s.trace + CloseRecords(side, rpc, infoEnabled, outcomes[0]))
    ensures Completions(AfterCloses(s, side, rpc, infoEnabled, outcomes).trace) == Completions(s.trace) + 1
    decreases |outcomes|
  {
    var first := AfterClose(s, side, rpc, infoEnabled, outcomes[0]);
    ClosedLoggerStaysPut(first, side, rpc, infoEnabled, outcomes[1..]);
    CompletionsAppend(s.trace, CloseRecords(side, rpc, infoEnabled, outcomes[0]));
    CloseCompletesOnce(side, rpc, infoEnabled, outcomes[0]);
  }

  lemma {:induction false} ClosedLoggerStaysPut(s: LoggerState, side: Side, rpc: string, infoEnabled: bool, outcomes: seq<Option<Exception>>)
    requires s.closed
    ensures AfterCloses(s, side, rpc, infoEnabled, outcomes) == s
    decreases |outcomes|
  {
    if outcomes != [] {
      ClosedLoggerStaysPut(s, side, rpc, infoEnabled, outcomes[1..]);
    }
  }

  /** `_CallLogger` with its two subclasses: `side` says which. */
  class CallLogger {
    const side: Side
    const methodName: string
    /** Whether INFO logging is enabled, which decides the server's summary. */
    const infoEnabled: bool
    var closed: bool
    /** Everything this logger has emitted, in order. */
    var trace: seq<LogEvent>

    /** The call was announced first, and it is complete in the trace exactly when closed. */
    ghost predicate Valid()
      reads this
    {
      && |trace| >= 1 && trace[0] == CallStarting(methodName)
      && Completions(trace) == (if closed then 1 else 0)
    }

    function State(): LoggerState
      reads this
    {
      LoggerState(closed, trace)
    }

    /** Creating a logger announces the call. */
    constructor(side: Side, methodName: string, infoEnabled: bool)
      ensures Valid() && !closed && trace == [CallStarting(methodName)]
      ensures this.side == side && this.methodName == methodName && this.infoEnabled == infoEnabled
    {
      this.side := side;
      this.methodName := methodName;
      this.infoEnabled := infoEnabled;
      closed := false;
      trace := [CallStarting(methodName)];
      new;
      assert trace[..0] == [];
    }

    /** `close(exception)`: the check-and-set of the flag lets only the first
        call through to `_close`. */
    method Close(outcome: Option<Exception>)
      requires Valid()
      modifies this
      ensures Valid() && closed
      ensures State() == AfterClose(old(State()), side, methodName, infoEnabled, outcome)
    {
      if closed {
        return;
      }
      closed := true;
      CompletionsAppend(trace, CloseRecords(side, methodName, infoEnabled, outcome));
      CloseCompletesOnce(side, methodName, infoEnabled, outcome);
      trace := trace + CloseRecords(side, methodName, infoEnabled, outcome);
    }

    /** `__exit__`: closes with the exception leaving the `with` block, or None. */
    method Exit(inFlight: Option<Exception>)
      requires Valid()
      modifies this
      ensures Valid() && closed
      ensures State() == AfterClose(old(State()), side, methodName, infoEnabled, inFlight)
    {
      Close(inFlight);
    }

    method LogStreamingRequest()
      requires Valid()
      modifies this
      ensures Valid() && closed == old(closed)
      ensures trace == old(trace) + [StreamingRequest(methodName)]
    {
      CompletionsAppend(trace, [StreamingRequest(methodName)]);
      assert [StreamingRequest(methodName)][..0] == [];
      trace := trace + [StreamingRequest(methodName)];
    }

    method LogStreamingResponse()
      requires Valid()
      modifies this
      ensures Valid() && closed == old(closed)
      ensures trace == old(trace) + [StreamingResponse(methodName)]
    {
      CompletionsAppend(trace, [StreamingResponse(methodName)]);
      assert [StreamingResponse(methodName)][..0] == [];
      trace := trace + [StreamingResponse(methodName)];
    }
  }

  // ---------------------------------------------------------------------------
  // Streams

  /** A finite stream: its items, then either exhaustion or an exception. */
  datatype Stream<T> = Stream(items: seq<T>, end: Option<Exception>)

  /** What one `next()` does: return an item, raise StopIteration, or raise. */
  datatype Step<T> = Item(value: T) | StopIteration | Raise(error: Exception)

  /** How a stream ends, as the step that reports it. */
  function EndStep<T>(end: Option<Exception>): (step: Step<T>)
    ensures !step.Item?
    ensures step.Raise? <==> end.Some?
  {
    if end.None? then StopIteration else Raise(end.value)
  }

  /** An iterator over a stream, at position `pos`; once past the items it
      keeps reporting the stream's end. */
  class StreamIterator<T> {
    const stream: Stream<T>
    var pos: nat

    ghost predicate Valid()
      reads this
    {
      pos <= |stream.items|
    }

    constructor(stream: Stream<T>)
      ensures Valid() && this.stream == stream && pos == 0
    {
      this.stream := stream;
      pos := 0;
    }

    method Next() returns (step: Step<T>)
      requires Valid()
      modifies this
      ensures Valid()
      ensures old(pos) < |stream.items| ==> step == Item(stream.items[old(pos)]) && pos == old(pos) + 1
      ensures old(pos) == |stream.items| ==> step == EndStep(stream.end) && pos == old(pos)
    {
      if pos < |stream.items| {
        step := Item(stream.items[pos]);
        pos := pos + 1;
      } else {
        step := EndStep(stream.end);
      }
    }
  }

  /** `_LoggingRequestIterator`: passes each request on unchanged and logs it;
      it never closes the logger. */
  class LoggingRequestIterator<T> {
    const callLogger: CallLogger
    const inner: StreamIterator<T>

    ghost predicate Valid()
      reads this, callLogger, inner
    {
      callLogger.Valid() && inner.Valid()
    }

    constructor(callLogger: CallLogger, inner: StreamIterator<T>)
      ensures this.callLogger == callLogger && this.inner == inner
    {
      this.callLogger := callLogger;
      this.inner := inner;
    }

    method Next() returns (step: Step<T>)
      requires Valid()
      modifies callLogger, inner
      ensures Valid()
      ensures old(inner.pos) < |inner.stream.items| ==> step == Item(inner.stream.items[old(inner.pos)]) && inner.pos == old(inner.pos) + 1
      ensures old(inner.pos) == |inner.stream.items| ==> step == EndStep(inner.stream.end) && inner.pos == old(inner.pos)
      ensures callLogger.closed == old(callLogger.closed)
      ensures callLogger.trace == old(callLogger.trace) + (if step.Item? then [StreamingRequest(callLogger.methodName)] else [])
    {
      step := inner.Next();
      if step.Item? {
        callLogger.LogStreamingRequest();
      }
    }
  }

  /** `_LoggingResponseIterator`, and `_LoggingResponseCallIterator`, whose
      `__next__` is the same: each response is passed on and logged; the end
      of the stream, exhaustion or an exception, closes the logger with it. */
  class LoggingResponseIterator<T> {
    const callLogger: CallLogger
    const inner: StreamIterator<T>

    ghost predicate Valid()
      reads this, callLogger, inner
    {
      callLogger.Valid() && inner.Valid()
    }

    constructor(callLogger: CallLogger, inner: StreamIterator<T>)
      ensures this.callLogger == callLogger && this.inner == inner
    {
      this.callLogger := callLogger;
      this.inner := inner;
    }

    method Next() returns (step: Step<T>)
      requires Valid()
      modifies callLogger, inner
      ensures Valid()
      ensures old(inner.pos) < |inner.stream.items| ==>
        && step == Item(inner.stream.items[old(inner.pos)]) && inner.pos == old(inner.pos) + 1
        && callLogger.closed == old(callLogger.closed)
        && callLogger.trace == old(callLogger.trace) + [StreamingResponse(callLogger.methodName)]
      ensures old(inner.pos) == |inner.stream.items| ==>
        && step == EndStep(inner.stream.end) && inner.pos == old(inner.pos)
        && callLogger.State() == AfterClose(old(callLogger.State()), callLogger.side, callLogger.methodName,
                                            callLogger.infoEnabled, inner.stream.end)
    {
      step := inner.Next();
      match step
      case Item(_) =>
        callLogger.LogStreamingResponse();
      case StopIteration =>
        callLogger.Close(None);
      case Raise(e) =>
        callLogger.Close(Some(e));
    }

    /** The consumer pulling until the stream ends: the remaining responses
        come out unchanged, one response event is logged for each, and then
        the logger closes once, with the stream's end. */
    method Drain() returns (delivered: seq<T>, end: Step<T>)
      requires Valid()
      modifies callLogger, inner
      ensures Valid()
      ensures delivered == inner.stream.items[old(inner.pos)..]
      ensures end == EndStep(inner.stream.end)
      ensures callLogger.State() == AfterClose(
        LoggerState(old(callLogger.closed),
                    old(callLogger.trace) + seq(|delivered|, _ => StreamingResponse(callLogger.methodName))),
        callLogger.side, callLogger.methodName, callLogger.infoEnabled, inner.stream.end)
    {
      delivered := [];
      ghost var start := inner.pos;
      while inner.pos < |inner.stream.items|
        invariant Valid() && start <= inner.pos
        invariant delivered == inner.stream.items[start..inner.pos]
        invariant callLogger.closed == old(callLogger.closed)
        invariant callLogger.trace == old(callLogger.trace) + seq(|delivered|, _ => StreamingResponse(callLogger.methodName))
        decreases |inner.stream.items| - inner.pos
      {
        var step := Next();
        delivered := delivered + [step.value];
      }
      end := Next();
    }
  }

  /** The behaviour of the inner call future: what each of its three
      accessors returns or raises. */
  datatype InnerFuture<T> = InnerFuture(result: Result<T>, exception: Result<Option<Exception>>, traceback: Result<Value>)

  /** The exception a `with` block ends with when its body produced `r`. */
  function Raised<T>(r: Result<T>): (outcome: Option<Exception>)
    ensures outcome.Some? <==> r.Failure?
  {
    if r.Failure? then Some(r.error) else None
  }

  /** `_LoggingResponseCallFuture`: each accessor runs inside `with call_logger`,
      so it passes the inner result on and closes the logger with whatever it
      raised, or with None when it returned. */
  class LoggingResponseCallFuture<T> {
    const callLogger: CallLogger
    const inner: InnerFuture<T>

    constructor(callLogger: CallLogger, inner: InnerFuture<T>)
      ensures this.callLogger == callLogger && this.inner == inner
    {
      this.callLogger := callLogger;
      this.inner := inner;
    }

    method Result() returns (r: Result<T>)
      requires callLogger.Valid()
      modifies callLogger
      ensures callLogger.Valid() && r == inner.result
      ensures callLogger.State() == AfterClose(old(callLogger.State()), callLogger.side, callLogger.methodName,
                                               callLogger.infoEnabled, Raised(inner.result))
    {
      r := inner.result;
      callLogger.Exit(Raised(r));
    }

    method Exception() returns (r: Result<Option<Exception>>)
      requires callLogger.Valid()
      modifies callLogger
      ensures callLogger.Valid() && r == inner.exception
      ensures callLogger.State() == AfterClose(old(callLogger.State()), callLogger.side, callLogger.methodName,
                                               callLogger.infoEnabled, Raised(inner.exception))
    {
      r := inner.exception;
      callLogger.Exit(Raised(r));
    }

    method Traceback() returns (r: Result<Value>)
      requires callLogger.Valid()
      modifies callLogger
      ensures callLogger.Valid() && r == inner.traceback
      ensures callLogger.State() == AfterClose(old(callLogger.State()), callLogger.side, callLogger.methodName,
                                               callLogger.infoEnabled, Raised(inner.traceback))
    {
      r := inner.traceback;
      callLogger.Exit(Raised(r));
    }
  }

  // ---------------------------------------------------------------------------
  // Server side

  datatype Shape = UnaryUnary | UnaryStream | StreamUnary | StreamStream

  /** An RpcMethodHandler: one behaviour per shape, at most one of them set in
      practice, though nothing stops more. */
  datatype Handler<F> = Handler(unaryUnary: Option<F>, unaryStream: Option<F>, streamUnary: Option<F>, streamStream: Option<F>)

  function Behaviour<F>(h: Handler<F>, shape: Shape): Option<F> {
    match shape
    case UnaryUnary => h.unaryUnary
    case UnaryStream => h.unaryStream
    case StreamUnary => h.streamUnary
    case StreamStream => h.streamStream
  }

  /** The order in which `intercept_service` looks at the shapes. */
  function Rank(shape: Shape): nat {
    match shape
    case UnaryUnary => 0
    case UnaryStream => 1
    case StreamUnary => 2
    case StreamStream => 3
  }

  /** What `intercept_service` hands back to the server. */
  datatype Interception<F> =
    /** Logging disabled: the continuation's result as it came. */
    | Untouched(handler: Option<Handler<F>>)
    /** Logging enabled but no handler: None is returned, after the call was
        announced by a logger that nothing will close. */
    | NoHandler
    /** A new handler of the same shape running `behaviour` under a logger. */
    | Logged(shape: Shape, behaviour: F)

  /** `ServerLogger.intercept_service`, given whether server logging is
      enabled and the continuation's handler. */
  function InterceptService<F>(enabled: bool, handler: Option<Handler<F>>): (r: Result<Interception<F>>)
    ensures !enabled ==> r == Success(Untouched(handler))
    ensures enabled && handler.None? ==> r == Success(NoHandler)
  {
    if !enabled then Success(Untouched(handler))
    else if handler.None? then Success(NoHandler)
    else
      var h := handler.value;
      if h.unaryUnary.Some? then Success(Logged(UnaryUnary, h.unaryUnary.value))
      else if h.unaryStream.Some? then Success(Logged(UnaryStream, h.unaryStream.value))
      else if h.streamUnary.Some? then Success(Logged(StreamUnary, h.streamUnary.value))
      else if h.streamStream.Some? then Success(Logged(StreamStream, h.streamStream.value))
      else Failure(RuntimeError("Invalid RpcMethodHandler"))
  }

  /** With logging enabled, a handler is wrapped at its first set shape, in the
      order unary-unary, unary-stream, stream-unary, stream-stream, keeping
      that shape's behaviour; a handler with no shape set is refused with
      RuntimeError. */
  lemma InterceptServiceWrapsFirstShape<F>(handler: Handler<F>)
    ensures var r := InterceptService(true, Some(handler));
      && (r.Failure? <==> forall shape :: Behaviour(handler, shape).None?)
      && (r.Failure? ==> r.error == RuntimeError("Invalid RpcMethodHandler"))
      && (r.Success? ==>
            && r.value.Logged?
            && Behaviour(handler, r.value.shape) == Some(r.value.behaviour)
            && forall shape | Rank(shape) < Rank(r.value.shape) :: Behaviour(handler, shape).None?)
  {
    var r := InterceptService(true, Some(handler));
    assert Behaviour(handler, UnaryUnary) == handler.unaryUnary;
    assert Behaviour(handler, UnaryStream) == handler.unaryStream;
    assert Behaviour(handler, StreamUnary) == handler.streamUnary;
    assert Behaviour(handler, StreamStream) == handler.streamStream;
    if r.Failure? {
      forall shape
        ensures Behaviour(handler, shape).None?
      {
        match shape
        case UnaryUnary =>
        case UnaryStream =>
        case StreamUnary =>
        case StreamStream =>
      }
    }
  }

  /** `_log_unary_unary`: the handler runs inside `with call_logger`. */
  method LogUnaryUnary(callLogger: CallLogger, handlerCall: Result<Value>) returns (r: Result<Value>)
    requires callLogger.Valid()
    modifies callLogger
    ensures callLogger.Valid() && r == handlerCall
    ensures callLogger.State() == AfterClose(old(callLogger.State()), callLogger.side, callLogger.methodName,
                                             callLogger.infoEnabled, Raised(handlerCall))
  {
    r := handlerCall;
    callLogger.Exit(Raised(r));
  }

  /** `_log_unary_stream` and `_log_stream_stream`: the handler is called,
      for a streamed request with a logging request iterator around it; when
      that call raises, the logger is closed with the exception and it
      propagates; otherwise the handler's response stream comes back wrapped,
      and the logger stays open until that stream ends. */
  method LogStreamingResponse(callLogger: CallLogger, requests: Option<StreamIterator<Value>>, handlerCall: Result<Stream<Value>>)
    returns (r: Result<LoggingResponseIterator<Value>>, requestWrapper: Option<LoggingRequestIterator<Value>>)
    requires callLogger.Valid()
    modifies callLogger
    ensures callLogger.Valid()
    ensures requests.None? ==> requestWrapper.None?
    ensures requests.Some? ==>
      && requestWrapper.Some? && fresh(requestWrapper.value)
      && requestWrapper.value.inner == requests.value && requestWrapper.value.callLogger == callLogger
    ensures handlerCall.Failure? ==>
      && r == Failure(handlerCall.error)
      && callLogger.State() == AfterClose(old(callLogger.State()), callLogger.side, callLogger.methodName,
                                          callLogger.infoEnabled, Some(handlerCall.error))
    ensures handlerCall.Success? ==>
      && r.Success? && fresh(r.value) && fresh(r.value.inner)
      && r.value.callLogger == callLogger && r.value.Valid()
      && r.value.inner.stream == handlerCall.value && r.value.inner.pos == 0
      && callLogger.State() == old(callLogger.State())
  {
    requestWrapper := None;
    if requests.Some? {
      var wrapper := new LoggingRequestIterator(callLogger, requests.value);
      requestWrapper := Some(wrapper);
    }
    if handlerCall.Failure? {
      callLogger.Close(Some(handlerCall.error));
      return Failure(handlerCall.error), requestWrapper;
    }
    var inner := new StreamIterator(handlerCall.value);
    var wrapped := new LoggingResponseIterator(callLogger, inner);
    return Success(wrapped), requestWrapper;
  }

  /** `_log_stream_unary`: inside `with call_logger`, the handler pulls `pulls`
      requests through a logging request iterator and then returns or raises
      `handlerOutcome`. */
  method LogStreamUnary(callLogger: CallLogger, requests: StreamIterator<Value>, pulls: nat, handlerOutcome: Result<Value>)
    returns (r: Result<Value>)
    requires callLogger.Valid() && requests.Valid()
    modifies callLogger, requests
    ensures callLogger.Valid() && r == handlerOutcome
    ensures requests.pos == old(requests.pos) + Min(pulls, |requests.stream.items| - old(requests.pos))
    ensures callLogger.State() == AfterClose(
      LoggerState(old(callLogger.closed),
                  old(callLogger.trace) + seq(requests.pos - old(requests.pos), _ => StreamingRequest(callLogger.methodName))),
      callLogger.side, callLogger.methodName, callLogger.infoEnabled, Raised(handlerOutcome))
  {
    var logged := new LoggingRequestIterator(callLogger, requests);
    var n := 0;
    while n < pulls
      invariant logged.Valid() && n <= pulls
      invariant requests.pos == old(requests.pos) + Min(n, |requests.stream.items| - old(requests.pos))
      invariant callLogger.closed == old(callLogger.closed)
      invariant callLogger.trace == old(callLogger.trace) + seq(requests.pos - old(requests.pos), _ => StreamingRequest(callLogger.methodName))
    {
      var _ := logged.Next();
      n := n + 1;
    }
    r := handlerOutcome;
    callLogger.Exit(Raised(r));
  }

  function Min(a: int, b: int): int {
    if a <= b then a else b
  }

  // ---------------------------------------------------------------------------
  // Client side

  /** What a client interceptor returns for a call with a unary response. */
  datatype FutureCall = UntouchedFuture(inner: InnerFuture<Value>) | LoggedFuture(future: LoggingResponseCallFuture<Value>)

  /** `intercept_unary_unary` and `intercept_stream_unary`: with logging
      enabled, a logger announces the call; when the continuation raises, the
      logger is closed with that exception before it propagates; otherwise
      its future comes back wrapped. A streamed request is passed on wrapped
      in a logging request wrapped. */
  method InterceptUnaryResponse(enabled: bool, rpc: string, requests: Option<StreamIterator<Value>>,
                                continuation: Result<InnerFuture<Value>>)
    returns (r: Result<FutureCall>, callLogger: Option<CallLogger>, requestWrapper: Option<LoggingRequestIterator<Value>>)
    ensures !enabled ==>
      && callLogger.None? && requestWrapper.None?
      && r == (if continuation.Failure? then Failure(continuation.error) else Success(UntouchedFuture(continuation.value)))
    ensures enabled ==>
      && callLogger.Some? && fresh(callLogger.value) && callLogger.value.Valid()
      && callLogger.value.side == Client && callLogger.value.methodName == rpc
    ensures enabled && requests.Some? ==>
      && requestWrapper.Some? && fresh(requestWrapper.value)
      && requestWrapper.value.inner == requests.value && requestWrapper.value.callLogger == callLogger.value
    ensures enabled && continuation.Failure? ==>
      && r == Failure(continuation.error)
      && callLogger.value.State() == LoggerState(true, [CallStarting(rpc)] + CloseRecords(Client, rpc, false, Some(continuation.error)))
    ensures enabled && continuation.Success? ==>
      && r.Success? && r.value.LoggedFuture? && fresh(r.value.future)
      && r.value.future.callLogger == callLogger.value && r.value.future.inner == continuation.value
      && callLogger.value.State() == LoggerState(false, [CallStarting(rpc)])
  {
    requestWrapper := None;
    if !enabled {
      callLogger := None;
      if continuation.Failure? {
        return Failure(continuation.error), callLogger, requestWrapper;
      }
      return Success(UntouchedFuture(continuation.value)), callLogger, requestWrapper;
    }
    var logger := new CallLogger(Client, rpc, false);
    callLogger := Some(logger);
    if requests.Some? {
      var wrapper := new LoggingRequestIterator(logger, requests.value);
      requestWrapper := Some(wrapper);
    }
    if continuation.Failure? {
      logger.Close(Some(continuation.error));
      return Failure(continuation.error), callLogger, requestWrapper;
    }
    var future := new LoggingResponseCallFuture(logger, continuation.value);
    r := Success(LoggedFuture(future));
  }

  /** What a client interceptor returns for a call with a streamed response. */
  datatype IteratorCall = UntouchedIterator(inner: Stream<Value>) | LoggedIterator(wrapped: LoggingResponseIterator<Value>)

  /** `intercept_unary_stream` and `intercept_stream_stream`: as above, with
      the response stream wrapped in a logging response wrapped. */
  method InterceptStreamingResponse(enabled: bool, rpc: string, requests: Option<StreamIterator<Value>>,
                                    continuation: Result<Stream<Value>>)
    returns (r: Result<IteratorCall>, callLogger: Option<CallLogger>, requestWrapper: Option<LoggingRequestIterator<Value>>)
    ensures !enabled ==>
      && callLogger.None? && requestWrapper.None?
      && r == (if continuation.Failure? then Failure(continuation.error) else Success(UntouchedIterator(continuation.value)))
    ensures enabled ==>
      && callLogger.Some? && fresh(callLogger.value) && callLogger.value.Valid()
      && callLogger.value.side == Client && callLogger.value.methodName == rpc
    ensures enabled && requests.Some? ==>
      && requestWrapper.Some? && fresh(requestWrapper.value)
      && requestWrapper.value.inner == requests.value && requestWrapper.value.callLogger == callLogger.value
    ensures enabled && continuation.Failure? ==>
      && r == Failure(continuation.error)
      && callLogger.value.State() == LoggerState(true, [CallStarting(rpc)] + CloseRecords(Client, rpc, false, Some(continuation.error)))
    ensures enabled && continuation.Success? ==>
      && r.Success? && r.value.LoggedIterator? && fresh(r.value.wrapped)
      && r.value.wrapped.callLogger == callLogger.value && r.value.wrapped.Valid()
      && r.value.wrapped.inner.stream == continuation.value && r.value.wrapped.inner.pos == 0
      && callLogger.value.State() == LoggerState(false, [CallStarting(rpc)])
  {
    requestWrapper := None;
    if !enabled {
      callLogger := None;
      if continuation.Failure? {
        return Failure(continuation.error), callLogger, requestWrapper;
      }
      return Success(UntouchedIterator(continuation.value)), callLogger, requestWrapper;
    }
    var logger := new CallLogger(Client, rpc, false);
    callLogger := Some(logger);
    if requests.Some? {
      var wrapper := new LoggingRequestIterator(logger, requests.value);
      requestWrapper := Some(wrapper);
    }
    if continuation.Failure? {
      logger.Close(Some(continuation.error));
      return Failure(continuation.error), callLogger, requestWrapper;
    }
    var inner := new StreamIterator(continuation.value);
    var wrapped := new LoggingResponseIterator(logger, inner);
    r := Success(LoggedIterator(wrapped));
  }
}
