# Measurement plug-in service core, modelled in Dafny

This project models the core of the NI measurement plug-in SDK for Python,
the part that hosts a user's measurement function as a gRPC measurement
service (version 3 of the MeasurementService API). It covers four pieces.

- **The gRPC servicer** (`Servicer`).
  - The per-call `MeasurementServiceContext`: completion, cancellation,
    cancel callbacks and `abort`.
  - The context slot that `Measure` publishes the context in.
  - `frame_metadata_dict`.
  - The binder `_get_mapping_by_parameter_name`, which turns the decoded
    configuration values into keyword arguments.
  - `GetMetadata`, `Measure` and the message-type check.
- **The call-logging interceptors** (`Loggers`).
  - A call logger that is closed exactly once, however a call ends.
  - The request and response wrappers that drive it.
  - The server interceptor's dispatch on the handler's shape.
  - The four client interceptors.
  - `_get_status_code`.
- **The `MeasurementService` object** (`Service`).
  - Choosing the service entry and resolving the version from a parsed
    `.serviceconfig` record.
  - Registering configurations, inputs, outputs and the measurement function.
  - The annotation rules for configuration parameters.
  - `listen` and `close_service`.
  - The guard of `reserve_session(s)`.
- **The type tables** (`Info`).
  - `DataType` and `TypeSpecialization`.
  - `MonikerType.to_url`.
  - The `ServiceInfo` defaults and `_from_grpc`.

Two shared modules support them:
- `Runtime` holds Python and gRPC values: results, exceptions and status codes.
- `Dicts` models a Python dict as an insertion-ordered list of pairs.

Objects that the source updates in place are classes with `modifies` clauses:
- the call context and the context slot;
- the call logger and the iterator wrappers;
- the measurement service.

The rest is functions and lemmas. What the loggers write, to `logging` and to
trace logging, becomes a trace of events appended to the logger.

Two behaviours of the code are easy to misread, and the model follows the code:
- `abort` has no completion check and always forwards to the transport.
  `cancel` and the cancel callbacks do nothing once the call is complete
  (grpc_servicer.py:71 and :78). See `Servicer.MeasurementServiceContext.Abort`.
- The binder's second loop does not respect the bindings made by annotation
  (Finding 3). Its own comments (grpc_servicer.py:146 and :149) limit the
  positional rules to a parameter that "doesn't have a type", so annotated
  parameters were meant to keep their binding.

## Model

| member | source | states |
|---|---|---|
| Info.DefaultServiceInfo | packages/service/ni_measurement_plugin_sdk_service/measurement/info.py:28-68 | A `ServiceInfo` given only its class and description URL provides the v1 MeasurementService interface and has empty annotations, an empty display name and no versions. |
| Info.FromGrpcCopiesAllFields | packages/service/ni_measurement_plugin_sdk_service/measurement/info.py:72-81 | `_from_grpc` copies all six fields of the discovery ServiceDescriptor unchanged. |
| Info.SpecializationValue | packages/service/ni_measurement_plugin_sdk_service/measurement/info.py:84-91 | A specialization's string value is empty exactly for `NoType`. |
| Info.SpecializationValuesDistinct | packages/service/ni_measurement_plugin_sdk_service/measurement/info.py:87-91 | No two specializations share a value. |
| Info.DataTypeValue | packages/service/ni_measurement_plugin_sdk_service/measurement/info.py:94-125 | Every `DataType` value lies in 0..14 or 100..112. |
| Info.DataTypeFromValue | packages/service/ni_measurement_plugin_sdk_service/measurement/info.py:94-125 | Looking a value up gives the member with that value, and fails exactly outside 0..14 and 100..112. |
| Info.DataTypeValuesDistinct | packages/service/ni_measurement_plugin_sdk_service/measurement/info.py:97-125 | Lookup by value inverts `value`, so no two members share a value. |
| Info.Array1DLayout | packages/service/ni_measurement_plugin_sdk_service/measurement/info.py:97-125 | Exactly the codes 0..12 have a 1-D array type. It is numbered 100 above them and its element type is the scalar again. The 2-D types 13 and 14 have none. |
| Info.ElementTypeLayout | packages/service/ni_measurement_plugin_sdk_service/measurement/info.py:113-125 | Exactly the codes from 100 up are 1-D array types, and each is the array type of its element type. |
| Info.ToUrlLayout | packages/service/ni_measurement_plugin_sdk_service/measurement/info.py:138-150 | Every moniker URL starts with `type.googleapis.com/`. ScalarData and ScalarArray are under `ni.measurements.data.v1`. The other four are under `ni.protobuf.types`. |
| Info.ToUrlInjective | packages/service/ni_measurement_plugin_sdk_service/measurement/info.py:138-150 | The six monikers have pairwise distinct URLs. |
| Dicts.Assign | packages/service/ni_measurement_plugin_sdk_service/measurement/service.py:425 | `d[k] = v` keeps the keys unique. An existing key keeps its place, and a new key goes at the end. |
| Dicts.AssignGet | packages/service/ni_measurement_plugin_sdk_service/measurement/service.py:453 | After `d[k] = v`, looking up `k` gives `v` and every other key is as before. |
| Servicer.MeasurementServiceContext.constructor | packages/service/ni_measurement_plugin_sdk_service/_internal/grpc_servicer.py:34-44 | A new context holds the transport, the pin map context and the owner, and is not complete. |
| Servicer.MeasurementServiceContext.MarkComplete | packages/service/ni_measurement_plugin_sdk_service/_internal/grpc_servicer.py:46-48 | The context is complete afterwards. |
| Servicer.MeasurementServiceContext.AddCancelCallback | packages/service/ni_measurement_plugin_sdk_service/_internal/grpc_servicer.py:67-74 | Exactly one callback is registered with the transport, and no cancellation is requested. |
| Servicer.MeasurementServiceContext.RunCancelCallbacks | packages/service/ni_measurement_plugin_sdk_service/_internal/grpc_servicer.py:70-72 | When the transport fires its callbacks, the user callbacks run exactly when the call is not yet complete. |
| Servicer.MeasurementServiceContext.Cancel | packages/service/ni_measurement_plugin_sdk_service/_internal/grpc_servicer.py:76-79 | The transport is cancelled exactly when the call is not complete. |
| Servicer.MeasurementServiceContext.Abort | packages/service/ni_measurement_plugin_sdk_service/_internal/grpc_servicer.py:86-116 | A bare `Exception` from the transport is replaced by an RpcError carrying the abort's code and details. Any other exception propagates unchanged. |
| Servicer.CompletedCallIgnoresCancellation | packages/service/ni_measurement_plugin_sdk_service/_internal/grpc_servicer.py:46-79 | After `mark_complete`, `cancel` does not reach the transport and a later cancel callback does not invoke the user's callback. |
| Servicer.ContextSlot.Set | packages/service/ni_measurement_plugin_sdk_service/_internal/grpc_servicer.py:258-260 | Publishes the context and returns a token holding the previous value. |
| Servicer.ContextSlot.Reset | packages/service/ni_measurement_plugin_sdk_service/_internal/grpc_servicer.py:264-266 | Restores the value held by the token. |
| Servicer.FrameMetadataDict | packages/service/ni_measurement_plugin_sdk_service/_internal/grpc_servicer.py:158-165 | The keys are exactly 1..N, and key i holds the i-th parameter. |
| Servicer.AnnotatedExtend | packages/service/ni_measurement_plugin_sdk_service/_internal/grpc_servicer.py:134-141 | A signature extended by one parameter has an annotation of a kind exactly when the prefix has one or the new parameter does. |
| Servicer.BindAnnotated | packages/service/ni_measurement_plugin_sdk_service/_internal/grpc_servicer.py:134-141 | The first loop's flags are exactly "some parameter is annotated as MeasureRequest" and "some parameter is annotated as ServicerContext". Each annotated parameter is bound to the request iterator or the context, and no parameter without an annotation is bound. |
| Servicer.BindPositionally | packages/service/ni_measurement_plugin_sdk_service/_internal/grpc_servicer.py:144-153 | One step of the second loop. It binds the next parameter by the positional rules, or fails exactly when that parameter's configuration ordinal was not decoded. |
| Servicer.BindRemaining | packages/service/ni_measurement_plugin_sdk_service/_internal/grpc_servicer.py:143-155 | The second loop, under either rule, from the first loop's bindings. It succeeds exactly when every configuration ordinal the signature needs was decoded, and then returns `Bindings`. Otherwise it raises KeyError for the least undecoded ordinal, which lies in 1..count. |
| Servicer.GetMappingByParameterNameAsWritten | packages/service/ni_measurement_plugin_sdk_service/_internal/grpc_servicer.py:124-155 | The binder as written succeeds exactly when every configuration ordinal was decoded, and then returns the binding of every parameter. Otherwise it raises KeyError for the least ordinal that was not decoded, every smaller one having been decoded. |
| Servicer.GetMappingByParameterName | packages/service/ni_measurement_plugin_sdk_service/_internal/grpc_servicer.py:124-155 | The same for the binder with annotation precedence, including the KeyError for the least undecoded ordinal. |
| Servicer.BindingsExtensional | packages/service/ni_measurement_plugin_sdk_service/_internal/grpc_servicer.py:132-155 | A map that binds every parameter's name as the rules say, and nothing else, is the binding. |
| Servicer.MissingOrdinalIsLeast | packages/service/ni_measurement_plugin_sdk_service/_internal/grpc_servicer.py:150-152 | The first configuration parameter found with no decoded value carries an ordinal in 1..count, and every smaller ordinal was decoded. |
| Servicer.PassOver | packages/service/ni_measurement_plugin_sdk_service/_internal/grpc_servicer.py:144-153 | With annotation precedence, a parameter bound by annotation takes no ordinal and already holds the binding `Bindings` gives it. |
| Servicer.DecodedBefore | packages/service/ni_measurement_plugin_sdk_service/_internal/grpc_servicer.py:143-153 | Once the first i parameters are bound, every ordinal they consumed was decoded, so the first ordinal found missing is the least missing one. |
| Servicer.ConfigurationsMonotone | packages/service/ni_measurement_plugin_sdk_service/_internal/grpc_servicer.py:143-153 | The count of configuration parameters never decreases along the signature. |
| Servicer.OrdinalsIncrease | packages/service/ni_measurement_plugin_sdk_service/_internal/grpc_servicer.py:143-153 | Configuration ordinals strictly increase along the signature. |
| Servicer.OrdinalInRange | packages/service/ni_measurement_plugin_sdk_service/_internal/grpc_servicer.py:143-153 | Every configuration ordinal is in 1..(number of configuration parameters). |
| Servicer.OrdinalsCover | packages/service/ni_measurement_plugin_sdk_service/_internal/grpc_servicer.py:151-153 | Every ordinal in 1..count is used by some configuration parameter: no gaps. |
| Servicer.OrdinalsDecodedIff | packages/service/ni_measurement_plugin_sdk_service/_internal/grpc_servicer.py:151-153 | The binder finds all its values exactly when 1..count are all keys of the decoded mapping. |
| Servicer.AnnotatedAt | packages/service/ni_measurement_plugin_sdk_service/_internal/grpc_servicer.py:135-141 | A parameter's own annotation kind is among those the signature has. |
| Servicer.FirstParameterTakesRequestStream | packages/service/ni_measurement_plugin_sdk_service/_internal/grpc_servicer.py:144-147 | With no MeasureRequest annotation, position 1 takes the request iterator. As written this always holds. With annotation precedence it holds unless position 1 is annotated as the context. |
| Servicer.PositionalSlot | packages/service/ni_measurement_plugin_sdk_service/_internal/grpc_servicer.py:144-153 | Gives the slot of an unannotated parameter, and of every parameter as written. Position 1 takes the request iterator unless one is annotated. Otherwise the last position takes the context unless one is annotated. Otherwise the parameter takes a configuration value. |
| Servicer.AnnotatedRequestRebound | packages/service/ni_measurement_plugin_sdk_service/_internal/grpc_servicer.py:136-153 | A MeasureRequest-annotated parameter that is not last, or whose signature also has a context annotation, is rebound to a configuration value as written. With precedence it keeps the request iterator. |
| Servicer.AnnotatedRequestReceivesConfiguration | packages/service/ni_measurement_plugin_sdk_service/_internal/grpc_servicer.py:136-153 | For `(request: MeasureRequest, voltage: float)` with value 1 decoded, the code as written passes the configuration value as `request` and the context as `voltage`. |
| Servicer.WarnsExactlyForOtherServices | packages/service/ni_measurement_plugin_sdk_service/_internal/grpc_servicer.py:268-275 | The wrong-message-type warning is issued exactly when the request's type URL names another service's Configurations message. |
| Servicer.DataValueMetadataList | packages/service/ni_measurement_plugin_sdk_service/_internal/grpc_servicer.py:203-210 | The corrected listing gives one metadata entry per dict item, in order, with its name and URL. |
| Servicer.DataValueMetadataListed | packages/service/ni_measurement_plugin_sdk_service/_internal/grpc_servicer.py:203-210 | A (name, URL) pair is listed exactly when the dict maps that name to that URL. |
| Servicer.DataValueMetadataListAsWritten | packages/service/ni_measurement_plugin_sdk_service/_internal/grpc_servicer.py:203-210 | Iterating the dict as written yields its keys, and each key is unpacked as a (name, URL) pair. When it succeeds, it gives one entry per key. |
| Servicer.UnpackNeedsTwoCharacters | packages/service/ni_measurement_plugin_sdk_service/_internal/grpc_servicer.py:203-210 | Unpacking each key into `name, type_url` succeeds exactly when every name has two characters. |
| Servicer.AsWrittenListsNeedTwoCharacterNames | packages/service/ni_measurement_plugin_sdk_service/_internal/grpc_servicer.py:203-210 | As written, the listing succeeds exactly when every name has two characters. It never gives the intended list for a non-empty dict. |
| Servicer.VoltageOutputRaises | packages/service/ni_measurement_plugin_sdk_service/_internal/grpc_servicer.py:207-210 | An output named "Voltage" makes the listing raise `ValueError: too many values to unpack (expected 2)`. |
| Servicer.MeasurementServiceServicer.constructor | packages/service/ni_measurement_plugin_sdk_service/_internal/grpc_servicer.py:171-190 | The servicer frames the configuration list by 1..N, weakly references the owner, and derives `<service class>.Configurations` as the message type. |
| Servicer.MeasurementServiceServicer.GetMetadata | packages/service/ni_measurement_plugin_sdk_service/_internal/grpc_servicer.py:192-240 | The metadata response carries the details and one ConfigurationParameter per key i, in key order, whose fields are copied from parameter i. It also carries the serialised defaults, the corrected input and output listings, and one UI entry per path. The first failing `as_uri` propagates. |
| Servicer.MeasurementServiceServicer.MeasureAsWritten | packages/service/ni_measurement_plugin_sdk_service/_internal/grpc_servicer.py:242-256 | As written, a call warns exactly when the request's type URL is not this service's and yields nothing. It raises the decode error, or else the TypeError of the two-argument binder call, before any context is published. |
| Servicer.MeasurementServiceServicer.Measure | packages/service/ni_measurement_plugin_sdk_service/_internal/grpc_servicer.py:242-266 | With the binder given its four arguments, under the second-loop rule passed in, Measure raises the decode error or the KeyError for the least undecoded ordinal. With `AsWritten` only the call is corrected and the rebinding of annotated parameters stays. With `Intended` the binder also keeps annotated parameters bound. Otherwise it streams the routine's responses and error under a fresh context with the transport, pin map context and owner. That context is current in the slot at every response the routine yields, one record per response. It is complete afterwards, and the slot is restored on every path. A call that fails to decode or bind publishes no context. |
| Loggers.ServerLoggingCoversClient | packages/service/ni_measurement_plugin_sdk_service/grpc/loggers.py:284-313 | Client call logging being on implies server call logging is on. A server logger enabled by level, not by trace logging, writes its INFO summary. |
| Loggers.StatusCodeClassification | packages/service/ni_measurement_plugin_sdk_service/grpc/loggers.py:345-351 | None reports OK, an RpcError reports its own code, and anything else reports UNKNOWN. Only an RpcError reports a third status. |
| Loggers.CloseRecords | packages/service/ni_measurement_plugin_sdk_service/grpc/loggers.py:321-334 | `_close` ends with the call-complete record. It adds the responded summary first exactly for a server logger with INFO enabled. |
| Loggers.CloseCompletesOnce | packages/service/ni_measurement_plugin_sdk_service/grpc/loggers.py:294-334 | One `_close` completes the call exactly once in the trace. |
| Loggers.CloseIsIdempotent | packages/service/ni_measurement_plugin_sdk_service/grpc/loggers.py:248-255 | Any series of closes on an open logger emits the records of exactly one `_close`, with the outcome of the first close. |
| Loggers.ClosedLoggerStaysPut | packages/service/ni_measurement_plugin_sdk_service/grpc/loggers.py:251-253 | Closing a closed logger again changes nothing. |
| Loggers.CallLogger.constructor | packages/service/ni_measurement_plugin_sdk_service/grpc/loggers.py:314-319 | A new logger is open and has announced the call. |
| Loggers.CallLogger.Close | packages/service/ni_measurement_plugin_sdk_service/grpc/loggers.py:248-255 | Only the first close emits. The logger is closed afterwards and the call is complete exactly once in its trace. |
| Loggers.CallLogger.Exit | packages/service/ni_measurement_plugin_sdk_service/grpc/loggers.py:264-270 | Leaving `with` closes the logger with the in-flight exception, or with None. |
| Loggers.CallLogger.LogStreamingRequest | packages/service/ni_measurement_plugin_sdk_service/grpc/loggers.py:336-338 | Appends one streaming-request record. The closed flag is unchanged. The client's version (lines 298-300) does the same. |
| Loggers.CallLogger.LogStreamingResponse | packages/service/ni_measurement_plugin_sdk_service/grpc/loggers.py:340-342 | Appends one streaming-response record. The closed flag is unchanged. The client's version (lines 302-304) does the same. |
| Loggers.LoggingRequestIterator.Next | packages/service/ni_measurement_plugin_sdk_service/grpc/loggers.py:367-370 | Each request is passed on unchanged with one streaming-request record. The end of the stream passes through unlogged, and the logger is never closed. |
| Loggers.LoggingResponseIterator.Next | packages/service/ni_measurement_plugin_sdk_service/grpc/loggers.py:383-395 | Each response is passed on unchanged with one streaming-response record. Exhaustion closes the logger with None. An error closes it with that error and is re-raised. `_LoggingResponseCallIterator.__next__` (lines 473-485) is the same code. |
| Loggers.LoggingResponseIterator.Drain | packages/service/ni_measurement_plugin_sdk_service/grpc/loggers.py:373-395 | Consuming a stream of n remaining items delivers them in order. It logs n response records, then closes once with the stream's end. |
| Loggers.LoggingResponseCallFuture.Result | packages/service/ni_measurement_plugin_sdk_service/grpc/loggers.py:423-427 | Returns or raises the inner result and closes the logger with what it raised. |
| Loggers.LoggingResponseCallFuture.Exception | packages/service/ni_measurement_plugin_sdk_service/grpc/loggers.py:429-431 | Returns the inner `exception()` and closes the logger with None, or with what that accessor raised. |
| Loggers.LoggingResponseCallFuture.Traceback | packages/service/ni_measurement_plugin_sdk_service/grpc/loggers.py:433-435 | Returns the inner `traceback()` and closes the logger with None, or with what that accessor raised. |
| Loggers.InterceptService | packages/service/ni_measurement_plugin_sdk_service/grpc/loggers.py:134-178 | Disabled, the continuation's handler comes back untouched. Enabled, a missing handler is returned as None. |
| Loggers.InterceptServiceWrapsFirstShape | packages/service/ni_measurement_plugin_sdk_service/grpc/loggers.py:146-176 | Enabled, a handler is wrapped at its first set shape, in the order unary-unary, unary-stream, stream-unary, stream-stream, keeping that behaviour. A handler with no shape raises `RuntimeError("Invalid RpcMethodHandler")`. |
| Loggers.LogUnaryUnary | packages/service/ni_measurement_plugin_sdk_service/grpc/loggers.py:180-188 | The handler's outcome is passed on, and the logger is closed with what it raised. |
| Loggers.LogStreamingResponse | packages/service/ni_measurement_plugin_sdk_service/grpc/loggers.py:190-233 | A handler call that raises closes the logger with that exception, which propagates. Otherwise its response stream comes back wrapped from the start, with the logger still open. For a streamed request the requests are wrapped too. |
| Loggers.LogStreamUnary | packages/service/ni_measurement_plugin_sdk_service/grpc/loggers.py:205-215 | A handler that pulls k requests logs one request record per request it actually got. The handler's outcome is passed on, and the logger is then closed with what it raised. |
| Loggers.InterceptUnaryResponse | packages/service/ni_measurement_plugin_sdk_service/grpc/loggers.py:41-101 | The unary-unary and stream-unary client interceptors. Disabled, they return the continuation's result untouched. Enabled, they announce the call and wrap streamed requests. A raising continuation closes the logger with the exception before it propagates. Otherwise the future comes back wrapped with the logger open. |
| Loggers.InterceptStreamingResponse | packages/service/ni_measurement_plugin_sdk_service/grpc/loggers.py:61-123 | The same for the unary-stream and stream-stream client interceptors, with the response iterator wrapped. |
| Service.SelectServicePicksFirstMatch | packages/service/ni_measurement_plugin_sdk_service/measurement/service.py:194-203 | Selection succeeds exactly when some entry matches. With no class given, every entry matches. It picks the first match. A failure is a RuntimeError. |
| Service.ResolveVersion | packages/service/ni_measurement_plugin_sdk_service/measurement/service.py:205-218 | The resolved version is the config's version when present, otherwise "". A non-empty parameter that differs from a present config version raises the mismatch RuntimeError. A non-empty parameter warns. |
| Service.ConvertAnnotations | packages/service/ni_measurement_plugin_sdk_service/measurement/service.py:228-243 | The service annotations have the config's keys, and string values are kept as they are. |
| Service.ServiceInfoOf | packages/service/ni_measurement_plugin_sdk_service/measurement/service.py:233-243 | The service info carries the entry's class and display name, the resolved version as its only version, and the config's annotation keys. |
| Service.NewMeasurementService | packages/service/ni_measurement_plugin_sdk_service/measurement/service.py:194-258 | `__init__` on a parsed config raises the selection or version error. Otherwise it builds the two info records, with nothing registered, running or cached. |
| Service.EnumValues | packages/service/ni_measurement_plugin_sdk_service/measurement/service.py:517-521 | The name-to-value dict filled member by member has unique keys. |
| Service.EnumAnnotationRules | packages/service/ni_measurement_plugin_sdk_service/measurement/service.py:509-523 | An enum is refused exactly when no member has the value 0. With distinct names, JSON receives exactly the members in order. |
| Service.ZeroValueFound | packages/service/ni_measurement_plugin_sdk_service/measurement/service.py:516-517 | The zero-value test holds exactly when some member's value is 0. |
| Service.EnumValuesOfDistinctNames | packages/service/ni_measurement_plugin_sdk_service/measurement/service.py:517-521 | Filling the dict from members with distinct names gives the members themselves. |
| Service.AnyZeroValue | packages/service/ni_measurement_plugin_sdk_service/measurement/service.py:514-519 | The forward scan finds a member of value 0 exactly when the enum has one. |
| Service.EnumToAnnotationsValue | packages/service/ni_measurement_plugin_sdk_service/measurement/service.py:509-523 | The loops compute the enum-values annotation: refused without a zero member, and `{}` for a type that is no enum. |
| Service.AnnotationsRules | packages/service/ni_measurement_plugin_sdk_service/measurement/service.py:490-507 | Only an enum parameter can be refused, and only for a missing or zero-less enum type. An accepted parameter gets exactly its specialization's keys, with the specialization recoverable from its value. Pin and I/O resource parameters always record the instrument type verbatim. |
| Service.MakeAnnotationsDict | packages/service/ni_measurement_plugin_sdk_service/measurement/service.py:490-507 | The incremental build computes those annotations. |
| Service.CloseServiceIsIdempotent | packages/service/ni_measurement_plugin_sdk_service/measurement/service.py:540-548 | After `close_service` the service, pool and discovery client are cleared and the session management client is kept. Only a running service is stopped, and a second call changes nothing. |
| Service.MeasurementService.constructor | packages/service/ni_measurement_plugin_sdk_service/measurement/service.py:249-258 | Nothing is registered, running or cached. |
| Service.MeasurementService.RegisterMeasurement | packages/service/ni_measurement_plugin_sdk_service/measurement/service.py:320-321 | Records the function and returns it unchanged. Nothing else changes. |
| Service.MeasurementService.Configuration | packages/service/ni_measurement_plugin_sdk_service/measurement/service.py:368-402 | Warns for the deprecated pin types. Double2DArray, DoubleXYData, DoubleXYDataArray1D and String2DArray are refused with ValueError, as is a failed annotation build, and then the list is unchanged. Otherwise exactly the new parameter is appended. |
| Service.MeasurementService.Input | packages/service/ni_measurement_plugin_sdk_service/measurement/service.py:425 | Sets `inputs[name] := to_url(type)`, overwriting a name registered before. Every other name and everything else are unchanged. |
| Service.MeasurementService.Output | packages/service/ni_measurement_plugin_sdk_service/measurement/service.py:453 | The same for the outputs. |
| Service.MeasurementService.ChannelPool | packages/service/ni_measurement_plugin_sdk_service/measurement/service.py:265-272 | The pool exists afterwards, created only if missing. |
| Service.MeasurementService.DiscoveryClient | packages/service/ni_measurement_plugin_sdk_service/measurement/service.py:274-281 | The discovery client and its pool exist afterwards. |
| Service.MeasurementService.SessionManagementClient | packages/service/ni_measurement_plugin_sdk_service/measurement/service.py:291-301 | The session management client exists afterwards, with its discovery client and pool if it was newly created. |
| Service.MeasurementService.Listen | packages/service/ni_measurement_plugin_sdk_service/measurement/service.py:460-481 | The intended `listen`. It raises when no function is registered, and when a service is already running. Otherwise it records a service started with everything registered, having created the discovery client. A start error propagates with the service still recorded. |
| Service.MeasurementService.ListenAsWritten | packages/service/ni_measurement_plugin_sdk_service/measurement/service.py:460-481 | `listen` as written refuses only a running service. Otherwise it records and starts a service hosting the stored function, which is the not-registered sentinel when nothing was registered, and creates the discovery client first. A start error propagates with the service still recorded. |
| Service.UnregisteredListenStartsAsWritten | packages/service/ni_measurement_plugin_sdk_service/measurement/service.py:466-481 | With nothing registered, `listen` as written succeeds and hosts the sentinel, where the intended `listen` refuses with the not-registered RuntimeError. |
| Service.NotRegisteredFunctionRaises | packages/service/ni_measurement_plugin_sdk_service/measurement/service.py:260-263 | The sentinel takes no parameters, so under either binder every ordinal it needs is decoded. Calling it ends with the not-registered RuntimeError. |
| Service.MeasurementService.CloseService | packages/service/ni_measurement_plugin_sdk_service/measurement/service.py:531-548 | Stops the running service and closes the pool, if present. Then it clears both and the discovery client. |
| Service.MeasurementService.Exit | packages/service/ni_measurement_plugin_sdk_service/measurement/service.py:554-563 | Leaving `with` closes the service and does not suppress the exception. |
| Service.ListenAgainAfterClose | packages/service/ni_measurement_plugin_sdk_service/measurement/service.py:533-535 | After `close_service`, `listen` succeeds again with the registered function. |
| Service.ReserveSessions | packages/service/ni_measurement_plugin_sdk_service/measurement/service.py:118-151 | An empty name or list is refused with ValueError before the session management service is called. Anything else goes to it. |

## Left out

- Concurrency: the locks in `_CallLogger` and `MeasurementService`, and the
  isolation a ContextVar gives between concurrent calls. The model is
  sequential: one logger with a flag, and one context slot with set/reset
  tokens.
- The async-generator machinery of `Measure`. The routine's output is a
  finite list of responses that may end in an exception.
- `Measure` receives the request as one MeasureRequest record. The code reads
  `configuration_parameters` and `pin_map_context` directly from it although
  the RPC is stream-stream, so on a real call `_validate_parameters`
  (grpc_servicer.py:270) fails with AttributeError on the request iterator
  before anything is decoded. The model does not capture that failure.
- Service.MeasurementService.Listen, Service.MeasurementService.ListenAsWritten,
  Service.MeasurementService.Input and Service.MeasurementService.Output: `listen` hands the service's input and
  output dicts to the servicer by reference, so an input or output registered
  after `listen` shows in the running service's GetMetadata. The model's
  `HostedService` holds the values at `listen` time, so that aliasing is not
  captured. The configuration list is framed into a new dict when the
  servicer is built, so it is not shared.
- Service.ReserveSessions: the names are a string or a list. Python's
  `not pin_or_relay_names` is false for any generator or other iterator, even
  an empty one, so such an argument is passed on unchecked. Iterables that are
  not lists are not modelled.
- Service.MeasurementService.CloseService: stopping the gRPC service or
  closing the pool is assumed not to raise. In the source an exception there
  propagates and leaves the service, pool and discovery client set.
- Loggers.StatusCodeClassification: every RpcError is taken to carry a code.
  A bare `grpc.RpcError` without `code()` would make `_close` raise
  AttributeError.
- `time_remaining`, elapsed times and the `%.4f ms` formatting: clocks and
  floating point.
- The text and the sink of each log line. A record names its kind, the method
  and, for the server summary, the status.
- Several collaborators are given as function parameters and are not
  interpreted. They are:
  - the parameter encoder and decoder, `Path.as_uri` and `json.dumps`;
  - the data type table `_datatypeinfo.get_type_info`;
  - `ParameterMetadata.initialize`, which the model takes to be the record
    constructor, with no checks of the default value;
  - session reservation itself.
- Reading the `.serviceconfig` file: the model starts from the parsed list of
  service entries. A missing required field, an empty entry (falsy in
  Python) and a non-string "version" are not modelled.
- `service_manager.GrpcService` (server construction, ports, discovery
  registration) and the generated stubs. `listen` records what it starts
  and `close_service` records what it stops.
- `service_location`, `get_channel`, and the proxies of `MeasurementContext`
  other than the reservation guard: they only forward to foreign calls.
- Enums with non-integer values, and `_is_protobuf_enum`'s descriptor test.
  The kind of enum is given.
- The identity decorators returned by `configuration`, `input` and `output`
  are not modelled as values. `Service.MeasurementService.Configuration`
  returns `Success(())` in their place.
- The inner iterator of a logging wrapper keeps reporting its end once past
  the last item.
- `__getattr__` forwarding on the future and iterator wrappers.

## Findings

| source | as written | input that shows it | evidently intended | confidence | as-written member | corrected member |
|---|---|---|---|---|---|---|
| packages/service/ni_measurement_plugin_sdk_service/_internal/grpc_servicer.py:203-210 | `for name, type_url in self._input_parameters` iterates the dict's keys and unpacks each key string into two names | an output registered as "Voltage": `ValueError: too many values to unpack (expected 2)`; every name not exactly two characters long fails | iterate `.items()`, one DataValueMetadata per (name, URL) | high, not executed | `Servicer.DataValueMetadataListAsWritten`, `Servicer.AsWrittenListsNeedTwoCharacterNames`, `Servicer.VoltageOutputRaises` | `Servicer.DataValueMetadataList`, `Servicer.DataValueMetadataListed` |
| packages/service/ni_measurement_plugin_sdk_service/_internal/grpc_servicer.py:254-256 | `_get_mapping_by_parameter_name(mapping_by_id, self._measure_function)`; the function takes four arguments (lines 124-129) | on the record-shaped request the model assumes, any Measure call that decodes: TypeError, missing 'context' and 'measure_function'. On the real stream-stream RPC the request is an iterator, and line 270 raises AttributeError before this point | pass `mapping_by_id, request, context, self._measure_function` | medium, not executed | `Servicer.MeasurementServiceServicer.MeasureAsWritten` | `Servicer.MeasurementServiceServicer.Measure` with rule `AsWritten` |
| packages/service/ni_measurement_plugin_sdk_service/_internal/grpc_servicer.py:144-153 | the second loop rebinds every parameter by position, including those bound by annotation in the first loop | `def measure(request: MeasureRequest, voltage: float)` with value 1 decoded: `request` gets the configuration value and `voltage` the context | a parameter bound by annotation keeps its binding; the positional rules apply to the others | medium, not executed | `Servicer.GetMappingByParameterNameAsWritten`, `Servicer.AnnotatedRequestRebound`, `Servicer.AnnotatedRequestReceivesConfiguration` | `Servicer.GetMappingByParameterName`, `Servicer.MeasurementServiceServicer.Measure` with rule `Intended` |
| packages/service/ni_measurement_plugin_sdk_service/measurement/service.py:467 | `self._measure_function is self._raise_measurement_method_not_registered`; each access of a method through the instance builds a new bound-method object, so this identity test is never true | `listen()` with no function registered: no RuntimeError, and the service starts hosting the sentinel, so every Measure call fails instead | compare with `==`, which holds for bound methods of the same function and instance, and raise the not-registered RuntimeError | high, not executed | `Service.MeasurementService.ListenAsWritten`, `Service.UnregisteredListenStartsAsWritten` | `Service.MeasurementService.Listen` |
