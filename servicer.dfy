/** The measurement service's gRPC servicer: the per-call context handed to the
    measurement routine, the binding of a call's data to the routine's
    parameters, and the two RPCs, GetMetadata and Measure. */
module Servicer {
  import opened Runtime
  import opened Dicts
  import Info

  // ---------------------------------------------------------------------------
  // The per-call context

  /** The transport's per-call object (a grpc.ServicerContext), reduced to what
      the measurement context does with it. */
  class GrpcContext {
    /** How many calls of `cancel()` reached the transport. */
    var cancelRequests: nat
    /** The user callbacks wrapped and registered with `add_callback`, by identifier. */
    var callbacks: seq<nat>
    /** The exception gRPC's own `abort(code, details)` raises. */
    const abortRaises: Exception

    constructor(abortRaises: Exception)
      ensures cancelRequests == 0 && callbacks == [] && this.abortRaises == abortRaises
    {
      cancelRequests := 0;
      callbacks := [];
      this.abortRaises := abortRaises;
    }
  }

  /** A weak reference: `target` becomes None once its referent is collected. */
  class WeakReference {
    var target: Option<object>

    constructor(target: object)
      ensures this.target == Some(target)
    {
      this.target := Some(target);
    }
  }

  /** The measurement service's per-call state (MeasurementServiceContext). */
  class MeasurementServiceContext {
    const grpcContext: GrpcContext
    /** The caller's pin map context, as decoded from the request. */
    const pinMapContext: Value
    const owner: Option<WeakReference>
    var isComplete: bool

    constructor(grpcContext: GrpcContext, pinMapContext: Value, owner: Option<WeakReference>)
      ensures this.grpcContext == grpcContext && this.pinMapContext == pinMapContext
      ensures this.owner == owner && !isComplete
    {
      this.grpcContext := grpcContext;
      this.pinMapContext := pinMapContext;
      this.owner := owner;
      isComplete := false;
    }

    /** `mark_complete` */
    method MarkComplete()
      modifies this
      ensures isComplete
    {
      isComplete := true;
    }

    /** The `owner` property: the service, or None when there is none or it was collected. */
    function Owner(): (o: Option<object>)
      reads if owner.Some? then {owner.value} else {}
    {
      if owner.None? then None else owner.value.target
    }

    /** `add_cancel_callback`: registers with the transport a wrapper around `callback`. */
    method AddCancelCallback(callback: nat)
      modifies grpcContext
      ensures grpcContext.callbacks == old(grpcContext.callbacks) + [callback]
      ensures grpcContext.cancelRequests == old(grpcContext.cancelRequests)
    {
      grpcContext.callbacks := grpcContext.callbacks + [callback];
    }

    /** gRPC running the registered wrappers: each calls its user callback only
        while the call is not complete, so after `mark_complete` none is called. */
    method RunCancelCallbacks() returns (invoked: seq<nat>)
      ensures invoked == if isComplete then [] else grpcContext.callbacks
    {
      invoked := [];
      var registered := grpcContext.callbacks;
      for i := 0 to |registered|
        invariant invoked == if isComplete then [] else registered[..i]
      {
        if !isComplete {
          invoked := invoked + [registered[i]];
        }
      }
    }

    /** `cancel`: reaches the transport only while the call is not complete. */
    method Cancel()
      modifies grpcContext
      ensures grpcContext.cancelRequests == old(grpcContext.cancelRequests) + (if isComplete then 0 else 1)
      ensures grpcContext.callbacks == old(grpcContext.callbacks)
    {
      if !isComplete {
        grpcContext.cancelRequests := grpcContext.cancelRequests + 1;
      }
    }

    /** `abort`: the exception the call ends with. A bare `Exception` from gRPC is
        replaced by a CustomRpcError carrying `code` and `details`, so that the
        logging interceptors can read them; any other exception propagates as is.
        There is no completion check here. */
    method Abort(code: StatusCode, details: string) returns (raised: Exception)
      ensures grpcContext.abortRaises.BareException? ==> raised == RpcError(code, details)
      ensures !grpcContext.abortRaises.BareException? ==> raised == grpcContext.abortRaises
    {
      var e := grpcContext.abortRaises;
      if e.BareException? {
        raised := RpcError(code, details);
      } else {
        raised := e;
      }
    }
  }

  /** What `ContextVar.reset` restores. */
  datatype Token = Token(previous: Option<MeasurementServiceContext>)

  /** The `measurement_service_context` context variable, as seen by one call. */
  class ContextSlot {
    var current: Option<MeasurementServiceContext>

    constructor()
      ensures current == None
    {
      current := None;
    }

    method Set(c: MeasurementServiceContext) returns (token: Token)
      modifies this
      ensures current == Some(c) && token == Token(old(current))
    {
      token := Token(current);
      current := Some(c);
    }

    method Reset(token: Token)
      modifies this
      ensures current == token.previous
    {
      current := token.previous;
    }
  }

  /** A scenario: once the call is complete, neither `cancel()` nor a registered
      cancel callback has any effect. */
  method CompletedCallIgnoresCancellation(c: MeasurementServiceContext, callback: nat)
    returns (invoked: seq<nat>)
    modifies c, c.grpcContext
    ensures c.grpcContext.cancelRequests == old(c.grpcContext.cancelRequests)
    ensures invoked == []
  {
    c.MarkComplete();
    c.AddCancelCallback(callback);
    c.Cancel();
    invoked := c.RunCancelCallbacks();
  }

  // ---------------------------------------------------------------------------
  // Configuration metadata

  /** One configuration parameter (ParameterMetadata). */
  datatype ParameterMetadata = ParameterMetadata(
    displayName: string,
    fieldType: int,
    repeated: bool,
    defaultValue: Value,
    annotations: map<string, string>,
    messageType: string,
    enumType: Option<Value>)

  /** `m` holds the list under the keys 1..N, entry i being the i-th parameter. */
  ghost predicate Frames<P>(m: map<int, P>, parameterList: seq<P>) {
    && (forall k :: k in m <==> 1 <= k <= |parameterList|)
    && (forall k | 1 <= k <= |parameterList| :: m[k] == parameterList[k - 1])
  }

  /** `frame_metadata_dict` */
  method FrameMetadataDict<P>(parameterList: seq<P>) returns (m: map<int, P>)
    ensures forall k :: k in m <==> 1 <= k <= |parameterList|
    ensures forall k | 1 <= k <= |parameterList| :: m[k] == parameterList[k - 1]
  {
    m := map[];
    for i := 0 to |parameterList|
      invariant forall k :: k in m <==> 1 <= k <= i
      invariant forall k | 1 <= k <= i :: m[k] == parameterList[k - 1]
    {
      m := m[i + 1 := parameterList[i]];
    }
  }

  // ---------------------------------------------------------------------------
  // Binding a call to the routine's parameters

  /** One parameter of the measurement routine: its name and the text of its
      annotation, `str(parameter.annotation)`. */
  datatype Parameter = Parameter(name: string, annotation: string)

  /** Python's `fragment in s` on strings. */
  predicate Contains(s: string, fragment: string)
    decreases |s|
  {
    if |s| < |fragment| then false
    else s[..|fragment|] == fragment || Contains(s[1..], fragment)
  }

  datatype AnnotationKind = RequestStreamAnnotation | ContextAnnotation | OtherAnnotation

  /** The first loop's test: "MeasureRequest" is looked for before "ServicerContext". */
  function AnnotationKindOf(p: Parameter): AnnotationKind {
    if Contains(p.annotation, "MeasureRequest") then RequestStreamAnnotation
    else if Contains(p.annotation, "ServicerContext") then ContextAnnotation
    else OtherAnnotation
  }

  /** Some parameter of `signature` has an annotation of this kind. */
  predicate Annotated(signature: seq<Parameter>, kind: AnnotationKind)
    decreases |signature|
  {
    |signature| > 0 && (AnnotationKindOf(signature[0]) == kind || Annotated(signature[1..], kind))
  }

  lemma {:induction false} AnnotatedExtend(signature: seq<Parameter>, p: Parameter, kind: AnnotationKind)
    ensures Annotated(signature + [p], kind) <==> Annotated(signature, kind) || AnnotationKindOf(p) == kind
    decreases |signature|
  {
    if signature != [] {
      assert (signature + [p])[1..] == signature[1..] + [p];
      AnnotatedExtend(signature[1..], p, kind);
    }
  }

  predicate UniqueNames(signature: seq<Parameter>) {
    forall i, j | 0 <= i < j < |signature| :: signature[i].name != signature[j].name
  }

  function Names(signature: seq<Parameter>): set<string> {
    set p | p in signature :: p.name
  }

  datatype Slot = RequestStreamSlot | ContextSlot | ConfigurationSlot

  /** Which binder is meant: the code as written, whose second loop rebinds every
      parameter by position alone, or the intended one, which leaves the
      parameters bound by annotation in place. */
  datatype Rule = AsWritten | Intended

  /** The slot the parameter at 0-based position `i` ends up in. Under
      `AsWritten` this is the second loop's choice, which looks at the two flags
      and the position only, never at the parameter's own annotation. */
  function SlotOf(rule: Rule, signature: seq<Parameter>, i: int): Slot
    requires 0 <= i < |signature|
  {
    if rule == Intended && AnnotationKindOf(signature[i]) == RequestStreamAnnotation then RequestStreamSlot
    else if rule == Intended && AnnotationKindOf(signature[i]) == ContextAnnotation then ContextSlot
    else if !Annotated(signature, RequestStreamAnnotation) && i == 0 then RequestStreamSlot
    else if !Annotated(signature, ContextAnnotation) && i == |signature| - 1 then ContextSlot
    else ConfigurationSlot
  }

  /** How many of the first `i` parameters take a configuration value. */
  function ConfigurationsBefore(rule: Rule, signature: seq<Parameter>, i: int): nat
    requires 0 <= i <= |signature|
  {
    if i == 0 then 0
    else ConfigurationsBefore(rule, signature, i - 1) + (if SlotOf(rule, signature, i - 1) == ConfigurationSlot then 1 else 0)
  }

  /** The configuration ordinal (`config_i`) a configuration parameter receives. */
  function OrdinalOf(rule: Rule, signature: seq<Parameter>, i: int): int
    requires 0 <= i < |signature|
  {
    ConfigurationsBefore(rule, signature, i) + 1
  }

  function ConfigurationCount(rule: Rule, signature: seq<Parameter>): nat {
    ConfigurationsBefore(rule, signature, |signature|)
  }

  /** What a parameter is bound to. */
  datatype Binding = RequestStream | Context | Configuration(ordinal: int, value: Value)

  /** Every configuration parameter's ordinal is a key of the decoded mapping. */
  predicate OrdinalsDecoded(rule: Rule, signature: seq<Parameter>, mappingById: map<int, Value>) {
    forall i | 0 <= i < |signature| && SlotOf(rule, signature, i) == ConfigurationSlot ::
      OrdinalOf(rule, signature, i) in mappingById
  }

  function BindingAt(rule: Rule, signature: seq<Parameter>, mappingById: map<int, Value>, i: int): Binding
    requires 0 <= i < |signature|
    requires SlotOf(rule, signature, i) == ConfigurationSlot ==> OrdinalOf(rule, signature, i) in mappingById
  {
    match SlotOf(rule, signature, i)
    case RequestStreamSlot => RequestStream
    case ContextSlot => Context
    case ConfigurationSlot => Configuration(OrdinalOf(rule, signature, i), mappingById[OrdinalOf(rule, signature, i)])
  }

  /** The keyword arguments the routine is called with. */
  function Bindings(rule: Rule, signature: seq<Parameter>, mappingById: map<int, Value>): map<string, Binding>
    requires UniqueNames(signature) && OrdinalsDecoded(rule, signature, mappingById)
  {
    map i | 0 <= i < |signature| :: signature[i].name := BindingAt(rule, signature, mappingById, i)
  }

  /** The binding the first loop gives an annotated parameter. */
  function AnnotatedBinding(kind: AnnotationKind): Binding {
    if kind == RequestStreamAnnotation then RequestStream else Context
  }

  /** The first loop of `_get_mapping_by_parameter_name`: the parameters
      annotated as the request iterator or the transport context are bound, and
      the loop records whether each kind was seen. */
  method BindAnnotated(signature: seq<Parameter>)
    returns (mapping: map<string, Binding>, foundRequestIterator: bool, foundContext: bool)
    requires UniqueNames(signature)
    ensures foundRequestIterator == Annotated(signature, RequestStreamAnnotation)
    ensures foundContext == Annotated(signature, ContextAnnotation)
    ensures mapping.Keys <= Names(signature)
    ensures forall j | 0 <= j < |signature| && AnnotationKindOf(signature[j]) != OtherAnnotation ::
      signature[j].name in mapping && mapping[signature[j].name] == AnnotatedBinding(AnnotationKindOf(signature[j]))
    ensures forall j | 0 <= j < |signature| && AnnotationKindOf(signature[j]) == OtherAnnotation ::
      signature[j].name !in mapping
  {
    mapping := map[];
    foundRequestIterator, foundContext := false, false;
    for i := 0 to |signature|
      invariant foundRequestIterator == Annotated(signature[..i], RequestStreamAnnotation)
      invariant foundContext == Annotated(signature[..i], ContextAnnotation)
      invariant mapping.Keys <= Names(signature)
      invariant forall j | 0 <= j < i && AnnotationKindOf(signature[j]) != OtherAnnotation ::
        signature[j].name in mapping && mapping[signature[j].name] == AnnotatedBinding(AnnotationKindOf(signature[j]))
      invariant forall j | 0 <= j < |signature| && AnnotationKindOf(signature[j]) == OtherAnnotation ::
        signature[j].name !in mapping
    {
      assert signature[..i + 1] == signature[..i] + [signature[i]];
      AnnotatedExtend(signature[..i], signature[i], RequestStreamAnnotation);
      AnnotatedExtend(signature[..i], signature[i], ContextAnnotation);
      var kind := AnnotationKindOf(signature[i]);
      if kind == RequestStreamAnnotation {
        mapping := mapping[signature[i].name := RequestStream];
        foundRequestIterator := true;
      } else if kind == ContextAnnotation {
        mapping := mapping[signature[i].name := Context];
        foundContext := true;
      }
    }
    assert signature[..|signature|] == signature;
  }

  /** A mapping that binds every parameter as `BindingAt` says is the routine's
      keyword arguments. */
  lemma BindingsExtensional(rule: Rule, signature: seq<Parameter>, mappingById: map<int, Value>, mapping: map<string, Binding>)
    requires UniqueNames(signature) && OrdinalsDecoded(rule, signature, mappingById)
    requires mapping.Keys <= Names(signature)
    requires forall j | 0 <= j < |signature| ::
      signature[j].name in mapping && mapping[signature[j].name] == BindingAt(rule, signature, mappingById, j)
    ensures mapping == Bindings(rule, signature, mappingById)
  {
    var b := Bindings(rule, signature, mappingById);
    forall name | name in mapping
      ensures name in b && mapping[name] == b[name]
    {
      var j :| 0 <= j < |signature| && signature[j].name == name;
      assert signature[j].name in b;
    }
    forall name | name in b
      ensures name in mapping
    {
      var j :| 0 <= j < |signature| && signature[j].name == name;
    }
  }

  /** `mapping` binds each of the first `i` parameters as `BindingAt` says. */
  ghost predicate BoundBefore(rule: Rule, signature: seq<Parameter>, mappingById: map<int, Value>, mapping: map<string, Binding>, i: int)
    requires 0 <= i <= |signature|
  {
    forall j | 0 <= j < i ::
      && (SlotOf(rule, signature, j) == ConfigurationSlot ==> OrdinalOf(rule, signature, j) in mappingById)
      && signature[j].name in mapping
      && mapping[signature[j].name] == BindingAt(rule, signature, mappingById, j)
  }

  /** Every ordinal the first `i` parameters consumed was decoded, so the
      first missing ordinal is the next one asked for. */
  lemma DecodedBefore(rule: Rule, signature: seq<Parameter>, mappingById: map<int, Value>, mapping: map<string, Binding>, i: int)
    requires 0 <= i <= |signature|
    requires BoundBefore(rule, signature, mappingById, mapping, i)
    ensures forall k | 1 <= k <= ConfigurationsBefore(rule, signature, i) :: k in mappingById
  {
    forall k | 1 <= k <= ConfigurationsBefore(rule, signature, i)
      ensures k in mappingById
    {
      OrdinalsCover(rule, signature, i, k);
    }
  }

  /** The first configuration parameter found without a decoded value carries
      the least undecoded ordinal, and that ordinal is in range. */
  lemma MissingOrdinalIsLeast(rule: Rule, signature: seq<Parameter>, mappingById: map<int, Value>, mapping: map<string, Binding>, i: int)
    requires 0 <= i < |signature|
    requires BoundBefore(rule, signature, mappingById, mapping, i)
    requires SlotOf(rule, signature, i) == ConfigurationSlot && OrdinalOf(rule, signature, i) !in mappingById
    ensures 1 <= OrdinalOf(rule, signature, i) <= ConfigurationCount(rule, signature)
    ensures forall k | 1 <= k < OrdinalOf(rule, signature, i) :: k in mappingById
  {
    DecodedBefore(rule, signature, mappingById, mapping, i);
    OrdinalInRange(rule, signature, i);
  }

  /** Binding the next parameter keeps the earlier ones bound, names being unique. */
  lemma BindNext(rule: Rule, signature: seq<Parameter>, mappingById: map<int, Value>, mapping: map<string, Binding>, i: int, b: Binding)
    requires UniqueNames(signature) && 0 <= i < |signature|
    requires BoundBefore(rule, signature, mappingById, mapping, i)
    requires SlotOf(rule, signature, i) == ConfigurationSlot ==> OrdinalOf(rule, signature, i) in mappingById
    requires b == BindingAt(rule, signature, mappingById, i)
    ensures BoundBefore(rule, signature, mappingById, mapping[signature[i].name := b], i + 1)
  {
  }

  /** Binding a parameter adds its name and no other key. */
  lemma KeysStayNames(signature: seq<Parameter>, mapping: map<string, Binding>, i: int, b: Binding)
    requires 0 <= i < |signature|
    requires mapping.Keys <= Names(signature)
    ensures mapping[signature[i].name := b].Keys <= Names(signature)
  {
    assert signature[i] in signature;
  }

  /** Binding a parameter that has no annotation leaves the annotated ones alone. */
  lemma KeepAnnotated(signature: seq<Parameter>, mapping: map<string, Binding>, i: int, b: Binding)
    requires UniqueNames(signature) && 0 <= i < |signature|
    requires AnnotatedFrom(signature, mapping, i)
    requires AnnotationKindOf(signature[i]) == OtherAnnotation
    ensures AnnotatedFrom(signature, mapping[signature[i].name := b], i + 1)
  {
  }

  /** The second loop's three branches, in terms of `SlotOf`. */
  lemma PositionalSlot(rule: Rule, signature: seq<Parameter>, i: int)
    requires 0 <= i < |signature|
    requires rule == AsWritten || AnnotationKindOf(signature[i]) == OtherAnnotation
    ensures SlotOf(rule, signature, i) ==
      if !Annotated(signature, RequestStreamAnnotation) && i == 0 then RequestStreamSlot
      else if !Annotated(signature, ContextAnnotation) && i == |signature| - 1 then ContextSlot
      else ConfigurationSlot
  {
  }

  /** Under the intended binder, the annotated parameters from position `i` on
      keep the binding the first loop gave them. */
  ghost predicate AnnotatedFrom(signature: seq<Parameter>, mapping: map<string, Binding>, i: int)
    requires 0 <= i <= |signature|
  {
    forall j | i <= j < |signature| && AnnotationKindOf(signature[j]) != OtherAnnotation ::
      signature[j].name in mapping && mapping[signature[j].name] == AnnotatedBinding(AnnotationKindOf(signature[j]))
  }

  /** One pass of the second loop over the parameter at position `i`:
      `missing` is the KeyError of a configuration ordinal absent from
      `mappingById`. Under `Intended`, a parameter bound by annotation is passed
      over. */
  method BindPositionally(rule: Rule, signature: seq<Parameter>, mappingById: map<int, Value>,
                          foundRequestIterator: bool, foundContext: bool,
                          mapping: map<string, Binding>, configI: int, i: int)
    returns (missing: bool, mapping': map<string, Binding>, configI': int)
    requires UniqueNames(signature) && 0 <= i < |signature|
    requires foundRequestIterator == Annotated(signature, RequestStreamAnnotation)
    requires foundContext == Annotated(signature, ContextAnnotation)
    requires configI == ConfigurationsBefore(rule, signature, i) + 1
    requires mapping.Keys <= Names(signature)
    requires BoundBefore(rule, signature, mappingById, mapping, i)
    requires rule == Intended ==> AnnotatedFrom(signature, mapping, i)
    ensures missing <==> SlotOf(rule, signature, i) == ConfigurationSlot && OrdinalOf(rule, signature, i) !in mappingById
    ensures missing ==> configI' == OrdinalOf(rule, signature, i)
    ensures !missing ==>
      && configI' == ConfigurationsBefore(rule, signature, i + 1) + 1
      && mapping'.Keys <= Names(signature)
      && BoundBefore(rule, signature, mappingById, mapping', i + 1)
      && (rule == Intended ==> AnnotatedFrom(signature, mapping', i + 1))
  {
    missing, mapping', configI' := false, mapping, configI;
    if rule == Intended && AnnotationKindOf(signature[i]) != OtherAnnotation {
      // bound by the first loop
      PassOver(signature, mappingById, mapping, i);
      return;
    }
    PositionalSlot(rule, signature, i);
    assert OrdinalOf(rule, signature, i) == configI;
    var b;
    if !foundRequestIterator && i == 0 {
      b := RequestStream;
    } else if !foundContext && i == |signature| - 1 {
      b := Context;
    } else if configI !in mappingById {
      missing := true;
      return;
    } else {
      b := Configuration(configI, mappingById[configI]);
      configI' := configI + 1;
    }
    BindStep(rule, signature, mappingById, mapping, i, b);
    mapping' := mapping[signature[i].name := b];
  }

  /** Under the intended binder, a parameter bound by annotation is passed over:
      it takes no ordinal and its binding already is the one `Bindings` gives. */
  lemma PassOver(signature: seq<Parameter>, mappingById: map<int, Value>, mapping: map<string, Binding>, i: int)
    requires UniqueNames(signature) && 0 <= i < |signature|
    requires AnnotationKindOf(signature[i]) != OtherAnnotation
    requires BoundBefore(Intended, signature, mappingById, mapping, i)
    requires AnnotatedFrom(signature, mapping, i)
    ensures SlotOf(Intended, signature, i) != ConfigurationSlot
    ensures ConfigurationsBefore(Intended, signature, i + 1) == ConfigurationsBefore(Intended, signature, i)
    ensures BoundBefore(Intended, signature, mappingById, mapping, i + 1)
    ensures AnnotatedFrom(signature, mapping, i + 1)
  {
    BindNext(Intended, signature, mappingById, mapping, i, mapping[signature[i].name]);
    assert mapping[signature[i].name := mapping[signature[i].name]] == mapping;
  }

  /** Binding the parameter at `i` by position keeps the second loop's invariants. */
  lemma BindStep(rule: Rule, signature: seq<Parameter>, mappingById: map<int, Value>, mapping: map<string, Binding>, i: int, b: Binding)
    requires UniqueNames(signature) && 0 <= i < |signature|
    requires mapping.Keys <= Names(signature)
    requires BoundBefore(rule, signature, mappingById, mapping, i)
    requires SlotOf(rule, signature, i) == ConfigurationSlot ==> OrdinalOf(rule, signature, i) in mappingById
    requires b == BindingAt(rule, signature, mappingById, i)
    requires rule == Intended ==> AnnotatedFrom(signature, mapping, i) && AnnotationKindOf(signature[i]) == OtherAnnotation
    ensures mapping[signature[i].name := b].Keys <= Names(signature)
    ensures BoundBefore(rule, signature, mappingById, mapping[signature[i].name := b], i + 1)
    ensures rule == Intended ==> AnnotatedFrom(signature, mapping[signature[i].name := b], i + 1)
  {
    BindNext(rule, signature, mappingById, mapping, i, b);
    KeysStayNames(signature, mapping, i, b);
    if rule == Intended {
      KeepAnnotated(signature, mapping, i, b);
    }
  }

  /** The second loop of `_get_mapping_by_parameter_name`, from the first
      loop's bindings and flags: each parameter in turn is bound by `BindPositionally`,
      and the first configuration ordinal missing from `mappingById` is the KeyError. */
  method BindRemaining(rule: Rule, mappingById: map<int, Value>, signature: seq<Parameter>,
                       mapping: map<string, Binding>, foundRequestIterator: bool, foundContext: bool)
    returns (r: Result<map<string, Binding>>)
    requires UniqueNames(signature)
    requires foundRequestIterator == Annotated(signature, RequestStreamAnnotation)
    requires foundContext == Annotated(signature, ContextAnnotation)
    requires mapping.Keys <= Names(signature)
    requires rule == Intended ==> AnnotatedFrom(signature, mapping, 0)
    ensures r.Success? <==> OrdinalsDecoded(rule, signature, mappingById)
    ensures r.Success? ==> r.value == Bindings(rule, signature, mappingById)
    ensures r.Failure? ==>
      exists i | 0 <= i < |signature| && SlotOf(rule, signature, i) == ConfigurationSlot ::
        OrdinalOf(rule, signature, i) !in mappingById && r.error == KeyError(OrdinalOf(rule, signature, i))
    ensures r.Failure? ==>
      && r.error.KeyError? && r.error.key !in mappingById
      && 1 <= r.error.key <= ConfigurationCount(rule, signature)
      && forall k | 1 <= k < r.error.key :: k in mappingById
  {
    var bindings, configI := mapping, 1;
    for i := 0 to |signature|
      invariant configI == ConfigurationsBefore(rule, signature, i) + 1
      invariant bindings.Keys <= Names(signature)
      invariant BoundBefore(rule, signature, mappingById, bindings, i)
      invariant rule == Intended ==> AnnotatedFrom(signature, bindings, i)
    {
      var missing, bound, next := BindPositionally(rule, signature, mappingById, foundRequestIterator, foundContext, bindings, configI, i);
      if missing {
        MissingOrdinalIsLeast(rule, signature, mappingById, bindings, i);
        return Failure(KeyError(next));
      }
      bindings, configI := bound, next;
    }
    BindingsExtensional(rule, signature, mappingById, bindings);
    return Success(bindings);
  }

  /** `_get_mapping_by_parameter_name` as written, with `signature` standing for
      the routine's `inspect.signature`; the request iterator and the transport
      context are the `RequestStream` and `Context` bindings. A missing
      configuration ordinal is the KeyError of `mapping_by_id[config_i]`. */
  method GetMappingByParameterNameAsWritten(mappingById: map<int, Value>, signature: seq<Parameter>)
    returns (r: Result<map<string, Binding>>)
    requires UniqueNames(signature)
    ensures r.Success? <==> OrdinalsDecoded(AsWritten, signature, mappingById)
    ensures r.Success? ==> r.value == Bindings(AsWritten, signature, mappingById)
    ensures r.Failure? ==>
      exists i | 0 <= i < |signature| && SlotOf(AsWritten, signature, i) == ConfigurationSlot ::
        OrdinalOf(AsWritten, signature, i) !in mappingById && r.error == KeyError(OrdinalOf(AsWritten, signature, i))
    ensures r.Failure? ==>
      && r.error.KeyError? && r.error.key !in mappingById
      && 1 <= r.error.key <= ConfigurationCount(AsWritten, signature)
      && forall k | 1 <= k < r.error.key :: k in mappingById
  {
    var mapping, foundRequestIterator, foundContext := BindAnnotated(signature);
    r := BindRemaining(AsWritten, mappingById, signature, mapping, foundRequestIterator, foundContext);
  }

  /** `_get_mapping_by_parameter_name` corrected: the second loop passes over
      the parameters the first loop bound by annotation. */
  method GetMappingByParameterName(mappingById: map<int, Value>, signature: seq<Parameter>)
    returns (r: Result<map<string, Binding>>)
    requires UniqueNames(signature)
    ensures r.Success? <==> OrdinalsDecoded(Intended, signature, mappingById)
    ensures r.Success? ==> r.value == Bindings(Intended, signature, mappingById)
    ensures r.Failure? ==>
      exists i | 0 <= i < |signature| && SlotOf(Intended, signature, i) == ConfigurationSlot ::
        OrdinalOf(Intended, signature, i) !in mappingById && r.error == KeyError(OrdinalOf(Intended, signature, i))
    ensures r.Failure? ==>
      && r.error.KeyError? && r.error.key !in mappingById
      && 1 <= r.error.key <= ConfigurationCount(Intended, signature)
      && forall k | 1 <= k < r.error.key :: k in mappingById
  {
    var mapping, foundRequestIterator, foundContext := BindAnnotated(signature);
    r := BindRemaining(Intended, mappingById, signature, mapping, foundRequestIterator, foundContext);
  }

  // ---------------------------------------------------------------------------
  // What the binder promises

  lemma {:induction false} ConfigurationsMonotone(rule: Rule, signature: seq<Parameter>, i: int, j: int)
    requires 0 <= i <= j <= |signature|
    ensures ConfigurationsBefore(rule, signature, i) <= ConfigurationsBefore(rule, signature, j)
    decreases j - i
  {
    if i < j {
      ConfigurationsMonotone(rule, signature, i, j - 1);
    }
  }

  /** Configuration parameters receive strictly increasing ordinals, so no
      ordinal is consumed twice. */
  lemma OrdinalsIncrease(rule: Rule, signature: seq<Parameter>, i: int, j: int)
    requires 0 <= i < j < |signature|
    requires SlotOf(rule, signature, i) == ConfigurationSlot
    ensures OrdinalOf(rule, signature, i) < OrdinalOf(rule, signature, j)
  {
    ConfigurationsMonotone(rule, signature, i + 1, j);
  }

  lemma OrdinalInRange(rule: Rule, signature: seq<Parameter>, i: int)
    requires 0 <= i < |signature|
    requires SlotOf(rule, signature, i) == ConfigurationSlot
    ensures 1 <= OrdinalOf(rule, signature, i) <= ConfigurationCount(rule, signature)
  {
    ConfigurationsMonotone(rule, signature, i + 1, |signature|);
  }

  /** Every ordinal from 1 to the number of configuration parameters among the
      first `n` is consumed by one of them: ordinals leave no gap. */
  lemma {:induction false} OrdinalsCover(rule: Rule, signature: seq<Parameter>, n: int, k: int)
    requires 0 <= n <= |signature| && 1 <= k <= ConfigurationsBefore(rule, signature, n)
    ensures exists i | 0 <= i < n && SlotOf(rule, signature, i) == ConfigurationSlot :: OrdinalOf(rule, signature, i) == k
    decreases n
  {
    if SlotOf(rule, signature, n - 1) == ConfigurationSlot && k == ConfigurationsBefore(rule, signature, n) {
      assert OrdinalOf(rule, signature, n - 1) == k;
    } else {
      OrdinalsCover(rule, signature, n - 1, k);
    }
  }

  /** The binder finds every ordinal it asks for exactly when the decoded
      mapping holds the ordinals 1..ConfigurationCount. */
  lemma OrdinalsDecodedIff(rule: Rule, signature: seq<Parameter>, mappingById: map<int, Value>)
    ensures OrdinalsDecoded(rule, signature, mappingById) <==>
      forall k | 1 <= k <= ConfigurationCount(rule, signature) :: k in mappingById
  {
    if OrdinalsDecoded(rule, signature, mappingById) {
      forall k | 1 <= k <= ConfigurationCount(rule, signature)
        ensures k in mappingById
      {
        OrdinalsCover(rule, signature, |signature|, k);
      }
    }
    if forall k | 1 <= k <= ConfigurationCount(rule, signature) :: k in mappingById {
      forall i | 0 <= i < |signature| && SlotOf(rule, signature, i) == ConfigurationSlot
        ensures OrdinalOf(rule, signature, i) in mappingById
      {
        ConfigurationsMonotone(rule, signature, i + 1, |signature|);
      }
    }
  }

  lemma {:induction false} AnnotatedAt(signature: seq<Parameter>, i: int)
    requires 0 <= i < |signature|
    ensures Annotated(signature, AnnotationKindOf(signature[i]))
    decreases i
  {
    if i > 0 {
      AnnotatedAt(signature[1..], i - 1);
    }
  }

  /** When no parameter is annotated as the request stream, the first parameter
      takes it; the intended binder makes an exception for a first parameter
      annotated as the context. */
  lemma FirstParameterTakesRequestStream(signature: seq<Parameter>)
    requires |signature| > 0 && !Annotated(signature, RequestStreamAnnotation)
    ensures SlotOf(AsWritten, signature, 0) == RequestStreamSlot
    ensures AnnotationKindOf(signature[0]) != ContextAnnotation ==> SlotOf(Intended, signature, 0) == RequestStreamSlot
  {
    if AnnotationKindOf(signature[0]) == RequestStreamAnnotation {
      AnnotatedAt(signature, 0);
    }
  }

  /** As written, a parameter annotated as the request stream is rebound by the
      second loop to a configuration value unless it is the last parameter and
      no parameter is annotated as the context; the intended binder gives it
      the request stream. */
  lemma AnnotatedRequestRebound(signature: seq<Parameter>, i: int)
    requires 0 <= i < |signature| && AnnotationKindOf(signature[i]) == RequestStreamAnnotation
    requires i < |signature| - 1 || Annotated(signature, ContextAnnotation)
    ensures SlotOf(AsWritten, signature, i) == ConfigurationSlot
    ensures SlotOf(Intended, signature, i) == RequestStreamSlot
  {
    AnnotatedAt(signature, i);
  }

  /** A routine `measure(request: MeasureRequest, voltage)` with the one ordinal
      1 decoded: as written it receives the configuration value in `request`,
      while the intended binder passes the request stream there. */
  lemma AnnotatedRequestReceivesConfiguration(v: Value)
    ensures var signature := [Parameter("request", "MeasureRequest"), Parameter("voltage", "float")];
      && Bindings(AsWritten, signature, map[1 := v]) == map["request" := Configuration(1, v), "voltage" := Context]
      && Bindings(Intended, signature, map[1 := v]) == map["request" := RequestStream, "voltage" := Context]
  {
    var signature := [Parameter("request", "MeasureRequest"), Parameter("voltage", "float")];
    assert AnnotationKindOf(signature[0]) == RequestStreamAnnotation;
    AnnotatedAt(signature, 0);
    assert !Annotated(signature, ContextAnnotation);
    assert SlotOf(AsWritten, signature, 0) == ConfigurationSlot;
    assert SlotOf(AsWritten, signature, 1) == ContextSlot;
    BindingsOfPair(AsWritten, signature, map[1 := v]);
    assert SlotOf(Intended, signature, 0) == RequestStreamSlot;
    assert SlotOf(Intended, signature, 1) == ContextSlot;
    BindingsOfPair(Intended, signature, map[1 := v]);
  }

  lemma BindingsOfPair(rule: Rule, signature: seq<Parameter>, mappingById: map<int, Value>)
    requires |signature| == 2 && UniqueNames(signature) && OrdinalsDecoded(rule, signature, mappingById)
    ensures Bindings(rule, signature, mappingById)
      == map[signature[0].name := BindingAt(rule, signature, mappingById, 0),
             signature[1].name := BindingAt(rule, signature, mappingById, 1)]
  {
  }

  // ---------------------------------------------------------------------------
  // Messages

  /** A google.protobuf.Any: a type URL and the serialized message. */
  datatype AnyMessage = AnyMessage(typeUrl: string, value: seq<bv8>)

  /** The fields of a MeasureRequest that Measure reads. */
  datatype MeasureRequest = MeasureRequest(configurationParameters: AnyMessage, pinMapContext: Value)

  datatype MeasurementDetails = MeasurementDetails(displayName: string, version: string)

  datatype ConfigurationParameter = ConfigurationParameter(
    fieldNumber: int,
    name: string,
    repeated: bool,
    fieldType: int,
    annotations: map<string, string>,
    messageType: string)

  datatype DataValueMetadata = DataValueMetadata(name: string, typeUrl: string)

  datatype MeasurementSignature = MeasurementSignature(
    configurationParametersMessageType: string,
    configurationParameters: seq<ConfigurationParameter>,
    configurationDefaults: seq<bv8>,
    inputs: seq<DataValueMetadata>,
    outputs: seq<DataValueMetadata>)

  datatype GetMetadataResponse = GetMetadataResponse(
    measurementDetails: MeasurementDetails,
    measurementSignature: MeasurementSignature,
    userInterfaceDetails: seq<string>)

  /** What the registered routine does when called with its keyword arguments:
      the responses it yields, then the exception it raises, if any. */
  datatype RoutineOutput = RoutineOutput(responses: seq<Value>, error: Option<Exception>)

  /** The registered measurement routine: its parameter list and its behaviour. */
  datatype MeasureFunction = MeasureFunction(signature: seq<Parameter>, run: map<string, Binding> -> RoutineOutput)

  // ---------------------------------------------------------------------------
  // Request validation

  /** The name of the configuration message of a service class. */
  function ConfigurationsMessageType(serviceClass: string): string {
    serviceClass + ".Configurations"
  }

  function ExpectedTypeUrl(messageType: string): string {
    Info.TypeUrlPrefix + messageType
  }

  /** `_validate_parameters`: whether the WrongMessageTypeWarning is issued. It
      never raises, so a mismatched request goes on to be decoded. */
  predicate WarnsWrongMessageType(messageType: string, typeUrl: string) {
    typeUrl != ExpectedTypeUrl(messageType)
  }

  /** A request packed for another service class is always warned about, and
      one packed for this service class never is. */
  lemma WarnsExactlyForOtherServices(serviceClass: string, other: string)
    ensures !WarnsWrongMessageType(ConfigurationsMessageType(serviceClass), ExpectedTypeUrl(ConfigurationsMessageType(serviceClass)))
    ensures WarnsWrongMessageType(ConfigurationsMessageType(serviceClass), ExpectedTypeUrl(ConfigurationsMessageType(other)))
      <==> other != serviceClass
  {
    var mine := ExpectedTypeUrl(ConfigurationsMessageType(serviceClass));
    var theirs := ExpectedTypeUrl(ConfigurationsMessageType(other));
    if mine == theirs {
      var n := |Info.TypeUrlPrefix|;
      assert |serviceClass| == |other|;
      assert mine[n..n + |serviceClass|] == serviceClass;
      assert theirs[n..n + |other|] == other;
    }
  }

  // ---------------------------------------------------------------------------
  // Input and output descriptors

  /** The descriptors of a dict of names to type URLs, one per entry in
      insertion order (what iterating `d.items()` yields). */
  function DataValueMetadataList(d: Dict<string, string>): (r: seq<DataValueMetadata>)
    ensures |r| == |d|
    ensures forall i | 0 <= i < |d| :: r[i] == DataValueMetadata(d[i].0, d[i].1)
  {
    if d == [] then [] else [DataValueMetadata(d[0].0, d[0].1)] + DataValueMetadataList(d[1..])
  }

  /** A descriptor is listed exactly when the dict maps its name to its type URL. */
  lemma {:induction false} DataValueMetadataListed(d: Dict<string, string>, name: string, typeUrl: string)
    requires UniqueKeys(d)
    ensures DataValueMetadata(name, typeUrl) in DataValueMetadataList(d) <==> Get(d, name) == Some(typeUrl)
  {
    if d != [] {
      assert UniqueKeys(d[1..]) by {
        forall i, j | 0 <= i < j < |d| - 1
          ensures d[1..][i].0 != d[1..][j].0
        {
          assert d[1..][i] == d[i + 1] && d[1..][j] == d[j + 1];
        }
      }
      DataValueMetadataListed(d[1..], name, typeUrl);
      assert DataValueMetadataList(d) == [DataValueMetadata(d[0].0, d[0].1)] + DataValueMetadataList(d[1..]);
      if d[0].0 == name {
        assert name !in Keys(d[1..]) by {
          forall i | 0 <= i < |d| - 1
            ensures Keys(d[1..])[i] != name
          {
            assert d[1..][i] == d[i + 1];
          }
        }
        assert Get(d[1..], name).None?;
      }
    }
  }

  /** The lists as GetMetadata builds them: iterating a dict yields its keys, not
      its entries, and unpacking a key string into `name, type_url` takes its two
      characters, or raises ValueError when it does not have exactly two. */
  function DataValueMetadataListAsWritten(d: Dict<string, string>): (r: Result<seq<DataValueMetadata>>)
    ensures r.Success? ==> |r.value| == |d|
  {
    if d == [] then Success([])
    else
      var key := d[0].0;
      if |key| > 2 then Failure(ValueError("too many values to unpack (expected 2)"))
      else if |key| == 1 then Failure(ValueError("not enough values to unpack (expected 2, got 1)"))
      else if |key| == 0 then Failure(ValueError("not enough values to unpack (expected 2, got 0)"))
      else
        match DataValueMetadataListAsWritten(d[1..])
        case Failure(e) => Failure(e)
        case Success(rest) => Success([DataValueMetadata([key[0]], [key[1]])] + rest)
  }

  /** As written, the lists are built only when every name has exactly two
      characters, and then the names and type URLs are wrong. */
  lemma {:induction false} AsWrittenListsNeedTwoCharacterNames(d: Dict<string, string>)
    ensures DataValueMetadataListAsWritten(d).Success? <==> forall i | 0 <= i < |d| :: |d[i].0| == 2
    ensures d != [] ==> DataValueMetadataListAsWritten(d) != Success(DataValueMetadataList(d))
  {
    UnpackNeedsTwoCharacters(d);
    var r := DataValueMetadataListAsWritten(d);
    if d != [] && r.Success? {
      assert |r.value[0].name| == 1 != |d[0].0|;
    }
  }

  lemma {:induction false} UnpackNeedsTwoCharacters(d: Dict<string, string>)
    ensures DataValueMetadataListAsWritten(d).Success? <==> forall i | 0 <= i < |d| :: |d[i].0| == 2
  {
    if d != [] {
      UnpackNeedsTwoCharacters(d[1..]);
      assert forall i | 0 <= i < |d| - 1 :: d[1..][i] == d[i + 1];
    }
  }

  /** An output named "Voltage" makes GetMetadata raise. */
  lemma VoltageOutputRaises()
    ensures DataValueMetadataListAsWritten([("Voltage", Info.ToUrl(Info.ScalarData))])
      == Failure(ValueError("too many values to unpack (expected 2)"))
  {
  }

  // ---------------------------------------------------------------------------
  // The servicer

  /** The message of the TypeError a call of `_get_mapping_by_parameter_name`
      with two arguments raises. */
  const MissingArgumentsMessage := "_get_mapping_by_parameter_name() missing 2 required positional arguments: 'context' and 'measure_function'"

  /** What GetMetadata reports for the configuration parameter with this field number. */
  predicate DescribesParameter(c: ConfigurationParameter, fieldNumber: int, p: ParameterMetadata) {
    && c.fieldNumber == fieldNumber
    && c.name == p.displayName
    && c.repeated == p.repeated
    && c.fieldType == p.fieldType
    && c.annotations == p.annotations
    && c.messageType == p.messageType
  }

  /** MeasurementServiceServicerV3. Its fields are set once, by the constructor. */
  class MeasurementServiceServicer {
    const configurationMetadata: map<int, ParameterMetadata>
    ghost const configurationParameterList: seq<ParameterMetadata>
    const measurementInfo: Info.MeasurementInfo
    const measureFunction: MeasureFunction
    const owner: Option<WeakReference>
    const serviceInfo: Info.ServiceInfo
    const configurationParametersMessageType: string
    const inputParameters: Dict<string, string>
    const outputParameters: Dict<string, string>

    ghost predicate Valid() {
      && Frames(configurationMetadata, configurationParameterList)
      && UniqueNames(measureFunction.signature)
    }

    constructor(measurementInfo: Info.MeasurementInfo, configurationParameterList: seq<ParameterMetadata>,
                inputParameters: Dict<string, string>, outputParameters: Dict<string, string>,
                measureFunction: MeasureFunction, owner: Option<object>, serviceInfo: Info.ServiceInfo)
      requires UniqueNames(measureFunction.signature)
      ensures Valid()
      ensures this.configurationParameterList == configurationParameterList
      ensures this.measurementInfo == measurementInfo && this.measureFunction == measureFunction
      ensures this.serviceInfo == serviceInfo
      ensures this.inputParameters == inputParameters && this.outputParameters == outputParameters
      ensures configurationParametersMessageType == ConfigurationsMessageType(serviceInfo.serviceClass)
      ensures owner.None? ==> this.owner.None?
      ensures owner.Some? ==> this.owner.Some? && fresh(this.owner.value) && this.owner.value.target == owner
    {
      var metadata := FrameMetadataDict(configurationParameterList);
      configurationMetadata := metadata;
      this.configurationParameterList := configurationParameterList;
      this.measurementInfo := measurementInfo;
      this.measureFunction := measureFunction;
      if owner.Some? {
        var reference := new WeakReference(owner.value);
        this.owner := Some(reference);
      } else {
        this.owner := None;
      }
      this.serviceInfo := serviceInfo;
      configurationParametersMessageType := ConfigurationsMessageType(serviceInfo.serviceClass);
      this.inputParameters := inputParameters;
      this.outputParameters := outputParameters;
    }

    /** GetMetadata, with the input and output lists built from the dicts'
        entries. `serializeDefaults` is the encoder of the default values and
        `asUri` is `pathlib.Path(p).as_uri()`, which raises for a relative path:
        the first such failure is the RPC's. */
    method GetMetadata(serializeDefaults: (map<int, ParameterMetadata>, string) -> seq<bv8>,
                       asUri: string -> Result<string>)
      returns (r: Result<GetMetadataResponse>)
      requires Valid()
      ensures r.Failure? <==> exists path | path in measurementInfo.uiFilePaths :: asUri(path).Failure?
      ensures r.Failure? ==>
        exists i | 0 <= i < |measurementInfo.uiFilePaths| ::
          && asUri(measurementInfo.uiFilePaths[i]) == Failure(r.error)
          && forall j | 0 <= j < i :: asUri(measurementInfo.uiFilePaths[j]).Success?
      ensures r.Success? ==>
        && r.value.measurementDetails == MeasurementDetails(measurementInfo.displayName, measurementInfo.version)
        && r.value.measurementSignature.configurationParametersMessageType == configurationParametersMessageType
        && |r.value.measurementSignature.configurationParameters| == |configurationParameterList|
        && (forall i | 0 <= i < |configurationParameterList| ::
              DescribesParameter(r.value.measurementSignature.configurationParameters[i], i + 1, configurationParameterList[i]))
        && r.value.measurementSignature.configurationDefaults == serializeDefaults(configurationMetadata, configurationParametersMessageType)
        && r.value.measurementSignature.inputs == DataValueMetadataList(inputParameters)
        && r.value.measurementSignature.outputs == DataValueMetadataList(outputParameters)
        && |r.value.userInterfaceDetails| == |measurementInfo.uiFilePaths|
        && forall i | 0 <= i < |measurementInfo.uiFilePaths| ::
             asUri(measurementInfo.uiFilePaths[i]) == Success(r.value.userInterfaceDetails[i])
    {
      var details := MeasurementDetails(measurementInfo.displayName, measurementInfo.version);
      var inputs := DataValueMetadataList(inputParameters);
      var outputs := DataValueMetadataList(outputParameters);

      var parameters: seq<ConfigurationParameter> := [];
      var fieldNumber := 1;
      while fieldNumber in configurationMetadata
        invariant 1 <= fieldNumber <= |configurationParameterList| + 1
        invariant |parameters| == fieldNumber - 1
        invariant forall i | 0 <= i < |parameters| :: DescribesParameter(parameters[i], i + 1, configurationParameterList[i])
        decreases |configurationParameterList| + 1 - fieldNumber
      {
        var metadata := configurationMetadata[fieldNumber];
        parameters := parameters + [ConfigurationParameter(fieldNumber, metadata.displayName, metadata.repeated,
                                                           metadata.fieldType, metadata.annotations, metadata.messageType)];
        fieldNumber := fieldNumber + 1;
      }

      var defaults := serializeDefaults(configurationMetadata, configurationParametersMessageType);
      var signature := MeasurementSignature(configurationParametersMessageType, parameters, defaults, inputs, outputs);

      var paths := measurementInfo.uiFilePaths;
      var uiDetails: seq<string> := [];
      for i := 0 to |paths|
        invariant |uiDetails| == i
        invariant forall j | 0 <= j < i :: asUri(paths[j]) == Success(uiDetails[j])
      {
        var uri := asUri(paths[i]);
        if uri.Failure? {
          return Failure(uri.error);
        }
        uiDetails := uiDetails + [uri.value];
      }
      return Success(GetMetadataResponse(details, signature, uiDetails));
    }

    /** Measure as written: `_get_mapping_by_parameter_name` is called with two
        arguments where it takes four, so once the request is validated and
        decoded the call raises TypeError, before any context is published and
        before the routine runs. */
    method MeasureAsWritten(request: MeasureRequest,
                            deserialize: (map<int, ParameterMetadata>, seq<bv8>, string) -> Result<map<int, Value>>)
      returns (warned: bool, responses: seq<Value>, raised: Option<Exception>)
      requires Valid()
      ensures warned == WarnsWrongMessageType(configurationParametersMessageType, request.configurationParameters.typeUrl)
      ensures responses == []
      ensures raised == Some(
        match deserialize(configurationMetadata, request.configurationParameters.value, configurationParametersMessageType)
        case Failure(e) => e
        case Success(_) => TypeError(MissingArgumentsMessage))
    {
      warned := WarnsWrongMessageType(configurationParametersMessageType, request.configurationParameters.typeUrl);
      responses := [];
      var decoded := deserialize(configurationMetadata, request.configurationParameters.value, configurationParametersMessageType);
      if decoded.Failure? {
        return warned, responses, Some(decoded.error);
      }
      raised := Some(TypeError(MissingArgumentsMessage));
    }

    /** Measure, with the binder given its four arguments: the decoded values,
        the request stream, the transport context and the routine. `rule` says
        which second loop binds: `AsWritten` keeps the source's rebinding of
        annotated parameters, `Intended` leaves them bound by annotation. The
        published context is current in `slot` for as long as the routine
        streams (`seen` holds the slot's value at each response yielded), is
        marked complete however the routine ends, and the slot is then
        restored. A failure to decode or bind ends the call before any
        context is published; the binder's KeyError names the least ordinal
        that was not decoded. */
    method Measure(rule: Rule, request: MeasureRequest, transport: GrpcContext, slot: ContextSlot,
                   deserialize: (map<int, ParameterMetadata>, seq<bv8>, string) -> Result<map<int, Value>>)
      returns (warned: bool, responses: seq<Value>, raised: Option<Exception>, published: Option<MeasurementServiceContext>,
               ghost seen: seq<Option<MeasurementServiceContext>>)
      requires Valid()
      modifies slot
      ensures warned == WarnsWrongMessageType(configurationParametersMessageType, request.configurationParameters.typeUrl)
      ensures slot.current == old(slot.current)
      ensures
        var decoded := deserialize(configurationMetadata, request.configurationParameters.value, configurationParametersMessageType);
        var signature := measureFunction.signature;
        if decoded.Failure? then
          responses == [] && raised == Some(decoded.error) && published.None? && seen == []
        else if !OrdinalsDecoded(rule, signature, decoded.value) then
          && responses == [] && published.None? && seen == []
          && raised.Some? && raised.value.KeyError?
          && 1 <= raised.value.key <= ConfigurationCount(rule, signature)
          && raised.value.key !in decoded.value
          && (forall k | 1 <= k < raised.value.key :: k in decoded.value)
        else
          var output := measureFunction.run(Bindings(rule, signature, decoded.value));
          && responses == output.responses && raised == output.error
          && published.Some? && fresh(published.value) && published.value.isComplete
          && published.value.grpcContext == transport
          && published.value.pinMapContext == request.pinMapContext
          && published.value.owner == owner
          && |seen| == |responses|
          && (forall i | 0 <= i < |seen| :: seen[i] == published)
    {
      warned := WarnsWrongMessageType(configurationParametersMessageType, request.configurationParameters.typeUrl);
      responses, published, seen := [], None, [];
      var decoded := deserialize(configurationMetadata, request.configurationParameters.value, configurationParametersMessageType);
      if decoded.Failure? {
        return warned, responses, Some(decoded.error), published, seen;
      }
      var bound;
      if rule == AsWritten {
        bound := GetMappingByParameterNameAsWritten(decoded.value, measureFunction.signature);
      } else {
        bound := GetMappingByParameterName(decoded.value, measureFunction.signature);
      }
      if bound.Failure? {
        return warned, responses, Some(bound.error), published, seen;
      }

      var context := new MeasurementServiceContext(transport, request.pinMapContext, owner);
      var token := slot.Set(context);
      var output := measureFunction.run(bound.value);
      for i := 0 to |output.responses|
        invariant responses == output.responses[..i]
        invariant slot.current == Some(context) && !context.isComplete
        invariant |seen| == i && forall j | 0 <= j < i :: seen[j] == Some(context)
      {
        // the routine runs, and yields, with the context current
        seen := seen + [slot.current];
        responses := responses + [output.responses[i]];
      }
      raised := output.error;
      // finally
      slot.current.value.MarkComplete();
      slot.Reset(token);
      published := Some(context);
    }
  }
}
