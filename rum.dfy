/** The RUM wrapper (DdRumWrapper): forwards views, actions, resources and
    errors to the native RUM module, applying the registered event mappers and
    remembering the last started action for the old `stopAction` signature.
    Native calls are recorded, in order, in a ghost call log; WARN-level
    internal logs and telemetry debug messages in a ghost diagnostics log. */
module Rum {

  import opened Wrappers
  import opened JsValues
  import opened EventMappers

  const DropResourceKey: string := "_dd.resource.drop_resource"
  const DropActionKey: string := "_dd.action.drop_action"
  const ErrorSourceTypeKey: string := "_dd.error.source_type"
  const ReactNativeSourceType: string := "react-native"

  const OldSignatureTelemetry: string := "DDdRum.stopAction called with the old signature"
  const StopBeforeStartWarning: string := "DdRum.startAction needs to be called before DdRum.stopAction"
  const WrongArgumentsWarning: string := "DdRum.stopAction was called with wrong arguments"

  /** The event an action mapper sees. `actionContext` is the gesture event
      addAction may be given, an opaque value the native call never carries. */
  datatype ActionEvent = ActionEvent(actionType: string, name: string, context: Context, timestampMs: real,
                                     actionContext: Option<JsValue>)
  /** The event a resource mapper sees. `resourceContext` is the request
      object stopResource may be given, opaque in the same way. */
  datatype ResourceEvent = ResourceEvent(key: string, statusCode: int, kind: string, size: int,
                                         context: Context, timestampMs: real, resourceContext: Option<JsValue>)
  datatype ErrorEvent = ErrorEvent(message: string, source: string, stacktrace: string,
                                   context: Context, timestampMs: real, fingerprint: string)

  /** One call into the native RUM module. */
  datatype NativeRumCall =
    | StartView(key: string, viewName: string, context: Context, timestampMs: real)
    | StopView(key: string, context: Context, timestampMs: real)
    | StartAction(actionType: string, name: string, context: Context, timestampMs: real)
    | StopAction(actionType: string, name: string, context: Context, timestampMs: real)
    | AddAction(actionType: string, name: string, context: Context, timestampMs: real)
    | StartResource(key: string, httpMethod: string, url: string, context: Context, timestampMs: real)
    | StopResource(key: string, statusCode: int, kind: string, size: int, context: Context, timestampMs: real)
    | AddError(message: string, source: string, stacktrace: string, context: Context,
               timestampMs: real, fingerprint: string)
    | AddTiming(timingName: string)
    | StopSession
    | AddFeatureFlagEvaluation(flagName: string, value: JsValue)

  datatype Diagnostic = Warn(message: string) | TelemetryDebug(message: string)

  /** The native arguments of a stopAction call. */
  datatype StopActionArgs = StopActionArgs(actionType: string, name: string, context: Context, timestampMs: real)

  /** The identifier kinds generateUUID accepts; `Unsupported` stands for any
      other value reaching it from untyped code. */
  datatype TracingIdType = TraceIdType | SpanIdType | Unsupported
  datatype TracingIdFormat = Decimal | PaddedHex
  /** Which identifier generateUUID draws and how it renders it. */
  datatype UuidPlan = UuidPlan(generatesTraceId: bool, format: TracingIdFormat, warns: bool)

  // ----- argument handling -----

  /** isNewStopActionAPI: the first argument is a string. */
  predicate IsNewStopActionAPI(args: seq<JsValue>) {
    TypeOf(Arg(args, 0)) == "string"
  }

  /** isOldStopActionAPI: the first argument is an object (null included) or
      undefined. */
  predicate IsOldStopActionAPI(args: seq<JsValue>) {
    TypeOf(Arg(args, 0)) == "object" || TypeOf(Arg(args, 0)) == "undefined"
  }

  /** What the TypeScript signature of stopAction demands of the arguments the
      source does not inspect at run time: in the new form the name is a string
      and the timestamp a number or absent; in the old form the timestamp is a
      number or absent. */
  predicate StopActionArgsTyped(args: seq<JsValue>) {
    if IsNewStopActionAPI(args) then Arg(args, 1).Str? && IsOptNumber(Arg(args, 3))
    else if IsOldStopActionAPI(args) then IsOptNumber(Arg(args, 1))
    else true
  }

  /** `timestampMs || now`: a falsy timestamp (absent or 0) is replaced by the
      time provider's current time. */
  function TimestampOr(timestampMs: JsValue, now: real): real
    requires IsOptNumber(timestampMs)
  {
    if Truthy(timestampMs) then timestampMs.n else now
  }

  /** A `context: object = {}` parameter: the default applies to undefined. */
  function ContextOrEmpty(context: JsValue): JsValue {
    if context.Undefined? then Obj(map[]) else context
  }

  /** getStopActionNativeCallArgs, with the diagnostic it emits. */
  function GetStopActionNativeCallArgs(
    args: seq<JsValue>, lastActionData: Option<(string, string)>,
    validate: JsValue -> Context, now: real
  ): (r: (Option<StopActionArgs>, Option<Diagnostic>))
    requires StopActionArgsTyped(args)
    ensures IsNewStopActionAPI(args) ==>
      r == (Some(StopActionArgs(args[0].s, args[1].s, validate(Arg(args, 2)),
                                TimestampOr(Arg(args, 3), now))), None)
    ensures IsOldStopActionAPI(args) && lastActionData.Some? ==>
      r == (Some(StopActionArgs(lastActionData.value.0, lastActionData.value.1,
                                validate(Arg(args, 0)), TimestampOr(Arg(args, 1), now))),
            Some(TelemetryDebug(OldSignatureTelemetry)))
    ensures IsOldStopActionAPI(args) && lastActionData.None? ==>
      r == (None, Some(Warn(StopBeforeStartWarning)))
    ensures !IsNewStopActionAPI(args) && !IsOldStopActionAPI(args) ==>
      r == (None, Some(Warn(WrongArgumentsWarning)))
  {
    if IsNewStopActionAPI(args) then
      (Some(StopActionArgs(args[0].s, args[1].s, validate(Arg(args, 2)),
                           TimestampOr(Arg(args, 3), now))), None)
    else if IsOldStopActionAPI(args) then
      match lastActionData
      case Some((actionType, name)) =>
        (Some(StopActionArgs(actionType, name, validate(Arg(args, 0)), TimestampOr(Arg(args, 1), now))),
         Some(TelemetryDebug(OldSignatureTelemetry)))
      case None => (None, Some(Warn(StopBeforeStartWarning)))
    else
      (None, Some(Warn(WrongArgumentsWarning)))
  }

  // ----- the native call each operation makes -----

  /** callNativeStopAction: the context is validated once more before the
      mapper sees it; a dropped action still stops natively, with the drop
      marker as its only context. */
  function CallNativeStopAction(mapper: EventMapper<ActionEvent>, validate: JsValue -> Context,
                                a: StopActionArgs): (call: NativeRumCall)
    ensures call.StopAction?
    ensures var raw := ActionEvent(a.actionType, a.name, validate(Obj(a.context)), a.timestampMs, None);
      && (mapper.Apply(raw).None? ==>
            call == StopAction(a.actionType, a.name, map[DropActionKey := Bool(true)], a.timestampMs))
      && (mapper.Apply(raw).Some? ==> var e := mapper.Apply(raw).value;
            call == StopAction(e.actionType, e.name, e.context, e.timestampMs))
  {
    match mapper.Apply(ActionEvent(a.actionType, a.name, validate(Obj(a.context)), a.timestampMs, None))
    case None => StopAction(a.actionType, a.name, map[DropActionKey := Bool(true)], a.timestampMs)
    case Some(e) => StopAction(e.actionType, e.name, e.context, e.timestampMs)
  }

  /** addAction: a dropped action makes no native call. */
  function AddActionCall(mapper: EventMapper<ActionEvent>, event: ActionEvent): (call: Option<NativeRumCall>)
    ensures call.None? <==> mapper.Apply(event).None?
    ensures call.Some? ==> var e := mapper.Apply(event).value;
      call.value == AddAction(e.actionType, e.name, e.context, e.timestampMs)
  {
    match mapper.Apply(event)
    case None => None
    case Some(e) => Some(AddAction(e.actionType, e.name, e.context, e.timestampMs))
  }

  /** stopResource: exactly one native call; a dropped resource keeps its key,
      status, kind, size and timestamp and carries only the drop marker. */
  function StopResourceCall(mapper: EventMapper<ResourceEvent>, event: ResourceEvent): (call: NativeRumCall)
    ensures call.StopResource?
    ensures mapper.Apply(event).None? ==>
      call == StopResource(event.key, event.statusCode, event.kind, event.size,
                           map[DropResourceKey := Bool(true)], event.timestampMs)
    ensures mapper.Apply(event).Some? ==> var e := mapper.Apply(event).value;
      call == StopResource(e.key, e.statusCode, e.kind, e.size, e.context, e.timestampMs)
  {
    match mapper.Apply(event)
    case None =>
      StopResource(event.key, event.statusCode, event.kind, event.size,
                   map[DropResourceKey := Bool(true)], event.timestampMs)
    case Some(e) => StopResource(e.key, e.statusCode, e.kind, e.size, e.context, e.timestampMs)
  }

  /** addError: the raw event's fingerprint defaults to ""; after mapping, the
      context is marked with the react-native error source type. */
  function AddErrorCall(
    mapper: EventMapper<ErrorEvent>, message: string, source: string, stacktrace: string,
    context: Context, timestampMs: real, fingerprint: Option<string>
  ): (call: Option<NativeRumCall>)
    ensures var raw := ErrorEvent(message, source, stacktrace, context, timestampMs, fingerprint.GetOr(""));
      && (call.None? <==> mapper.Apply(raw).None?)
      && (call.Some? ==> var e := mapper.Apply(raw).value;
            call.value == AddError(e.message, e.source, e.stacktrace,
                                   e.context[ErrorSourceTypeKey := Str(ReactNativeSourceType)],
                                   e.timestampMs, e.fingerprint))
  {
    var raw := ErrorEvent(message, source, stacktrace, context, timestampMs, fingerprint.GetOr(""));
    match mapper.Apply(raw)
    case None => None
    case Some(e) =>
      Some(AddError(e.message, e.source, e.stacktrace,
                    e.context[ErrorSourceTypeKey := Str(ReactNativeSourceType)], e.timestampMs, e.fingerprint))
  }

  /** generateUUID: a trace id rendered as padded hex, or a span id rendered as
      decimal; any other type warns and falls back to a span id. */
  function GenerateUUID(idType: TracingIdType): (plan: UuidPlan)
    ensures plan.generatesTraceId <==> idType == TraceIdType
    ensures plan.format == PaddedHex <==> plan.generatesTraceId
    ensures plan.warns <==> idType == Unsupported
  {
    match idType
    case TraceIdType => UuidPlan(true, PaddedHex, false)
    case SpanIdType => UuidPlan(false, Decimal, false)
    case Unsupported => UuidPlan(false, Decimal, true)
  }

  /** getCurrentSessionId: undefined until the SDK is initialised. */
  function GetCurrentSessionId(isInitialized: bool, nativeSessionId: Option<string>): (r: Option<string>)
    ensures !isInitialized ==> r.None?
    ensures isInitialized ==> r == nativeSessionId
  {
    if isInitialized then nativeSessionId else None
  }

  /** The wrapper. `validate` is the context validator every context goes
      through; every timestamp default comes from the `now` argument, the
      value the time provider returns at the call. */
  class DdRumWrapper {
    const validate: JsValue -> Context
    var lastActionData: Option<(string, string)>
    var errorEventMapper: EventMapper<ErrorEvent>
    var resourceEventMapper: EventMapper<ResourceEvent>
    var actionEventMapper: EventMapper<ActionEvent>
    ghost var calls: seq<NativeRumCall>
    ghost var diagnostics: seq<Diagnostic>

    constructor (validate: JsValue -> Context)
      ensures this.validate == validate
      ensures lastActionData.None?
      ensures errorEventMapper.Identity? && resourceEventMapper.Identity? && actionEventMapper.Identity?
      ensures calls == [] && diagnostics == []
    {
      this.validate := validate;
      lastActionData := None;
      errorEventMapper := Identity;
      resourceEventMapper := Identity;
      actionEventMapper := Identity;
      calls := [];
      diagnostics := [];
    }

    method StartView(key: string, name: string, context: JsValue, timestampMs: Option<real>, now: real)
      modifies this
      ensures calls == old(calls) + [NativeRumCall.StartView(key, name, validate(ContextOrEmpty(context)), timestampMs.GetOr(now))]
      ensures lastActionData == old(lastActionData) && diagnostics == old(diagnostics)
      ensures Mappers() == old(Mappers())
    {
      calls := calls + [NativeRumCall.StartView(key, name, validate(ContextOrEmpty(context)), timestampMs.GetOr(now))];
    }

    method StopView(key: string, context: JsValue, timestampMs: Option<real>, now: real)
      modifies this
      ensures calls == old(calls) + [NativeRumCall.StopView(key, validate(ContextOrEmpty(context)), timestampMs.GetOr(now))]
      ensures lastActionData == old(lastActionData) && diagnostics == old(diagnostics)
      ensures Mappers() == old(Mappers())
    {
      calls := calls + [NativeRumCall.StopView(key, validate(ContextOrEmpty(context)), timestampMs.GetOr(now))];
    }

    /** startAction remembers the action for the old stopAction signature. */
    method StartAction(actionType: string, name: string, context: JsValue, timestampMs: Option<real>, now: real)
      modifies this
      ensures lastActionData == Some((actionType, name))
      ensures calls == old(calls) + [NativeRumCall.StartAction(actionType, name, validate(ContextOrEmpty(context)),
                                                 timestampMs.GetOr(now))]
      ensures diagnostics == old(diagnostics) && Mappers() == old(Mappers())
    {
      lastActionData := Some((actionType, name));
      calls := calls + [NativeRumCall.StartAction(actionType, name, validate(ContextOrEmpty(context)), timestampMs.GetOr(now))];
    }

    /** stopAction, either signature. Every call forgets the remembered action. */
    method StopAction(args: seq<JsValue>, now: real)
      requires StopActionArgsTyped(args)
      modifies this
      ensures lastActionData.None?
      ensures var (nativeArgs, diagnostic) := GetStopActionNativeCallArgs(args, old(lastActionData), validate, now);
        && calls == old(calls) + (if nativeArgs.Some? then [CallNativeStopAction(actionEventMapper, validate, nativeArgs.value)] else [])
        && diagnostics == old(diagnostics) + (if diagnostic.Some? then [diagnostic.value] else [])
      ensures Mappers() == old(Mappers())
    {
      var (nativeArgs, diagnostic) := GetStopActionNativeCallArgs(args, lastActionData, validate, now);
      lastActionData := None;
      if diagnostic.Some? {
        diagnostics := diagnostics + [diagnostic.value];
      }
      if nativeArgs.Some? {
        calls := calls + [CallNativeStopAction(actionEventMapper, validate, nativeArgs.value)];
      }
    }

    method AddAction(actionType: string, name: string, context: JsValue, timestampMs: Option<real>, now: real,
                     actionContext: Option<JsValue>)
      modifies this
      ensures var call := AddActionCall(actionEventMapper,
                ActionEvent(actionType, name, validate(ContextOrEmpty(context)), timestampMs.GetOr(now), actionContext));
        calls == old(calls) + (if call.Some? then [call.value] else [])
      ensures lastActionData == old(lastActionData) && diagnostics == old(diagnostics)
      ensures Mappers() == old(Mappers())
    {
      var call := AddActionCall(actionEventMapper,
        ActionEvent(actionType, name, validate(ContextOrEmpty(context)), timestampMs.GetOr(now), actionContext));
      if call.Some? {
        calls := calls + [call.value];
      }
    }

    method StartResource(key: string, method_: string, url: string, context: JsValue,
                         timestampMs: Option<real>, now: real)
      modifies this
      ensures calls == old(calls) + [NativeRumCall.StartResource(key, method_, url, validate(ContextOrEmpty(context)),
                                                   timestampMs.GetOr(now))]
      ensures lastActionData == old(lastActionData) && diagnostics == old(diagnostics)
      ensures Mappers() == old(Mappers())
    {
      calls := calls + [NativeRumCall.StartResource(key, method_, url, validate(ContextOrEmpty(context)), timestampMs.GetOr(now))];
    }

    /** stopResource: the size defaults to -1. */
    method StopResource(key: string, statusCode: int, kind: string, size: Option<int>, context: JsValue,
                        timestampMs: Option<real>, now: real, resourceContext: Option<JsValue>)
      modifies this
      ensures calls == old(calls) + [StopResourceCall(resourceEventMapper,
                ResourceEvent(key, statusCode, kind, size.GetOr(-1), validate(ContextOrEmpty(context)),
                              timestampMs.GetOr(now), resourceContext))]
      ensures lastActionData == old(lastActionData) && diagnostics == old(diagnostics)
      ensures Mappers() == old(Mappers())
    {
      calls := calls + [StopResourceCall(resourceEventMapper,
        ResourceEvent(key, statusCode, kind, size.GetOr(-1), validate(ContextOrEmpty(context)),
                      timestampMs.GetOr(now), resourceContext))];
    }

    method AddError(message: string, source: string, stacktrace: string, context: JsValue,
                    timestampMs: Option<real>, fingerprint: Option<string>, now: real)
      modifies this
      ensures var call := AddErrorCall(errorEventMapper, message, source, stacktrace,
                validate(ContextOrEmpty(context)), timestampMs.GetOr(now), fingerprint);
        calls == old(calls) + (if call.Some? then [call.value] else [])
      ensures lastActionData == old(lastActionData) && diagnostics == old(diagnostics)
      ensures Mappers() == old(Mappers())
    {
      var call := AddErrorCall(errorEventMapper, message, source, stacktrace,
        validate(ContextOrEmpty(context)), timestampMs.GetOr(now), fingerprint);
      if call.Some? {
        calls := calls + [call.value];
      }
    }

    method AddTiming(name: string)
      modifies this
      ensures calls == old(calls) + [NativeRumCall.AddTiming(name)]
      ensures lastActionData == old(lastActionData) && diagnostics == old(diagnostics)
      ensures Mappers() == old(Mappers())
    {
      calls := calls + [NativeRumCall.AddTiming(name)];
    }

    method StopSession()
      modifies this
      ensures calls == old(calls) + [NativeRumCall.StopSession]
      ensures lastActionData == old(lastActionData) && diagnostics == old(diagnostics)
      ensures Mappers() == old(Mappers())
    {
      calls := calls + [NativeRumCall.StopSession];
    }

    /** addFeatureFlagEvaluation wraps the value as `{ value }`. */
    method AddFeatureFlagEvaluation(name: string, value: JsValue)
      modifies this
      ensures calls == old(calls) + [NativeRumCall.AddFeatureFlagEvaluation(name, Obj(map["value" := value]))]
      ensures lastActionData == old(lastActionData) && diagnostics == old(diagnostics)
      ensures Mappers() == old(Mappers())
    {
      calls := calls + [NativeRumCall.AddFeatureFlagEvaluation(name, Obj(map["value" := value]))];
    }

    /** The three registered mappers, for "nothing else changes" clauses. */
    function Mappers(): (EventMapper<ErrorEvent>, EventMapper<ResourceEvent>, EventMapper<ActionEvent>)
      reads this
    {
      (errorEventMapper, resourceEventMapper, actionEventMapper)
    }

    method RegisterErrorEventMapper(callback: ErrorEvent -> Option<ErrorEvent>)
      modifies this`errorEventMapper
      ensures errorEventMapper == UserMapper(callback)
    {
      errorEventMapper := UserMapper(callback);
    }

    method UnregisterErrorEventMapper()
      modifies this`errorEventMapper
      ensures errorEventMapper == Identity
    {
      errorEventMapper := Identity;
    }

    method RegisterResourceEventMapper(callback: ResourceEvent -> Option<ResourceEvent>)
      modifies this`resourceEventMapper
      ensures resourceEventMapper == UserMapper(callback)
    {
      resourceEventMapper := UserMapper(callback);
    }

    method UnregisterResourceEventMapper()
      modifies this`resourceEventMapper
      ensures resourceEventMapper == Identity
    {
      resourceEventMapper := Identity;
    }

    method RegisterActionEventMapper(callback: ActionEvent -> Option<ActionEvent>)
      modifies this`actionEventMapper
      ensures actionEventMapper == UserMapper(callback)
    {
      actionEventMapper := UserMapper(callback);
    }

    method UnregisterActionEventMapper()
      modifies this`actionEventMapper
      ensures actionEventMapper == Identity
    {
      actionEventMapper := Identity;
    }
  }

  // ----- properties -----

  /** An old-signature stopAction with no remembered action makes no native
      call and only warns. */
  lemma OldStopActionWithoutStartIsSilent(
    args: seq<JsValue>, validate: JsValue -> Context, now: real
  )
    requires StopActionArgsTyped(args) && IsOldStopActionAPI(args)
    ensures GetStopActionNativeCallArgs(args, None, validate, now) == (None, Some(Warn(StopBeforeStartWarning)))
  {
  }

  /** The two signatures are exclusive, and the old one covers calls with no
      arguments and a null first argument. */
  lemma StopActionSignaturesExclusive(args: seq<JsValue>)
    ensures !(IsNewStopActionAPI(args) && IsOldStopActionAPI(args))
    ensures args == [] || Arg(args, 0) == Null ==> IsOldStopActionAPI(args)
    ensures IsNewStopActionAPI(args) <==> |args| > 0 && args[0].Str?
  {
  }

  /** `||` replaces an explicit 0 timestamp by the current time. */
  lemma ZeroTimestampIsReplaced(actionType: string, name: string, validate: JsValue -> Context, now: real)
    ensures var args := [Str(actionType), Str(name), Undefined, Num(0.0)];
      GetStopActionNativeCallArgs(args, None, validate, now).0.value.timestampMs == now
  {
  }

  /** A dropped resource still produces its one native stopResource, which
      differs from the undropped one only in its context. */
  lemma DroppedResourceOnlyLosesContext(event: ResourceEvent)
    ensures var dropped := StopResourceCall(UserMapper(_ => None), event);
            var kept := StopResourceCall(Identity, event);
      && dropped.context == map[DropResourceKey := Bool(true)]
      && kept.context == event.context
      && dropped.key == kept.key && dropped.statusCode == kept.statusCode && dropped.kind == kept.kind
      && dropped.size == kept.size && dropped.timestampMs == kept.timestampMs
  {
  }

  /** Dropping an action: addAction emits nothing, stopAction emits the marker. */
  lemma DroppedActionAsymmetry(a: StopActionArgs, validate: JsValue -> Context)
    ensures var drop := UserMapper((_: ActionEvent) => None);
      && AddActionCall(drop, ActionEvent(a.actionType, a.name, a.context, a.timestampMs, None)).None?
      && CallNativeStopAction(drop, validate, a) ==
           StopAction(a.actionType, a.name, map[DropActionKey := Bool(true)], a.timestampMs)
  {
  }

  /** A mapper that drops actions carrying a gesture event drops an addAction
      given one, while the same action through stopAction reaches the mapper
      without a gesture and is kept. */
  lemma GestureOnlyReachesAddAction(a: StopActionArgs, validate: JsValue -> Context, gesture: JsValue)
    ensures var m := UserMapper((e: ActionEvent) => if e.actionContext.Some? then None else Some(e));
      && AddActionCall(m, ActionEvent(a.actionType, a.name, a.context, a.timestampMs, Some(gesture))).None?
      && CallNativeStopAction(m, validate, a) ==
           StopAction(a.actionType, a.name, validate(Obj(a.context)), a.timestampMs)
  {
  }

  /** With no error mapper, the native error keeps every field (fingerprint
      "" when absent) and gains only the source-type attribute. */
  lemma ErrorWithoutMapperGainsSourceType(
    message: string, source: string, stacktrace: string, context: Context,
    timestampMs: real, fingerprint: Option<string>
  )
    ensures var call := AddErrorCall(Identity, message, source, stacktrace, context, timestampMs, fingerprint);
      && call.Some?
      && call.value.context.Keys == context.Keys + {ErrorSourceTypeKey}
      && call.value.context[ErrorSourceTypeKey] == Str(ReactNativeSourceType)
      && (forall k :: k in context && k != ErrorSourceTypeKey ==> call.value.context[k] == context[k])
      && call.value.fingerprint == (if fingerprint.Some? then fingerprint.value else "")
  {
  }

  /** Scenario: startAction, then two old-signature stopActions; only the first
      stopAction reaches the native side. */
  method StartThenStopTwice(rum: DdRumWrapper, actionType: string, name: string, now: real)
    modifies rum
    ensures |rum.calls| == |old(rum.calls)| + 2
    ensures rum.calls[|rum.calls| - 1].StopAction?
    ensures rum.actionEventMapper.Identity? ==>
      rum.calls[|rum.calls| - 1] == StopAction(actionType, name, rum.validate(Obj(rum.validate(Undefined))), now)
    ensures rum.diagnostics == old(rum.diagnostics) +
      [TelemetryDebug(OldSignatureTelemetry), Warn(StopBeforeStartWarning)]
    ensures rum.lastActionData.None?
  {
    rum.StartAction(actionType, name, Undefined, None, now);
    rum.StopAction([], now);
    rum.StopAction([], now);
  }
}
