/** The logs wrapper (DdLogsWrapper): each level method decides at run time
    whether its arguments describe a log with an error, builds the raw log
    event, passes it through the registered log event mapper and calls the
    native logs module, swallowing the one native error that means the SDK is
    not initialised yet. */
module Logs {

  import opened Wrappers
  import opened JsValues
  import opened EventMappers

  const SdkNotInitializedMessage: string := "DD_INTERNAL_LOG_SENT_BEFORE_SDK_INIT"
  const ErrorSourceTypeKey: string := "_dd.error.source_type"
  /** Assumed value of the fingerprint attribute key. */
  const ErrorFingerprintKey: string := "_dd.error.fingerprint"
  const ReactNativeSourceType: string := "react-native"

  datatype LogStatus = Debug | Info | Warn | Error {
    function Name(): (r: string)
      ensures |r| >= 4
    {
      match this
      case Debug => "debug"
      case Info => "info"
      case Warn => "warn"
      case Error => "error"
    }
  }

  /** The error part of a raw log event. */
  datatype ErrorFields = ErrorFields(errorKind: Option<string>, errorMessage: Option<string>,
                                     stacktrace: Option<string>, fingerprint: string, source: Option<string>)

  /** The event the log event mapper sees; `error` is absent for plain logs. */
  datatype LogEvent = LogEvent(message: string, context: Context, status: LogStatus, error: Option<ErrorFields>)

  /** One call into the native logs module. */
  datatype NativeLogCall =
    | Plain(status: LogStatus, message: string, context: Context)
    | WithError(status: LogStatus, message: string, errorKind: Option<string>, errorMessage: Option<string>,
                stacktrace: Option<string>, context: Context)
  {
    /** The native method the call goes to: `debug` or `debugWithError`, … */
    function MethodName(): (r: string)
      ensures |r| >= |status.Name()| && r[..|status.Name()|] == status.Name()
      ensures WithError? <==> |r| > |status.Name()|
      ensures Plain? ==> r == status.Name()
      ensures WithError? ==> r == status.Name() + "WithError"
    {
      if Plain? then status.Name() else status.Name() + "WithError"
    }
  }

  /** What the native promise does: resolve, or reject with an error whose
      `message` property is given (None: no string message). */
  datatype NativeResult = NativeOk | NativeRejected(message: Option<string>)

  /** What the level method's promise does. */
  datatype LogOutcome = Resolved | Rejected(message: Option<string>)

  /** isLogWithError: any of errorKind, errorMessage, stacktrace or
      fingerprint is a string, or the fifth argument is an object (null
      included). */
  predicate IsLogWithError(args: seq<JsValue>) {
    TypeOf(Arg(args, 1)) == "string" || TypeOf(Arg(args, 2)) == "string" || TypeOf(Arg(args, 3)) == "string"
    || TypeOf(Arg(args, 4)) == "object" || TypeOf(Arg(args, 5)) == "string"
  }

  /** What the TypeScript signatures demand of the arguments the source does
      not inspect: a string message and, in the error form, optional strings
      for the fourth argument and the error source. */
  predicate LogArgsTyped(args: seq<JsValue>) {
    Arg(args, 0).Str?
    && (IsLogWithError(args) ==> IsOptString(Arg(args, 3)) && IsOptString(Arg(args, 6)))
  }

  /** The raw event a level method hands to the mapper. Only `error` forwards
      the seventh argument as the error source. */
  function RawLogEvent(status: LogStatus, args: seq<JsValue>, validate: JsValue -> Context): (e: LogEvent)
    requires LogArgsTyped(args)
    ensures e.message == args[0].s && e.status == status
    ensures e.error.Some? <==> IsLogWithError(args)
    ensures IsLogWithError(args) ==>
      && e.context == validate(Arg(args, 4))
      && e.error.value.errorKind == OptString(Arg(args, 1))
      && e.error.value.errorMessage == OptString(Arg(args, 2))
      && e.error.value.stacktrace == OptString(Arg(args, 3))
      && e.error.value.fingerprint == OptString(Arg(args, 5)).GetOr("")
      && (e.error.value.source.Some? <==> status == Error && Arg(args, 6).Str?)
      && e.error.value.source == (if status == Error then OptString(Arg(args, 6)) else None)
    ensures !IsLogWithError(args) ==> e.context == validate(Arg(args, 1))
  {
    if IsLogWithError(args) then
      LogEvent(args[0].s, validate(Arg(args, 4)), status,
        Some(ErrorFields(OptString(Arg(args, 1)), OptString(Arg(args, 2)), OptString(Arg(args, 3)),
                         OptString(Arg(args, 5)).GetOr(""),
                         if status == Error then OptString(Arg(args, 6)) else None)))
    else
      LogEvent(args[0].s, validate(Arg(args, 1)), status, None)
  }

  /** The context of a native log-with-error call: the mapped context, the
      react-native error source type, and the fingerprint the caller passed
      when that was a non-empty string. */
  function ErrorContext(mapped: Context, fingerprint: Option<string>): (c: Context)
    ensures c.Keys == mapped.Keys + {ErrorSourceTypeKey}
                        + (if fingerprint.Some? && fingerprint.value != "" then {ErrorFingerprintKey} else {})
    ensures c[ErrorSourceTypeKey] == Str(ReactNativeSourceType)
    ensures fingerprint.Some? && fingerprint.value != "" ==> c[ErrorFingerprintKey] == Str(fingerprint.value)
    ensures forall k :: k in mapped && k != ErrorSourceTypeKey && k != ErrorFingerprintKey ==> c[k] == mapped[k]
  {
    var withSource := mapped[ErrorSourceTypeKey := Str(ReactNativeSourceType)];
    if fingerprint.Some? && fingerprint.value != "" then withSource[ErrorFingerprintKey := Str(fingerprint.value)]
    else withSource
  }

  /** The native call a level method makes, if the mapper keeps the event. */
  function NativeCallFor(status: LogStatus, args: seq<JsValue>, mapper: EventMapper<LogEvent>,
                         validate: JsValue -> Context): (call: Option<NativeLogCall>)
    requires LogArgsTyped(args)
    ensures call.None? <==> mapper.Apply(RawLogEvent(status, args, validate)).None?
    ensures call.Some? ==> call.value.status == status
    ensures call.Some? ==> (call.value.WithError? <==> IsLogWithError(args))
    ensures call.Some? ==> call.value.message == mapper.Apply(RawLogEvent(status, args, validate)).value.message
    ensures call.Some? && call.value.WithError? ==>
      call.value.context == ErrorContext(mapper.Apply(RawLogEvent(status, args, validate)).value.context,
                                         OptString(Arg(args, 5)))
    ensures call.Some? && call.value.WithError? ==>
      var f := mapper.Apply(RawLogEvent(status, args, validate)).value.error.GetOr(ErrorFields(None, None, None, "", None));
      && call.value.errorKind == f.errorKind
      && call.value.errorMessage == f.errorMessage
      && call.value.stacktrace == f.stacktrace
    ensures call.Some? && call.value.Plain? ==>
      call.value.context == mapper.Apply(RawLogEvent(status, args, validate)).value.context
  {
    match mapper.Apply(RawLogEvent(status, args, validate))
    case None => None
    case Some(e) =>
      if IsLogWithError(args) then
        var fields := e.error.GetOr(ErrorFields(None, None, None, "", None));
        Some(WithError(status, e.message, fields.errorKind, fields.errorMessage, fields.stacktrace,
                       ErrorContext(e.context, OptString(Arg(args, 5)))))
      else
        Some(Plain(status, e.message, e.context))
  }

  /** How the level method's promise settles: a dropped log resolves; a native
      rejection resolves when it says the SDK is not initialised and is
      passed on otherwise. */
  function Settle(call: Option<NativeLogCall>, native: NativeResult): (o: LogOutcome)
    ensures o.Resolved? <==>
      call.None? || native.NativeOk? || native.message == Some(SdkNotInitializedMessage)
    ensures o.Rejected? ==> o.message == native.message
  {
    if call.None? then Resolved
    else match native
      case NativeOk => Resolved
      case NativeRejected(m) => if m == Some(SdkNotInitializedMessage) then Resolved else Rejected(m)
  }

  class DdLogsWrapper {
    const validate: JsValue -> Context
    var logEventMapper: EventMapper<LogEvent>
    ghost var calls: seq<NativeLogCall>

    constructor (validate: JsValue -> Context)
      ensures this.validate == validate && logEventMapper.Identity? && calls == []
    {
      this.validate := validate;
      logEventMapper := Identity;
      calls := [];
    }

    /** The body every level method shares; `native` is what the native
        module answers, should it be called. */
    method LogAt(status: LogStatus, args: seq<JsValue>, native: NativeResult) returns (outcome: LogOutcome)
      requires LogArgsTyped(args)
      modifies this`calls
      ensures var call := NativeCallFor(status, args, logEventMapper, validate);
        && calls == old(calls) + (if call.Some? then [call.value] else [])
        && outcome == Settle(call, native)
    {
      var call := NativeCallFor(status, args, logEventMapper, validate);
      if call.Some? {
        calls := calls + [call.value];
      }
      outcome := Settle(call, native);
    }

    method Debug(args: seq<JsValue>, native: NativeResult) returns (outcome: LogOutcome)
      requires LogArgsTyped(args)
      modifies this`calls
      ensures var call := NativeCallFor(LogStatus.Debug, args, logEventMapper, validate);
        && calls == old(calls) + (if call.Some? then [call.value] else [])
        && outcome == Settle(call, native)
    {
      outcome := LogAt(LogStatus.Debug, args, native);
    }

    method Info(args: seq<JsValue>, native: NativeResult) returns (outcome: LogOutcome)
      requires LogArgsTyped(args)
      modifies this`calls
      ensures var call := NativeCallFor(LogStatus.Info, args, logEventMapper, validate);
        && calls == old(calls) + (if call.Some? then [call.value] else [])
        && outcome == Settle(call, native)
    {
      outcome := LogAt(LogStatus.Info, args, native);
    }

    method Warn(args: seq<JsValue>, native: NativeResult) returns (outcome: LogOutcome)
      requires LogArgsTyped(args)
      modifies this`calls
      ensures var call := NativeCallFor(LogStatus.Warn, args, logEventMapper, validate);
        && calls == old(calls) + (if call.Some? then [call.value] else [])
        && outcome == Settle(call, native)
    {
      outcome := LogAt(LogStatus.Warn, args, native);
    }

    method Error(args: seq<JsValue>, native: NativeResult) returns (outcome: LogOutcome)
      requires LogArgsTyped(args)
      modifies this`calls
      ensures var call := NativeCallFor(LogStatus.Error, args, logEventMapper, validate);
        && calls == old(calls) + (if call.Some? then [call.value] else [])
        && outcome == Settle(call, native)
    {
      outcome := LogAt(LogStatus.Error, args, native);
    }

    method RegisterLogEventMapper(callback: LogEvent -> Option<LogEvent>)
      modifies this`logEventMapper
      ensures logEventMapper == UserMapper(callback)
    {
      logEventMapper := UserMapper(callback);
    }

    method UnregisterLogEventMapper()
      modifies this`logEventMapper
      ensures logEventMapper == Identity
    {
      logEventMapper := Identity;
    }
  }

  // ----- properties -----

  /** A message alone, or a message with a context object, is a plain log;
      a string in any of the error slots makes it a log with an error. */
  lemma LogWithErrorClassification(message: string, context: JsValue, args: seq<JsValue>)
    requires context.Obj?
    ensures !IsLogWithError([Str(message)])
    ensures !IsLogWithError([Str(message), context])
    ensures |args| > 5 && (args[1].Str? || args[2].Str? || args[3].Str? || args[5].Str?) ==> IsLogWithError(args)
    ensures IsLogWithError([Str(message), Undefined, Undefined, Undefined, Null])
  {
  }

  /** The fingerprint attribute follows the caller's argument, whatever the
      mapper does to the event's fingerprint (unless the mapper writes the
      attribute into the context itself); the source type is always there. */
  lemma FingerprintFollowsCallerArgument(args: seq<JsValue>, status: LogStatus,
                                         mapper: EventMapper<LogEvent>, validate: JsValue -> Context)
    requires LogArgsTyped(args) && IsLogWithError(args)
    requires NativeCallFor(status, args, mapper, validate).Some?
    ensures var c := NativeCallFor(status, args, mapper, validate).value.context;
      var mapped := mapper.Apply(RawLogEvent(status, args, validate)).value.context;
      && c[ErrorSourceTypeKey] == Str(ReactNativeSourceType)
      && (Arg(args, 5).Str? && Arg(args, 5).s != "" ==> c[ErrorFingerprintKey] == Arg(args, 5))
      && (!(Arg(args, 5).Str? && Arg(args, 5).s != "") ==> (ErrorFingerprintKey in c <==> ErrorFingerprintKey in mapped))
  {
  }

  /** With no mapper, a plain log reaches the native side unchanged. */
  lemma PlainLogWithoutMapper(status: LogStatus, message: string, context: JsValue, validate: JsValue -> Context)
    requires !context.Str?
    ensures NativeCallFor(status, [Str(message), context], Identity, validate)
      == Some(Plain(status, message, validate(context)))
  {
  }

  /** Without a mapper, a log with an error carries the caller's error kind,
      message and stack trace unchanged. */
  lemma ErrorLogWithoutMapper(status: LogStatus, args: seq<JsValue>, validate: JsValue -> Context)
    requires LogArgsTyped(args) && IsLogWithError(args)
    ensures NativeCallFor(status, args, Identity, validate)
      == Some(WithError(status, args[0].s, OptString(Arg(args, 1)), OptString(Arg(args, 2)), OptString(Arg(args, 3)),
                        ErrorContext(validate(Arg(args, 4)), OptString(Arg(args, 5)))))
  {
  }

  /** Levels other than `error` never give the mapper an error source. */
  lemma OnlyErrorLevelForwardsSource(status: LogStatus, args: seq<JsValue>, validate: JsValue -> Context)
    requires LogArgsTyped(args) && IsLogWithError(args) && status != Error
    ensures RawLogEvent(status, args, validate).error.value.source.None?
  {
  }

  /** Scenario: a log sent before initialisation resolves quietly, any other
      native failure reaches the caller. */
  method LogBeforeInit(logs: DdLogsWrapper, message: string, other: string) returns (early: LogOutcome, later: LogOutcome)
    requires logs.logEventMapper.Identity? && other != SdkNotInitializedMessage
    modifies logs`calls
    ensures early == Resolved
    ensures later == Rejected(Some(other))
    ensures logs.calls == old(logs.calls) + [Plain(Info, message, logs.validate(Undefined)),
                                             Plain(Info, message, logs.validate(Undefined))]
  {
    early := logs.Info([Str(message)], NativeRejected(Some(SdkNotInitializedMessage)));
    later := logs.Info([Str(message)], NativeRejected(Some(other)));
  }
}
