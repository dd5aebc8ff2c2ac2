/** The JavaScript helpers of the Datadog WebView (webview-js-utils.ts): the
    try/catch wrapper around injected user code, the event-bridge script,
    the allowed-hosts literal, and the normalisation of thrown values into a
    message and a stack trace. */
module WebViewJsUtils {

  import opened Wrappers
  import opened JsValues

  /** The result of evaluating a JavaScript expression that may throw. */
  datatype Outcome<+T> = Returns(value: T) | Throws(error: JsValue)

  /** `String(v)` (and template interpolation), which may throw for an
      object whose conversion throws. */
  type ToStr = JsValue -> Outcome<string>

  /** `String` on a string value gives that string. */
  ghost predicate KeepsStrings(toStr: ToStr) {
    forall s :: toStr(Str(s)) == Returns(s)
  }

  // ----- wrapping user code -----

  const TryOpen: string := "\n    try{\n      "
  /** The catch block both scripts end with: it posts the error message to
      the React Native side as a Datadog ERROR message. */
  const CatchBlock: string :=
    "\n    }\n    catch (error) {\n      const errorMsg = error instanceof Error ? error.message : String(error);\n"
    + "      window.ReactNativeWebView.postMessage(JSON.stringify({\n        source: 'DATADOG',\n"
    + "        type: 'ERROR',\n        message: errorMsg\n      }));\n      true;\n    }"

  /** wrapJsCodeInTryAndCatch: undefined for missing or empty code;
      otherwise the code placed inside a try block followed by the catch
      block. */
  function WrapJsCodeInTryAndCatch(javascriptCode: Option<string>): (r: Option<string>)
    ensures r.None? <==> javascriptCode.None? || javascriptCode.value == ""
    ensures r.Some? ==>
      var code := javascriptCode.value;
      && |r.value| == |TryOpen| + |code| + |CatchBlock|
      && r.value[..|TryOpen|] == TryOpen
      && r.value[|TryOpen|..|TryOpen| + |code|] == code
      && r.value[|TryOpen| + |code|..] == CatchBlock
  {
    match javascriptCode
    case None => None
    case Some(code) =>
      if code == "" then None
      else
        var wrapped := TryOpen + code + CatchBlock;
        assert wrapped[..|TryOpen|] == TryOpen;
        assert wrapped[|TryOpen|..|TryOpen| + |code|] == code;
        assert wrapped[|TryOpen| + |code|..] == CatchBlock;
        Some(wrapped)
  }

  // ----- error normalisation -----

  const EmptyMessage: string := "Unknown Error"
  const EmptyStackTrace: string := ""

  /** What getErrorMessage computes: "Unknown Error" for null or undefined,
      the converted `message` of an object that has one, or the converted
      value itself; a conversion that throws propagates. */
  function ErrorMessage(error: JsValue, toStr: ToStr): (r: Outcome<string>)
    ensures IsNullish(error) ==> r == Returns(EmptyMessage)
    ensures !IsNullish(error) && error.Obj? && "message" in error.fields ==> r == toStr(error.fields["message"])
    ensures !IsNullish(error) && !(error.Obj? && "message" in error.fields) ==> r == toStr(error)
  {
    if IsNullish(error) then Returns(EmptyMessage)
    else if TypeOf(error) == "object" && Has(error, "message") then toStr(Get(error, "message"))
    else toStr(error)
  }

  /** getErrorMessage, with its reassigned local. */
  method GetErrorMessage(error: JsValue, toStr: ToStr) returns (r: Outcome<string>)
    ensures r == ErrorMessage(error, toStr)
  {
    var message := EmptyMessage;
    if IsNullish(error) {
      message := EmptyMessage;
    } else if TypeOf(error) == "object" && Has(error, "message") {
      var converted := toStr(Get(error, "message"));
      if converted.Throws? {
        return converted;
      }
      message := converted.value;
    } else {
      var converted := toStr(error);
      if converted.Throws? {
        return converted;
      }
      message := converted.value;
    }
    return Returns(message);
  }

  /** A converted value, or the empty stack trace when the conversion throws
      (the exception is swallowed by getErrorStackTrace's catch). */
  function Caught(o: Outcome<string>): string {
    if o.Returns? then o.value else EmptyStackTrace
  }

  /** The `at url:line:col` location, or the empty stack trace when any of
      the three conversions throws. */
  function Location(error: JsValue, toStr: ToStr): (r: string)
    requires error.Obj?
    ensures r == EmptyStackTrace <==>
      (toStr(Get(error, "sourceURL")).Throws? || toStr(Get(error, "line")).Throws? || toStr(Get(error, "column")).Throws?)
    ensures r != EmptyStackTrace ==> |r| >= 3 && r[..3] == "at "
    ensures r != EmptyStackTrace ==>
      r == "at " + toStr(Get(error, "sourceURL")).value + ":" + toStr(Get(error, "line")).value
           + ":" + toStr(Get(error, "column")).value
  {
    var url := toStr(Get(error, "sourceURL"));
    var line := toStr(Get(error, "line"));
    var column := toStr(Get(error, "column"));
    if url.Returns? && line.Returns? && column.Returns?
    then "at " + url.value + ":" + line.value + ":" + column.value
    else EmptyStackTrace
  }

  /** What getErrorStackTrace computes: the empty stack trace for null,
      undefined, strings and non-objects; for an object, the first present
      of `stacktrace`, `stack` and `componentStack`, else its location when
      `sourceURL`, `line` and `column` are all present, else empty. */
  function StackTrace(error: JsValue, toStr: ToStr): (r: string)
    ensures IsNullish(error) || error.Str? || !(error.Obj? || error.Arr?) ==> r == EmptyStackTrace
    ensures error.Obj? && "stacktrace" in error.fields ==> r == Caught(toStr(error.fields["stacktrace"]))
    ensures error.Obj? && "stacktrace" !in error.fields && "stack" in error.fields ==>
      r == Caught(toStr(error.fields["stack"]))
    ensures error.Obj? && "stacktrace" !in error.fields && "stack" !in error.fields && "componentStack" in error.fields ==>
      r == Caught(toStr(error.fields["componentStack"]))
    ensures error.Obj? && "stacktrace" !in error.fields && "stack" !in error.fields && "componentStack" !in error.fields
            && "sourceURL" in error.fields && "line" in error.fields && "column" in error.fields ==>
      r == Location(error, toStr)
    ensures error.Obj? && "stacktrace" !in error.fields && "stack" !in error.fields && "componentStack" !in error.fields
            && !("sourceURL" in error.fields && "line" in error.fields && "column" in error.fields) ==>
      r == EmptyStackTrace
    ensures error.Arr? ==> r == EmptyStackTrace
  {
    if IsNullish(error) then EmptyStackTrace
    else if error.Str? then EmptyStackTrace
    else if TypeOf(error) == "object" then
      if Has(error, "stacktrace") then Caught(toStr(Get(error, "stacktrace")))
      else if Has(error, "stack") then Caught(toStr(Get(error, "stack")))
      else if Has(error, "componentStack") then Caught(toStr(Get(error, "componentStack")))
      else if Has(error, "sourceURL") && Has(error, "line") && Has(error, "column") then Location(error, toStr)
      else EmptyStackTrace
    else EmptyStackTrace
  }

  /** getErrorStackTrace, with its reassigned local and its catch-all: it
      always returns a string. */
  method GetErrorStackTrace(error: JsValue, toStr: ToStr) returns (stack: string)
    ensures stack == StackTrace(error, toStr)
  {
    stack := EmptyStackTrace;
    if IsNullish(error) {
      stack := EmptyStackTrace;
    } else if error.Str? {
      stack := EmptyStackTrace;
    } else if TypeOf(error) == "object" {
      if Has(error, "stacktrace") {
        var converted := toStr(Get(error, "stacktrace"));
        if converted.Returns? {
          stack := converted.value;
        }
      } else if Has(error, "stack") {
        var converted := toStr(Get(error, "stack"));
        if converted.Returns? {
          stack := converted.value;
        }
      } else if Has(error, "componentStack") {
        var converted := toStr(Get(error, "componentStack"));
        if converted.Returns? {
          stack := converted.value;
        }
      } else if Has(error, "sourceURL") && Has(error, "line") && Has(error, "column") {
        var url := toStr(Get(error, "sourceURL"));
        if url.Returns? {
          var line := toStr(Get(error, "line"));
          if line.Returns? {
            var column := toStr(Get(error, "column"));
            if column.Returns? {
              stack := "at " + url.value + ":" + line.value + ":" + column.value;
            }
          }
        }
      }
    }
  }

  // ----- allowed hosts and the bridge script -----

  /** The telemetry error formatAllowedHosts reports. */
  datatype TelemetryError = TelemetryError(message: string, stack: string, kind: string)

  const AllowedHostsErrorKind: string := "AllowedHostsError"
  const EmptyHostsLiteral: string := "'[]'"

  /** The allowed-hosts literal, and the telemetry error reported on the way. */
  datatype FormattedHosts = FormattedHosts(text: string, telemetry: Option<TelemetryError>)

  /** `${v}` for the result of JSON.stringify, which is undefined for an
      undefined input. */
  function Interpolate(v: Option<string>): string {
    if v.Some? then v.value else "undefined"
  }

  /** formatAllowedHosts: the JSON of the hosts in single quotes; when
      `stringify` (JSON.stringify) throws, '[]', after reporting the error as
      telemetry if the native SDK module exists. */
  function FormatAllowedHosts(allowedHosts: JsValue, stringify: JsValue -> Outcome<Option<string>>, toStr: ToStr,
                              nativeSdkPresent: bool): (r: Outcome<FormattedHosts>)
    ensures stringify(allowedHosts).Returns? ==>
      r == Returns(FormattedHosts("'" + Interpolate(stringify(allowedHosts).value) + "'", None))
    ensures stringify(allowedHosts).Throws? && r.Returns? ==> r.value.text == EmptyHostsLiteral
    ensures stringify(allowedHosts).Throws? && !nativeSdkPresent ==> r == Returns(FormattedHosts(EmptyHostsLiteral, None))
    ensures r.Throws? ==> nativeSdkPresent && ErrorMessage(stringify(allowedHosts).error, toStr).Throws?
    ensures stringify(allowedHosts).Throws? && nativeSdkPresent ==>
      var e := stringify(allowedHosts).error;
      && (ErrorMessage(e, toStr).Throws? ==> r.Throws?)
      && (ErrorMessage(e, toStr).Returns? ==>
            r == Returns(FormattedHosts(EmptyHostsLiteral,
                                        Some(TelemetryError(ErrorMessage(e, toStr).value, StackTrace(e, toStr),
                                                            AllowedHostsErrorKind)))))
  {
    match stringify(allowedHosts)
    case Returns(json) => Returns(FormattedHosts("'" + Interpolate(json) + "'", None))
    case Throws(e) =>
      if nativeSdkPresent then
        match ErrorMessage(e, toStr)
        case Throws(e2) => Throws(e2)
        case Returns(message) =>
          Returns(FormattedHosts(EmptyHostsLiteral,
                                 Some(TelemetryError(message, StackTrace(e, toStr), AllowedHostsErrorKind))))
      else Returns(FormattedHosts(EmptyHostsLiteral, None))
  }

  const BridgeHead: string :=
    "\n    window.DatadogEventBridge = {\n      send(msg) {\n"
    + "        window.ReactNativeWebView.postMessage(JSON.stringify({\n          source: 'DATADOG',\n"
    + "          type: 'NATIVE_EVENT',\n          message: msg\n        }));\n        true;\n      },\n"
    + "      getAllowedWebViewHosts() {\n        return "
  const BridgeMiddle: string := "\n      }\n    };\n    try{      \n      "
  const BridgeTail: string := "\n  "

  /** The bridge script, and the telemetry error reported while building it. */
  datatype BridgeScript = BridgeScript(script: string, telemetry: Option<TelemetryError>)

  /** getWebViewEventBridgingJS: the event bridge, whose allowed-hosts
      getter returns the hosts literal, followed by the custom code (an
      undefined one is interpolated as "undefined") inside a try block. */
  function GetWebViewEventBridgingJS(allowedHosts: JsValue, customJavaScriptCode: Option<string>,
                                     stringify: JsValue -> Outcome<Option<string>>, toStr: ToStr,
                                     nativeSdkPresent: bool): (r: Outcome<BridgeScript>)
    ensures r.Throws? <==> FormatAllowedHosts(allowedHosts, stringify, toStr, nativeSdkPresent).Throws?
    ensures r.Returns? ==>
      && r.value.script == BridgeHead + FormatAllowedHosts(allowedHosts, stringify, toStr, nativeSdkPresent).value.text
                           + BridgeMiddle + Interpolate(customJavaScriptCode) + CatchBlock + BridgeTail
      && r.value.telemetry == FormatAllowedHosts(allowedHosts, stringify, toStr, nativeSdkPresent).value.telemetry
  {
    match FormatAllowedHosts(allowedHosts, stringify, toStr, nativeSdkPresent)
    case Throws(e) => Throws(e)
    case Returns(hosts) =>
      Returns(BridgeScript(BridgeHead + hosts.text + BridgeMiddle + Interpolate(customJavaScriptCode) + CatchBlock
                           + BridgeTail, hosts.telemetry))
  }

  // ----- properties -----

  /** The message of an Error-like object is its `message`; a thrown string
      is its own message. */
  lemma ErrorMessageOfErrorsAndStrings(fields: map<string, JsValue>, m: string, s: string, toStr: ToStr)
    requires KeepsStrings(toStr)
    requires "message" in fields && fields["message"] == Str(m)
    ensures ErrorMessage(Obj(fields), toStr) == Returns(m)
    ensures ErrorMessage(Str(s), toStr) == Returns(s)
    ensures ErrorMessage(Null, toStr) == Returns(EmptyMessage) && ErrorMessage(Undefined, toStr) == Returns(EmptyMessage)
  {
  }

  /** The first present stack field wins: `stacktrace` hides `stack` and
      `componentStack`, and `stack` hides `componentStack`. */
  lemma FirstStackFieldWins(fields: map<string, JsValue>, v: JsValue, toStr: ToStr)
    requires "stacktrace" in fields
    ensures StackTrace(Obj(fields["stack" := v]), toStr) == StackTrace(Obj(fields), toStr)
    ensures StackTrace(Obj(fields["componentStack" := v]), toStr) == StackTrace(Obj(fields), toStr)
  {
    assert "stacktrace" in fields["stack" := v] && fields["stack" := v]["stacktrace"] == fields["stacktrace"];
    assert "stacktrace" in fields["componentStack" := v]
           && fields["componentStack" := v]["stacktrace"] == fields["stacktrace"];
  }

  /** Without any stack field, the location form needs all three of its
      fields: with one missing the stack trace is empty; with all three it is
      `at url:line:col` of their conversions, unless one of them throws. */
  lemma LocationNeedsAllThreeFields(fields: map<string, JsValue>, toStr: ToStr)
    requires "stacktrace" !in fields && "stack" !in fields && "componentStack" !in fields
    ensures !("sourceURL" in fields && "line" in fields && "column" in fields) ==>
      StackTrace(Obj(fields), toStr) == EmptyStackTrace
    ensures "sourceURL" in fields && "line" in fields && "column" in fields ==>
      var url := toStr(fields["sourceURL"]);
      var line := toStr(fields["line"]);
      var column := toStr(fields["column"]);
      StackTrace(Obj(fields), toStr) ==
        if url.Returns? && line.Returns? && column.Returns? then "at " + url.value + ":" + line.value + ":" + column.value
        else EmptyStackTrace
  {
  }

  /** A location of three strings reads `at url:line:col`. */
  lemma StringLocation(url: string, line: string, column: string, toStr: ToStr)
    requires KeepsStrings(toStr)
    ensures StackTrace(Obj(map["sourceURL" := Str(url), "line" := Str(line), "column" := Str(column)]), toStr)
         == "at " + url + ":" + line + ":" + column
  {
    var fields := map["sourceURL" := Str(url), "line" := Str(line), "column" := Str(column)];
    assert "stacktrace" !in fields && "stack" !in fields && "componentStack" !in fields;
    assert fields["sourceURL"] == Str(url) && fields["line"] == Str(line) && fields["column"] == Str(column);
    LocationNeedsAllThreeFields(fields, toStr);
  }

  /** The method and the stack trace it computes agree on the catch path:
      a stack whose conversion throws leaves the empty stack trace. */
  lemma ThrowingConversionGivesEmptyStack(fields: map<string, JsValue>, toStr: ToStr)
    requires "stacktrace" in fields && toStr(fields["stacktrace"]).Throws?
    ensures StackTrace(Obj(fields), toStr) == EmptyStackTrace
  {
  }

  /** Without a native SDK, a hosts list that cannot be serialised still
      gives a valid script, with an empty host list and no telemetry. */
  lemma UnserialisableHostsGiveEmptyList(allowedHosts: JsValue, stringify: JsValue -> Outcome<Option<string>>,
                                         toStr: ToStr, code: Option<string>)
    requires stringify(allowedHosts).Throws?
    ensures GetWebViewEventBridgingJS(allowedHosts, code, stringify, toStr, false)
         == Returns(BridgeScript(BridgeHead + EmptyHostsLiteral + BridgeMiddle + Interpolate(code) + CatchBlock + BridgeTail,
                                 None))
  {
  }
}
