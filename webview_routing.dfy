/** The Datadog WebView component (index.tsx of the WebView package): how a
    message posted by the page is routed, and which scripts are injected. */
module WebViewRouting {

  import opened Wrappers
  import opened JsValues
  import WebViewJsUtils

  /** What one message can make the component do. */
  datatype Action =
    | CallUserOnMessage
    | LogError(message: JsValue)
    | ConsumeWebviewEvent(message: JsValue)

  /** The user's `onMessage` prop, if given, and whether calling it throws. */
  datatype UserHandler = UserHandler(throws: bool)

  /** The actions taken for one message, in order, and whether an exception
      escapes from the handler. */
  datatype Delivery = Delivery(actions: seq<Action>, escapes: bool)

  /** The environment of the component: its props and which native modules
      exist. `parse` is JSON.parse, none meaning that it throws. */
  datatype Environment = Environment(
    parse: string -> Option<JsValue>, logUserCodeErrors: Option<bool>, userOnMessage: Option<UserHandler>,
    nativeLogsPresent: bool, nativeSdkPresent: bool)

  const DatadogSource: JsValue := Str("DATADOG")

  /** `jsonMsg && jsonMsg.source === 'DATADOG'`. */
  predicate IsDatadogMessage(json: JsValue) {
    Truthy(json) && Get(json, "source") == DatadogSource
  }

  /** handleDatadogMessage: an ERROR is logged only when logUserCodeErrors
      is set (it defaults to false); a NATIVE_EVENT goes to the native SDK;
      both need a message that is neither null nor undefined. */
  function HandleDatadogMessage(ddMessage: JsValue, env: Environment): (actions: seq<Action>)
    ensures |actions| <= 1
    ensures forall a :: a in actions ==> !a.CallUserOnMessage?
    ensures forall m :: LogError(m) in actions ==>
      && Get(ddMessage, "type") == Str("ERROR") && !IsNullish(Get(ddMessage, "message"))
      && env.logUserCodeErrors == Some(true) && env.nativeLogsPresent && m == Get(ddMessage, "message")
    ensures forall m :: ConsumeWebviewEvent(m) in actions ==>
      && Get(ddMessage, "type") == Str("NATIVE_EVENT") && !IsNullish(Get(ddMessage, "message"))
      && env.nativeSdkPresent && m == Get(ddMessage, "message")
    ensures Get(ddMessage, "type") == Str("ERROR") && !IsNullish(Get(ddMessage, "message"))
            && env.logUserCodeErrors == Some(true) && env.nativeLogsPresent ==>
      actions == [LogError(Get(ddMessage, "message"))]
    ensures Get(ddMessage, "type") == Str("NATIVE_EVENT") && !IsNullish(Get(ddMessage, "message"))
            && env.nativeSdkPresent ==>
      actions == [ConsumeWebviewEvent(Get(ddMessage, "message"))]
    ensures !env.nativeLogsPresent && !env.nativeSdkPresent ==> actions == []
  {
    var kind := Get(ddMessage, "type");
    var message := Get(ddMessage, "message");
    if kind == Str("ERROR") && !IsNullish(message) && env.logUserCodeErrors.GetOr(false) then
      if env.nativeLogsPresent then [LogError(message)] else []
    else if kind == Str("NATIVE_EVENT") && !IsNullish(message) then
      if env.nativeSdkPresent then [ConsumeWebviewEvent(message)] else []
    else []
  }

  /** `userDefinedOnMessage?.(event)`. */
  function CallUser(env: Environment): (d: Delivery)
    ensures env.userOnMessage.None? ==> d == Delivery([], false)
    ensures env.userOnMessage.Some? ==> d == Delivery([CallUserOnMessage], env.userOnMessage.value.throws)
  {
    match env.userOnMessage
    case None => Delivery([], false)
    case Some(h) => Delivery([CallUserOnMessage], h.throws)
  }

  /** onMessage as written: the user handler is called inside the try block
      whose catch also calls it, so a user handler that throws runs twice. */
  function OnMessageAsWritten(data: Option<string>, env: Environment): (d: Delivery)
    ensures data.None? ==> d == Delivery([], false)
  {
    match data
    case None => Delivery([], false)
    case Some(message) =>
      match env.parse(message)
      case None => CallUser(env)
      case Some(json) =>
        if IsDatadogMessage(json) then Delivery(HandleDatadogMessage(json, env), false)
        else
          var first := CallUser(env);
          if first.escapes then Delivery(first.actions + CallUser(env).actions, true) else first
  }

  /** onMessage with the catch limited to parsing, as intended: the user
      handler runs at most once per message. */
  function OnMessage(data: Option<string>, env: Environment): (d: Delivery)
    ensures data.None? ==> d == Delivery([], false)
    ensures data.Some? && env.parse(data.value).Some? && IsDatadogMessage(env.parse(data.value).value) ==>
      d == Delivery(HandleDatadogMessage(env.parse(data.value).value, env), false)
    ensures data.Some? && !(env.parse(data.value).Some? && IsDatadogMessage(env.parse(data.value).value)) ==>
      d == CallUser(env)
  {
    match data
    case None => Delivery([], false)
    case Some(message) =>
      match env.parse(message)
      case None => CallUser(env)
      case Some(json) =>
        if IsDatadogMessage(json) then Delivery(HandleDatadogMessage(json, env), false)
        else CallUser(env)
  }

  /** How many times the user handler runs. */
  function UserCalls(actions: seq<Action>): nat {
    if actions == [] then 0
    else (if actions[0].CallUserOnMessage? then 1 else 0) + UserCalls(actions[1..])
  }

  // ----- injected scripts -----

  /** getInjectedJavascriptBeforeContentLoaded: the event bridge with the
      user code on the new architecture; the wrapped user code on the old. */
  function InjectedJavaScriptBeforeContentLoaded(
    isNewArchitecture: bool, allowedHosts: JsValue, userCode: Option<string>,
    stringify: JsValue -> WebViewJsUtils.Outcome<Option<string>>, toStr: WebViewJsUtils.ToStr,
    nativeSdkPresent: bool): (r: WebViewJsUtils.Outcome<Option<string>>)
    ensures !isNewArchitecture ==> r == WebViewJsUtils.Returns(WebViewJsUtils.WrapJsCodeInTryAndCatch(userCode))
    ensures isNewArchitecture ==>
      var bridge := WebViewJsUtils.GetWebViewEventBridgingJS(allowedHosts, userCode, stringify, toStr, nativeSdkPresent);
      && (r.Returns? <==> bridge.Returns?)
      && (bridge.Returns? ==> r.value == Some(bridge.value.script))
  {
    if isNewArchitecture then
      match WebViewJsUtils.GetWebViewEventBridgingJS(allowedHosts, userCode, stringify, toStr, nativeSdkPresent)
      case Throws(e) => WebViewJsUtils.Throws(e)
      case Returns(bridge) => WebViewJsUtils.Returns(Some(bridge.script))
    else WebViewJsUtils.Returns(WebViewJsUtils.WrapJsCodeInTryAndCatch(userCode))
  }

  // ----- properties -----

  /** Datadog messages never reach the user handler. */
  lemma DatadogMessagesStayInternal(data: string, env: Environment)
    requires env.parse(data).Some? && IsDatadogMessage(env.parse(data).value)
    ensures CallUserOnMessage !in OnMessageAsWritten(Some(data), env).actions
    ensures !OnMessageAsWritten(Some(data), env).escapes
  {
  }

  /** Unparsable data and non-Datadog messages go to the user handler. */
  lemma OtherMessagesReachTheUser(data: string, env: Environment)
    requires env.userOnMessage.Some?
    requires env.parse(data).None? || !IsDatadogMessage(env.parse(data).value)
    ensures OnMessageAsWritten(Some(data), env).actions[0] == CallUserOnMessage
  {
  }

  /** User-code errors are logged only when asked for: with the prop left
      out, an ERROR message does nothing. */
  lemma UserCodeErrorsAreNotLoggedByDefault(data: string, env: Environment)
    requires env.logUserCodeErrors.None?
    ensures forall a :: a in OnMessageAsWritten(Some(data), env).actions ==> !a.LogError?
  {
  }

  /** A native event is handed to the native SDK unchanged, whatever else
      the parsed message holds. */
  lemma NativeEventsAreForwardedUnchanged(data: string, env: Environment, json: JsValue)
    requires env.nativeSdkPresent && env.parse(data) == Some(json)
    requires Get(json, "source") == DatadogSource && Get(json, "type") == Str("NATIVE_EVENT")
    requires !IsNullish(Get(json, "message"))
    ensures OnMessageAsWritten(Some(data), env) == Delivery([ConsumeWebviewEvent(Get(json, "message"))], false)
  {
    assert json.Obj? && IsDatadogMessage(json);
  }

  /** A user-code error is logged once the prop enables it and the native logs
      module exists, and the user handler is not called. */
  lemma UserCodeErrorsAreLoggedWhenEnabled(data: string, env: Environment, json: JsValue)
    requires env.logUserCodeErrors == Some(true) && env.nativeLogsPresent && env.parse(data) == Some(json)
    requires Get(json, "source") == DatadogSource && Get(json, "type") == Str("ERROR")
    requires !IsNullish(Get(json, "message"))
    ensures OnMessageAsWritten(Some(data), env) == Delivery([LogError(Get(json, "message"))], false)
  {
    assert json.Obj? && IsDatadogMessage(json);
  }

  /** As written, a throwing user handler runs twice for one message. */
  lemma ThrowingUserHandlerRunsTwice(data: string, env: Environment)
    requires env.parse(data).Some? && !IsDatadogMessage(env.parse(data).value)
    requires env.userOnMessage == Some(UserHandler(true))
    ensures OnMessageAsWritten(Some(data), env) == Delivery([CallUserOnMessage, CallUserOnMessage], true)
    ensures UserCalls(OnMessageAsWritten(Some(data), env).actions) == 2
  {
  }

  /** With the catch limited to parsing, the user handler runs at most once,
      and the two versions agree whenever the handler does not throw. */
  lemma UserHandlerRunsAtMostOnce(data: Option<string>, env: Environment)
    ensures UserCalls(OnMessage(data, env).actions) <= 1
    ensures env.userOnMessage.None? || !env.userOnMessage.value.throws ==>
      OnMessage(data, env) == OnMessageAsWritten(data, env)
  {
    var d := OnMessage(data, env);
    if data.Some? && env.parse(data.value).Some? && IsDatadogMessage(env.parse(data.value).value) {
      var actions := HandleDatadogMessage(env.parse(data.value).value, env);
      if actions != [] {
        assert actions[1..] == [];
      }
    } else {
      assert d.actions == [] || d.actions == [CallUserOnMessage];
      if d.actions != [] {
        assert d.actions[1..] == [];
      }
    }
  }
}
