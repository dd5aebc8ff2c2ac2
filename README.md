# A verified model of the Datadog React Native SDK core

This project models, in Dafny, the core of the Datadog SDK for React Native:

- the JavaScript wrappers for RUM and logs, and the SDK entry point;
- the distributed-tracing sampling decision;
- the JavaScript and native (Android and iOS) session-replay entry points;
- the session-replay helpers that extract text and bitmaps from React Native views;
- the Datadog WebView component and its injected scripts.

The model proves properties of each of these parts.

## Structure

Each module follows one source file:

| module | models |
|---|---|
| `DistributedTracing` | How a request to a first-party host gets KEEP or DISCARD tracing attributes. The Knuth-hash sampling comparison is exact. |
| `Rum` | `DdRumWrapper`: a class whose fields are the remembered action and the three registered event mappers. A ghost log records the native calls and diagnostics each method makes. The stopAction argument resolution and each mapper's drop behaviour are pure functions. |
| `Logs` | `DdLogsWrapper`: the runtime test for a log with an error, the raw event the log mapper sees, the native call made, and how the returned promise settles. |
| `SdkReactNative` | `DdSdkReactNative`: the once-only guards of initialisation and feature enablement, and the choice of initialisation mode. `buildConfiguration` writes into the caller's configuration object, and its result is specified by a key-by-key reference dictionary. |
| `SessionReplayJs` | How the JavaScript session-replay wrapper fills in defaults. |
| `AndroidPrivacy`, `AndroidSessionReplay` | The Android privacy-level converters, the configuration builder (a class) and the native module's enable, start and stop calls. |
| `IosSessionReplay` | The iOS converters, the custom endpoint URL and the guard for a missing SDK core. |
| `TextViewRecorder` | iOS text gathering from the shadow-view tree. It is proved equal to a flattening of the raw-text leaves. |
| `DrawablesExt` | Android bitmap extraction and the ScaleTypeDrawable layer search. The extraction loop picks a layer by comparing 32-bit products, which wrap around. |
| `ReactBackground` | Both Android variants of the search for a React background drawable and of its conversion to a shape style and border. |
| `WebViewJsUtils`, `WebViewRouting` | The injected-script builders, the normalisation of thrown values, and how a WebView message is routed. |

`Wrappers`, `JsValues` and `EventMappers` hold shared helpers:

- `Option`;
- a small model of JavaScript values: `typeof`, truthiness, property lookup;
- the event-mapper abstraction, where a registered callback may transform an event or drop it.

## Assumptions and parameters

Values the source gets from its surroundings are given to the model as parameters:

- the current time;
- the context validator;
- the freshly drawn trace and span ids;
- the first-party host matcher;
- `JSON.parse`, `JSON.stringify` and `String()`;
- the URL parser;
- what the native modules answer.

Where the code and its description disagree, the model follows the code. For example, `SessionReplay.ts` forwards four arguments to the native `enable`, while both native modules take six, including the three privacy levels. The model keeps the two sides as written.

## Model

| member | source | states |
|---|---|---|
| DistributedTracing.GetTracingAttributes | packages/core/src/rum/instrumentation/resourceTracking/distributedTracing/distributedTracing.tsx:41-64 | A null hostname, or a host the first-party lookup does not match, gives the DISCARD attributes (sampling priority "0"); a matched host gives KEEP attributes carrying exactly the matched propagators, the freshly drawn trace and span ids and rulePsr = rate/100, with priority "1" exactly when the trace is sampled |
| DistributedTracing.GenerateTracingAttributesWithSampling | packages/core/src/rum/instrumentation/resourceTracking/distributedTracing/distributedTracing.tsx:66-85 | Always KEEP, with the given ids and propagators; the priority header is "1" exactly when 100 times the Knuth hash of the trace id is at most rate times 2^64, and "0" otherwise; rulePsr is rate/100 |
| DistributedTracing.HashDependsOnLowBits | packages/core/src/rum/instrumentation/resourceTracking/distributedTracing/distributedTracing.tsx:71 | The Knuth hash of a 128-bit trace id equals the hash of its low 64 bits |
| DistributedTracing.SamplingDependsOnlyOnLowBits | packages/core/src/rum/instrumentation/resourceTracking/distributedTracing/distributedTracing.tsx:71-73 | Two trace ids with the same low 64 bits get the same hash and the same sampling decision at every rate |
| DistributedTracing.HashZeroIffLowBitsZero | packages/core/src/rum/instrumentation/resourceTracking/distributedTracing/distributedTracing.tsx:17-18 | The hash is 0 exactly when the low 64 bits are 0 (the Knuth factor is invertible modulo 2^64: its inverse is exhibited) |
| DistributedTracing.FullRateSamplesEverything | packages/core/src/rum/instrumentation/resourceTracking/distributedTracing/distributedTracing.tsx:72-73 | At a sampling rate of 100 or more every trace id is sampled |
| DistributedTracing.ZeroRateSamplesOnlyZeroLowBits | packages/core/src/rum/instrumentation/resourceTracking/distributedTracing/distributedTracing.tsx:72-73 | At rate 0 a trace is sampled exactly when its low 64 bits are 0 (the threshold comparison is inclusive) |
| DistributedTracing.SamplingMonotoneInRate | packages/core/src/rum/instrumentation/resourceTracking/distributedTracing/distributedTracing.tsx:72-73 | A trace sampled at some rate is sampled at every higher rate |
| DistributedTracing.MatchedHostAtFullRateIsKept | packages/core/src/rum/instrumentation/resourceTracking/distributedTracing/distributedTracing.tsx:53-80 | A matched host at rate 100 always yields KEEP with priority "1" and rulePsr 1 |
| DistributedTracing.MatchedHostAtZeroRate | packages/core/src/rum/instrumentation/resourceTracking/distributedTracing/distributedTracing.tsx:53-80 | A matched host at rate 0 still yields KEEP (ids are propagated); the priority is "1" only for a trace id whose low 64 bits are 0 |
| Rum.GetStopActionNativeCallArgs | packages/core/src/rum/DdRum.ts:384-434 | New signature: its own type, name, validated context and timestamp, no diagnostic; old signature after a startAction: the remembered type and name plus a telemetry debug; old signature without one: nothing and a warning; any other arguments: nothing and the wrong-arguments warning; a missing or 0 timestamp becomes the current time |
| Rum.CallNativeStopAction | packages/core/src/rum/DdRum.ts:349-382 | Always exactly one native stopAction: the mapped event's fields when the action mapper keeps it, otherwise the original type, name and timestamp with only the drop marker as context |
| Rum.AddActionCall | packages/core/src/rum/DdRum.ts:132-153 | A native addAction is made exactly when the mapper keeps the event, and then carries the mapped event's fields |
| Rum.StopResourceCall | packages/core/src/rum/DdRum.ts:188-230 | Always exactly one native stopResource: the mapped fields when kept; when dropped, key, status, kind, size and timestamp kept and the context replaced by the drop marker |
| Rum.AddErrorCall | packages/core/src/rum/DdRum.ts:261-285 | The raw event's fingerprint defaults to ""; a native addError is made exactly when the mapper keeps the event, with the mapped fields and the react-native error source type added to the context |
| Rum.GenerateUUID | packages/core/src/rum/DdRum.ts:233-251 | A trace id (rendered padded hex) exactly for the trace type; a span id (decimal) for the span type, and a warning plus a span id for any other type |
| Rum.GetCurrentSessionId | packages/core/src/rum/DdRum.ts:316-321 | Undefined before the SDK is initialised, the native session id after |
| Rum.DdRumWrapper.constructor | packages/core/src/rum/DdRum.ts:40-48 | No remembered action, identity mappers for errors, resources and actions, no calls yet |
| Rum.DdRumWrapper.StartView | packages/core/src/rum/DdRum.ts:50-68 | Appends exactly one native startView with the validated context (default {}) and the timestamp or the current time; nothing else changes |
| Rum.DdRumWrapper.StopView | packages/core/src/rum/DdRum.ts:70-79 | Appends exactly one native stopView with the validated context and the timestamp or the current time; nothing else changes |
| Rum.DdRumWrapper.StartAction | packages/core/src/rum/DdRum.ts:81-100 | Remembers (type, name) for the old stopAction signature and appends one native startAction |
| Rum.DdRumWrapper.StopAction | packages/core/src/rum/DdRum.ts:102-119 | Always forgets the remembered action; appends the native call and the diagnostic that the signature resolution gives, and the native call goes through the action mapper |
| Rum.DdRumWrapper.AddAction | packages/core/src/rum/DdRum.ts:125-154 | The mapper sees the type, name, validated context, timestamp (the clock's when absent) and the gesture event; appends the mapped native addAction, or nothing when the mapper drops the action; nothing else changes |
| Rum.DdRumWrapper.StartResource | packages/core/src/rum/DdRum.ts:156-177 | Appends one native startResource with the validated context and the timestamp or the current time |
| Rum.DdRumWrapper.StopResource | packages/core/src/rum/DdRum.ts:179-231 | The mapper sees key, status, kind, size (-1 when absent), validated context, timestamp and the request object; appends the one native stopResource the resource mapper decides |
| Rum.DdRumWrapper.AddError | packages/core/src/rum/DdRum.ts:253-286 | Appends the native addError the error mapper decides, or nothing when the error is dropped |
| Rum.DdRumWrapper.AddTiming | packages/core/src/rum/DdRum.ts:288-294 | Appends one native addTiming with the name; nothing else changes |
| Rum.DdRumWrapper.StopSession | packages/core/src/rum/DdRum.ts:296-299 | Appends one native stopSession; nothing else changes |
| Rum.DdRumWrapper.AddFeatureFlagEvaluation | packages/core/src/rum/DdRum.ts:301-314 | Appends one native call whose value is wrapped as { value }; nothing else changes |
| Rum.DdRumWrapper.RegisterErrorEventMapper | packages/core/src/rum/DdRum.ts:323-325 | The error mapper becomes the user's callback |
| Rum.DdRumWrapper.UnregisterErrorEventMapper | packages/core/src/rum/DdRum.ts:327-329 | The error mapper returns to the identity |
| Rum.DdRumWrapper.RegisterResourceEventMapper | packages/core/src/rum/DdRum.ts:331-335 | The resource mapper becomes the user's callback |
| Rum.DdRumWrapper.UnregisterResourceEventMapper | packages/core/src/rum/DdRum.ts:337-339 | The resource mapper returns to the identity |
| Rum.DdRumWrapper.RegisterActionEventMapper | packages/core/src/rum/DdRum.ts:341-343 | The action mapper becomes the user's callback |
| Rum.DdRumWrapper.UnregisterActionEventMapper | packages/core/src/rum/DdRum.ts:345-347 | The action mapper returns to the identity |
| Rum.OldStopActionWithoutStartIsSilent | packages/core/src/rum/DdRum.ts:409-425 | An old-signature stopAction with nothing remembered makes no native call and only warns |
| Rum.StopActionSignaturesExclusive | packages/core/src/rum/DdRum.ts:437-466 | No argument list fits both signatures; a call with no arguments or a null first argument is the old signature; the new one is exactly a string first argument |
| Rum.ZeroTimestampIsReplaced | packages/core/src/rum/DdRum.ts:401-407 | An explicit timestamp of 0 is replaced by the current time (the source uses a falsy test) |
| Rum.DroppedResourceOnlyLosesContext | packages/core/src/rum/DdRum.ts:197-230 | A dropped resource's native call differs from the undropped one only in its context, which is the drop marker alone |
| Rum.DroppedActionAsymmetry | packages/core/src/rum/DdRum.ts:132-141 | A mapper that drops everything suppresses addAction entirely but still lets stopAction reach the native side with the drop marker (see also lines 361-372) |
| Rum.GestureOnlyReachesAddAction | packages/core/src/rum/DdRum.ts:130-136 | The gesture event reaches the action mapper only through addAction: a mapper dropping actions that carry one drops that addAction but keeps the same action through stopAction |
| Rum.ErrorWithoutMapperGainsSourceType | packages/core/src/rum/DdRum.ts:261-285 | Without a mapper the native error keeps every context entry, gains exactly the source-type key, and carries the caller's fingerprint or "" |
| Rum.StartThenStopTwice | packages/core/src/rum/DdRum.ts:91-119 | startAction then two old-signature stopActions: two native calls in all, the second stopAction only warns and the remembered action is forgotten |
| Logs.NativeLogCall.MethodName | packages/core/src/logs/DdLogs.ts:215-221 | The native method is the status name for a plain log and the status name followed by "WithError" for a log with an error |
| Logs.RawLogEvent | packages/core/src/logs/DdLogs.ts:176-195 | The event the mapper sees carries the message and status; it has an error part exactly when the arguments describe a log with an error, with the string-typed error fields, the fingerprint defaulting to "" and, at the error level only, the seventh argument as its source; the context comes from the fifth or the second argument accordingly |
| Logs.ErrorContext | packages/core/src/logs/DdLogs.ts:206-213 | The with-error context is the mapped context plus the react-native source type, plus the caller's fingerprint when it is a non-empty string; every other key is kept |
| Logs.NativeCallFor | packages/core/src/logs/DdLogs.ts:146-221 | A native call is made exactly when the mapper keeps the event; it has the level's status, the with-error form exactly for logs with an error, the mapped message, the mapped error kind, error message and stack trace, and the mapped context (decorated by ErrorContext in the error form) |
| Logs.Settle | packages/core/src/logs/DdLogs.ts:197-231 | The level method resolves when the log was dropped, when the native call succeeds, or when it fails with the SDK-not-initialised message; any other rejection is passed on with its message |
| Logs.DdLogsWrapper.constructor | packages/core/src/logs/DdLogs.ts:44-48 | The log mapper starts as the identity and no native call has been made |
| Logs.DdLogsWrapper.LogAt | packages/core/src/logs/DdLogs.ts:146-232 | Appends the native call NativeCallFor decides (if any) and settles as Settle says |
| Logs.DdLogsWrapper.Debug | packages/core/src/logs/DdLogs.ts:50-63 | LogAt at the debug level |
| Logs.DdLogsWrapper.Info | packages/core/src/logs/DdLogs.ts:65-78 | LogAt at the info level |
| Logs.DdLogsWrapper.Warn | packages/core/src/logs/DdLogs.ts:80-93 | LogAt at the warn level |
| Logs.DdLogsWrapper.Error | packages/core/src/logs/DdLogs.ts:95-109 | LogAt at the error level, the only level that forwards the error source |
| Logs.DdLogsWrapper.RegisterLogEventMapper | packages/core/src/logs/DdLogs.ts:234-236 | The log mapper becomes the user's callback |
| Logs.DdLogsWrapper.UnregisterLogEventMapper | packages/core/src/logs/DdLogs.ts:238-240 | The log mapper returns to the identity |
| Logs.LogWithErrorClassification | packages/core/src/logs/DdLogs.ts:32-42 | A message alone or with a context object is a plain log; a string in any error slot, or an object (null included) as fifth argument, makes a log with an error |
| Logs.FingerprintFollowsCallerArgument | packages/core/src/logs/DdLogs.ts:206-213 | The native fingerprint attribute follows the caller's sixth argument, not the mapped event's fingerprint; the source-type attribute is always present |
| Logs.PlainLogWithoutMapper | packages/core/src/logs/DdLogs.ts:146-163 | Without a mapper a plain log reaches the native side with its message and validated context unchanged |
| Logs.ErrorLogWithoutMapper | packages/core/src/logs/DdLogs.ts:176-221 | Without a mapper a log with an error reaches the native side with the caller's error kind, error message and stack trace, and the decorated validated context |
| Logs.OnlyErrorLevelForwardsSource | packages/core/src/logs/DdLogs.ts:50-109 | The debug, info and warn levels never give the mapper an error source |
| Logs.LogBeforeInit | packages/core/src/logs/DdLogs.ts:222-231 | A log sent before initialisation resolves quietly, while any other native failure reaches the caller; both logs are recorded as the same plain info call with the message and the validated empty context |
| SdkReactNative.WrittenKeys | packages/core/src/DdSdkReactNative.tsx:242-269 | The source and SDK-version keys are always written; the version key exactly when a version is set; the suffix key exactly when a suffix is set without a version; the React Native version key exactly when it is known |
| SdkReactNative.EffectiveSampleRate | packages/core/src/DdSdkReactNative.tsx:278-280 | sampleRate when defined, else sessionSamplingRate |
| SdkReactNative.ProviderInitMode | packages/core/src/DdSdkReactNative.tsx:104-131 | File mode for a file-based configuration whatever else it says; otherwise the configured sync or async mode; with no mode, sync for a legacy configuration and no initialisation otherwise |
| SdkReactNative.FeatureEffects | packages/core/src/DdSdkReactNative.tsx:327-363 | enableFeatures starts each tracking feature and registers each mapper exactly when it is configured, and nothing else |
| SdkReactNative.NativeConfigurationOf | packages/core/src/DdSdkReactNative.tsx:271-313 | The native configuration carries the given dictionary, the mode, the effective sample rate, and from the features the error, interaction and resource tracking flags |
| SdkReactNative.EnableEffects | packages/core/src/DdSdkReactNative.tsx:316-326 | One enableFeatures call records only the already-instrumented warning when instrumented, and never that warning on the first call |
| SdkReactNative.NativeInitEffects | packages/core/src/DdSdkReactNative.tsx:72-99 | One initializeNativeSDK call makes the native call exactly when not yet initialised, flushes the buffer exactly when it also succeeds, warns exactly when already initialised, and sends telemetry exactly when also outside development |
| SdkReactNative.DictionaryAfterInit | packages/core/src/DdSdkReactNative.tsx:78-93 | The dictionary is untouched when already initialised; otherwise no key is lost and the source key is react-native |
| SdkReactNative.BuildConfiguration | packages/core/src/DdSdkReactNative.tsx:236-314 | The caller's additional configuration becomes the key-by-key reference dictionary, and the native configuration carries it with the effective sample rate, the mode and the tracking flags |
| SdkReactNative.DdSdkReactNative.constructor | packages/core/src/DdSdkReactNative.tsx:55-56 | Not instrumented, no stored features, not initialised |
| SdkReactNative.DdSdkReactNative.EnableFeatures | packages/core/src/DdSdkReactNative.tsx:316-366 | The first call performs FeatureEffects; every later call only warns; the instrumented flag is set either way |
| SdkReactNative.DdSdkReactNative.InitializeNativeSdk | packages/core/src/DdSdkReactNative.tsx:72-99 | Succeeds and is initialised exactly when already initialised or native succeeds; the dictionary is DictionaryAfterInit and the effects are NativeInitEffects: already initialised, only the warning and (outside development) telemetry; otherwise the native call with the built configuration, then the buffer flush only on success; features and instrumentation untouched |
| SdkReactNative.DdSdkReactNative.Initialize | packages/core/src/DdSdkReactNative.tsx:63-70 | Exactly initializeNativeSDK's outcome, dictionary and effects in legacy mode, followed by enableFeatures's effects only when that succeeded; stored features untouched |
| SdkReactNative.DdSdkReactNative.InitializeFromDatadogProvider | packages/core/src/DdSdkReactNative.tsx:104-131 | enableFeatures's effects first; then, when ProviderInitMode selects a mode, exactly initializeNativeSDK's outcome, dictionary and effects in that mode; with no mode, nothing more and the dictionary untouched |
| SdkReactNative.DdSdkReactNative.EnableFeaturesFromDatadogProvider | packages/core/src/DdSdkReactNative.tsx:136-143 | Stores the features and enables them with defaults filled in |
| SdkReactNative.DdSdkReactNative.InitializeWithConfigurationAsync | packages/core/src/DdSdkReactNative.tsx:148-166 | Without stored features only the not-mounted warning, success, the built configuration untouched; with them exactly initializeNativeSDK's outcome, dictionary and effects on the built configuration in partial mode |
| SdkReactNative.BuiltAttributes | packages/core/src/DdSdkReactNative.tsx:242-269 | The written values: source react-native, the SDK version, version-suffix merged into the version, the lone suffix with its dash, the React Native version |
| SdkReactNative.BuiltKeepsOtherKeys | packages/core/src/DdSdkReactNative.tsx:242-269 | Keys no rule writes keep their prior value and no key disappears |
| SdkReactNative.SuffixWrittenOnce | packages/core/src/DdSdkReactNative.tsx:248-263 | With a version, the suffix goes into the version key only; without one, into the suffix key only |
| SdkReactNative.FileBasedWins | packages/core/src/DdSdkReactNative.tsx:108-112 | A file-based configuration initialises in file mode whatever its initialisation mode says |
| SdkReactNative.EnableTwice | packages/core/src/DdSdkReactNative.tsx:319-325 | A second enableFeatures adds only the already-instrumented warning |
| SdkReactNative.InitializeTwice | packages/core/src/DdSdkReactNative.tsx:72-99 | Two initialisations from uninitialised: the dictionary is built once, one native call in sync mode and one flush, then only the already-initialised warning, with telemetry outside development |
| SdkReactNative.AsyncBeforeAndAfterMount | packages/core/src/DdSdkReactNative.tsx:148-166 | Before the provider stores its features the asynchronous initialisation only warns; after it stores them the features start and one partial-mode native call and flush follow |
| SessionReplayJs.BuildConfiguration | packages/react-native-session-replay/src/SessionReplay.ts:58-93 | No configuration gives the defaults; otherwise each field keeps its value unless it is undefined, falling back to that field's default |
| SessionReplayJs.EnableCall | packages/react-native-session-replay/src/SessionReplay.ts:99-113 | enable forwards exactly the four built values |
| SessionReplayJs.BuildIsIdempotent | packages/react-native-session-replay/src/SessionReplay.ts:58-93 | Building an already built configuration changes nothing |
| SessionReplayJs.FalsyValuesAreKept | packages/react-native-session-replay/src/SessionReplay.ts:75-92 | The falsy values 0, "" and false given by the user are kept (a 0 rate coincides with the default rate 0); only undefined falls back to the default |
| SessionReplayJs.EmptyConfigurationIsDefaults | packages/react-native-session-replay/src/SessionReplay.ts:46-68 | An empty configuration object behaves as no configuration: rate 0, MASK, no endpoint, recording at once |
| AndroidPrivacy.GetImagePrivacy | packages/react-native-session-replay/android/src/main/kotlin/com/datadog/reactnative/sessionreplay/SessionReplayPrivacySettings.kt:43-57 | A recognised name gives the level whose name it is; any other string gives MASK_ALL |
| AndroidPrivacy.GetTouchPrivacy | packages/react-native-session-replay/android/src/main/kotlin/com/datadog/reactnative/sessionreplay/SessionReplayPrivacySettings.kt:59-72 | A recognised name gives the level whose name it is; any other string gives HIDE |
| AndroidPrivacy.GetTextAndInputPrivacy | packages/react-native-session-replay/android/src/main/kotlin/com/datadog/reactnative/sessionreplay/SessionReplayPrivacySettings.kt:74-88 | A recognised name gives the level whose name it is; any other string gives MASK_ALL |
| AndroidPrivacy.MakePrivacySettings | packages/react-native-session-replay/android/src/main/kotlin/com/datadog/reactnative/sessionreplay/SessionReplayPrivacySettings.kt:22-40 | The settings hold the three converted levels |
| AndroidPrivacy.ConvertersInvertNames | packages/react-native-session-replay/android/src/main/kotlin/com/datadog/reactnative/sessionreplay/SessionReplayPrivacySettings.kt:43-88 | Each converter is a left inverse of its level's name |
| AndroidPrivacy.MatchingIsCaseSensitive | packages/react-native-session-replay/android/src/main/kotlin/com/datadog/reactnative/sessionreplay/SessionReplayPrivacySettings.kt:43-88 | Lower-case names are not recognised and fall back to the defaults |
| AndroidSessionReplay.ConvertImagePrivacyLevel | packages/react-native-session-replay/android/src/main/kotlin/com/datadog/reactnative/sessionreplay/DdSessionReplayImplementation.kt:112-122 | MASK_NON_BUNDLED_ONLY gives mask-large-only, MASK_NONE gives mask-none, anything else MASK_ALL |
| AndroidSessionReplay.ConvertTouchPrivacyLevel | packages/react-native-session-replay/android/src/main/kotlin/com/datadog/reactnative/sessionreplay/DdSessionReplayImplementation.kt:124-133 | SHOW exactly when the string is SHOW |
| AndroidSessionReplay.ConvertTextAndInputPrivacyLevel | packages/react-native-session-replay/android/src/main/kotlin/com/datadog/reactnative/sessionreplay/DdSessionReplayImplementation.kt:135-145 | Mask-sensitive-inputs exactly for MASK_SENSITIVE_INPUTS, mask-all-inputs exactly for MASK_ALL_INPUTS, otherwise MASK_ALL |
| AndroidSessionReplay.AsciiLowercase | packages/react-native-session-replay/android/src/main/kotlin/com/datadog/reactnative/sessionreplay/DdSessionReplayImplementation.kt:89 | Same length; every ASCII capital is replaced by its small letter and every other character kept |
| AndroidSessionReplay.ConfigurationBuilder.constructor | packages/react-native-session-replay/android/src/main/kotlin/com/datadog/reactnative/sessionreplay/DdSessionReplayImplementation.kt:48 | A builder with the sample rate and nothing else set |
| AndroidSessionReplay.ConfigurationBuilder.SetStartRecordingImmediately | packages/react-native-session-replay/android/src/main/kotlin/com/datadog/reactnative/sessionreplay/DdSessionReplayImplementation.kt:49 | Sets only the start flag |
| AndroidSessionReplay.ConfigurationBuilder.SetImagePrivacy | packages/react-native-session-replay/android/src/main/kotlin/com/datadog/reactnative/sessionreplay/DdSessionReplayImplementation.kt:50 | Sets only the image privacy |
| AndroidSessionReplay.ConfigurationBuilder.SetTouchPrivacy | packages/react-native-session-replay/android/src/main/kotlin/com/datadog/reactnative/sessionreplay/DdSessionReplayImplementation.kt:51 | Sets only the touch privacy |
| AndroidSessionReplay.ConfigurationBuilder.SetTextAndInputPrivacy | packages/react-native-session-replay/android/src/main/kotlin/com/datadog/reactnative/sessionreplay/DdSessionReplayImplementation.kt:52 | Sets only the text-and-input privacy |
| AndroidSessionReplay.ConfigurationBuilder.AddExtensionSupport | packages/react-native-session-replay/android/src/main/kotlin/com/datadog/reactnative/sessionreplay/DdSessionReplayImplementation.kt:53 | Adds one extension support and changes nothing else |
| AndroidSessionReplay.ConfigurationBuilder.UseCustomEndpoint | packages/react-native-session-replay/android/src/main/kotlin/com/datadog/reactnative/sessionreplay/DdSessionReplayImplementation.kt:55-57 | Sets only the custom endpoint |
| AndroidSessionReplay.ConfigurationBuilder.ConfigurePrivacy | packages/react-native-session-replay/android/src/main/kotlin/com/datadog/reactnative/sessionreplay/DdSessionReplayImplementation.kt:86-107 | A known level name, in any ASCII case, sets all three levels; an unknown name leaves the builder unchanged |
| AndroidSessionReplay.EnableConfiguration | packages/react-native-session-replay/android/src/main/kotlin/com/datadog/reactnative/sessionreplay/DdSessionReplayImplementation.kt:37-61 | The enabled configuration has the sample rate, the start flag, one extension support, and a custom endpoint exactly when a non-empty one was given |
| AndroidSessionReplay.DdSessionReplayImplementation.constructor | packages/react-native-session-replay/android/src/main/kotlin/com/datadog/reactnative/sessionreplay/DdSessionReplayImplementation.kt:22-27 | No native call yet |
| AndroidSessionReplay.DdSessionReplayImplementation.Enable | packages/react-native-session-replay/android/src/main/kotlin/com/datadog/reactnative/sessionreplay/DdSessionReplayImplementation.kt:37-61 | Appends exactly one native enable with EnableConfiguration and resolves the promise once |
| AndroidSessionReplay.DdSessionReplayImplementation.StartRecording | packages/react-native-session-replay/android/src/main/kotlin/com/datadog/reactnative/sessionreplay/DdSessionReplayImplementation.kt:66-71 | Appends one native startRecording and resolves the promise once |
| AndroidSessionReplay.DdSessionReplayImplementation.StopRecording | packages/react-native-session-replay/android/src/main/kotlin/com/datadog/reactnative/sessionreplay/DdSessionReplayImplementation.kt:76-81 | Appends one native stopRecording and resolves the promise once |
| AndroidSessionReplay.ConvertersAgreeWithSettings | packages/react-native-session-replay/android/src/main/kotlin/com/datadog/reactnative/sessionreplay/DdSessionReplayImplementation.kt:112-145 | The implementation's converters agree with SessionReplayPrivacySettings' on every string |
| AndroidSessionReplay.AsciiLowercaseIdempotent | packages/react-native-session-replay/android/src/main/kotlin/com/datadog/reactnative/sessionreplay/DdSessionReplayImplementation.kt:89 | Lower-casing twice is lower-casing once |
| AndroidSessionReplay.PrivacyTripleIgnoresCase | packages/react-native-session-replay/android/src/main/kotlin/com/datadog/reactnative/sessionreplay/DdSessionReplayImplementation.kt:86-107 | configurePrivacy's choice does not depend on the case of the level name |
| AndroidSessionReplay.PrivacyTripleForJsLevels | packages/react-native-session-replay/android/src/main/kotlin/com/datadog/reactnative/sessionreplay/DdSessionReplayImplementation.kt:86-107 | The three levels JavaScript sends (MASK, MASK_USER_INPUT, ALLOW) are the three names configurePrivacy recognises, with the levels it sets for each |
| AndroidSessionReplay.EnablePrivacyMatchesSettings | packages/react-native-session-replay/android/src/main/kotlin/com/datadog/reactnative/sessionreplay/DdSessionReplayImplementation.kt:48-52 | The enabled configuration carries the same three levels as a privacy settings object built from the same strings |
| IosSessionReplay.ConvertImagePrivacy | packages/react-native-session-replay/ios/Sources/DdSessionReplayImplementation.swift:92-104 | maskNonBundledOnly exactly for MASK_NON_BUNDLED_ONLY, maskNone exactly for MASK_NONE, maskAll otherwise |
| IosSessionReplay.ConvertTouchPrivacy | packages/react-native-session-replay/ios/Sources/DdSessionReplayImplementation.swift:106-116 | show exactly for SHOW |
| IosSessionReplay.ConvertTextAndInputPrivacy | packages/react-native-session-replay/ios/Sources/DdSessionReplayImplementation.swift:118-130 | maskSensitiveInputs exactly for MASK_SENSITIVE_INPUTS, maskAllInputs exactly for MASK_ALL_INPUTS, maskAll otherwise |
| IosSessionReplay.CustomEndpointUrl | packages/react-native-session-replay/ios/Sources/DdSessionReplayImplementation.swift:43-46 | No URL for an empty endpoint; otherwise the URL parsed from the endpoint followed by the replay path |
| IosSessionReplay.DdSessionReplayImplementation.constructor | packages/react-native-session-replay/ios/Sources/DdSessionReplayImplementation.swift:19-22 | No session replay created, no calls, no console messages, no resolutions |
| IosSessionReplay.DdSessionReplayImplementation.EnableConfiguration | packages/react-native-session-replay/ios/Sources/DdSessionReplayImplementation.swift:43-56 | The configuration has the rate, the three privacy levels converted from their strings, the start flag, the endpoint rule and exactly the text view recorder as additional node recorder |
| IosSessionReplay.DdSessionReplayImplementation.Enable | packages/react-native-session-replay/ios/Sources/DdSessionReplayImplementation.swift:33-68 | With the SDK core: one native enable with that configuration; without it: a console message and no call; the promise resolves either way |
| IosSessionReplay.DdSessionReplayImplementation.StartRecording | packages/react-native-session-replay/ios/Sources/DdSessionReplayImplementation.swift:71-79 | With the core: one native startRecording; without it: a console message only; resolves either way |
| IosSessionReplay.DdSessionReplayImplementation.StopRecording | packages/react-native-session-replay/ios/Sources/DdSessionReplayImplementation.swift:82-90 | With the core: one native stopRecording; without it: a console message only; resolves either way |
| IosSessionReplay.TablesAgreeWithAndroid | packages/react-native-session-replay/ios/Sources/DdSessionReplayImplementation.swift:92-130 | The iOS conversion tables give the same levels as the Android ones on every string |
| IosSessionReplay.EnableLevelsMatchAndroidSettings | packages/react-native-session-replay/ios/Sources/DdSessionReplayImplementation.swift:43-56 | The privacy levels iOS enable configures correspond, level by level, to the Android privacy settings for the same strings |
| IosSessionReplay.ToAndroidIsInjective | packages/react-native-session-replay/ios/Sources/DdSessionReplayImplementation.swift:92-130 | The correspondence between iOS and Android levels is one to one |
| IosSessionReplay.EndpointRuleMatchesAndroid | packages/react-native-session-replay/ios/Sources/DdSessionReplayImplementation.swift:43-46 | As on Android, a custom endpoint is used exactly when it is non-empty (given a URL parser that accepts it) |
| TextViewRecorder.ExtractTextFromSubViews | packages/react-native-session-replay/ios/Sources/RCTTextViewRecorder.swift:25-41 | nil exactly for a nil subview list; an empty list gives "" |
| TextViewRecorder.JoinedIsLeaves | packages/react-native-session-replay/ios/Sources/RCTTextViewRecorder.swift:29-38 | The joined text of a child list is the concatenation of its raw-text leaves |
| TextViewRecorder.ContributionIsLeaves | packages/react-native-session-replay/ios/Sources/RCTTextViewRecorder.swift:30-37 | What one child contributes is the concatenation of its raw-text leaves |
| TextViewRecorder.ExtractTextIsFlattening | packages/react-native-session-replay/ios/Sources/RCTTextViewRecorder.swift:25-41 | For a non-nil list, the extracted text is exactly the in-order concatenation of the non-nil raw texts reachable through virtual text |
| TextViewRecorder.Semantics | packages/react-native-session-replay/ios/Sources/RCTTextViewRecorder.swift:43-79 | No semantics for a non-text view; an invisible element when the tag has no text shadow view; otherwise one builder, ignoring the subtree, with the node id, the extracted text, the colour, the font size and the obfuscator |
| TextViewRecorder.BuildWireframes | packages/react-native-session-replay/ios/Sources/RCTTextViewRecorder.swift:137-156 | One text wireframe with the builder's id, the masked text ("" when nil), the colour or black, the font size or 14 when NaN |
| TextViewRecorder.RecordedTextIsMaskedLeaves | packages/react-native-session-replay/ios/Sources/RCTTextViewRecorder.swift:59-76 | End to end, a recorded text view yields one wireframe whose text is the masked concatenation of its raw-text leaves, or the masked empty string |
| TextViewRecorder.OtherChildrenContributeNothing | packages/react-native-session-replay/ios/Sources/RCTTextViewRecorder.swift:29-38 | A non-text child contributes no text, whatever sits under it |
| TextViewRecorder.VirtualTextIsTransparent | packages/react-native-session-replay/ios/Sources/RCTTextViewRecorder.swift:33-35 | Wrapping children in a virtual-text node does not change the text |
| DrawablesExt.ImageViewScaleTypeOf | packages/react-native-session-replay/android/src/main/kotlin/com/datadog/reactnative/sessionreplay/extensions/ReactDrawablesExt.kt:25-36 | No ImageView type exactly for the three non-standard Fresco types; never MATRIX |
| DrawablesExt.ImageViewScaleTypeIsOneToOne | packages/react-native-session-replay/android/src/main/kotlin/com/datadog/reactnative/sessionreplay/extensions/ReactDrawablesExt.kt:25-36 | The mapping is one to one where defined, with an explicit inverse |
| DrawablesExt.GetDrawableOrNull | packages/react-native-session-replay/android/src/main/kotlin/com/datadog/reactnative/sessionreplay/extensions/ReactDrawablesExt.kt:47-53 | The layer at the index, or null for an index outside the layers |
| DrawablesExt.GetScaleTypeDrawable | packages/react-native-session-replay/android/src/main/kotlin/com/datadog/reactnative/sessionreplay/extensions/ReactDrawablesExt.kt:38-45 | Null exactly when no layer is a ScaleTypeDrawable; otherwise the lowest-index such layer |
| DrawablesExt.FirstScaleTypeFrom | packages/react-native-session-replay/android/src/main/kotlin/com/datadog/reactnative/sessionreplay/extensions/ReactDrawablesExt.kt:108-113 | The index of the first ScaleTypeDrawable layer at or after the start, or none when there is none |
| DrawablesExt.ToBitmapOrNull | packages/react-native-session-replay/android/src/main/kotlin/com/datadog/reactnative/sessionreplay/extensions/ReactDrawablesExt.kt:154-163 | Null exactly for a BitmapDrawable without a bitmap; any other drawable is rendered at the given size |
| DrawablesExt.ExtractBitmap | packages/react-native-session-replay/android/src/main/kotlin/com/datadog/reactnative/sessionreplay/extensions/ReactDrawablesExt.kt:127-152 | Dispatches on the class: an array drawable to ArrayExtract, a scale-type or forwarding drawable to ForwardingExtract, a rounded bitmap drawable to RoundedBitmapExtract (always a bitmap), a bitmap drawable to BitmapExtract; vector, shape and drawer-arrow drawables are rendered at their intrinsic size; unknown drawables give null |
| DrawablesExt.ForwardingExtract | packages/react-native-session-replay/android/src/main/kotlin/com/datadog/reactnative/sessionreplay/extensions/ReactDrawablesExt.kt:55-66 | A forwarding drawable with nothing inside is rendered at its intrinsic size |
| DrawablesExt.RoundedBitmapExtract | packages/react-native-session-replay/android/src/main/kotlin/com/datadog/reactnative/sessionreplay/extensions/ReactDrawablesExt.kt:68-86 | The private bitmap if reflection finds one, else the drawable rendered at its intrinsic size |
| DrawablesExt.BitmapExtract | packages/react-native-session-replay/android/src/main/kotlin/com/datadog/reactnative/sessionreplay/extensions/ReactDrawablesExt.kt:88-103 | Its own bitmap; else, from its constant state, the copy's bitmap when the copy is a bitmap drawable (null when it has none), or the copy rendered at this drawable's intrinsic size when it is not; null with no constant state |
| DrawablesExt.ArrayExtract | packages/react-native-session-replay/android/src/main/kotlin/com/datadog/reactnative/sessionreplay/extensions/ReactDrawablesExt.kt:105-125 | With a ScaleTypeDrawable layer, the first such layer's own extraction; without one, the array rendered at the chosen size when both sides are positive, else null |
| DrawablesExt.ArrayTryToExtractBitmap | packages/react-native-session-replay/android/src/main/kotlin/com/datadog/reactnative/sessionreplay/extensions/ReactDrawablesExt.kt:105-125 | The loop computes ArrayExtract |
| DrawablesExt.ChosenAreaIsMaximum | packages/react-native-session-replay/android/src/main/kotlin/com/datadog/reactnative/sessionreplay/extensions/ReactDrawablesExt.kt:115-118 | The area of the size the loop holds is non-negative, at least every layer's 32-bit area, and is 0 or some layer's area |
| DrawablesExt.ChosenIsFirstMaximum | packages/react-native-session-replay/android/src/main/kotlin/com/datadog/reactnative/sessionreplay/extensions/ReactDrawablesExt.kt:115-118 | The loop settles on the size of the first layer with the largest positive area, or (0, 0) when no area is positive |
| DrawablesExt.ArrayExtractUsesFirstMaximum | packages/react-native-session-replay/android/src/main/kotlin/com/datadog/reactnative/sessionreplay/extensions/ReactDrawablesExt.kt:115-124 | Without a ScaleTypeDrawable, the bitmap is rendered at the first largest layer's size when both its sides are positive, else null |
| DrawablesExt.ArrayWithoutPositiveAreaIsNull | packages/react-native-session-replay/android/src/main/kotlin/com/datadog/reactnative/sessionreplay/extensions/ReactDrawablesExt.kt:121-124 | Without a ScaleTypeDrawable and without a layer of positive area the result is null |
| DrawablesExt.ScaleTypeLayerDecides | packages/react-native-session-replay/android/src/main/kotlin/com/datadog/reactnative/sessionreplay/extensions/ReactDrawablesExt.kt:109-113 | Once a ScaleTypeDrawable layer exists, appending layers or changing the array's own size does not change the result |
| DrawablesExt.FirstScaleTypeAgrees | packages/react-native-session-replay/android/src/main/kotlin/com/datadog/reactnative/sessionreplay/extensions/ReactDrawablesExt.kt:108-113 | Appending layers after a ScaleTypeDrawable does not move the first one |
| DrawablesExt.OverflowingLayerIsIgnored | packages/react-native-session-replay/android/src/main/kotlin/com/datadog/reactnative/sessionreplay/extensions/ReactDrawablesExt.kt:115 | A 65536 by 65536 layer has 32-bit area 0 and gives null |
| DrawablesExt.ForwardingIsTransparent | packages/react-native-session-replay/android/src/main/kotlin/com/datadog/reactnative/sessionreplay/extensions/ReactDrawablesExt.kt:55-58 | Forwarding and ScaleType drawables give the bitmap of the drawable they wrap |
| DrawablesExt.OwnBitmapWins | packages/react-native-session-replay/android/src/main/kotlin/com/datadog/reactnative/sessionreplay/extensions/ReactDrawablesExt.kt:89-91 | A BitmapDrawable's own bitmap wins over its constant state |
| ReactBackground.FirstBackgroundLayer | packages/react-native-session-replay/android/src/rn75/kotlin/com.datadog.reactnative.sessionreplay/utils/ReactViewBackgroundDrawableUtils.kt:50-56 | Finds a layer exactly when some layer from the start on is the variant's background class, and what it finds is the first such layer |
| ReactBackground.ReactBackgroundOf | packages/react-native-session-replay/android/src/rn75/kotlin/com.datadog.reactnative.sessionreplay/utils/ReactViewBackgroundDrawableUtils.kt:40-59 | A background of the variant's class is returned itself; an inset gives what its inner drawable gives; a layer drawable gives its first direct background layer; null and unknown drawables give null |
| ReactBackground.GetReactBackgroundFromDrawable | packages/react-native-session-replay/android/src/rn75/kotlin/com.datadog.reactnative.sessionreplay/utils/ReactViewBackgroundDrawableUtils.kt:40-59 | The recursion and loop compute ReactBackgroundOf (the legacy variant, rnlegacy lines 41-60, is the same code looking for ReactViewBackgroundDrawable) |
| ReactBackground.ResolveBorder | packages/react-native-session-replay/android/src/rn75/kotlin/com.datadog.reactnative.sessionreplay/utils/ReactViewBackgroundDrawableUtils.kt:79-91 | The border has the full border's colour and width (as in rnlegacy lines 62-74) |
| ReactBackground.ResolveShapeAndBorder | packages/react-native-session-replay/android/src/rn75/kotlin/com.datadog.reactnative.sessionreplay/utils/ReactViewBackgroundDrawableUtils.kt:15-37 | Nothing for a drawable of the wrong class; otherwise the border, and a style with the colour, opacity and corner radius exactly when the background has a colour (as in rnlegacy lines 12-39) |
| ReactBackground.BorderIffBackground | packages/react-native-session-replay/android/src/rn75/kotlin/com.datadog.reactnative.sessionreplay/utils/ReactViewBackgroundDrawableUtils.kt:15-37 | A border exactly for the variant's background; a style exactly when that background has a colour, with the given opacity |
| ReactBackground.InsetsAreUnwrapped | packages/react-native-session-replay/android/src/rn75/kotlin/com.datadog.reactnative.sessionreplay/utils/ReactViewBackgroundDrawableUtils.kt:45-47 | Inset drawables are unwrapped to any depth |
| ReactBackground.InsetInsideLayerIsNotFound | packages/react-native-session-replay/android/src/rn75/kotlin/com.datadog.reactnative.sessionreplay/utils/ReactViewBackgroundDrawableUtils.kt:49-56 | Layers are not unwrapped: a background inside an inset inside a layer is not found |
| ReactBackground.FirstLayerWins | packages/react-native-session-replay/android/src/rn75/kotlin/com.datadog.reactnative.sessionreplay/utils/ReactViewBackgroundDrawableUtils.kt:50-54 | The first background layer wins over later ones |
| ReactBackground.VariantsAreDisjoint | packages/react-native-session-replay/android/src/rnlegacy/kotlin/com.datadog.reactnative.sessionreplay/utils/ReactViewBackgroundDrawableUtils.kt:41-60 | Each variant ignores the other's background class |
| WebViewJsUtils.WrapJsCodeInTryAndCatch | packages/react-native-webview/src/utils/webview-js-utils.ts:36-53 | Undefined exactly for missing or empty code; otherwise the try opener, the code unchanged, then the catch block that posts the error message to React Native; the `injectedJavaScript` prop (index.tsx lines 97-99) and the old-architecture script are this wrapping of the user's script |
| WebViewJsUtils.GetErrorMessage | packages/react-native-webview/src/utils/webview-js-utils.ts:108-120 | The method computes ErrorMessage |
| WebViewJsUtils.ErrorMessage | packages/react-native-webview/src/utils/webview-js-utils.ts:108-120 | "Unknown Error" for null or undefined; the converted message of an object with a message property; the converted value for every other value, arrays and objects without a message included |
| WebViewJsUtils.Location | packages/react-native-webview/src/utils/webview-js-utils.ts:138-144 | The empty stack trace exactly when one of the three conversions throws; otherwise "at " followed by the converted sourceURL, line and column separated by colons |
| WebViewJsUtils.StackTrace | packages/react-native-webview/src/utils/webview-js-utils.ts:122-150 | Empty for null, undefined, strings, arrays and other non-objects; for an object the first present of stacktrace, stack and componentStack (empty when its conversion throws), else the Location when sourceURL, line and column are all present, else empty |
| WebViewJsUtils.GetErrorStackTrace | packages/react-native-webview/src/utils/webview-js-utils.ts:122-150 | The method, with its catch-all, computes StackTrace |
| WebViewJsUtils.FormatAllowedHosts | packages/react-native-webview/src/utils/webview-js-utils.ts:93-106 | The JSON in quotes when serialising succeeds; '[]' when it throws, with, when the native SDK exists, the telemetry error of the exception's message, its stack trace and the AllowedHostsError kind; an exception escapes exactly from the telemetry's own message conversion |
| WebViewJsUtils.GetWebViewEventBridgingJS | packages/react-native-webview/src/utils/webview-js-utils.ts:61-91 | Fails exactly when the hosts literal fails; otherwise the bridge around the hosts literal and the custom code inside a try block, together with the telemetry error formatting the hosts reported |
| WebViewJsUtils.ErrorMessageOfErrorsAndStrings | packages/react-native-webview/src/utils/webview-js-utils.ts:108-120 | An Error-like object's message is its message property; a thrown string is its own message; null and undefined give "Unknown Error" |
| WebViewJsUtils.FirstStackFieldWins | packages/react-native-webview/src/utils/webview-js-utils.ts:132-137 | stacktrace hides stack and componentStack |
| WebViewJsUtils.LocationNeedsAllThreeFields | packages/react-native-webview/src/utils/webview-js-utils.ts:138-144 | For an object with no stack field, a missing sourceURL, line or column gives the empty stack trace; with all three present it is "at url:line:column" of their conversions, or empty when one throws |
| WebViewJsUtils.StringLocation | packages/react-native-webview/src/utils/webview-js-utils.ts:138-144 | Three string location fields give "at url:line:column" |
| WebViewJsUtils.ThrowingConversionGivesEmptyStack | packages/react-native-webview/src/utils/webview-js-utils.ts:126-149 | A stack whose conversion throws gives the empty stack trace |
| WebViewJsUtils.UnserialisableHostsGiveEmptyList | packages/react-native-webview/src/utils/webview-js-utils.ts:93-106 | Without a native SDK, unserialisable hosts still give a valid bridge script with an empty host list |
| WebViewRouting.HandleDatadogMessage | packages/react-native-webview/src/index.tsx:40-53 | At most one action, never the user handler; an ERROR with a message is logged, with that message, exactly when logUserCodeErrors is true and the native logs module exists; a NATIVE_EVENT with a message goes, with that message, to the native SDK exactly when it exists; nothing else ever happens |
| WebViewRouting.CallUser | packages/react-native-webview/src/index.tsx:64-69 | No action without a user handler; otherwise one call to it, escaping exactly when it throws |
| WebViewRouting.OnMessageAsWritten | packages/react-native-webview/src/index.tsx:55-69 | The routing as written: a null payload does nothing (the calling of a throwing user handler twice is shown by a lemma) |
| WebViewRouting.OnMessage | packages/react-native-webview/src/index.tsx:55-69 | A null payload does nothing; a Datadog message is handled internally; anything else, unparsable data included, goes to the user handler once |
| WebViewRouting.InjectedJavaScriptBeforeContentLoaded | packages/react-native-webview/src/index.tsx:74-85 | New architecture: the event bridge with the user code, failing exactly when it fails; old architecture: the wrapped user code |
| WebViewRouting.DatadogMessagesStayInternal | packages/react-native-webview/src/index.tsx:60-63 | Datadog messages never reach the user handler and never escape |
| WebViewRouting.OtherMessagesReachTheUser | packages/react-native-webview/src/index.tsx:62-69 | Unparsable data and non-Datadog messages go to the user handler first |
| WebViewRouting.UserCodeErrorsAreNotLoggedByDefault | packages/react-native-webview/src/index.tsx:40-45 | With logUserCodeErrors left out, no message is ever logged as an error |
| WebViewRouting.NativeEventsAreForwardedUnchanged | packages/react-native-webview/src/index.tsx:46-51 | Any parsed Datadog message of type NATIVE_EVENT with a message, whatever its other fields, hands that message to the native SDK unchanged and does nothing else |
| WebViewRouting.UserCodeErrorsAreLoggedWhenEnabled | packages/react-native-webview/src/index.tsx:40-45 | With logUserCodeErrors true and the native logs module present, a Datadog ERROR message with a message is logged once and nothing else happens |
| WebViewRouting.ThrowingUserHandlerRunsTwice | packages/react-native-webview/src/index.tsx:60-69 | As written, a throwing user handler runs twice for one message |
| WebViewRouting.UserHandlerRunsAtMostOnce | packages/react-native-webview/src/index.tsx:60-69 | With the catch limited to parsing, the user handler runs at most once, and the two versions agree whenever it does not throw |

## Left out

- Native bridges, promises and threads: a native call is recorded in a ghost log, and what it answers is a parameter. The asynchronous ordering of promises and `InteractionManager.runAfterInteractions` is treated as immediate.
- The XHR and fetch proxies, `TracingIdentifier` and the first-party host regex map are not part of this model. Their results (fresh ids, the propagators for a host) are parameters of `DistributedTracing.GetTracingAttributes`.
- `DistributedTracing.GenerateTracingAttributesWithSampling`: the source converts the hash and the threshold to floating-point numbers. The model compares them exactly, so it does not capture rounding near the threshold.
- `Rum.GenerateUUID`: states which kind of id is drawn and how it is rendered, not the rendered string itself.
- Context validation (`validateContext`), the event-mapper generators and the default time provider are parameters or abstracted. `setTimeProvider` is not modelled, because it only swaps the parameter.
- The `DdAttributes` constants file is not part of this model. The value `_dd.error.fingerprint` of `Logs.ErrorFingerprintKey` is assumed; the value `_dd.error.source_type` of the source-type key is the one the RUM tests expect.
- The gesture event of `addAction` and the request object of `stopResource` are opaque values: the model passes them to the mappers and never looks inside them.
- `Logs.RawLogEvent`: a non-string error kind or error message from untyped JavaScript becomes absent. The source forwards the raw value, which the TypeScript signature declares a string.
- `bufferVoidNativeCall` and the buffer of native calls made before initialisation: a buffered call is recorded as made.
- Internal logs, console warnings and Android `Log.w` messages: only the diagnostics that decide behaviour are modelled (a warning instead of a call, a telemetry debug).
- `Logs.NativeCallFor`: treats a fingerprint argument that is truthy but not a string as absent. The source would still write it into the context.
- DdSdkReactNative's setAttributes, setUser, addUserExtraInfo, setTrackingConsent and clearAllData are plain native forwards and are left out. So are the configuration fields that are copied unchanged into the native configuration.
- `addDefaultValuesToAutoInstrumentationConfiguration` and `buildConfigurationFromPartialConfiguration`: parameters of the SDK model.
- `AndroidSessionReplay.ConfigurationBuilder`: a privacy level or flag that is never set is left as None. The native SDK's own defaults are not part of this model.
- `AndroidSessionReplay.AsciiLowercase`: lower-cases ASCII letters only. `lowercase(Locale.US)` also folds non-ASCII letters, which cannot match any level name anyway.
- Floating point: `toFloat`, the corner-radius averaging and density normalisation in the background utilities are not modelled. The model takes them as the given `cornerRadius` and `borderWidth` fields. A NaN font size is a constructor of its own.
- Bitmap drawing, scaling and the exceptions `createBitmap` can raise: a rendered bitmap is abstracted as `Rendered(width, height)`. The `CGRect` geometry and clipping of the iOS wireframe are left out.
- Reflection on `mBitmap` and `mColor`: the values it yields are fields of the modelled drawables.
- Fabric (new-architecture) text recording on iOS and the other session-replay mappers are not part of this model.
- JavaScript `startRecording` and `stopRecording` of the session-replay wrapper only forward, with no arguments. They appear as the `StartRecording` and `StopRecording` native calls, with no member of their own.
- `WebViewRouting.OnMessageAsWritten`: does not model an exception thrown by the Datadog-message handler itself. In the source, such an exception would also reach the catch block and call the user handler.

## Findings

| source | as written | input that shows it | evidently intended | confidence | as-written member | corrected member |
|---|---|---|---|---|---|---|
| packages/react-native-webview/src/index.tsx:60-69 | The user's `onMessage` is called inside the `try` whose `catch` calls it again. So when the user handler throws, it runs a second time for the same message, and the second exception escapes. | Any non-Datadog JSON message, such as `{"a":1}`, delivered to a WebView whose `onMessage` prop throws. | The `catch` only covers `JSON.parse`. Unparsable data goes to the user handler once, and a throwing handler runs once. | not executed | WebViewRouting.ThrowingUserHandlerRunsTwice | WebViewRouting.UserHandlerRunsAtMostOnce |
