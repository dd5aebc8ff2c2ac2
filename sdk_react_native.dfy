/** The SDK entry point (DdSdkReactNative): the once-only feature
    enablement, the already-initialised guard around native initialisation,
    the choice of initialisation mode for the provider component, and the
    attributes written into the configuration's `additionalConfiguration`
    before it is handed to the native SDK. Effects on other modules (warnings,
    telemetry, tracking start-ups, mapper registrations, the native call, the
    buffer flush) are recorded in a ghost effect log. */
module SdkReactNative {

  import opened Wrappers
  import opened JsValues

  const SourceKey: string := "_dd.source"
  const SdkVersionKey: string := "_dd.sdk_version"
  const VersionKey: string := "_dd.version"
  const VersionSuffixKey: string := "_dd.version_suffix"
  const ReactNativeVersionKey: string := "_dd.react_native_version"
  const ReactNativeSource: string := "react-native"

  const AlreadyInitializedWarning: string := "Can't initialize Datadog, SDK was already initialized"
  const AlreadyInitializedTelemetry: string := "RN SDK was already initialized in javascript"
  const AlreadyInstrumentedWarning: string := "Can't auto instrument Datadog, SDK was already instrumented"
  const ProviderNotMountedWarning: string :=
    "Can't initialize Datadog, make sure the DatadogProvider component is mounted before calling this function"

  /** The initialisation mode reported to telemetry. */
  datatype TelemetryMode = Legacy | File | Sync | Async | Partial

  /** The provider's InitializationMode setting. */
  datatype InitializationMode = SyncMode | AsyncMode

  /** The auto-instrumentation parameters enableFeatures reads. A mapper
      field only records whether one was configured. */
  datatype AutoInstrumentation = AutoInstrumentation(
    trackInteractions: bool, actionNameAttribute: Option<string>, useAccessibilityLabel: Option<bool>,
    trackResources: bool, resourceTracingSamplingRate: real,
    trackErrors: bool,
    hasLogEventMapper: bool, hasErrorEventMapper: bool, hasResourceEventMapper: bool, hasActionEventMapper: bool)

  /** The part of the native configuration this model follows. */
  datatype NativeSdkConfiguration = NativeSdkConfiguration(
    additionalConfiguration: map<string, JsValue>, sampleRate: real, initializationType: TelemetryMode,
    trackErrors: bool, trackInteractions: bool, trackNetworkRequests: bool)

  datatype SdkEffect =
    | Warn(message: string)
    | TelemetryDebug(message: string)
    | NativeInitialize(configuration: NativeSdkConfiguration)
    | BufferFlush
    | StartInteractionTracking(actionNameAttribute: Option<string>, useAccessibilityLabel: Option<bool>)
    | StartResourceTracking(tracingSamplingRate: real)
    | StartErrorTracking
    | RegisterLogEventMapper
    | RegisterErrorEventMapper
    | RegisterResourceEventMapper
    | RegisterActionEventMapper

  /** A JS string that is truthy: present and non-empty. */
  predicate Truthy(s: Option<string>) {
    s.Some? && s.value != ""
  }

  /** The user's configuration object; the SDK writes into its
      `additionalConfiguration` dictionary in place. */
  class SdkConfiguration {
    var additionalConfiguration: map<string, JsValue>
    const version: Option<string>
    const versionSuffix: Option<string>
    const sampleRate: Option<real>
    const sessionSamplingRate: real
    const features: AutoInstrumentation
    /** Whether the object is a FileBasedConfiguration. */
    const isFileBased: bool
    /** Whether the object is a DdSdkReactNativeConfiguration. */
    const isLegacyConfiguration: bool
    const initializationMode: Option<InitializationMode>

    constructor (additionalConfiguration: map<string, JsValue>, version: Option<string>, versionSuffix: Option<string>,
                 sampleRate: Option<real>, sessionSamplingRate: real, features: AutoInstrumentation,
                 isFileBased: bool, isLegacyConfiguration: bool, initializationMode: Option<InitializationMode>)
      ensures this.additionalConfiguration == additionalConfiguration
      ensures this.version == version && this.versionSuffix == versionSuffix
      ensures this.sampleRate == sampleRate && this.sessionSamplingRate == sessionSamplingRate
      ensures this.features == features && this.isFileBased == isFileBased
      ensures this.isLegacyConfiguration == isLegacyConfiguration && this.initializationMode == initializationMode
    {
      this.additionalConfiguration := additionalConfiguration;
      this.version := version;
      this.versionSuffix := versionSuffix;
      this.sampleRate := sampleRate;
      this.sessionSamplingRate := sessionSamplingRate;
      this.features := features;
      this.isFileBased := isFileBased;
      this.isLegacyConfiguration := isLegacyConfiguration;
      this.initializationMode := initializationMode;
    }
  }

  /** The `_dd.version` value: the version, followed by `-suffix` when a
      suffix is set. */
  function VersionValue(version: string, versionSuffix: Option<string>): string {
    version + (if Truthy(versionSuffix) then "-" + versionSuffix.value else "")
  }

  /** The keys buildConfiguration writes. */
  function WrittenKeys(version: Option<string>, versionSuffix: Option<string>, reactNativeVersion: string): (keys: set<string>)
    ensures SourceKey in keys && SdkVersionKey in keys
    ensures VersionKey in keys <==> Truthy(version)
    ensures VersionSuffixKey in keys <==> Truthy(versionSuffix) && !Truthy(version)
    ensures ReactNativeVersionKey in keys <==> reactNativeVersion != ""
  {
    {SourceKey, SdkVersionKey}
    + (if Truthy(version) then {VersionKey} else {})
    + (if Truthy(versionSuffix) && !Truthy(version) then {VersionSuffixKey} else {})
    + (if reactNativeVersion != "" then {ReactNativeVersionKey} else {})
  }

  /** Reference definition of the dictionary after buildConfiguration, key by
      key: each key written gets its rule's value, every other key keeps its
      prior value. */
  function BuiltAdditionalConfiguration(
    prior: map<string, JsValue>, version: Option<string>, versionSuffix: Option<string>,
    sdkVersion: string, reactNativeVersion: string
  ): map<string, JsValue>
  {
    map k | k in prior.Keys + WrittenKeys(version, versionSuffix, reactNativeVersion) ::
      if k == SourceKey then Str(ReactNativeSource)
      else if k == SdkVersionKey then Str(sdkVersion)
      else if k == VersionKey && Truthy(version) then Str(VersionValue(version.value, versionSuffix))
      else if k == VersionSuffixKey && Truthy(versionSuffix) && !Truthy(version) then Str("-" + versionSuffix.value)
      else if k == ReactNativeVersionKey && reactNativeVersion != "" then Str(reactNativeVersion)
      else prior[k]
  }

  lemma KeysDistinct()
    ensures SourceKey != SdkVersionKey && SourceKey != VersionKey && SourceKey != VersionSuffixKey
    ensures SourceKey != ReactNativeVersionKey && SdkVersionKey != VersionKey && SdkVersionKey != VersionSuffixKey
    ensures SdkVersionKey != ReactNativeVersionKey && VersionKey != VersionSuffixKey
    ensures VersionKey != ReactNativeVersionKey && VersionSuffixKey != ReactNativeVersionKey
  {
    assert |SourceKey| == 10 && |SdkVersionKey| == 15 && |VersionKey| == 11;
    assert |VersionSuffixKey| == 18 && |ReactNativeVersionKey| == 24;
  }

  /** The sample rate: `sampleRate` when defined, else `sessionSamplingRate`. */
  function EffectiveSampleRate(sampleRate: Option<real>, sessionSamplingRate: real): (r: real)
    ensures sampleRate.Some? ==> r == sampleRate.value
    ensures sampleRate.None? ==> r == sessionSamplingRate
  {
    if sampleRate.None? then sessionSamplingRate else sampleRate.value
  }

  /** The mode _initializeFromDatadogProvider initialises with, if any. */
  function ProviderInitMode(isFileBased: bool, initializationMode: Option<InitializationMode>,
                            isLegacyConfiguration: bool): (m: Option<TelemetryMode>)
    ensures isFileBased ==> m == Some(File)
    ensures !isFileBased && initializationMode == Some(SyncMode) ==> m == Some(Sync)
    ensures !isFileBased && initializationMode == Some(AsyncMode) ==> m == Some(Async)
    ensures !isFileBased && initializationMode.None? ==> m == (if isLegacyConfiguration then Some(Sync) else None)
  {
    if isFileBased then Some(File)
    else if initializationMode == Some(SyncMode) then Some(Sync)
    else if initializationMode == Some(AsyncMode) then Some(Async)
    else if isLegacyConfiguration then Some(Sync)
    else None
  }

  /** One effect when its flag is set, none otherwise. */
  function When(flag: bool, e: SdkEffect): (effects: seq<SdkEffect>)
    ensures forall x :: x in effects <==> flag && x == e
  {
    if flag then [e] else []
  }

  /** What enableFeatures starts and registers, in order, on its first call. */
  function FeatureEffects(p: AutoInstrumentation): (effects: seq<SdkEffect>)
    ensures forall e :: e in effects <==>
      || (p.trackInteractions && e == StartInteractionTracking(p.actionNameAttribute, p.useAccessibilityLabel))
      || (p.trackResources && e == StartResourceTracking(p.resourceTracingSamplingRate))
      || (p.trackErrors && e == StartErrorTracking)
      || (p.hasLogEventMapper && e == RegisterLogEventMapper)
      || (p.hasErrorEventMapper && e == RegisterErrorEventMapper)
      || (p.hasResourceEventMapper && e == RegisterResourceEventMapper)
      || (p.hasActionEventMapper && e == RegisterActionEventMapper)
  {
    When(p.trackInteractions, StartInteractionTracking(p.actionNameAttribute, p.useAccessibilityLabel))
    + When(p.trackResources, StartResourceTracking(p.resourceTracingSamplingRate))
    + When(p.trackErrors, StartErrorTracking)
    + When(p.hasLogEventMapper, RegisterLogEventMapper)
    + When(p.hasErrorEventMapper, RegisterErrorEventMapper)
    + When(p.hasResourceEventMapper, RegisterResourceEventMapper)
    + When(p.hasActionEventMapper, RegisterActionEventMapper)
  }

  /** The native configuration buildConfiguration assembles around the
      dictionary `additional`. */
  function NativeConfigurationOf(additional: map<string, JsValue>, c: SdkConfiguration, mode: TelemetryMode)
    : (native: NativeSdkConfiguration)
    ensures native.additionalConfiguration == additional && native.initializationType == mode
    ensures native.sampleRate == EffectiveSampleRate(c.sampleRate, c.sessionSamplingRate)
    ensures native.trackErrors == c.features.trackErrors && native.trackInteractions == c.features.trackInteractions
    ensures native.trackNetworkRequests == c.features.trackResources
  {
    NativeSdkConfiguration(additional, EffectiveSampleRate(c.sampleRate, c.sessionSamplingRate),
                           mode, c.features.trackErrors, c.features.trackInteractions, c.features.trackResources)
  }

  /** What one enableFeatures call records: the features on the first call, a
      warning on every later one. */
  function EnableEffects(wasAutoInstrumented: bool, p: AutoInstrumentation): (effects: seq<SdkEffect>)
    ensures wasAutoInstrumented ==> effects == [Warn(AlreadyInstrumentedWarning)]
    ensures !wasAutoInstrumented ==> Warn(AlreadyInstrumentedWarning) !in effects
  {
    if wasAutoInstrumented then [Warn(AlreadyInstrumentedWarning)] else FeatureEffects(p)
  }

  /** What one initializeNativeSDK call records: the warning (and, outside
      development mode, the telemetry) when the SDK is initialised already;
      otherwise the native call, then the buffer flush once it succeeds. */
  function NativeInitEffects(wasInitialized: bool, dev: bool, native: NativeSdkConfiguration, nativeSucceeds: bool)
    : (effects: seq<SdkEffect>)
    ensures NativeInitialize(native) in effects <==> !wasInitialized
    ensures BufferFlush in effects <==> !wasInitialized && nativeSucceeds
    ensures Warn(AlreadyInitializedWarning) in effects <==> wasInitialized
    ensures TelemetryDebug(AlreadyInitializedTelemetry) in effects <==> wasInitialized && !dev
  {
    if wasInitialized then
      [Warn(AlreadyInitializedWarning)] + (if dev then [] else [TelemetryDebug(AlreadyInitializedTelemetry)])
    else
      [NativeInitialize(native)] + (if nativeSucceeds then [BufferFlush] else [])
  }

  /** The configuration's dictionary after initializeNativeSDK: untouched when
      the SDK is initialised already, built otherwise. */
  function DictionaryAfterInit(wasInitialized: bool, prior: map<string, JsValue>, c: SdkConfiguration,
                               sdkVersion: string, reactNativeVersion: string): (d: map<string, JsValue>)
    ensures wasInitialized ==> d == prior
    ensures !wasInitialized ==> prior.Keys <= d.Keys && SourceKey in d && d[SourceKey] == Str(ReactNativeSource)
  {
    if wasInitialized then prior
    else BuiltAdditionalConfiguration(prior, c.version, c.versionSuffix, sdkVersion, reactNativeVersion)
  }

  /** buildConfiguration: writes the SDK attributes into the caller's
      dictionary, one key at a time, and assembles the native configuration. */
  method BuildConfiguration(configuration: SdkConfiguration, mode: TelemetryMode,
                            sdkVersion: string, reactNativeVersion: string)
    returns (native: NativeSdkConfiguration)
    modifies configuration
    ensures configuration.additionalConfiguration ==
      BuiltAdditionalConfiguration(old(configuration.additionalConfiguration), configuration.version,
                                   configuration.versionSuffix, sdkVersion, reactNativeVersion)
    ensures native == NativeConfigurationOf(configuration.additionalConfiguration, configuration, mode)
  {
    ghost var prior := configuration.additionalConfiguration;
    var additional := configuration.additionalConfiguration;
    additional := additional[SourceKey := Str(ReactNativeSource)];
    additional := additional[SdkVersionKey := Str(sdkVersion)];
    if Truthy(configuration.version) {
      additional := additional[VersionKey := Str(VersionValue(configuration.version.value, configuration.versionSuffix))];
    }
    if Truthy(configuration.versionSuffix) && !Truthy(configuration.version) {
      additional := additional[VersionSuffixKey := Str("-" + configuration.versionSuffix.value)];
    }
    if reactNativeVersion != "" {
      additional := additional[ReactNativeVersionKey := Str(reactNativeVersion)];
    }
    KeysDistinct();
    assert additional.Keys == prior.Keys + WrittenKeys(configuration.version, configuration.versionSuffix, reactNativeVersion);
    configuration.additionalConfiguration := additional;
    native := NativeSdkConfiguration(
      additional, EffectiveSampleRate(configuration.sampleRate, configuration.sessionSamplingRate),
      mode, configuration.features.trackErrors, configuration.features.trackInteractions,
      configuration.features.trackResources);
  }

  /** The SDK's static state and the global initialisation flag. */
  class DdSdkReactNative {
    var wasAutoInstrumented: bool
    var features: Option<AutoInstrumentation>
    var isInitialized: bool
    ghost var effects: seq<SdkEffect>
    /** addDefaultValuesToAutoInstrumentationConfiguration. */
    const addDefaults: AutoInstrumentation -> AutoInstrumentation
    const sdkVersion: string
    const reactNativeVersion: string
    /** Whether the app runs in development mode (`__DEV__`). */
    const dev: bool

    constructor (addDefaults: AutoInstrumentation -> AutoInstrumentation, sdkVersion: string,
                 reactNativeVersion: string, dev: bool)
      ensures !wasAutoInstrumented && features.None? && !isInitialized && effects == []
      ensures this.addDefaults == addDefaults && this.sdkVersion == sdkVersion
      ensures this.reactNativeVersion == reactNativeVersion && this.dev == dev
    {
      wasAutoInstrumented := false;
      features := None;
      isInitialized := false;
      effects := [];
      this.addDefaults := addDefaults;
      this.sdkVersion := sdkVersion;
      this.reactNativeVersion := reactNativeVersion;
      this.dev := dev;
    }

    /** enableFeatures: the first call starts the configured features; every
        later call only warns. */
    method EnableFeatures(p: AutoInstrumentation)
      modifies this
      ensures wasAutoInstrumented
      ensures effects == old(effects) + EnableEffects(old(wasAutoInstrumented), p)
      ensures isInitialized == old(isInitialized) && features == old(features)
    {
      if wasAutoInstrumented {
        effects := effects + [Warn(AlreadyInstrumentedWarning)];
        return;
      }
      effects := effects + FeatureEffects(p);
      wasAutoInstrumented := true;
    }

    /** initializeNativeSDK. `nativeSucceeds` is how the native initialisation
        settles; on failure the rejection propagates (`ok` false) and the SDK
        stays uninitialised. */
    method InitializeNativeSdk(configuration: SdkConfiguration, mode: TelemetryMode, nativeSucceeds: bool)
      returns (ok: bool)
      modifies this, configuration
      ensures ok == (old(isInitialized) || nativeSucceeds) && isInitialized == ok
      ensures configuration.additionalConfiguration ==
        DictionaryAfterInit(old(isInitialized), old(configuration.additionalConfiguration), configuration,
                            sdkVersion, reactNativeVersion)
      ensures effects == old(effects) +
        NativeInitEffects(old(isInitialized), dev,
                          NativeConfigurationOf(configuration.additionalConfiguration, configuration, mode), nativeSucceeds)
      ensures wasAutoInstrumented == old(wasAutoInstrumented) && features == old(features)
    {
      if isInitialized {
        effects := effects + [Warn(AlreadyInitializedWarning)];
        if !dev {
          effects := effects + [TelemetryDebug(AlreadyInitializedTelemetry)];
        }
        return true;
      }
      var native := BuildConfiguration(configuration, mode, sdkVersion, reactNativeVersion);
      effects := effects + [NativeInitialize(native)];
      if !nativeSucceeds {
        return false;
      }
      isInitialized := true;
      effects := effects + [BufferFlush];
      ok := true;
    }

    /** initialize: native initialisation in legacy mode, then the features,
        which a failed native initialisation never reaches. */
    method Initialize(configuration: SdkConfiguration, nativeSucceeds: bool) returns (ok: bool)
      modifies this, configuration
      ensures ok == (old(isInitialized) || nativeSucceeds) && isInitialized == ok
      ensures wasAutoInstrumented == (old(wasAutoInstrumented) || ok) && features == old(features)
      ensures configuration.additionalConfiguration ==
        DictionaryAfterInit(old(isInitialized), old(configuration.additionalConfiguration), configuration,
                            sdkVersion, reactNativeVersion)
      ensures effects == old(effects)
        + NativeInitEffects(old(isInitialized), dev,
                            NativeConfigurationOf(configuration.additionalConfiguration, configuration, Legacy),
                            nativeSucceeds)
        + (if ok then EnableEffects(old(wasAutoInstrumented), configuration.features) else [])
    {
      ok := InitializeNativeSdk(configuration, Legacy, nativeSucceeds);
      if ok {
        EnableFeatures(configuration.features);
      }
    }

    /** _initializeFromDatadogProvider: features first, then native
        initialisation in the mode the configuration selects. */
    method InitializeFromDatadogProvider(configuration: SdkConfiguration, nativeSucceeds: bool) returns (ok: bool)
      modifies this, configuration
      ensures wasAutoInstrumented && features == old(features)
      ensures var m := ProviderInitMode(configuration.isFileBased, configuration.initializationMode,
                                        configuration.isLegacyConfiguration);
        && (m.None? ==>
              && ok && isInitialized == old(isInitialized)
              && configuration.additionalConfiguration == old(configuration.additionalConfiguration)
              && effects == old(effects) + EnableEffects(old(wasAutoInstrumented), configuration.features))
        && (m.Some? ==>
              && ok == (old(isInitialized) || nativeSucceeds) && isInitialized == ok
              && configuration.additionalConfiguration ==
                   DictionaryAfterInit(old(isInitialized), old(configuration.additionalConfiguration), configuration,
                                       sdkVersion, reactNativeVersion)
              && effects == old(effects)
                   + EnableEffects(old(wasAutoInstrumented), configuration.features)
                   + NativeInitEffects(old(isInitialized), dev,
                                       NativeConfigurationOf(configuration.additionalConfiguration, configuration, m.value),
                                       nativeSucceeds))
    {
      EnableFeatures(configuration.features);
      var m := ProviderInitMode(configuration.isFileBased, configuration.initializationMode,
                                configuration.isLegacyConfiguration);
      if m.None? {
        return true;
      }
      ok := InitializeNativeSdk(configuration, m.value, nativeSucceeds);
    }

    /** _enableFeaturesFromDatadogProvider: stores the features, then enables
        them with their defaults filled in. */
    method EnableFeaturesFromDatadogProvider(p: AutoInstrumentation)
      modifies this
      ensures features == Some(p) && wasAutoInstrumented
      ensures effects == old(effects) + EnableEffects(old(wasAutoInstrumented), addDefaults(p))
      ensures isInitialized == old(isInitialized)
    {
      features := Some(p);
      EnableFeatures(addDefaults(p));
    }

    /** _initializeFromDatadogProviderWithConfigurationAsync. `built` is the
        configuration built from the stored features and the partial
        configuration (buildConfigurationFromPartialConfiguration). */
    method InitializeWithConfigurationAsync(built: SdkConfiguration, nativeSucceeds: bool) returns (ok: bool)
      modifies this, built
      ensures wasAutoInstrumented == old(wasAutoInstrumented) && features == old(features)
      ensures old(features).None? ==>
        && ok && isInitialized == old(isInitialized)
        && built.additionalConfiguration == old(built.additionalConfiguration)
        && effects == old(effects) + [Warn(ProviderNotMountedWarning)]
      ensures old(features).Some? ==>
        && ok == (old(isInitialized) || nativeSucceeds) && isInitialized == ok
        && built.additionalConfiguration ==
             DictionaryAfterInit(old(isInitialized), old(built.additionalConfiguration), built,
                                 sdkVersion, reactNativeVersion)
        && effects == old(effects) +
             NativeInitEffects(old(isInitialized), dev,
                               NativeConfigurationOf(built.additionalConfiguration, built, Partial), nativeSucceeds)
    {
      if features.None? {
        effects := effects + [Warn(ProviderNotMountedWarning)];
        return true;
      }
      ok := InitializeNativeSdk(built, Partial, nativeSucceeds);
    }
  }

  // ----- properties -----

  /** buildConfiguration's rules, key by key. */
  lemma BuiltAttributes(prior: map<string, JsValue>, version: Option<string>, versionSuffix: Option<string>,
                        sdkVersion: string, reactNativeVersion: string)
    ensures var c := BuiltAdditionalConfiguration(prior, version, versionSuffix, sdkVersion, reactNativeVersion);
      && c[SourceKey] == Str(ReactNativeSource)
      && c[SdkVersionKey] == Str(sdkVersion)
      && (Truthy(version) ==>
            c[VersionKey] == Str(version.value + (if Truthy(versionSuffix) then "-" + versionSuffix.value else "")))
      && (Truthy(versionSuffix) && !Truthy(version) ==> c[VersionSuffixKey] == Str("-" + versionSuffix.value))
      && (reactNativeVersion != "" ==> c[ReactNativeVersionKey] == Str(reactNativeVersion))
  {
  }

  /** Keys no rule writes keep their prior value, and no key disappears. */
  lemma BuiltKeepsOtherKeys(prior: map<string, JsValue>, version: Option<string>, versionSuffix: Option<string>,
                            sdkVersion: string, reactNativeVersion: string, k: string)
    requires k in prior && k !in WrittenKeys(version, versionSuffix, reactNativeVersion)
    ensures var c := BuiltAdditionalConfiguration(prior, version, versionSuffix, sdkVersion, reactNativeVersion);
      k in c && c[k] == prior[k]
  {
  }

  /** A version with a suffix is merged into `_dd.version`, so the suffix key is
      not written; a suffix alone goes into `_dd.version_suffix`. */
  lemma SuffixWrittenOnce(version: Option<string>, versionSuffix: Option<string>, reactNativeVersion: string)
    requires Truthy(versionSuffix)
    ensures Truthy(version) ==>
      VersionKey in WrittenKeys(version, versionSuffix, reactNativeVersion)
      && VersionSuffixKey !in WrittenKeys(version, versionSuffix, reactNativeVersion)
    ensures !Truthy(version) ==>
      VersionKey !in WrittenKeys(version, versionSuffix, reactNativeVersion)
      && VersionSuffixKey in WrittenKeys(version, versionSuffix, reactNativeVersion)
  {
  }

  /** A file-based configuration initialises in file mode whatever its
      initialisation mode says. */
  lemma FileBasedWins(initializationMode: Option<InitializationMode>, isLegacyConfiguration: bool)
    ensures ProviderInitMode(true, initializationMode, isLegacyConfiguration) == Some(File)
  {
  }

  /** Scenario: a second enableFeatures only warns. */
  method EnableTwice(sdk: DdSdkReactNative, first: AutoInstrumentation, second: AutoInstrumentation)
    requires !sdk.wasAutoInstrumented
    modifies sdk
    ensures sdk.effects == old(sdk.effects) + FeatureEffects(first) + [Warn(AlreadyInstrumentedWarning)]
  {
    sdk.EnableFeatures(first);
    sdk.EnableFeatures(second);
  }

  /** Scenario: a second initialisation makes no second native call. */
  method InitializeTwice(sdk: DdSdkReactNative, configuration: SdkConfiguration)
    requires !sdk.isInitialized
    modifies sdk, configuration
    ensures sdk.isInitialized
    ensures configuration.additionalConfiguration ==
      BuiltAdditionalConfiguration(old(configuration.additionalConfiguration), configuration.version,
                                   configuration.versionSuffix, sdk.sdkVersion, sdk.reactNativeVersion)
    ensures sdk.effects == old(sdk.effects)
      + [NativeInitialize(NativeConfigurationOf(configuration.additionalConfiguration, configuration, Sync)), BufferFlush]
      + [Warn(AlreadyInitializedWarning)] + (if sdk.dev then [] else [TelemetryDebug(AlreadyInitializedTelemetry)])
  {
    var ok := sdk.InitializeNativeSdk(configuration, Sync, true);
    ok := sdk.InitializeNativeSdk(configuration, Sync, true);
  }

  /** Scenario: the asynchronous initialisation only warns until the provider
      has stored its features; afterwards it initialises once in partial
      mode. */
  method AsyncBeforeAndAfterMount(sdk: DdSdkReactNative, p: AutoInstrumentation, built: SdkConfiguration)
    requires sdk.features.None? && !sdk.wasAutoInstrumented && !sdk.isInitialized
    modifies sdk, built
    ensures sdk.isInitialized && sdk.features == Some(p)
    ensures sdk.effects == old(sdk.effects) + [Warn(ProviderNotMountedWarning)] + FeatureEffects(sdk.addDefaults(p))
      + [NativeInitialize(NativeConfigurationOf(built.additionalConfiguration, built, Partial)), BufferFlush]
  {
    var ok := sdk.InitializeWithConfigurationAsync(built, true);
    sdk.EnableFeaturesFromDatadogProvider(p);
    ok := sdk.InitializeWithConfigurationAsync(built, true);
  }
}
