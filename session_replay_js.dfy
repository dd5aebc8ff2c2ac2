/** The JavaScript session-replay wrapper (SessionReplayWrapper): fills in
    the configuration defaults field by field and forwards to the native
    module. */
module SessionReplayJs {

  import opened Wrappers

  datatype SessionReplayPrivacy = Mask | Allow | MaskUserInput {
    /** The enum's string value, as the native side receives it. */
    function Name(): string {
      match this
      case Mask => "MASK"
      case Allow => "ALLOW"
      case MaskUserInput => "MASK_USER_INPUT"
    }
  }

  /** A user configuration: every field may be left undefined. */
  datatype SessionReplayConfiguration = SessionReplayConfiguration(
    replaySampleRate: Option<real>, defaultPrivacyLevel: Option<SessionReplayPrivacy>,
    customEndpoint: Option<string>, startRecordingImmediately: Option<bool>)

  /** A configuration with every field set. */
  datatype BuiltConfiguration = BuiltConfiguration(
    replaySampleRate: real, defaultPrivacyLevel: SessionReplayPrivacy,
    customEndpoint: string, startRecordingImmediately: bool)

  /** The calls the wrapper makes into the native session-replay module;
      startRecording and stopRecording forward with no arguments. */
  datatype NativeSessionReplayCall =
    | Enable(replaySampleRate: real, defaultPrivacyLevel: SessionReplayPrivacy,
             customEndpoint: string, startRecordingImmediately: bool)
    | StartRecording
    | StopRecording

  const Defaults: BuiltConfiguration := BuiltConfiguration(0.0, Mask, "", true)

  /** buildConfiguration: no configuration gives the defaults; otherwise each
      field keeps its value unless it is undefined. */
  function BuildConfiguration(configuration: Option<SessionReplayConfiguration>): (b: BuiltConfiguration)
    ensures configuration.None? ==> b == Defaults
    ensures configuration.Some? ==>
      var c := configuration.value;
      && b.replaySampleRate == c.replaySampleRate.GetOr(Defaults.replaySampleRate)
      && b.defaultPrivacyLevel == c.defaultPrivacyLevel.GetOr(Defaults.defaultPrivacyLevel)
      && b.customEndpoint == c.customEndpoint.GetOr(Defaults.customEndpoint)
      && b.startRecordingImmediately == c.startRecordingImmediately.GetOr(Defaults.startRecordingImmediately)
  {
    match configuration
    case None => Defaults
    case Some(c) =>
      BuiltConfiguration(
        if c.replaySampleRate.Some? then c.replaySampleRate.value else Defaults.replaySampleRate,
        if c.defaultPrivacyLevel.Some? then c.defaultPrivacyLevel.value else Defaults.defaultPrivacyLevel,
        if c.customEndpoint.Some? then c.customEndpoint.value else Defaults.customEndpoint,
        if c.startRecordingImmediately.Some? then c.startRecordingImmediately.value
        else Defaults.startRecordingImmediately)
  }

  /** A built configuration seen as a user configuration with every field set. */
  function AsConfiguration(b: BuiltConfiguration): (c: SessionReplayConfiguration)
    ensures c.replaySampleRate.Some? && c.defaultPrivacyLevel.Some?
    ensures c.customEndpoint.Some? && c.startRecordingImmediately.Some?
  {
    SessionReplayConfiguration(Some(b.replaySampleRate), Some(b.defaultPrivacyLevel),
                               Some(b.customEndpoint), Some(b.startRecordingImmediately))
  }

  /** enable: forwards the four built values, in declaration order. */
  function EnableCall(configuration: Option<SessionReplayConfiguration>): (call: NativeSessionReplayCall)
    ensures call.Enable?
    ensures BuiltConfiguration(call.replaySampleRate, call.defaultPrivacyLevel, call.customEndpoint,
                               call.startRecordingImmediately) == BuildConfiguration(configuration)
  {
    var b := BuildConfiguration(configuration);
    Enable(b.replaySampleRate, b.defaultPrivacyLevel, b.customEndpoint, b.startRecordingImmediately)
  }

  // ----- properties -----

  /** Building a configuration whose fields are all set changes nothing, so
      building is idempotent. */
  lemma BuildIsIdempotent(configuration: Option<SessionReplayConfiguration>)
    ensures BuildConfiguration(Some(AsConfiguration(BuildConfiguration(configuration))))
         == BuildConfiguration(configuration)
  {
  }

  /** Falsy values are kept: only undefined falls back to the default. */
  lemma FalsyValuesAreKept()
    ensures BuildConfiguration(Some(SessionReplayConfiguration(Some(50.0), None, Some(""), Some(false))))
         == BuiltConfiguration(50.0, Mask, "", false)
    ensures BuildConfiguration(Some(SessionReplayConfiguration(None, Some(Allow), None, None)))
         == BuiltConfiguration(0.0, Allow, "", true)
    ensures BuildConfiguration(Some(SessionReplayConfiguration(Some(0.0), Some(MaskUserInput), Some(""), Some(false))))
         == BuiltConfiguration(0.0, MaskUserInput, "", false)
  {
  }

  /** An empty configuration object behaves like no configuration. */
  lemma EmptyConfigurationIsDefaults()
    ensures BuildConfiguration(Some(SessionReplayConfiguration(None, None, None, None))) == Defaults
    ensures EnableCall(None) == Enable(0.0, Mask, "", true)
  {
  }
}
