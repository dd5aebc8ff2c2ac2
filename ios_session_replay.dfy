/** The iOS session-replay entry point (DdSessionReplayImplementation in
    Swift): privacy converters, the custom endpoint URL, and the guard that
    only calls the feature when the SDK core exists. */
module IosSessionReplay {

  import opened Wrappers
  import AndroidPrivacy

  datatype ImagePrivacyLevel = MaskNonBundledOnly | MaskAll | MaskNone
  datatype TouchPrivacyLevel = Show | Hide
  datatype TextAndInputPrivacyLevel = MaskSensitiveInputs | MaskAllInputs | MaskAll

  const ReplayPath: string := "/api/v2/replay"
  const CoreMissingOnEnable: string := "Core instance was not found when initializing Session Replay."
  const CoreMissingOnStart: string := "Core instance was not found when calling startRecording in Session Replay."
  const CoreMissingOnStop: string := "Core instance was not found when calling stopRecording in Session Replay."

  function ConvertImagePrivacy(s: string): (p: ImagePrivacyLevel)
    ensures p == MaskNonBundledOnly <==> s == "MASK_NON_BUNDLED_ONLY"
    ensures p == MaskNone <==> s == "MASK_NONE"
  {
    match s
    case "MASK_NON_BUNDLED_ONLY" => MaskNonBundledOnly
    case "MASK_ALL" => ImagePrivacyLevel.MaskAll
    case "MASK_NONE" => MaskNone
    case _ => ImagePrivacyLevel.MaskAll
  }

  function ConvertTouchPrivacy(s: string): (p: TouchPrivacyLevel)
    ensures p == Show <==> s == "SHOW"
  {
    match s
    case "SHOW" => Show
    case "HIDE" => Hide
    case _ => Hide
  }

  function ConvertTextAndInputPrivacy(s: string): (p: TextAndInputPrivacyLevel)
    ensures p == MaskSensitiveInputs <==> s == "MASK_SENSITIVE_INPUTS"
    ensures p == MaskAllInputs <==> s == "MASK_ALL_INPUTS"
  {
    match s
    case "MASK_SENSITIVE_INPUTS" => MaskSensitiveInputs
    case "MASK_ALL_INPUTS" => MaskAllInputs
    case "MASK_ALL" => TextAndInputPrivacyLevel.MaskAll
    case _ => TextAndInputPrivacyLevel.MaskAll
  }

  /** The Android level of the same meaning; iOS calls the large-image level
      maskNonBundledOnly. */
  function ImageToAndroid(p: ImagePrivacyLevel): AndroidPrivacy.ImagePrivacy {
    match p
    case MaskNonBundledOnly => AndroidPrivacy.MaskLargeOnly
    case MaskAll => AndroidPrivacy.ImagePrivacy.MaskAll
    case MaskNone => AndroidPrivacy.MaskNone
  }

  function TouchToAndroid(p: TouchPrivacyLevel): AndroidPrivacy.TouchPrivacy {
    match p
    case Show => AndroidPrivacy.Show
    case Hide => AndroidPrivacy.Hide
  }

  function TextAndInputToAndroid(p: TextAndInputPrivacyLevel): AndroidPrivacy.TextAndInputPrivacy {
    match p
    case MaskSensitiveInputs => AndroidPrivacy.MaskSensitiveInputs
    case MaskAllInputs => AndroidPrivacy.MaskAllInputs
    case MaskAll => AndroidPrivacy.TextAndInputPrivacy.MaskAll
  }

  /** The additional node recorders the configuration may carry. */
  datatype NodeRecorder = TextViewRecorder

  /** SessionReplay.Configuration, reduced to what enable sets. The URL is
      the string `URL(string:)` accepted. */
  datatype Configuration = Configuration(
    replaySampleRate: real, imagePrivacyLevel: ImagePrivacyLevel, touchPrivacyLevel: TouchPrivacyLevel,
    textAndInputPrivacyLevel: TextAndInputPrivacyLevel, startRecordingImmediately: bool,
    customEndpoint: Option<string>, additionalNodeRecorders: seq<NodeRecorder>)

  /** The custom endpoint URL: the endpoint followed by the replay path,
      if `parseUrl` (URL(string:)) accepts it; none for an empty endpoint. */
  function CustomEndpointUrl(customEndpoint: string, parseUrl: string -> Option<string>): (u: Option<string>)
    ensures customEndpoint == "" ==> u.None?
    ensures customEndpoint != "" ==> u == parseUrl(customEndpoint + ReplayPath)
  {
    if customEndpoint != "" then parseUrl(customEndpoint + ReplayPath) else None
  }

  datatype ReplayCall = Enable(configuration: Configuration) | StartRecording | StopRecording

  class DdSessionReplayImplementation {
    /** URL(string:). */
    const parseUrl: string -> Option<string>
    /** Whether the lazy `sessionReplay` has been created by the provider. */
    var sessionReplayCreated: bool
    ghost var calls: seq<ReplayCall>
    ghost var consoleMessages: seq<string>
    var resolutions: nat

    constructor (parseUrl: string -> Option<string>)
      ensures this.parseUrl == parseUrl && !sessionReplayCreated
      ensures calls == [] && consoleMessages == [] && resolutions == 0
    {
      this.parseUrl := parseUrl;
      sessionReplayCreated := false;
      calls := [];
      consoleMessages := [];
      resolutions := 0;
    }

    /** The configuration enable builds: the converted levels, the endpoint
        URL, and exactly one additional recorder for React Native text. */
    function EnableConfiguration(replaySampleRate: real, customEndpoint: string, imagePrivacyLevel: string,
                                 touchPrivacyLevel: string, textAndInputPrivacyLevel: string,
                                 startRecordingImmediately: bool): (c: Configuration)
      ensures c.additionalNodeRecorders == [TextViewRecorder]
      ensures c.customEndpoint == CustomEndpointUrl(customEndpoint, parseUrl)
      ensures c.replaySampleRate == replaySampleRate && c.startRecordingImmediately == startRecordingImmediately
      ensures c.imagePrivacyLevel == ConvertImagePrivacy(imagePrivacyLevel)
      ensures c.touchPrivacyLevel == ConvertTouchPrivacy(touchPrivacyLevel)
      ensures c.textAndInputPrivacyLevel == ConvertTextAndInputPrivacy(textAndInputPrivacyLevel)
    {
      Configuration(replaySampleRate, ConvertImagePrivacy(imagePrivacyLevel), ConvertTouchPrivacy(touchPrivacyLevel),
                    ConvertTextAndInputPrivacy(textAndInputPrivacyLevel), startRecordingImmediately,
                    CustomEndpointUrl(customEndpoint, parseUrl), [TextViewRecorder])
    }

    /** enable: `hasCore` is whether the SDK core instance exists. */
    method Enable(replaySampleRate: real, customEndpoint: string, imagePrivacyLevel: string,
                  touchPrivacyLevel: string, textAndInputPrivacyLevel: string,
                  startRecordingImmediately: bool, hasCore: bool)
      modifies this
      ensures hasCore ==>
        && calls == old(calls) + [ReplayCall.Enable(EnableConfiguration(replaySampleRate, customEndpoint, imagePrivacyLevel,
                                    touchPrivacyLevel, textAndInputPrivacyLevel, startRecordingImmediately))]
        && consoleMessages == old(consoleMessages) && sessionReplayCreated
      ensures !hasCore ==>
        && calls == old(calls) && consoleMessages == old(consoleMessages) + [CoreMissingOnEnable]
        && sessionReplayCreated == old(sessionReplayCreated)
      ensures resolutions == old(resolutions) + 1
    {
      var endpointUrl: Option<string> := None;
      if customEndpoint != "" {
        endpointUrl := parseUrl(customEndpoint + ReplayPath);
      }
      var configuration := Configuration(
        replaySampleRate, ConvertImagePrivacy(imagePrivacyLevel), ConvertTouchPrivacy(touchPrivacyLevel),
        ConvertTextAndInputPrivacy(textAndInputPrivacyLevel), startRecordingImmediately, endpointUrl, []);
      configuration := configuration.(additionalNodeRecorders := [TextViewRecorder]);
      if hasCore {
        sessionReplayCreated := true;
        calls := calls + [ReplayCall.Enable(configuration)];
      } else {
        consoleMessages := consoleMessages + [CoreMissingOnEnable];
      }
      resolutions := resolutions + 1;
    }

    method StartRecording(hasCore: bool)
      modifies this
      ensures hasCore ==> calls == old(calls) + [ReplayCall.StartRecording] && consoleMessages == old(consoleMessages)
                          && sessionReplayCreated
      ensures !hasCore ==> calls == old(calls) && consoleMessages == old(consoleMessages) + [CoreMissingOnStart]
                           && sessionReplayCreated == old(sessionReplayCreated)
      ensures resolutions == old(resolutions) + 1
    {
      if hasCore {
        sessionReplayCreated := true;
        calls := calls + [ReplayCall.StartRecording];
      } else {
        consoleMessages := consoleMessages + [CoreMissingOnStart];
      }
      resolutions := resolutions + 1;
    }

    method StopRecording(hasCore: bool)
      modifies this
      ensures hasCore ==> calls == old(calls) + [ReplayCall.StopRecording] && consoleMessages == old(consoleMessages)
                          && sessionReplayCreated
      ensures !hasCore ==> calls == old(calls) && consoleMessages == old(consoleMessages) + [CoreMissingOnStop]
                           && sessionReplayCreated == old(sessionReplayCreated)
      ensures resolutions == old(resolutions) + 1
    {
      if hasCore {
        sessionReplayCreated := true;
        calls := calls + [ReplayCall.StopRecording];
      } else {
        consoleMessages := consoleMessages + [CoreMissingOnStop];
      }
      resolutions := resolutions + 1;
    }
  }

  // ----- properties -----

  /** The Swift and Kotlin tables agree on every string, up to naming,
      including their defaults. */
  lemma TablesAgreeWithAndroid(s: string)
    ensures ImageToAndroid(ConvertImagePrivacy(s)) == AndroidPrivacy.GetImagePrivacy(s)
    ensures TouchToAndroid(ConvertTouchPrivacy(s)) == AndroidPrivacy.GetTouchPrivacy(s)
    ensures TextAndInputToAndroid(ConvertTextAndInputPrivacy(s)) == AndroidPrivacy.GetTextAndInputPrivacy(s)
  {
  }

  /** The levels the iOS enable configures are, level by level, the ones the
      Android privacy settings hold for the same three strings. */
  lemma EnableLevelsMatchAndroidSettings(impl: DdSessionReplayImplementation, replaySampleRate: real,
                                         customEndpoint: string, image: string, touch: string, text: string,
                                         start: bool)
    ensures var c := impl.EnableConfiguration(replaySampleRate, customEndpoint, image, touch, text, start);
            var settings := AndroidPrivacy.MakePrivacySettings(image, touch, text);
      && ImageToAndroid(c.imagePrivacyLevel) == settings.imagePrivacyLevel
      && TouchToAndroid(c.touchPrivacyLevel) == settings.touchPrivacyLevel
      && TextAndInputToAndroid(c.textAndInputPrivacyLevel) == settings.textAndInputPrivacyLevel
  {
    TablesAgreeWithAndroid(image);
    TablesAgreeWithAndroid(touch);
    TablesAgreeWithAndroid(text);
  }

  /** The naming correspondence is one-to-one. */
  lemma ToAndroidIsInjective(a: ImagePrivacyLevel, b: ImagePrivacyLevel, t: TouchPrivacyLevel, u: TouchPrivacyLevel,
                             x: TextAndInputPrivacyLevel, y: TextAndInputPrivacyLevel)
    ensures ImageToAndroid(a) == ImageToAndroid(b) ==> a == b
    ensures TouchToAndroid(t) == TouchToAndroid(u) ==> t == u
    ensures TextAndInputToAndroid(x) == TextAndInputToAndroid(y) ==> x == y
  {
  }

  /** Both platforms apply a custom endpoint exactly when it is non-empty. */
  lemma EndpointRuleMatchesAndroid(customEndpoint: string, parseUrl: string -> Option<string>)
    requires forall u :: parseUrl(u).Some?
    ensures CustomEndpointUrl(customEndpoint, parseUrl).Some? <==> customEndpoint != ""
  {
  }
}
