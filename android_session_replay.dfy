/** The Android session-replay entry point (DdSessionReplayImplementation):
    the companion privacy converters, the configuration builder that `enable`
    and `configurePrivacy` drive through setter calls, and the calls made on
    the session-replay SDK wrapper. */
module AndroidSessionReplay {

  import opened Wrappers
  import opened AndroidPrivacy
  import opened SessionReplayJs

  const ModuleName: string := "DdSessionReplay"

  /** convertImagePrivacyLevel. */
  function ConvertImagePrivacyLevel(s: string): (p: ImagePrivacy)
    ensures s == "MASK_NON_BUNDLED_ONLY" ==> p == MaskLargeOnly
    ensures s == "MASK_NONE" ==> p == MaskNone
    ensures s != "MASK_NON_BUNDLED_ONLY" && s != "MASK_NONE" ==> p == ImagePrivacy.MaskAll
  {
    if s == "MASK_NON_BUNDLED_ONLY" then MaskLargeOnly
    else if s == "MASK_ALL" then ImagePrivacy.MaskAll
    else if s == "MASK_NONE" then MaskNone
    else ImagePrivacy.MaskAll
  }

  /** convertTouchPrivacyLevel. */
  function ConvertTouchPrivacyLevel(s: string): (p: TouchPrivacy)
    ensures p == Show <==> s == "SHOW"
  {
    if s == "SHOW" then Show
    else if s == "HIDE" then Hide
    else Hide
  }

  /** convertTextAndInputPrivacyLevel. */
  function ConvertTextAndInputPrivacyLevel(s: string): (p: TextAndInputPrivacy)
    ensures p == MaskSensitiveInputs <==> s == "MASK_SENSITIVE_INPUTS"
    ensures p == MaskAllInputs <==> s == "MASK_ALL_INPUTS"
  {
    if s == "MASK_SENSITIVE_INPUTS" then MaskSensitiveInputs
    else if s == "MASK_ALL_INPUTS" then MaskAllInputs
    else if s == "MASK_ALL" then TextAndInputPrivacy.MaskAll
    else TextAndInputPrivacy.MaskAll
  }

  /** `lowercase(Locale.US)` on ASCII letters. */
  function AsciiLowercase(s: string): (r: string)
    ensures |r| == |s|
    ensures forall i :: 0 <= i < |s| ==>
      r[i] == (if 'A' <= s[i] <= 'Z' then (s[i] as int + 32) as char else s[i])
  {
    if s == [] then []
    else [if 'A' <= s[0] <= 'Z' then (s[0] as int + 32) as char else s[0]] + AsciiLowercase(s[1..])
  }

  /** The privacy levels configurePrivacy sets for a level name, as
      (text and input, image, touch); None for a name it does not know. */
  function PrivacyTriple(defaultPrivacyLevel: string): (t: Option<(TextAndInputPrivacy, ImagePrivacy, TouchPrivacy)>)
  {
    match AsciiLowercase(defaultPrivacyLevel)
    case "mask" => Some((TextAndInputPrivacy.MaskAll, ImagePrivacy.MaskAll, Hide))
    case "mask_user_input" => Some((MaskAllInputs, MaskNone, Hide))
    case "allow" => Some((MaskSensitiveInputs, MaskNone, Show))
    case _ => None
  }

  /** What a configuration builder holds; a None privacy or start flag is the
      SDK's own default, which this model does not fix. */
  datatype BuilderState = BuilderState(
    replaySampleRate: real, startRecordingImmediately: Option<bool>,
    imagePrivacy: Option<ImagePrivacy>, touchPrivacy: Option<TouchPrivacy>,
    textAndInputPrivacy: Option<TextAndInputPrivacy>, customEndpoint: Option<string>,
    extensionSupports: nat)

  /** SessionReplayConfiguration.Builder, reduced to the settings this code
      makes. */
  class ConfigurationBuilder {
    var replaySampleRate: real
    var startRecordingImmediately: Option<bool>
    var imagePrivacy: Option<ImagePrivacy>
    var touchPrivacy: Option<TouchPrivacy>
    var textAndInputPrivacy: Option<TextAndInputPrivacy>
    var customEndpoint: Option<string>
    var extensionSupports: nat

    function State(): BuilderState
      reads this
    {
      BuilderState(replaySampleRate, startRecordingImmediately, imagePrivacy, touchPrivacy,
                   textAndInputPrivacy, customEndpoint, extensionSupports)
    }

    constructor (replaySampleRate: real)
      ensures State() == BuilderState(replaySampleRate, None, None, None, None, None, 0)
    {
      this.replaySampleRate := replaySampleRate;
      startRecordingImmediately := None;
      imagePrivacy := None;
      touchPrivacy := None;
      textAndInputPrivacy := None;
      customEndpoint := None;
      extensionSupports := 0;
    }

    method SetStartRecordingImmediately(start: bool)
      modifies this
      ensures State() == old(State()).(startRecordingImmediately := Some(start))
    {
      startRecordingImmediately := Some(start);
    }

    method SetImagePrivacy(p: ImagePrivacy)
      modifies this
      ensures State() == old(State()).(imagePrivacy := Some(p))
    {
      imagePrivacy := Some(p);
    }

    method SetTouchPrivacy(p: TouchPrivacy)
      modifies this
      ensures State() == old(State()).(touchPrivacy := Some(p))
    {
      touchPrivacy := Some(p);
    }

    method SetTextAndInputPrivacy(p: TextAndInputPrivacy)
      modifies this
      ensures State() == old(State()).(textAndInputPrivacy := Some(p))
    {
      textAndInputPrivacy := Some(p);
    }

    method AddExtensionSupport()
      modifies this
      ensures State() == old(State()).(extensionSupports := old(extensionSupports) + 1)
    {
      extensionSupports := extensionSupports + 1;
    }

    method UseCustomEndpoint(endpoint: string)
      modifies this
      ensures State() == old(State()).(customEndpoint := Some(endpoint))
    {
      customEndpoint := Some(endpoint);
    }

    /** configurePrivacy: a known level name, in any ASCII case, sets all
        three levels; any other name leaves the builder as it was. */
    method ConfigurePrivacy(defaultPrivacyLevel: string)
      modifies this
      ensures PrivacyTriple(defaultPrivacyLevel).None? ==> State() == old(State())
      ensures PrivacyTriple(defaultPrivacyLevel).Some? ==>
        var (text, image, touch) := PrivacyTriple(defaultPrivacyLevel).value;
        State() == old(State()).(textAndInputPrivacy := Some(text), imagePrivacy := Some(image),
                                 touchPrivacy := Some(touch))
    {
      var name := AsciiLowercase(defaultPrivacyLevel);
      if name == "mask" {
        SetTextAndInputPrivacy(TextAndInputPrivacy.MaskAll);
        SetImagePrivacy(ImagePrivacy.MaskAll);
        SetTouchPrivacy(Hide);
      } else if name == "mask_user_input" {
        SetTextAndInputPrivacy(MaskAllInputs);
        SetImagePrivacy(MaskNone);
        SetTouchPrivacy(Hide);
      } else if name == "allow" {
        SetTextAndInputPrivacy(MaskSensitiveInputs);
        SetImagePrivacy(MaskNone);
        SetTouchPrivacy(Show);
      }
    }
  }

  /** A React Native promise; only its resolutions are followed. */
  class Promise {
    var resolutions: nat

    constructor ()
      ensures resolutions == 0
    {
      resolutions := 0;
    }

    method Resolve()
      modifies this
      ensures resolutions == old(resolutions) + 1
    {
      resolutions := resolutions + 1;
    }
  }

  /** A call on the session-replay SDK wrapper. */
  datatype ReplayCall = Enable(configuration: BuilderState) | StartRecording | StopRecording

  /** The configuration enable builds. */
  function EnableConfiguration(replaySampleRate: real, customEndpoint: string, imagePrivacyLevel: string,
                               touchPrivacyLevel: string, textAndInputPrivacyLevel: string,
                               startRecordingImmediately: bool): (c: BuilderState)
    ensures c.customEndpoint.Some? <==> customEndpoint != ""
    ensures c.customEndpoint.Some? ==> c.customEndpoint.value == customEndpoint
    ensures c.replaySampleRate == replaySampleRate && c.startRecordingImmediately == Some(startRecordingImmediately)
    ensures c.extensionSupports == 1
  {
    BuilderState(replaySampleRate, Some(startRecordingImmediately),
                 Some(ConvertImagePrivacyLevel(imagePrivacyLevel)), Some(ConvertTouchPrivacyLevel(touchPrivacyLevel)),
                 Some(ConvertTextAndInputPrivacyLevel(textAndInputPrivacyLevel)),
                 if customEndpoint != "" then Some(customEndpoint) else None, 1)
  }

  class DdSessionReplayImplementation {
    ghost var calls: seq<ReplayCall>

    constructor ()
      ensures calls == []
    {
      calls := [];
    }

    method Enable(replaySampleRate: real, customEndpoint: string, imagePrivacyLevel: string,
                  touchPrivacyLevel: string, textAndInputPrivacyLevel: string,
                  startRecordingImmediately: bool, promise: Promise)
      modifies this, promise
      ensures calls == old(calls) + [ReplayCall.Enable(EnableConfiguration(replaySampleRate, customEndpoint,
        imagePrivacyLevel, touchPrivacyLevel, textAndInputPrivacyLevel, startRecordingImmediately))]
      ensures promise.resolutions == old(promise.resolutions) + 1
    {
      var configuration := new ConfigurationBuilder(replaySampleRate);
      configuration.SetStartRecordingImmediately(startRecordingImmediately);
      configuration.SetImagePrivacy(ConvertImagePrivacyLevel(imagePrivacyLevel));
      configuration.SetTouchPrivacy(ConvertTouchPrivacyLevel(touchPrivacyLevel));
      configuration.SetTextAndInputPrivacy(ConvertTextAndInputPrivacyLevel(textAndInputPrivacyLevel));
      configuration.AddExtensionSupport();
      if customEndpoint != "" {
        configuration.UseCustomEndpoint(customEndpoint);
      }
      calls := calls + [ReplayCall.Enable(configuration.State())];
      promise.Resolve();
    }

    method StartRecording(promise: Promise)
      modifies this, promise
      ensures calls == old(calls) + [ReplayCall.StartRecording]
      ensures promise.resolutions == old(promise.resolutions) + 1
    {
      calls := calls + [ReplayCall.StartRecording];
      promise.Resolve();
    }

    method StopRecording(promise: Promise)
      modifies this, promise
      ensures calls == old(calls) + [ReplayCall.StopRecording]
      ensures promise.resolutions == old(promise.resolutions) + 1
    {
      calls := calls + [ReplayCall.StopRecording];
      promise.Resolve();
    }
  }

  // ----- properties -----

  /** The companion converters agree with the SessionReplayPrivacySettings
      getters on every string. */
  lemma ConvertersAgreeWithSettings(s: string)
    ensures ConvertImagePrivacyLevel(s) == GetImagePrivacy(s)
    ensures ConvertTouchPrivacyLevel(s) == GetTouchPrivacy(s)
    ensures ConvertTextAndInputPrivacyLevel(s) == GetTextAndInputPrivacy(s)
  {
  }

  /** Lower-casing twice is lower-casing once. */
  lemma {:induction false} AsciiLowercaseIdempotent(s: string)
    ensures AsciiLowercase(AsciiLowercase(s)) == AsciiLowercase(s)
  {
    var l := AsciiLowercase(s);
    var ll := AsciiLowercase(l);
    assert |ll| == |l|;
    forall i | 0 <= i < |l|
      ensures ll[i] == l[i]
    {
    }
  }

  /** configurePrivacy ignores ASCII case: a name and its lower-case form set
      the same levels. */
  lemma PrivacyTripleIgnoresCase(name: string)
    ensures PrivacyTriple(AsciiLowercase(name)) == PrivacyTriple(name)
  {
    AsciiLowercaseIdempotent(name);
  }

  /** Lower-casing one name, character by character. */
  lemma LowercaseOf(name: string, lower: string)
    requires |name| == |lower|
    requires forall i :: 0 <= i < |name| ==>
      lower[i] == (if 'A' <= name[i] <= 'Z' then (name[i] as int + 32) as char else name[i])
    ensures AsciiLowercase(name) == lower
  {
  }

  /** The three levels JavaScript sends (SessionReplayPrivacy's values) are
      the three names configurePrivacy recognises. */
  lemma PrivacyTripleForJsLevels(level: SessionReplayPrivacy)
    ensures level == SessionReplayPrivacy.Mask ==>
      PrivacyTriple(level.Name()) == Some((TextAndInputPrivacy.MaskAll, ImagePrivacy.MaskAll, Hide))
    ensures level == MaskUserInput ==> PrivacyTriple(level.Name()) == Some((MaskAllInputs, MaskNone, Hide))
    ensures level == Allow ==> PrivacyTriple(level.Name()) == Some((MaskSensitiveInputs, MaskNone, Show))
  {
    match level
    case Mask => LowercaseOf(level.Name(), "mask");
    case MaskUserInput => LowercaseOf(level.Name(), "mask_user_input");
    case Allow => LowercaseOf(level.Name(), "allow");
  }

  /** The enabled configuration carries the converted privacy levels, the
      same as a SessionReplayPrivacySettings built from the same strings. */
  lemma EnablePrivacyMatchesSettings(replaySampleRate: real, customEndpoint: string, image: string,
                                     touch: string, text: string, start: bool)
    ensures var c := EnableConfiguration(replaySampleRate, customEndpoint, image, touch, text, start);
            var settings := MakePrivacySettings(image, touch, text);
      && c.imagePrivacy == Some(settings.imagePrivacyLevel)
      && c.touchPrivacy == Some(settings.touchPrivacyLevel)
      && c.textAndInputPrivacy == Some(settings.textAndInputPrivacyLevel)
  {
    ConvertersAgreeWithSettings(image);
    ConvertersAgreeWithSettings(touch);
    ConvertersAgreeWithSettings(text);
  }
}
