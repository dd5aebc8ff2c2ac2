/** The Android session-replay privacy levels and SessionReplayPrivacySettings:
    three exact, case-sensitive string tables, each with a default for any
    other string. */
module AndroidPrivacy {

  datatype ImagePrivacy = MaskLargeOnly | MaskAll | MaskNone
  datatype TouchPrivacy = Show | Hide
  datatype TextAndInputPrivacy = MaskSensitiveInputs | MaskAllInputs | MaskAll

  /** The strings each table recognises. */
  predicate IsImagePrivacyName(s: string) {
    s == "MASK_NON_BUNDLED_ONLY" || s == "MASK_ALL" || s == "MASK_NONE"
  }

  predicate IsTouchPrivacyName(s: string) {
    s == "SHOW" || s == "HIDE"
  }

  predicate IsTextAndInputPrivacyName(s: string) {
    s == "MASK_SENSITIVE_INPUTS" || s == "MASK_ALL_INPUTS" || s == "MASK_ALL"
  }

  /** The name JavaScript sends for each image level. */
  function ImagePrivacyName(p: ImagePrivacy): string {
    match p
    case MaskLargeOnly => "MASK_NON_BUNDLED_ONLY"
    case MaskAll => "MASK_ALL"
    case MaskNone => "MASK_NONE"
  }

  function TouchPrivacyName(p: TouchPrivacy): string {
    match p
    case Show => "SHOW"
    case Hide => "HIDE"
  }

  function TextAndInputPrivacyName(p: TextAndInputPrivacy): string {
    match p
    case MaskSensitiveInputs => "MASK_SENSITIVE_INPUTS"
    case MaskAllInputs => "MASK_ALL_INPUTS"
    case MaskAll => "MASK_ALL"
  }

  /** getImagePrivacy: unknown strings fall back to MASK_ALL. */
  function GetImagePrivacy(s: string): (p: ImagePrivacy)
    ensures IsImagePrivacyName(s) ==> ImagePrivacyName(p) == s
    ensures !IsImagePrivacyName(s) ==> p == ImagePrivacy.MaskAll
  {
    if s == "MASK_NON_BUNDLED_ONLY" then MaskLargeOnly
    else if s == "MASK_ALL" then ImagePrivacy.MaskAll
    else if s == "MASK_NONE" then MaskNone
    else ImagePrivacy.MaskAll
  }

  /** getTouchPrivacy: unknown strings fall back to HIDE. */
  function GetTouchPrivacy(s: string): (p: TouchPrivacy)
    ensures IsTouchPrivacyName(s) ==> TouchPrivacyName(p) == s
    ensures !IsTouchPrivacyName(s) ==> p == Hide
  {
    if s == "SHOW" then Show
    else if s == "HIDE" then Hide
    else Hide
  }

  /** getTextAndInputPrivacy: unknown strings fall back to MASK_ALL. */
  function GetTextAndInputPrivacy(s: string): (p: TextAndInputPrivacy)
    ensures IsTextAndInputPrivacyName(s) ==> TextAndInputPrivacyName(p) == s
    ensures !IsTextAndInputPrivacyName(s) ==> p == TextAndInputPrivacy.MaskAll
  {
    if s == "MASK_SENSITIVE_INPUTS" then MaskSensitiveInputs
    else if s == "MASK_ALL_INPUTS" then MaskAllInputs
    else if s == "MASK_ALL" then TextAndInputPrivacy.MaskAll
    else TextAndInputPrivacy.MaskAll
  }

  /** SessionReplayPrivacySettings: the three levels, converted once, at
      construction. */
  datatype SessionReplayPrivacySettings = SessionReplayPrivacySettings(
    imagePrivacyLevel: ImagePrivacy, touchPrivacyLevel: TouchPrivacy, textAndInputPrivacyLevel: TextAndInputPrivacy)

  function MakePrivacySettings(imagePrivacyLevel: string, touchPrivacyLevel: string,
                               textAndInputPrivacyLevel: string): (s: SessionReplayPrivacySettings)
    ensures s.imagePrivacyLevel == GetImagePrivacy(imagePrivacyLevel)
    ensures s.touchPrivacyLevel == GetTouchPrivacy(touchPrivacyLevel)
    ensures s.textAndInputPrivacyLevel == GetTextAndInputPrivacy(textAndInputPrivacyLevel)
  {
    SessionReplayPrivacySettings(GetImagePrivacy(imagePrivacyLevel), GetTouchPrivacy(touchPrivacyLevel),
                                 GetTextAndInputPrivacy(textAndInputPrivacyLevel))
  }

  // ----- properties -----

  /** Each table inverts its naming: converting a level's name gives the level back. */
  lemma ConvertersInvertNames(i: ImagePrivacy, t: TouchPrivacy, x: TextAndInputPrivacy)
    ensures GetImagePrivacy(ImagePrivacyName(i)) == i
    ensures GetTouchPrivacy(TouchPrivacyName(t)) == t
    ensures GetTextAndInputPrivacy(TextAndInputPrivacyName(x)) == x
  {
  }

  /** Matching is exact: lower-case spellings fall to the defaults. */
  lemma MatchingIsCaseSensitive()
    ensures GetImagePrivacy("mask_none") == ImagePrivacy.MaskAll
    ensures GetTouchPrivacy("show") == Hide
    ensures GetTextAndInputPrivacy("mask_all_inputs") == TextAndInputPrivacy.MaskAll
  {
  }
}
