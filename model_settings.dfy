/**
 * The model settings screen (GhostbusterQuest/GhostModelSettingsView.swift):
 * clamping the scale to its range, the number of decimals the scale is
 * shown with, the displayed model name, and the slider's setter, which
 * writes the settings of the shared model store. The slider's logarithmic
 * mapping (`log10`, `pow`) is outside the model: the setter receives the
 * value `pow(10, position)` already computed.
 */
module ModelSettings {

  import opened Common

  /** The bounds of `realScaleRange`. */
  const ScaleLower: real := 0.1
  const ScaleUpper: real := 100.0

  /** `clamp(_:to:)`: `min(max(value, lower), upper)` for a closed range `lower...upper`. */
  function Clamp(value: real, lower: real, upper: real): (r: real)
    requires lower <= upper
    ensures lower <= r <= upper
    ensures lower <= value <= upper ==> r == value
    ensures value < lower ==> r == lower
    ensures value > upper ==> r == upper
  {
    var atLeast := if value > lower then value else lower;
    if atLeast < upper then atLeast else upper
  }

  /** Clamping twice is clamping once, and clamping never moves values past each other. */
  lemma ClampIdempotentMonotone(a: real, b: real, lower: real, upper: real)
    requires lower <= upper
    ensures Clamp(Clamp(a, lower, upper), lower, upper) == Clamp(a, lower, upper)
    ensures a <= b ==> Clamp(a, lower, upper) <= Clamp(b, lower, upper)
  {
  }

  /** What `scaleText` shows: the clamped scale and the number of decimals it is formatted with. */
  datatype ScaleLabel = ScaleLabel(shown: real, decimals: nat)

  /** `scaleText(_:)`: no decimals from 10 up, two from 1 up, three below 1. */
  function ScaleText(value: real): ScaleLabel
  {
    var clamped := Clamp(value, ScaleLower, ScaleUpper);
    if clamped >= 10.0 then ScaleLabel(clamped, 0)
    else if clamped >= 1.0 then ScaleLabel(clamped, 2)
    else ScaleLabel(clamped, 3)
  }

  /**
   * The shown value is always in [0.1, 100], and out-of-range scales are
   * shown as the nearer bound; the number of decimals is one of 0, 2, 3,
   * chosen by the thresholds 10 and 1, and larger scales never get more
   * decimals than smaller ones.
   */
  lemma ScaleTextSpec(value: real, other: real)
    ensures ScaleLower <= ScaleText(value).shown <= ScaleUpper
    ensures value < ScaleLower ==> ScaleText(value).shown == ScaleLower
    ensures value > ScaleUpper ==> ScaleText(value).shown == ScaleUpper
    ensures ScaleLower <= value <= ScaleUpper ==> ScaleText(value).shown == value
    ensures ScaleText(value).decimals == 0 <==> ScaleText(value).shown >= 10.0
    ensures ScaleText(value).decimals == 2 <==> 1.0 <= ScaleText(value).shown < 10.0
    ensures ScaleText(value).decimals == 3 <==> ScaleText(value).shown < 1.0
    ensures value <= other ==> ScaleText(other).decimals <= ScaleText(value).decimals
  {
    ClampIdempotentMonotone(value, other, ScaleLower, ScaleUpper);
  }

  /**
   * `displayModelName(_:)`: the part of the model id after its last '/',
   * ignoring trailing slashes, or the whole id when it is nothing but slashes.
   */
  function DisplayModelName(id: string): (name: string)
    ensures AllSeparators(id, '/') ==> name == id
    ensures !AllSeparators(id, '/') ==> |name| > 0 && forall j :: 0 <= j < |name| ==> name[j] != '/'
    ensures !AllSeparators(id, '/') ==> name == LastWord(id, '/')
  {
    if AllSeparators(id, '/') then LastComponentOr(id, '/')
    else LastComponentOrSuffix(id, '/'); LastComponentOr(id, '/')
  }

  /** `GhostModelSettings`: the chosen model and its scale. */
  datatype GhostModelSettings = GhostModelSettings(modelID: string, scale: real)

  /** The shared store's settings, which the slider writes. */
  class GhostModelStore {
    var settings: GhostModelSettings

    constructor ()
      ensures settings == GhostModelSettings("Quaternius.usdc", 0.12)
    {
      settings := GhostModelSettings("Quaternius.usdc", 0.12);
    }

    /**
     * The setter of the slider's binding; `value` is `pow(10, position)`.
     * Whatever the slider delivers, the stored scale ends up in [0.1, 100]
     * and the model id is untouched.
     */
    method SetSliderValue(value: real)
      modifies this
      ensures settings == old(settings).(scale := Clamp(value, ScaleLower, ScaleUpper))
      ensures ScaleLower <= settings.scale <= ScaleUpper
    {
      settings := settings.(scale := Clamp(value, ScaleLower, ScaleUpper));
    }
  }
}
