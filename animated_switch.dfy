/**
  The `AnimatedSwitch` component of src/Switches.js, reduced to what it decides:
  where the knob sits inside the track, and whether a key press or a click
  forwards a toggle request `onToggle(!isOn)` to its owner.
  Colours, shadows and spring parameters are presentation and are not modelled.
*/
module AnimatedSwitch {
  import opened Wrappers

  // Track and knob dimensions, in pixels.
  const TrackW: int := 260
  const TrackH: int := 56
  const Padding: int := 6
  const Knob: int := TrackH - Padding * 2
  const LeftX: int := Padding
  const RightX: int := TrackW - Padding - Knob

  /** The knob is a square that fills the track's height less the padding,
      and its two resting positions are ordered left to right. */
  lemma KnobFitsTrack()
    ensures Knob == 44 && 0 < Knob
    ensures Knob + 2 * Padding == TrackH
    ensures 0 < LeftX < RightX
  {
  }

  /** Horizontal offset of the knob: right when the switch is on, left when off.
      Either way the knob lies inside the track with the padding kept on both sides. */
  function KnobX(isOn: bool): (x: int)
    ensures Padding <= x && x + Knob + Padding <= TrackW
    ensures isOn ==> x + Knob + Padding == TrackW
    ensures !isOn ==> x == Padding
  {
    if isOn then RightX else LeftX
  }

  /** The two keys that activate a switch: Enter and Space. */
  predicate IsActivationKey(key: string)
  {
    key == "Enter" || key == " "
  }

  /** What the key handler does with one key press: whether it cancels the
      browser's default action, and the value it passes to `onToggle`, if any. */
  datatype KeyOutcome = KeyOutcome(preventDefault: bool, toggle: Option<bool>)

  /** The `handleKey` callback. */
  function HandleKey(key: string, isOn: bool, disabled: bool): (r: KeyOutcome)
    ensures r.preventDefault <==> IsActivationKey(key)
    ensures r.toggle.Some? <==> IsActivationKey(key) && !disabled
    ensures r.toggle.Some? ==> r.toggle.value == !isOn
  {
    if IsActivationKey(key) then
      KeyOutcome(true, if disabled then None else Some(!isOn))
    else
      KeyOutcome(false, None)
  }

  /** The track's `onClick` handler: the value it passes to `onToggle`, if any. */
  function HandleClick(isOn: bool, disabled: bool): (r: Option<bool>)
    ensures r.Some? <==> !disabled
    ensures r.Some? ==> r.value == !isOn
  {
    if disabled then None else Some(!isOn)
  }

  /** Any forwarded request asks for the opposite of the current value, whichever
      way it was triggered, and a key press forwards exactly when a click would,
      provided the key is Enter or Space. */
  lemma KeyAgreesWithClick(key: string, isOn: bool, disabled: bool)
    requires IsActivationKey(key)
    ensures HandleKey(key, isOn, disabled).toggle == HandleClick(isOn, disabled)
  {
  }
}
