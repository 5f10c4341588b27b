# Physical light units — a Dafny model

This project models the core of a physical-light-unit package for a real-time
engine's light component. A light carries an authored intensity in a
photometric unit (Lumen, Candela, Lux, Nits or EV100); the runtime component
`AdditionalLightData` derives from it the host light's native intensity,
scaled by the current exposure, and keeps the two in step; the editor converts
the authored intensity when the unit is changed in the inspector, forces Lux on
directional lights, and reports a mixed light type when the selection holds
lights of different types.

Files:

- `mathf.dfy` (`Mathf`): the `Mathf` helpers the code uses (`Max`, `Abs`,
  `Clamp`, `Clamp01`, and `Clamp(v, 0, float.MaxValue)` as `ClampMin`).
- `light_types.dfy` (`LightTypes`): light types, units, the inspector's type
  selection (one type, or the `(LightType)(-1)` sentinel), vectors, colours and
  the `LightParameters` snapshot a conversion reads.
- `light_utils.dfy` (`LightUtilities`): the photometric formulas of `LightUtils`
  and `ColorUtils`, held as uninterpreted functions in a record. Nothing is
  assumed about their values, so every result holds for any formulas.
- `light_intensity.dfy` (`LightIntensity`): the table of which formula
  `UpdateLightIntensity` applies for each (type, unit, reflector), and the
  resulting native intensity `NativeIntensity`.
- `additional_light_data.dfy` (`AdditionalLighting`): the runtime component as a
  class over the host light (`HostLight`), with every property setter,
  `UpdateLightIntensity`, `Update` (exposure polling), `LateUpdate` (drift
  correction) and `InitDefaultHDAdditionalLightData`. Setters preserve the
  range invariant `Valid()`; where the host value is written,
  `Synced()` states it equals the value derived from the current state.
- `serialized_hd_light.dfy` (`SerializedLight`): the editor's serialized view of
  the selected components, with the `type` getter (mixed sentinel) and setter.
- `physical_unit.dfy` (`PhysicalUnit`): the inspector's unit conversion, as code
  and as a table of formulas per unit pair, the unit popup, the unit reset on a
  change to a directional light, and the inspector's clamps.

Choices made where the code leaves room:

- `LightType.Area` and `LightType.Rectangle` are one enum value, so `Area` is an
  alias of `Rectangle`; `Disc` is a separate value. A Disc light is therefore
  never given defaults, is not converted by the inspector, and in Lumen goes
  through `SetLightIntensityPunctual`, which assigns nothing, so its host value
  is only multiplied by the exposure again (`DiscLumenCompoundsExposure`).
  To a user, Rectangle and Disc are both area lights; the code treats them as
  separate tags, and the model follows the code.
- The editor build is modelled: the area Lumen branch of `UpdateLightIntensity`
  and the default area size of `InitDefaultHDAdditionalLightData` are present,
  and `LateUpdate` is not gated on an animator.
- `InitDefaultHDAdditionalLightData` sets the default area size of a rectangle
  light after its intensity has been set, so the host value is derived from the
  previous area size; its contract (`TypeDefaultsApplied`) says so. Its switch
  and its `Area` case are split into `ApplyTypeDefaults` and
  `ApplyAreaLightDefaults` to keep each proof small.
- The runtime `LightUtils.ConvertLightIntensity(oldUnit, newUnit, data, light)`
  is not shown; the model takes it to compute the intensity in the new unit and
  write it through the `intensity` setter (`convertLightIntensity`).
- The `type` property of `AdditionalLightData` lives outside this model; it is
  taken to read and write the host light's type (`SetType`).
- `IsValidLightUnitForType` is an uninterpreted predicate of the component.
- The timeline cache is taken to start with every field at its zero value.
- `(LightUnit)DirectionalLightUnit.Lux` is taken to be `LightUnit.Lux`.
- The inspector reads the serialized properties of the first selected light and
  the host light being inspected (`owner.target`), which is a parameter.
- The exposure override is an input of `Update`: `Some(exposure)` when an
  active exposure component is found, `None` otherwise. `Mathf.Epsilon` is an
  unspecified positive constant.
- A positive `luxAtDistance` is what the Lux conversions need; the runtime
  setter only clamps to `>= 0` (zero is reachable), while the inspector clamps
  to `>= 0.01`. The model follows the code.

## Model

| member | source | states |
|---|---|---|
| LightIntensity.LumenOnPunctualPath | Runtime/Lighting/AdditionalLightData.cs:600-657 | In Lumen on a non-area light the host value is the intensity for Directional, the point conversion for Point, the spot conversion at `spotAngle·Deg2Rad` (reflector on) or the point conversion (reflector off) for Spot, and the old host value for Disc — each times the exposure |
| LightIntensity.LumenOnArea | Runtime/Lighting/AdditionalLightData.cs:653-662 | In Lumen on an area (Rectangle) light the host value is the lumen-to-luminance conversion over the area size, times the exposure |
| LightIntensity.OtherUnits | Runtime/Lighting/AdditionalLightData.cs:664-684 | Ev100 converts to luminance; Lux on Point/Spot converts to candela at `luxAtDistance`; every other unit/type passes the intensity through; all times the exposure |
| LightIntensity.AssignedUnlessDiscLumen | Runtime/Lighting/AdditionalLightData.cs:600-662 | The host value is written for every type and unit except Lumen on a Disc light |
| LightIntensity.PriorIrrelevant | Runtime/Lighting/AdditionalLightData.cs:651-684 | Whenever the host value is written, the result does not depend on the previous host value |
| LightIntensity.DiscLumenCompoundsExposure | Runtime/Lighting/AdditionalLightData.cs:651-684 | On a Disc light in Lumen, two updates multiply the host value by the exposure squared |
| LightIntensity.NativeReadsOnlyItsInputs | Runtime/Lighting/AdditionalLightData.cs:600-684 | The aspect ratio never affects the host value; `luxAtDistance` only for Lux on Point/Spot; the spot angle only for a Spot in Lumen with its reflector; the area size only for Lumen on an area light |
| AdditionalLighting.DefaultSettings | Runtime/Lighting/AdditionalLightData.cs:557-585 | Every type but Disc gets a positive default intensity, and the unit is Lux exactly for Directional |
| AdditionalLighting.DirectionalDefaultIsHundredThousandLux | Runtime/Lighting/AdditionalLightData.cs:559-562 | The directional default `PI / PI * 100000` is 100000 lux |
| AdditionalLighting.AdditionalLightData.constructor | Runtime/Lighting/AdditionalLightData.cs:32-425 | A new component has the field initialisers' values and satisfies the range invariant |
| AdditionalLighting.AdditionalLightData.VolumetricDimmer | Runtime/Lighting/AdditionalLightData.cs:122-124 | The getter is 0 when volumetrics are off, the stored dimmer otherwise, and always within [0, 16] |
| AdditionalLighting.AdditionalLightData.VolumetricShadowDimmer | Runtime/Lighting/AdditionalLightData.cs:398-400 | The getter is 0 when volumetrics are off, the stored dimmer otherwise, and always within [0, 1] |
| AdditionalLighting.AdditionalLightData.InteractsWithSky | Runtime/Lighting/AdditionalLightData.cs:234-237 | A light that is not directional never interacts with the sky, whatever the flag; a directional one does exactly when the flag is set |
| AdditionalLighting.AdditionalLightData.SetLightIntensityPunctual | Runtime/Lighting/AdditionalLightData.cs:600-648 | Writes the host value chosen by the punctual rule for Directional, Point and Spot, and leaves it unchanged for area types |
| AdditionalLighting.AdditionalLightData.UpdateLightIntensity | Runtime/Lighting/AdditionalLightData.cs:651-688 | The host value becomes `NativeIntensity` of the current state and exposure, and is synchronised whenever it is written |
| AdditionalLighting.AdditionalLightData.UpdateAllLightValues | Runtime/Lighting/AdditionalLightData.cs:694-698 | Same result as `UpdateLightIntensity` |
| AdditionalLighting.AdditionalLightData.SetIntensity | Runtime/Lighting/AdditionalLightData.cs:66-77 | An equal value changes nothing; any other value stores `max(value, 0)` and re-derives the host value; the invariant holds |
| AdditionalLighting.AdditionalLightData.SetEnableSpotReflector | Runtime/Lighting/AdditionalLightData.cs:85-96 | Stores the flag; re-derives the host value only when it changed |
| AdditionalLighting.AdditionalLightData.SetLuxAtDistance | Runtime/Lighting/AdditionalLightData.cs:104-115 | Stores `max(value, 0)` (zero reachable); re-derives the host value only when the value changed |
| AdditionalLighting.AdditionalLightData.SetVolumetricDimmer | Runtime/Lighting/AdditionalLightData.cs:122-135 | Stores the value clamped to [0, 16] |
| AdditionalLighting.AdditionalLightData.SetLightUnit | Runtime/Lighting/AdditionalLightData.cs:143-163 | Same unit: nothing changes. Invalid unit: one error logged, unit, intensity and host unchanged. Otherwise the converted intensity is stored first (clamped), then the unit, and the host value is re-derived and synchronised; intensity and host value are `IntensityAfterUnitRequest` and `HostAfterUnitRequest` of the old state |
| AdditionalLighting.AdditionalLightData.SetFadeDistance | Runtime/Lighting/AdditionalLightData.cs:171-184 | Stores `max(value, 0)` |
| AdditionalLighting.AdditionalLightData.SetVolumetricFadeDistance | Runtime/Lighting/AdditionalLightData.cs:192-204 | Stores `max(value, 0)` |
| AdditionalLighting.AdditionalLightData.SetAspectRatio | Runtime/Lighting/AdditionalLightData.cs:212-223 | Stores the value clamped to [0.05, 20] and, when it changed, re-derives the host value |
| AdditionalLighting.AdditionalLightData.SetInteractsWithSky | Runtime/Lighting/AdditionalLightData.cs:234-247 | Stores the flag |
| AdditionalLighting.AdditionalLightData.SetAngularDiameter | Runtime/Lighting/AdditionalLightData.cs:254-266 | Stores the value unclamped |
| AdditionalLighting.AdditionalLightData.SetFlareSize | Runtime/Lighting/AdditionalLightData.cs:273-285 | Stores the value unclamped |
| AdditionalLighting.AdditionalLightData.SetFlareTint | Runtime/Lighting/AdditionalLightData.cs:292-304 | Stores the colour |
| AdditionalLighting.AdditionalLightData.SetFlareFalloff | Runtime/Lighting/AdditionalLightData.cs:311-323 | Stores the value unclamped |
| AdditionalLighting.AdditionalLightData.SetSurfaceTexture | Runtime/Lighting/AdditionalLightData.cs:330-340 | Stores the texture reference |
| AdditionalLighting.AdditionalLightData.SetSurfaceTint | Runtime/Lighting/AdditionalLightData.cs:347-359 | Stores the colour |
| AdditionalLighting.AdditionalLightData.SetDistance | Runtime/Lighting/AdditionalLightData.cs:366-378 | Stores the value unclamped |
| AdditionalLighting.AdditionalLightData.SetVolumetricShadowDimmer | Runtime/Lighting/AdditionalLightData.cs:398-408 | Stores the value clamped to [0, 1] |
| AdditionalLighting.AdditionalLightData.SetShadowFadeDistance | Runtime/Lighting/AdditionalLightData.cs:415-425 | Stores `max(value, 0)` |
| AdditionalLighting.AdditionalLightData.SetUseColorTemperature | Runtime/Lighting/AdditionalLightData.cs:459-469 | The host light's temperature mode becomes the value |
| AdditionalLighting.AdditionalLightData.SetColor | Runtime/Lighting/AdditionalLightData.cs:709-718 | The host colour is stored; a temperature other than -1 is stored and switches temperature mode on, -1 leaves both alone |
| AdditionalLighting.AdditionalLightData.EnableColorTemperature | Runtime/Lighting/AdditionalLightData.cs:724-727 | The host light's temperature mode becomes the flag |
| AdditionalLighting.AdditionalLightData.SetIntensityInUnit | Runtime/Lighting/AdditionalLightData.cs:740-744 | The unit is the requested one unless rejected (then logged) and the intensity is `max(value, 0)`. The host value is the one the unit setter leaves (`HostAfterUnitRequest`), re-derived once more exactly when `value` differs from the intensity the unit setter left (`IntensityAfterUnitRequest`), even when the stored intensity ends up unchanged. With the same unit and the same value nothing moves; when the unit or the intensity changed and the host is assigned, it is synchronised |
| AdditionalLighting.AdditionalLightData.SetSpotLightLuxAt | Runtime/Lighting/AdditionalLightData.cs:751-756 | Unit Lux unless rejected (then logged), distance `max(distance, 0)`, intensity `max(value, 0)`. The host value is the unit setter's, re-derived once if `distance` differs from the stored distance and once more if the intensity differs from the one the unit setter left, so a Disc light in Lumen is multiplied by the exposure once per step. When anything changed and the host is assigned, it is synchronised |
| AdditionalLighting.AdditionalLightData.Update | Runtime/Lighting/AdditionalLightData.cs:785-815 | The target exposure is the active override or 1; the cached exposure and host value change only when the target differs by more than epsilon, and the cache ends within epsilon of the target |
| AdditionalLighting.AdditionalLightData.SyncOnIntensityDrift | Runtime/Lighting/AdditionalLightData.cs:512-521 | A change of scale, intensity or colour temperature re-derives the host value and refreshes those three cached values; otherwise nothing changes |
| AdditionalLighting.AdditionalLightData.SyncOnSpotAngleDrift | Runtime/Lighting/AdditionalLightData.cs:524-528 | A spot light whose angle changed re-derives the host value and caches the angle; otherwise nothing changes |
| AdditionalLighting.AdditionalLightData.SyncColorCache | Runtime/Lighting/AdditionalLightData.cs:530-537 | Afterwards the cache holds the current colour, scale and colour temperature |
| AdditionalLighting.AdditionalLightData.LateUpdate | Runtime/Lighting/AdditionalLightData.cs:484-538 | Without a pipeline nothing changes; otherwise the cache holds every current value (the spot angle only for a spot light) and the host value is re-derived exactly when a drift was seen |
| AdditionalLighting.InitDefaultHDAdditionalLightData | Runtime/Lighting/AdditionalLightData.cs:550-595 | Directional gets Lux and 100000, Point/Spot Lumen and 600, Rectangle Lumen and 200 with no shadows, near plane 0 and a 0.5×0.5 area; Disc keeps unit, intensity and host value. The host value is what `SetIntensity(value, unit)` leaves, derived from the area size before the reset, and synchronised when the unit or intensity changed; every light gets caster mode Everything and temperature mode on |
| AdditionalLighting.ApplyAreaLightDefaults | Runtime/Lighting/AdditionalLightData.cs:566-574 | For a Rectangle light: unit Lumen (or logged), intensity 200, host value as `SetIntensity(value, unit)` leaves it with the previous area size, then near plane 0, no shadows and a 0.5×0.5 area |
| AdditionalLighting.ApplyTypeDefaults | Runtime/Lighting/AdditionalLightData.cs:557-584 | The per-type defaults of the switch, as listed for `InitDefaultHDAdditionalLightData`; a Disc light is left untouched |
| SerializedLight.DiffersFromFirstIffMixed | Editor/Lighting/SerializedHDLight.cs:88-99 | Some type differs from the first exactly when some two types differ |
| SerializedLight.SingleTargetNotMixed | Editor/Lighting/SerializedHDLight.cs:93-97 | One selected light is never a mixed selection |
| SerializedLight.SerializedHDLight.constructor | Editor/Lighting/SerializedHDLight.cs:101-140 | The serialized properties hold the first selected light's values |
| SerializedLight.SerializedHDLight.Types | Editor/Lighting/SerializedHDLight.cs:92-95 | One type per selected light, in selection order |
| SerializedLight.SerializedHDLight.HaveMultipleTypeValue | Editor/Lighting/SerializedHDLight.cs:88-99 | True exactly when the selection mixes light types |
| SerializedLight.SerializedHDLight.GetType | Editor/Lighting/SerializedHDLight.cs:71-75 | The sentinel exactly when the types are mixed; otherwise a type every selected light has |
| AdditionalLighting.AdditionalLightData.SetType | Editor/Lighting/SerializedHDLight.cs:83 | The host light gets the new type; the stored `interactsWithSky` flag keeps its value, and once the type is not directional the sky getter is false |
| SerializedLight.SerializedHDLight.SetType | Editor/Lighting/SerializedHDLight.cs:76-85 | Every selected light gets the value, so the selection is no longer mixed |
| PhysicalUnit.ConvertLightIntensity | Editor/Lighting/URPLightUI.PhysicalUnit.cs:75-141 | The result is the formula the unit-pair table selects for the light type, applied with the inspector's arguments |
| PhysicalUnit.SameUnitUnchanged | Editor/Lighting/URPLightUI.PhysicalUnit.cs:75-140 | Keeping the unit returns the intensity unchanged for every type |
| PhysicalUnit.MixedOrDiscUnchanged | Editor/Lighting/URPLightUI.PhysicalUnit.cs:135-140 | A mixed selection or a Disc light returns the intensity unchanged |
| PhysicalUnit.PunctualConvertsDistinctNonNits | Editor/Lighting/URPLightUI.PhysicalUnit.cs:81-118 | On Directional/Point/Spot a formula applies exactly for distinct units other than Nits |
| PhysicalUnit.AreaConvertsLumenNitsEv | Editor/Lighting/URPLightUI.PhysicalUnit.cs:120-133 | On an area light a formula applies exactly for distinct units among Lumen, Nits and Ev100 |
| PhysicalUnit.ConversionDeterminesPair | Editor/Lighting/URPLightUI.PhysicalUnit.cs:81-133 | No two unit pairs share a formula, so at most one of the area tests fires |
| PhysicalUnit.LuxDistanceOnlyForLux | Editor/Lighting/URPLightUI.PhysicalUnit.cs:89-117 | `luxAtDistance` matters only when Lux is one of the units, and Candela↔Lux use it as the distance |
| PhysicalUnit.ConvertSerializedIntensity | Editor/Lighting/URPLightUI.PhysicalUnit.cs:70-73 | The serialized intensity is replaced by its conversion for the selection's type |
| PhysicalUnit.UpdateLightIntensityUnit | Editor/Lighting/URPLightUI.PhysicalUnit.cs:21-31 | An all-directional selection gets unit Lux and distance 1; any other leaves both unchanged |
| PhysicalUnit.ChangeLightType | Editor/Lighting/URPLightUI.Drawers.cs:153-159 | Every light gets the new type; Directional forces Lux and distance 1, other types leave them |
| PhysicalUnit.ApplyUnitPopup | Editor/Lighting/URPLightUI.PhysicalUnit.cs:51-68 | On a change the intensity is converted from the old unit to the selected one, then the selected unit is stored; without a change nothing moves |
| PhysicalUnit.ClampEditedIntensity | Editor/Lighting/URPLightUI.PhysicalUnit.cs:194-201 | After an edit the intensity is `max(intensity, 0)` |
| PhysicalUnit.ClampEditedLuxAtDistance | Editor/Lighting/URPLightUI.PhysicalUnit.cs:216-221 | After an edit the distance is `max(distance, 0.01)` |

## Left out

- The formulas of `LightUtils` and `ColorUtils`: they are not part of this
  model, so they are uninterpreted and no round trip or monotonicity is claimed.
- `GetSupportedLightUnits` and the text of the error message: the log records
  the rejected unit and the light's type only.
- Floating point: reals are exact, `float.MaxValue` is no bound, and
  `Mathf.Epsilon` is an unspecified positive constant.
- `Exposure.cs`, the volume lookup (`FindObjectOfType`, `TryGet`) and the
  exposure component's activity: their outcome is the `Option` input of `Update`.
- The overlap debug view (`IsOverlapping`, `s_overlappingHDLights`,
  `OnDisable`), the animator detection of `Start` (only relevant outside the
  editor) and `SetLightDirty`: host-engine bookkeeping.
- `Reset` and `OnDidApplyAnimationProperties`: one-line wrappers of
  `InitDefaultHDAdditionalLightData` and `UpdateAllLightValues`.
- Inspector drawing, undo recording and `SerializedObject` update/apply: the
  serialized properties are modelled as values that are later applied.
- AdditionalLighting.AdditionalLightData.SetType: the component's `type`
  setter is not part of this model; it is taken to store the type in the host
  light and nothing else, so any unit reset, host re-derivation or timeline
  update it may perform is not modelled.
