/** One light's physical-unit authoring state (`AdditionalLightData`) and the
    host engine light it drives. Every setter ignores a value equal to the stored
    one, clamps the rest, and re-derives the host light's intensity where the
    source does. The editor configuration is modelled (`UNITY_EDITOR` defined). */
module AdditionalLighting {
  import opened Mathf
  import opened LightTypes
  import opened LightUtilities
  import opened LightIntensity

  /** Default intensity of a directional light, in lux. */
  const DefaultDirectionalLightIntensity: real := PI
  /** Default intensity of a point or spot light, in lumen. */
  const DefaultPunctualLightIntensity: real := 600.0
  /** Default intensity of a rectangle light, in lumen. */
  const DefaultAreaLightIntensity: real := 200.0
  /** Bounds of the pyramid spot aspect ratio. */
  const MinAspectRatio: real := 0.05
  const MaxAspectRatio: real := 20.0

  /** The values last seen by `LateUpdate`, used to detect changes made behind
      the setters' back (by the inspector or an animator). */
  datatype TimelineWorkaround = TimelineWorkaround(
    oldSpotAngle: real,
    oldLightColor: Color,
    oldLossyScale: Vector3,
    oldLightColorTemperature: real,
    oldIntensity: real,
    lightEnabled: bool)

  /** A freshly created cache: every field at its zero value. */
  const EmptyTimeline: TimelineWorkaround :=
    TimelineWorkaround(0.0, Color(0.0, 0.0, 0.0, 0.0), Vector3(0.0, 0.0, 0.0), 0.0, 0.0, false)

  /** An error the unit setter logs: the rejected unit and the light's type. */
  datatype UnitError = InvalidLightUnit(unit: LightUnit, lightType: LightType)

  /** A reference to a texture asset, or none. */
  datatype TextureRef = NoTexture | Texture(id: nat)

  /** The unit and intensity `InitDefaultHDAdditionalLightData` gives a light of
      each type; a Disc light is left as it is. */
  function DefaultSettings(t: LightType): (r: Option<(LightUnit, real)>)
    ensures r.Some? <==> t != Disc
    ensures r.Some? ==> r.value.1 > 0.0
    ensures r.Some? ==> (r.value.0 == Lux <==> t == Directional)
  {
    match t
    case Directional => Some((Lux, DefaultDirectionalLightIntensity / PI * 100000.0))
    case Rectangle => Some((Lumen, DefaultAreaLightIntensity))
    case Point => Some((Lumen, DefaultPunctualLightIntensity))
    case Spot => Some((Lumen, DefaultPunctualLightIntensity))
    case Disc => None
  }

  /** The directional default `PI / PI * 100000` is exactly 100000 lux. */
  lemma DirectionalDefaultIsHundredThousandLux()
    ensures DefaultSettings(Directional) == Some((Lux, 100000.0))
  {
  }

  /** The host engine's `Light` component, reduced to what the core reads and
      writes. `lossyScale` is the lossy scale of the light's transform. */
  class HostLight {
    var lightType: LightType
    var spotAngle: real
    var areaSize: Vector2
    var intensity: real
    var colorTemperature: real
    var color: Color
    var enabled: bool
    var lossyScale: Vector3
    var shadows: LightShadows
    var shadowNearPlane: real
    var lightShadowCasterMode: LightShadowCasterMode
    var useColorTemperature: bool
  }

  class AdditionalLightData {
    /** The host light this data drives (`legacyLight`). */
    const light: HostLight
    /** The photometric formulas. */
    const utils: LightUtils
    /** `IsValidLightUnitForType`, defined outside this model. */
    const isValidLightUnitForType: (LightType, LightUnit) -> bool
    /** `Mathf.Epsilon`: some small positive number. */
    const epsilon: real

    var exposureValue: real
    var intensity: real
    var enableSpotReflector: bool
    var luxAtDistance: real
    var volumetricDimmer: real
    var lightUnit: LightUnit
    var fadeDistance: real
    var volumetricFadeDistance: real
    var aspectRatio: real
    var interactsWithSky: bool
    var angularDiameter: real
    var flareSize: real
    var flareTint: Color
    var flareFalloff: real
    var surfaceTexture: TextureRef
    var surfaceTint: Color
    var distance: real
    var volumetricShadowDimmer: real
    var shadowFadeDistance: real
    var useVolumetric: bool
    var timeline: TimelineWorkaround
    /** The errors logged so far, oldest first. */
    var errorLog: seq<UnitError>

    /** The ranges the setters keep every clamped field in. */
    ghost predicate Valid()
      reads this`intensity, this`luxAtDistance, this`volumetricDimmer, this`fadeDistance,
            this`volumetricFadeDistance, this`aspectRatio, this`volumetricShadowDimmer,
            this`shadowFadeDistance
    {
      && epsilon > 0.0
      && intensity >= 0.0
      && luxAtDistance >= 0.0
      && 0.0 <= volumetricDimmer <= 16.0
      && fadeDistance >= 0.0
      && volumetricFadeDistance >= 0.0
      && MinAspectRatio <= aspectRatio <= MaxAspectRatio
      && 0.0 <= volumetricShadowDimmer <= 1.0
      && shadowFadeDistance >= 0.0
    }

    /** A new component with the field initialisers of the source. */
    constructor (light: HostLight, utils: LightUtils,
                 isValidLightUnitForType: (LightType, LightUnit) -> bool, epsilon: real)
      requires epsilon > 0.0
      ensures Valid()
      ensures this.light == light && this.utils == utils && this.epsilon == epsilon
      ensures this.isValidLightUnitForType == isValidLightUnitForType
      ensures exposureValue == 1.0 && intensity == 0.0 && lightUnit == Lumen
      ensures enableSpotReflector && luxAtDistance == 1.0 && aspectRatio == 1.0
      ensures volumetricDimmer == 1.0 && volumetricShadowDimmer == 1.0 && useVolumetric
      ensures fadeDistance == 10000.0 && volumetricFadeDistance == 10000.0 && shadowFadeDistance == 10000.0
      ensures interactsWithSky && angularDiameter == 0.5 && flareSize == 2.0 && flareFalloff == 4.0
      ensures flareTint == White && surfaceTint == White && surfaceTexture == NoTexture
      ensures distance == 150000000000.0
      ensures timeline == EmptyTimeline && errorLog == []
    {
      this.light := light;
      this.utils := utils;
      this.isValidLightUnitForType := isValidLightUnitForType;
      this.epsilon := epsilon;
      exposureValue := 1.0;
      intensity := 0.0;
      enableSpotReflector := true;
      luxAtDistance := 1.0;
      volumetricDimmer := 1.0;
      lightUnit := Lumen;
      fadeDistance := 10000.0;
      volumetricFadeDistance := 10000.0;
      aspectRatio := 1.0;
      interactsWithSky := true;
      angularDiameter := 0.5;
      flareSize := 2.0;
      flareTint := White;
      flareFalloff := 4.0;
      surfaceTexture := NoTexture;
      surfaceTint := White;
      distance := 150000000000.0;
      volumetricShadowDimmer := 1.0;
      shadowFadeDistance := 10000.0;
      useVolumetric := true;
      timeline := EmptyTimeline;
      errorLog := [];
    }

    /** The light as the unit conversions see it. */
    function Parameters(): LightParameters
      reads this`lightUnit, this`intensity, this`enableSpotReflector, this`luxAtDistance,
            this`aspectRatio, light`lightType, light`spotAngle, light`areaSize
    {
      LightParameters(light.lightType, lightUnit, intensity, enableSpotReflector,
                      luxAtDistance, aspectRatio, light.spotAngle, light.areaSize)
    }

    /** Whether an update writes the host intensity at all (it does not for Lumen on a Disc). */
    predicate AssignsHost()
      reads this`lightUnit, light`lightType
    {
      !(lightUnit == Lumen && light.lightType == Disc)
    }

    /** The host intensity is the value derived from the current parameters and exposure. */
    ghost predicate Synced()
      reads this`lightUnit, this`intensity, this`enableSpotReflector, this`luxAtDistance,
            this`aspectRatio, this`exposureValue,
            light`intensity, light`lightType, light`spotAngle, light`areaSize
    {
      AssignsHost() && light.intensity == NativeIntensity(utils, Parameters(), light.intensity, exposureValue)
    }

    /** Whether the unit setter rejects `unit`: it differs from the current unit and is
        not valid for the light's type. */
    predicate RejectsUnit(unit: LightUnit)
      reads this`lightUnit, light`lightType
    {
      unit != lightUnit && !isValidLightUnitForType(light.lightType, unit)
    }

    /** The unit the unit setter leaves behind when asked for `unit`. */
    function UnitAfterRequest(unit: LightUnit): LightUnit
      reads this`lightUnit, light`lightType
    {
      if RejectsUnit(unit) then lightUnit else unit
    }

    /** The intensity the unit setter leaves behind when asked for `unit`: the
        converted value, clamped, when the unit changes; the current one otherwise. */
    function IntensityAfterUnitRequest(unit: LightUnit): real
      reads this`lightUnit, this`intensity, this`enableSpotReflector, this`luxAtDistance,
            this`aspectRatio, light`intensity, light`lightType, light`spotAngle, light`areaSize
    {
      if unit == lightUnit || RejectsUnit(unit) then intensity
      else Max(utils.convertLightIntensity(lightUnit, unit, Parameters(), light.intensity), 0.0)
    }

    /** The host intensity the unit setter leaves behind when asked for `unit`: when the
        unit changes, the host is re-derived once if the converted intensity differs from
        the current one, and once more in the new unit. */
    function HostAfterUnitRequest(unit: LightUnit): real
      reads this`lightUnit, this`intensity, this`enableSpotReflector, this`luxAtDistance,
            this`aspectRatio, this`exposureValue, light`intensity, light`lightType,
            light`spotAngle, light`areaSize
    {
      if unit == lightUnit || RejectsUnit(unit) then light.intensity
      else
        var converted := utils.convertLightIntensity(lightUnit, unit, Parameters(), light.intensity);
        var p := Parameters().(intensity := Max(converted, 0.0));
        var hostAfterConversion :=
          if converted == intensity then light.intensity
          else NativeIntensity(utils, p, light.intensity, exposureValue);
        NativeIntensity(utils, p.(unit := unit), hostAfterConversion, exposureValue)
    }

    /** `volumetricDimmer`'s getter: zero when volumetrics are off. */
    function VolumetricDimmer(): (r: real)
      reads this
      requires Valid()
      ensures 0.0 <= r <= 16.0
      ensures !useVolumetric ==> r == 0.0
      ensures useVolumetric ==> r == volumetricDimmer
    {
      if useVolumetric then volumetricDimmer else 0.0
    }

    /** `volumetricShadowDimmer`'s getter: zero when volumetrics are off. */
    function VolumetricShadowDimmer(): (r: real)
      reads this
      requires Valid()
      ensures 0.0 <= r <= 1.0
      ensures !useVolumetric ==> r == 0.0
      ensures useVolumetric ==> r == volumetricShadowDimmer
    {
      if useVolumetric then volumetricShadowDimmer else 0.0
    }

    /** `interactsWithSky`'s getter: only a directional light interacts with the sky. */
    function InteractsWithSky(): (r: bool)
      reads this`interactsWithSky, light`lightType
      ensures light.lightType != Directional ==> !r
      ensures light.lightType == Directional ==> (r <==> interactsWithSky)
    {
      interactsWithSky && light.lightType == Directional
    }

    /** The `type` setter, defined outside this model: it stores the type in the host light.
        A light turned into anything but a directional one stops interacting with the sky,
        while the stored flag keeps its value for when it becomes directional again. */
    method SetType(value: LightType)
      modifies light`lightType
      ensures light.lightType == value
      ensures value != Directional ==> !InteractsWithSky()
      ensures value == Directional ==> InteractsWithSky() == interactsWithSky
      ensures interactsWithSky == old(interactsWithSky)
    {
      light.lightType := value;
    }

    /** `SetLightIntensityPunctual`: writes the host intensity for Directional,
        Point and Spot lights and leaves it alone for any other type. */
    method SetLightIntensityPunctual(value: real)
      modifies light`intensity
      ensures light.intensity ==
        ApplyRule(utils, PunctualRule(light.lightType, lightUnit, enableSpotReflector),
                  Parameters().(intensity := value), old(light.intensity))
    {
      match light.lightType
      case Directional =>
        light.intensity := value;
      case Point =>
        if lightUnit == Candela {
          light.intensity := value;
        } else {
          light.intensity := utils.convertPointLightLumenToCandela(value);
        }
      case Spot =>
        if lightUnit == Candela {
          light.intensity := value;
        } else if enableSpotReflector {
          light.intensity := utils.convertSpotLightLumenToCandela(value, light.spotAngle * Deg2Rad, true);
        } else {
          light.intensity := utils.convertPointLightLumenToCandela(value);
        }
      case _ =>
    }

    /** `UpdateLightIntensity`: derives the host intensity from the unit and the
        authored intensity, then multiplies it by the exposure. */
    method UpdateLightIntensity()
      modifies light`intensity
      ensures light.intensity == NativeIntensity(utils, Parameters(), old(light.intensity), exposureValue)
      ensures AssignsHost() ==> Synced()
    {
      if lightUnit == Lumen {
        if light.lightType != Area {
          SetLightIntensityPunctual(intensity);
        } else {
          light.intensity := utils.convertAreaLightLumenToLuminance(
            light.lightType, intensity, light.areaSize.x, light.areaSize.y);
        }
      } else if lightUnit == Ev100 {
        light.intensity := utils.convertEvToLuminance(intensity);
      } else {
        var lightType := light.lightType;
        if (lightType == Spot || lightType == Point) && lightUnit == Lux {
          light.intensity := utils.convertLuxToCandela(intensity, luxAtDistance);
        } else {
          light.intensity := intensity;
        }
      }
      light.intensity := light.intensity * exposureValue;
      AssignedUnlessDiscLumen(Parameters());
      if AssignsHost() {
        PriorIrrelevant(utils, Parameters(), old(light.intensity), light.intensity, exposureValue);
      }
    }

    /** `UpdateAllLightValues`: only the intensity is synchronised. */
    method UpdateAllLightValues()
      modifies light`intensity
      ensures light.intensity == NativeIntensity(utils, Parameters(), old(light.intensity), exposureValue)
      ensures AssignsHost() ==> Synced()
    {
      UpdateLightIntensity();
    }

    /** The `intensity` setter: an equal value changes nothing; any other value is
        stored clamped to be non-negative and the host intensity is re-derived. */
    method SetIntensity(value: real)
      requires Valid()
      modifies this`intensity, light`intensity
      ensures Valid()
      ensures intensity == Max(value, 0.0)
      ensures value == old(intensity) ==> light.intensity == old(light.intensity)
      ensures value != old(intensity) ==>
        light.intensity == NativeIntensity(utils, Parameters(), old(light.intensity), exposureValue)
      ensures value != old(intensity) && AssignsHost() ==> Synced()
    {
      if intensity == value {
        return;
      }
      intensity := ClampMin(value, 0.0);
      UpdateLightIntensity();
    }

    /** The `enableSpotReflector` setter. */
    method SetEnableSpotReflector(value: bool)
      requires Valid()
      modifies this`enableSpotReflector, light`intensity
      ensures Valid()
      ensures enableSpotReflector == value
      ensures value == old(enableSpotReflector) ==> light.intensity == old(light.intensity)
      ensures value != old(enableSpotReflector) ==>
        light.intensity == NativeIntensity(utils, Parameters(), old(light.intensity), exposureValue)
    {
      if enableSpotReflector == value {
        return;
      }
      enableSpotReflector := value;
      UpdateLightIntensity();
    }

    /** The `luxAtDistance` setter: clamped to be non-negative only, so 0 is reachable. */
    method SetLuxAtDistance(value: real)
      requires Valid()
      modifies this`luxAtDistance, light`intensity
      ensures Valid()
      ensures luxAtDistance == Max(value, 0.0)
      ensures value == old(luxAtDistance) ==> light.intensity == old(light.intensity)
      ensures value != old(luxAtDistance) ==>
        light.intensity == NativeIntensity(utils, Parameters(), old(light.intensity), exposureValue)
      ensures value != old(luxAtDistance) && AssignsHost() ==> Synced()
    {
      if luxAtDistance == value {
        return;
      }
      luxAtDistance := ClampMin(value, 0.0);
      UpdateLightIntensity();
    }

    /** The `volumetricDimmer` setter: clamped to [0, 16]; the host light is not touched. */
    method SetVolumetricDimmer(value: real)
      requires Valid()
      modifies this`volumetricDimmer
      ensures Valid()
      ensures volumetricDimmer == Clamp(value, 0.0, 16.0)
    {
      if volumetricDimmer == value {
        return;
      }
      volumetricDimmer := Clamp(value, 0.0, 16.0);
    }

    /** The `lightUnit` setter. The same unit is a no-op. A unit not valid for the
        light's type is logged and changes nothing else. Otherwise the intensity is
        first converted to the new unit (and written through the intensity setter),
        then the unit is stored and the host intensity re-derived. */
    method SetLightUnit(value: LightUnit)
      requires Valid()
      modifies this`intensity, this`lightUnit, this`errorLog, light`intensity
      ensures Valid()
      ensures lightUnit == old(UnitAfterRequest(value))
      ensures value == old(lightUnit) ==>
        intensity == old(intensity) && light.intensity == old(light.intensity) && errorLog == old(errorLog)
      ensures old(RejectsUnit(value)) ==>
        && intensity == old(intensity) && light.intensity == old(light.intensity)
        && errorLog == old(errorLog) + [InvalidLightUnit(value, light.lightType)]
      ensures value != old(lightUnit) && !old(RejectsUnit(value)) ==>
        var converted := utils.convertLightIntensity(old(lightUnit), value, old(Parameters()), old(light.intensity));
        var hostAfterConversion :=
          if converted == old(intensity) then old(light.intensity)
          else NativeIntensity(utils, old(Parameters()).(intensity := intensity), old(light.intensity), exposureValue);
        && errorLog == old(errorLog)
        && intensity == Max(converted, 0.0)
        && light.intensity == NativeIntensity(utils, Parameters(), hostAfterConversion, exposureValue)
        && (AssignsHost() ==> Synced())
      ensures intensity == old(IntensityAfterUnitRequest(value))
      ensures light.intensity == old(HostAfterUnitRequest(value))
    {
      if lightUnit == value {
        return;
      }
      if !isValidLightUnitForType(light.lightType, value) {
        errorLog := errorLog + [InvalidLightUnit(value, light.lightType)];
        return;
      }
      var converted := utils.convertLightIntensity(lightUnit, value, Parameters(), light.intensity);
      SetIntensity(converted);
      lightUnit := value;
      UpdateLightIntensity();
    }

    /** The `fadeDistance` setter: clamped to be non-negative. */
    method SetFadeDistance(value: real)
      requires Valid()
      modifies this`fadeDistance
      ensures Valid()
      ensures fadeDistance == Max(value, 0.0)
    {
      if fadeDistance == value {
        return;
      }
      fadeDistance := ClampMin(value, 0.0);
    }

    /** The `volumetricFadeDistance` setter: clamped to be non-negative. */
    method SetVolumetricFadeDistance(value: real)
      requires Valid()
      modifies this`volumetricFadeDistance
      ensures Valid()
      ensures volumetricFadeDistance == Max(value, 0.0)
    {
      if volumetricFadeDistance == value {
        return;
      }
      volumetricFadeDistance := ClampMin(value, 0.0);
    }

    /** The `aspectRatio` setter: clamped to [0.05, 20], then every light value is
        re-synchronised. */
    method SetAspectRatio(value: real)
      requires Valid()
      modifies this`aspectRatio, light`intensity
      ensures Valid()
      ensures aspectRatio == Clamp(value, MinAspectRatio, MaxAspectRatio)
      ensures value == old(aspectRatio) ==> light.intensity == old(light.intensity)
      ensures value != old(aspectRatio) ==>
        light.intensity == NativeIntensity(utils, Parameters(), old(light.intensity), exposureValue)
    {
      if aspectRatio == value {
        return;
      }
      aspectRatio := Clamp(value, MinAspectRatio, MaxAspectRatio);
      UpdateAllLightValues();
    }

    /** The celestial-body setters: each stores its value unless it is equal. */
    method SetInteractsWithSky(value: bool)
      requires Valid()
      modifies this`interactsWithSky
      ensures Valid() && interactsWithSky == value
    {
      if interactsWithSky == value {
        return;
      }
      interactsWithSky := value;
    }

    method SetAngularDiameter(value: real)
      requires Valid()
      modifies this`angularDiameter
      ensures Valid() && angularDiameter == value
    {
      if angularDiameter == value {
        return;
      }
      angularDiameter := value;
    }

    method SetFlareSize(value: real)
      requires Valid()
      modifies this`flareSize
      ensures Valid() && flareSize == value
    {
      if flareSize == value {
        return;
      }
      flareSize := value;
    }

    method SetFlareTint(value: Color)
      requires Valid()
      modifies this`flareTint
      ensures Valid() && flareTint == value
    {
      if flareTint == value {
        return;
      }
      flareTint := value;
    }

    method SetFlareFalloff(value: real)
      requires Valid()
      modifies this`flareFalloff
      ensures Valid() && flareFalloff == value
    {
      if flareFalloff == value {
        return;
      }
      flareFalloff := value;
    }

    method SetSurfaceTexture(value: TextureRef)
      requires Valid()
      modifies this`surfaceTexture
      ensures Valid() && surfaceTexture == value
    {
      if surfaceTexture == value {
        return;
      }
      surfaceTexture := value;
    }

    method SetSurfaceTint(value: Color)
      requires Valid()
      modifies this`surfaceTint
      ensures Valid() && surfaceTint == value
    {
      if surfaceTint == value {
        return;
      }
      surfaceTint := value;
    }

    method SetDistance(value: real)
      requires Valid()
      modifies this`distance
      ensures Valid() && distance == value
    {
      if distance == value {
        return;
      }
      distance := value;
    }

    /** The `volumetricShadowDimmer` setter: clamped to [0, 1]. */
    method SetVolumetricShadowDimmer(value: real)
      requires Valid()
      modifies this`volumetricShadowDimmer
      ensures Valid()
      ensures volumetricShadowDimmer == Clamp01(value)
    {
      if volumetricShadowDimmer == value {
        return;
      }
      volumetricShadowDimmer := Clamp01(value);
    }

    /** The `shadowFadeDistance` setter: clamped to be non-negative. */
    method SetShadowFadeDistance(value: real)
      requires Valid()
      modifies this`shadowFadeDistance
      ensures Valid()
      ensures shadowFadeDistance == Max(value, 0.0)
    {
      if shadowFadeDistance == value {
        return;
      }
      shadowFadeDistance := ClampMin(value, 0.0);
    }

    /** The `useColorTemperature` setter, which forwards to the host light. */
    method SetUseColorTemperature(value: bool)
      modifies light`useColorTemperature
      ensures light.useColorTemperature == value
    {
      if light.useColorTemperature == value {
        return;
      }
      light.useColorTemperature := value;
    }

    /** `SetColor(color, colorTemperature)`: a temperature other than the default -1
        is stored and switches temperature mode on; the colour is stored in the host light. */
    method SetColor(color: Color, colorTemperature: real)
      modifies light`colorTemperature, light`useColorTemperature, light`color
      ensures light.color == color
      ensures colorTemperature != -1.0 ==> light.colorTemperature == colorTemperature && light.useColorTemperature
      ensures colorTemperature == -1.0 ==>
        light.colorTemperature == old(light.colorTemperature) &&
        light.useColorTemperature == old(light.useColorTemperature)
    {
      if colorTemperature != -1.0 {
        light.colorTemperature := colorTemperature;
        SetUseColorTemperature(true);
      }
      light.color := color;
    }

    /** `EnableColorTemperature`: the `useColorTemperature` setter. */
    method EnableColorTemperature(enable: bool)
      modifies light`useColorTemperature
      ensures light.useColorTemperature == enable
    {
      SetUseColorTemperature(enable);
    }

    /** `SetIntensity(intensity, unit)`: the unit setter, then the intensity setter. */
    method SetIntensityInUnit(value: real, unit: LightUnit)
      requires Valid()
      modifies this`intensity, this`lightUnit, this`errorLog, light`intensity
      ensures Valid()
      ensures lightUnit == old(UnitAfterRequest(unit))
      ensures intensity == Max(value, 0.0)
      ensures errorLog == old(errorLog) +
        (if old(RejectsUnit(unit)) then [InvalidLightUnit(unit, light.lightType)] else [])
      ensures light.intensity ==
        if value == old(IntensityAfterUnitRequest(unit)) then old(HostAfterUnitRequest(unit))
        else NativeIntensity(utils, Parameters(), old(HostAfterUnitRequest(unit)), exposureValue)
      ensures lightUnit == old(lightUnit) && value == old(intensity) ==> light.intensity == old(light.intensity)
      ensures AssignsHost() && (lightUnit != old(lightUnit) || intensity != old(intensity)) ==>
        Synced() && light.intensity == NativeIntensity(utils, Parameters(), old(light.intensity), exposureValue)
    {
      ghost var h0 := light.intensity;
      SetLightUnit(unit);
      SetIntensity(value);
      if AssignsHost() {
        PriorIrrelevant(utils, Parameters(), h0, light.intensity, exposureValue);
      }
    }

    /** `SetSpotLightLuxAt`: switch to Lux, set the reference distance, then the intensity. */
    method SetSpotLightLuxAt(luxIntensity: real, distance: real)
      requires Valid()
      modifies this`intensity, this`lightUnit, this`errorLog, this`luxAtDistance, light`intensity
      ensures Valid()
      ensures lightUnit == old(UnitAfterRequest(Lux))
      ensures luxAtDistance == Max(distance, 0.0)
      ensures intensity == Max(luxIntensity, 0.0)
      ensures errorLog == old(errorLog) +
        (if old(RejectsUnit(Lux)) then [InvalidLightUnit(Lux, light.lightType)] else [])
      ensures AssignsHost() &&
        (lightUnit != old(lightUnit) || intensity != old(intensity) || luxAtDistance != old(luxAtDistance))
        ==> Synced()
      ensures light.intensity ==
        var intensityAfterUnit := old(IntensityAfterUnitRequest(Lux));
        var hostAfterUnit := old(HostAfterUnitRequest(Lux));
        var hostAfterDistance :=
          if distance == old(luxAtDistance) then hostAfterUnit
          else NativeIntensity(utils, Parameters().(intensity := intensityAfterUnit), hostAfterUnit, exposureValue);
        if luxIntensity == intensityAfterUnit then hostAfterDistance
        else NativeIntensity(utils, Parameters(), hostAfterDistance, exposureValue)
    {
      SetLightUnit(Lux);
      SetLuxAtDistance(distance);
      SetIntensity(luxIntensity);
    }

    /** `Update`: polls the exposure. `activeExposure` is the value of the active
        exposure override, if one is found; without one the target is 1. The cached
        exposure moves, and the host intensity is re-derived, only when the target
        differs from it by more than epsilon. */
    method Update(activeExposure: Option<real>)
      requires Valid()
      modifies this`exposureValue, light`intensity
      ensures Valid()
      ensures Abs(exposureValue - activeExposure.GetOr(1.0)) <= epsilon
      ensures Abs(old(exposureValue) - activeExposure.GetOr(1.0)) > epsilon ==>
        && exposureValue == activeExposure.GetOr(1.0)
        && light.intensity == NativeIntensity(utils, Parameters(), old(light.intensity), exposureValue)
      ensures Abs(old(exposureValue) - activeExposure.GetOr(1.0)) <= epsilon ==>
        exposureValue == old(exposureValue) && light.intensity == old(light.intensity)
    {
      if activeExposure.Some? {
        var newExposure := activeExposure.value;
        if Abs(exposureValue - newExposure) > epsilon {
          exposureValue := newExposure;
          UpdateLightIntensity();
        }
      } else {
        var newExposure := 1.0;
        if Abs(exposureValue - newExposure) > epsilon {
          exposureValue := newExposure;
          UpdateLightIntensity();
        }
      }
    }

    /** Whether `LateUpdate` sees a change of scale, intensity or colour temperature. */
    predicate IntensityDrift()
      reads this`timeline, this`intensity, light`lossyScale, light`colorTemperature
    {
      || timeline.oldLossyScale != light.lossyScale
      || intensity != timeline.oldIntensity
      || light.colorTemperature != timeline.oldLightColorTemperature
    }

    /** Whether `LateUpdate` sees a spot light whose angle changed. */
    predicate SpotAngleDrift()
      reads this`timeline, light`lightType, light`spotAngle
    {
      light.lightType == Spot && timeline.oldSpotAngle != light.spotAngle
    }

    /** The second block of `LateUpdate`: a drift in scale, intensity or colour
        temperature re-derives the host intensity and records the three values. */
    method SyncOnIntensityDrift()
      modifies this`timeline, light`intensity
      ensures timeline == if old(IntensityDrift())
        then old(timeline).(oldLossyScale := light.lossyScale, oldIntensity := intensity,
                            oldLightColorTemperature := light.colorTemperature)
        else old(timeline)
      ensures light.intensity == if old(IntensityDrift())
        then NativeIntensity(utils, Parameters(), old(light.intensity), exposureValue)
        else old(light.intensity)
    {
      if timeline.oldLossyScale != light.lossyScale
        || intensity != timeline.oldIntensity
        || light.colorTemperature != timeline.oldLightColorTemperature
      {
        UpdateLightIntensity();
        timeline := timeline.(oldLossyScale := light.lossyScale);
        timeline := timeline.(oldIntensity := intensity);
        timeline := timeline.(oldLightColorTemperature := light.colorTemperature);
      }
    }

    /** The third block of `LateUpdate`: a spot light whose angle changed re-derives
        the host intensity and records the angle. */
    method SyncOnSpotAngleDrift()
      modifies this`timeline, light`intensity
      ensures timeline == if old(SpotAngleDrift())
        then old(timeline).(oldSpotAngle := light.spotAngle)
        else old(timeline)
      ensures light.intensity == if old(SpotAngleDrift())
        then NativeIntensity(utils, Parameters(), old(light.intensity), exposureValue)
        else old(light.intensity)
    {
      if light.lightType == Spot && timeline.oldSpotAngle != light.spotAngle {
        UpdateLightIntensity();
        timeline := timeline.(oldSpotAngle := light.spotAngle);
      }
    }

    /** The last block of `LateUpdate`: a change of colour, scale or colour
        temperature is recorded. */
    method SyncColorCache()
      modifies this`timeline
      ensures timeline == old(timeline).(oldLightColor := light.color, oldLossyScale := light.lossyScale,
                                         oldLightColorTemperature := light.colorTemperature)
    {
      if light.color != timeline.oldLightColor
        || timeline.oldLossyScale != light.lossyScale
        || light.colorTemperature != timeline.oldLightColorTemperature
      {
        timeline := timeline.(oldLightColor := light.color);
        timeline := timeline.(oldLossyScale := light.lossyScale);
        timeline := timeline.(oldLightColorTemperature := light.colorTemperature);
      }
    }

    /** `LateUpdate`: without a render pipeline nothing happens. Otherwise a drift in
        scale, intensity, colour temperature or (for a spot) angle re-derives the
        host intensity, and the cache ends up holding the current values. */
    method LateUpdate(pipelineActive: bool)
      requires Valid()
      modifies this`timeline, light`intensity
      ensures Valid()
      ensures !pipelineActive ==> timeline == old(timeline) && light.intensity == old(light.intensity)
      ensures pipelineActive ==>
        && timeline == old(timeline).(
             lightEnabled := light.enabled,
             oldLossyScale := light.lossyScale,
             oldIntensity := intensity,
             oldLightColorTemperature := light.colorTemperature,
             oldLightColor := light.color,
             oldSpotAngle := if light.lightType == Spot then light.spotAngle else old(timeline.oldSpotAngle))
        && light.intensity ==
             if old(IntensityDrift()) || old(SpotAngleDrift())
             then NativeIntensity(utils, Parameters(), old(light.intensity), exposureValue)
             else old(light.intensity)
    {
      if !pipelineActive {
        return;
      }
      ghost var h0 := light.intensity;
      if light.enabled != timeline.lightEnabled {
        timeline := timeline.(lightEnabled := light.enabled);
      }
      SyncOnIntensityDrift();
      ghost var h1 := light.intensity;
      SyncOnSpotAngleDrift();
      if old(SpotAngleDrift()) {
        PriorIrrelevant(utils, Parameters(), h0, h1, exposureValue);
      }
      SyncColorCache();
    }
  }

  /** What the per-type switch of `InitDefaultHDAdditionalLightData` leaves behind:
      the type's default unit and intensity requested through `SetIntensity(value, unit)`,
      with the host intensity derived from the area size the light had before; for a
      Rectangle light, no shadows and a half-unit square. */
  twostate predicate TypeDefaultsApplied(lightData: AdditionalLightData)
    reads lightData, lightData.light
  {
    && (DefaultSettings(lightData.light.lightType).None? ==>
        && lightData.lightUnit == old(lightData.lightUnit)
        && lightData.intensity == old(lightData.intensity)
        && lightData.light.intensity == old(lightData.light.intensity)
        && lightData.errorLog == old(lightData.errorLog))
    && (DefaultSettings(lightData.light.lightType).Some? ==>
        var unit := DefaultSettings(lightData.light.lightType).value.0;
        var value := DefaultSettings(lightData.light.lightType).value.1;
        var hostAfterUnit := old(lightData.HostAfterUnitRequest(unit));
        var hostParameters := lightData.Parameters().(areaSize := old(lightData.light.areaSize));
        && lightData.lightUnit == old(lightData.UnitAfterRequest(unit))
        && lightData.intensity == value
        && lightData.errorLog == old(lightData.errorLog) +
             (if old(lightData.RejectsUnit(unit)) then [InvalidLightUnit(unit, lightData.light.lightType)] else [])
        && lightData.light.intensity ==
             (if value == old(lightData.IntensityAfterUnitRequest(unit)) then hostAfterUnit
              else NativeIntensity(lightData.utils, hostParameters, hostAfterUnit, lightData.exposureValue))
        && lightData.AssignsHost()
        && (lightData.lightUnit != old(lightData.lightUnit) || lightData.intensity != old(lightData.intensity) ==>
            lightData.light.intensity ==
              NativeIntensity(lightData.utils, hostParameters, old(lightData.light.intensity), lightData.exposureValue)))
    && (lightData.light.lightType == Rectangle ==>
        && lightData.light.shadowNearPlane == 0.0
        && lightData.light.shadows == NoShadows
        && lightData.light.areaSize == Vector2(0.5, 0.5))
    && (lightData.light.lightType != Rectangle ==>
        && lightData.light.shadowNearPlane == old(lightData.light.shadowNearPlane)
        && lightData.light.shadows == old(lightData.light.shadows)
        && lightData.light.areaSize == old(lightData.light.areaSize))
  }

  /** The `Area` case of `InitDefaultHDAdditionalLightData`: 200 lumen, then no shadows
      and a half-unit square. The area size is set after the host intensity was derived,
      which is not re-derived for it. */
  method ApplyAreaLightDefaults(lightData: AdditionalLightData)
    requires lightData.Valid() && lightData.light.lightType == Rectangle
    modifies lightData`intensity, lightData`lightUnit, lightData`errorLog
    modifies lightData.light`intensity, lightData.light`shadowNearPlane, lightData.light`shadows
    modifies lightData.light`areaSize
    ensures lightData.Valid()
    ensures TypeDefaultsApplied(lightData)
  {
    var light := lightData.light;
    lightData.SetIntensityInUnit(DefaultAreaLightIntensity, Lumen);
    light.shadowNearPlane := 0.0;
    light.shadows := NoShadows;
    light.areaSize := Vector2(0.5, 0.5);
  }

  /** The per-type switch of `InitDefaultHDAdditionalLightData`. The outer switch
      matches `Area`, which is `Rectangle`, so the inner `Disc` case is never reached
      and a Disc light keeps its unit and intensity. */
  method ApplyTypeDefaults(lightData: AdditionalLightData)
    requires lightData.Valid()
    modifies lightData`intensity, lightData`lightUnit, lightData`errorLog
    modifies lightData.light`intensity, lightData.light`shadowNearPlane, lightData.light`shadows
    modifies lightData.light`areaSize
    ensures lightData.Valid()
    ensures TypeDefaultsApplied(lightData)
  {
    var light := lightData.light;
    match light.lightType {
      case Directional =>
        // lightUnit := Lux, then intensity := PI / PI * 100000
        lightData.SetIntensityInUnit(DefaultDirectionalLightIntensity / PI * 100000.0, Lux);
      case Rectangle =>
        // the inner switch of the source: its Disc case cannot match here
        match light.lightType {
          case Rectangle =>
            ApplyAreaLightDefaults(lightData);
          case _ =>
        }
      case Point =>
        lightData.SetIntensityInUnit(DefaultPunctualLightIntensity, Lumen);
      case Spot =>
        lightData.SetIntensityInUnit(DefaultPunctualLightIntensity, Lumen);
      case Disc =>
    }
  }

  /** `InitDefaultHDAdditionalLightData`: the per-type defaults of a new light, then
      the shadow caster mode `Everything` and colour temperature on. */
  method InitDefaultHDAdditionalLightData(lightData: AdditionalLightData)
    requires lightData.Valid()
    modifies lightData`intensity, lightData`lightUnit, lightData`errorLog
    modifies lightData.light`intensity, lightData.light`shadowNearPlane, lightData.light`shadows
    modifies lightData.light`areaSize, lightData.light`lightShadowCasterMode
    modifies lightData.light`useColorTemperature
    ensures lightData.Valid()
    ensures TypeDefaultsApplied(lightData)
    ensures lightData.light.lightShadowCasterMode == Everything
    ensures lightData.light.useColorTemperature
  {
    ApplyTypeDefaults(lightData);
    lightData.light.lightShadowCasterMode := Everything;
    lightData.SetUseColorTemperature(true);
  }
}
