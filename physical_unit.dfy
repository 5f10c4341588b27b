/** The inspector's handling of photometric units: the conversion of an
    authored intensity from one unit to another, the unit popup that applies it,
    the unit forced by a change to a directional light, and the clamps applied
    after an edit. The conversion formulas themselves are the uninterpreted
    fields of `LightUtils`. */
module PhysicalUnit {
  import opened Mathf
  import opened LightTypes
  import opened LightUtilities
  import opened AdditionalLighting
  import opened SerializedLight

  /** Which `LightUtils` formula a unit change applies, with the light type it is
      given where it takes one. */
  datatype Conversion =
    | Keep
    | PunctualLumenToCandela(t: LightType)
    | PunctualLumenToLux(t: LightType)
    | PunctualLumenToEv(t: LightType)
    | PunctualCandelaToLumen(t: LightType)
    | CandelaToLux
    | CandelaToEv
    | PunctualLuxToLumen(t: LightType)
    | LuxToCandela
    | LuxToEv
    | PunctualEvToLumen(t: LightType)
    | EvToCandela
    | EvToLux
    | AreaLumenToLuminance
    | AreaLuminanceToLumen
    | LuminanceToEv
    | EvToLuminance
    | AreaEvToLumen
    | AreaLumenToEv

  /** What the conversions read besides the intensity: the inspected host light's
      intensity and spot angle, and the serialized reflector flag, reference
      distance, aspect ratio and area size. */
  datatype ConversionInputs = ConversionInputs(
    hostIntensity: real,
    spotAngle: real,
    enableSpotReflector: bool,
    luxAtDistance: real,
    aspectRatio: real,
    areaSizeX: real,
    areaSizeY: real)

  /** The conversion between two units on a Directional, Point or Spot light, as a
      table: one entry per ordered pair of distinct units other than Nits. */
  function PunctualConversion(t: LightType, from: LightUnit, to: LightUnit): Conversion {
    match (from, to)
    case (Lumen, Candela) => PunctualLumenToCandela(t)
    case (Lumen, Lux) => PunctualLumenToLux(t)
    case (Lumen, Ev100) => PunctualLumenToEv(t)
    case (Candela, Lumen) => PunctualCandelaToLumen(t)
    case (Candela, Lux) => CandelaToLux
    case (Candela, Ev100) => CandelaToEv
    case (Lux, Lumen) => PunctualLuxToLumen(t)
    case (Lux, Candela) => LuxToCandela
    case (Lux, Ev100) => LuxToEv
    case (Ev100, Lumen) => PunctualEvToLumen(t)
    case (Ev100, Candela) => EvToCandela
    case (Ev100, Lux) => EvToLux
    case _ => Keep
  }

  /** The conversion between two units on an area light: one entry per ordered
      pair of distinct units among Lumen, Nits and Ev100. */
  function AreaConversion(from: LightUnit, to: LightUnit): Conversion {
    match (from, to)
    case (Lumen, Nits) => AreaLumenToLuminance
    case (Nits, Lumen) => AreaLuminanceToLumen
    case (Nits, Ev100) => LuminanceToEv
    case (Ev100, Nits) => EvToLuminance
    case (Ev100, Lumen) => AreaEvToLumen
    case (Lumen, Ev100) => AreaLumenToEv
    case _ => Keep
  }

  /** The conversion chosen for the inspector's light type: the punctual table
      for Directional, Point and Spot, the area table for `Area` (`Rectangle`),
      and none for a Disc light or a mixed selection. */
  function ConversionFor(sel: TypeSelection, from: LightUnit, to: LightUnit): Conversion {
    match sel
    case MixedTypes => Keep
    case Uniform(t) =>
      match t
      case Directional => PunctualConversion(t, from, to)
      case Point => PunctualConversion(t, from, to)
      case Spot => PunctualConversion(t, from, to)
      case Rectangle => AreaConversion(from, to)
      case Disc => Keep
  }

  /** The value a conversion gives for `x`, with the arguments the inspector passes. */
  function ApplyConversion(u: LightUtils, c: Conversion, p: ConversionInputs, x: real): real {
    match c
    case Keep => x
    case PunctualLumenToCandela(t) =>
      u.convertPunctualLightLumenToCandela(t, x, p.hostIntensity, p.enableSpotReflector)
    case PunctualLumenToLux(t) =>
      u.convertPunctualLightLumenToLux(t, x, p.hostIntensity, p.enableSpotReflector, p.luxAtDistance)
    case PunctualLumenToEv(t) =>
      u.convertPunctualLightLumenToEv(t, x, p.hostIntensity, p.enableSpotReflector)
    case PunctualCandelaToLumen(t) =>
      u.convertPunctualLightCandelaToLumen(t, x, p.enableSpotReflector, p.spotAngle, p.aspectRatio)
    case CandelaToLux => u.convertCandelaToLux(x, p.luxAtDistance)
    case CandelaToEv => u.convertCandelaToEv(x)
    case PunctualLuxToLumen(t) =>
      u.convertPunctualLightLuxToLumen(t, x, p.enableSpotReflector, p.spotAngle, p.aspectRatio, p.luxAtDistance)
    case LuxToCandela => u.convertLuxToCandela(x, p.luxAtDistance)
    case LuxToEv => u.convertLuxToEv(x, p.luxAtDistance)
    case PunctualEvToLumen(t) =>
      u.convertPunctualLightEvToLumen(t, x, p.enableSpotReflector, p.spotAngle, p.aspectRatio)
    case EvToCandela => u.convertEvToCandela(x)
    case EvToLux => u.convertEvToLux(x, p.luxAtDistance)
    case AreaLumenToLuminance => u.convertAreaLightLumenToLuminance(Area, x, p.areaSizeX, p.areaSizeY)
    case AreaLuminanceToLumen => u.convertAreaLightLuminanceToLumen(Area, x, p.areaSizeX, p.areaSizeY)
    case LuminanceToEv => u.convertLuminanceToEv(x)
    case EvToLuminance => u.convertEvToLuminance(x)
    case AreaEvToLumen => u.convertAreaLightEvToLumen(Area, x, p.areaSizeX, p.areaSizeY)
    case AreaLumenToEv => u.convertAreaLightLumenToEv(Area, x, p.areaSizeX, p.areaSizeY)
  }

  /** `ConvertLightIntensity(oldUnit, newUnit, serialized, owner, intensity)` with the
      inspector's type `sel` and the values it reads passed in: a chain of
      exclusive tests for punctual lights, a run of independent tests for area
      lights (at most one of which holds), and no change otherwise. */
  function ConvertLightIntensity(u: LightUtils, oldUnit: LightUnit, newUnit: LightUnit,
                                 sel: TypeSelection, p: ConversionInputs, intensity: real): (r: real)
    ensures r == ApplyConversion(u, ConversionFor(sel, oldUnit, newUnit), p, intensity)
  {
    match sel
    case Uniform(lightType) =>
      if lightType == Directional || lightType == Point || lightType == Spot then
        if oldUnit == Lumen && newUnit == Candela then
          u.convertPunctualLightLumenToCandela(lightType, intensity, p.hostIntensity, p.enableSpotReflector)
        else if oldUnit == Lumen && newUnit == Lux then
          u.convertPunctualLightLumenToLux(lightType, intensity, p.hostIntensity, p.enableSpotReflector,
                                           p.luxAtDistance)
        else if oldUnit == Lumen && newUnit == Ev100 then
          u.convertPunctualLightLumenToEv(lightType, intensity, p.hostIntensity, p.enableSpotReflector)
        else if oldUnit == Candela && newUnit == Lumen then
          u.convertPunctualLightCandelaToLumen(lightType, intensity, p.enableSpotReflector,
                                               p.spotAngle, p.aspectRatio)
        else if oldUnit == Candela && newUnit == Lux then
          u.convertCandelaToLux(intensity, p.luxAtDistance)
        else if oldUnit == Candela && newUnit == Ev100 then
          u.convertCandelaToEv(intensity)
        else if oldUnit == Lux && newUnit == Lumen then
          u.convertPunctualLightLuxToLumen(lightType, intensity, p.enableSpotReflector,
                                           p.spotAngle, p.aspectRatio, p.luxAtDistance)
        else if oldUnit == Lux && newUnit == Candela then
          u.convertLuxToCandela(intensity, p.luxAtDistance)
        else if oldUnit == Lux && newUnit == Ev100 then
          u.convertLuxToEv(intensity, p.luxAtDistance)
        else if oldUnit == Ev100 && newUnit == Lumen then
          u.convertPunctualLightEvToLumen(lightType, intensity, p.enableSpotReflector,
                                          p.spotAngle, p.aspectRatio)
        else if oldUnit == Ev100 && newUnit == Candela then
          u.convertEvToCandela(intensity)
        else if oldUnit == Ev100 && newUnit == Lux then
          u.convertEvToLux(intensity, p.luxAtDistance)
        else
          intensity
      else if lightType == Area then
        var i1 := if oldUnit == Lumen && newUnit == Nits
          then u.convertAreaLightLumenToLuminance(lightType, intensity, p.areaSizeX, p.areaSizeY)
          else intensity;
        var i2 := if oldUnit == Nits && newUnit == Lumen
          then u.convertAreaLightLuminanceToLumen(lightType, i1, p.areaSizeX, p.areaSizeY)
          else i1;
        var i3 := if oldUnit == Nits && newUnit == Ev100 then u.convertLuminanceToEv(i2) else i2;
        var i4 := if oldUnit == Ev100 && newUnit == Nits then u.convertEvToLuminance(i3) else i3;
        var i5 := if oldUnit == Ev100 && newUnit == Lumen
          then u.convertAreaLightEvToLumen(lightType, i4, p.areaSizeX, p.areaSizeY)
          else i4;
        if oldUnit == Lumen && newUnit == Ev100
        then u.convertAreaLightLumenToEv(lightType, i5, p.areaSizeX, p.areaSizeY)
        else i5
      else
        intensity
    case MixedTypes => intensity
  }

  /** Keeping the unit converts nothing, whatever the light type. */
  lemma SameUnitUnchanged(u: LightUtils, unit: LightUnit, sel: TypeSelection, p: ConversionInputs, x: real)
    ensures ConvertLightIntensity(u, unit, unit, sel, p, x) == x
  {
  }

  /** A mixed selection or a Disc light converts nothing. */
  lemma MixedOrDiscUnchanged(u: LightUtils, from: LightUnit, to: LightUnit, p: ConversionInputs, x: real)
    ensures ConvertLightIntensity(u, from, to, MixedTypes, p, x) == x
    ensures ConvertLightIntensity(u, from, to, Uniform(Disc), p, x) == x
  {
  }

  /** On a Directional, Point or Spot light a formula is applied exactly when the
      units differ and neither is Nits. */
  lemma PunctualConvertsDistinctNonNits(t: LightType, from: LightUnit, to: LightUnit)
    requires t == Directional || t == Point || t == Spot
    ensures ConversionFor(Uniform(t), from, to) != Keep <==> from != to && from != Nits && to != Nits
  {
  }

  /** On an area light a formula is applied exactly when the units differ and both
      are among Lumen, Nits and Ev100; Candela and Lux leave the value alone. */
  lemma AreaConvertsLumenNitsEv(from: LightUnit, to: LightUnit)
    ensures ConversionFor(Uniform(Area), from, to) != Keep <==>
      from != to && from in {Lumen, Nits, Ev100} && to in {Lumen, Nits, Ev100}
  {
  }

  /** Different unit pairs never share a formula: each conversion that applies
      belongs to exactly one (type class, from, to). */
  lemma ConversionDeterminesPair(s1: TypeSelection, f1: LightUnit, t1: LightUnit,
                                 s2: TypeSelection, f2: LightUnit, t2: LightUnit)
    requires ConversionFor(s1, f1, t1) != Keep
    requires ConversionFor(s1, f1, t1) == ConversionFor(s2, f2, t2)
    ensures f1 == f2 && t1 == t2
  {
  }

  /** The reference distance enters the result only when Lux is one of the two
      units, and a punctual light then passes it as the distance argument. */
  lemma LuxDistanceOnlyForLux(u: LightUtils, from: LightUnit, to: LightUnit, sel: TypeSelection,
                              p: ConversionInputs, x: real, d: real)
    ensures from != Lux && to != Lux ==>
      ConvertLightIntensity(u, from, to, sel, p.(luxAtDistance := d), x) ==
      ConvertLightIntensity(u, from, to, sel, p, x)
    ensures sel.Uniform? && sel.lightType in {Directional, Point, Spot} && from == Candela && to == Lux ==>
      ConvertLightIntensity(u, from, to, sel, p, x) == u.convertCandelaToLux(x, p.luxAtDistance)
    ensures sel.Uniform? && sel.lightType in {Directional, Point, Spot} && from == Lux && to == Candela ==>
      ConvertLightIntensity(u, from, to, sel, p, x) == u.convertLuxToCandela(x, p.luxAtDistance)
  {
  }

  /** What the serialized overload reads: the inspected host light (`owner.target`)
      and the serialized properties. */
  function Inputs(serialized: SerializedHDLight, owner: HostLight): ConversionInputs
    reads serialized, owner
  {
    ConversionInputs(owner.intensity, owner.spotAngle, serialized.enableSpotReflector,
                     serialized.luxAtDistance, serialized.aspectRatio,
                     serialized.areaSizeX, serialized.areaSizeY)
  }

  /** The selection's type as the `type` getter reports it. */
  ghost function SelectionOf(serialized: SerializedHDLight): TypeSelection
    reads serialized.Lights()
    requires serialized.Valid()
  {
    if Mixed(serialized.Types()) then MixedTypes else Uniform(serialized.Types()[0])
  }

  /** The serialized overload: the serialized intensity is rewritten in the new unit. */
  method ConvertSerializedIntensity(u: LightUtils, oldUnit: LightUnit, newUnit: LightUnit,
                                    serialized: SerializedHDLight, owner: HostLight)
    requires serialized.Valid()
    modifies serialized`intensity
    ensures serialized.intensity ==
      ApplyConversion(u, ConversionFor(SelectionOf(serialized), oldUnit, newUnit),
                      Inputs(serialized, owner), old(serialized.intensity))
  {
    var lightType := serialized.GetType();
    serialized.intensity :=
      ConvertLightIntensity(u, oldUnit, newUnit, lightType, Inputs(serialized, owner), serialized.intensity);
  }

  /** `UpdateLightIntensityUnit`: when every selected light is directional the unit
      becomes Lux and the reference distance is reset to 1; otherwise nothing changes. */
  method UpdateLightIntensityUnit(serialized: SerializedHDLight)
    requires serialized.Valid()
    modifies serialized`lightUnit, serialized`luxAtDistance
    ensures SelectionOf(serialized) == Uniform(Directional) ==>
      serialized.lightUnit == Lux && serialized.luxAtDistance == 1.0
    ensures SelectionOf(serialized) != Uniform(Directional) ==>
      serialized.lightUnit == old(serialized.lightUnit) && serialized.luxAtDistance == old(serialized.luxAtDistance)
  {
    var lightType := serialized.GetType();
    if lightType == Uniform(Directional) {
      serialized.lightUnit := Lux;
      serialized.luxAtDistance := 1.0;
    }
  }

  /** The type popup's change handler: every selected light gets the new type, then
      the unit is brought in line with it. */
  method ChangeLightType(serialized: SerializedHDLight, value: LightType)
    requires serialized.Valid()
    modifies serialized.Lights()`lightType, serialized`lightUnit, serialized`luxAtDistance
    ensures forall i :: 0 <= i < |serialized.targets| ==> serialized.targets[i].light.lightType == value
    ensures value == Directional ==> serialized.lightUnit == Lux && serialized.luxAtDistance == 1.0
    ensures value != Directional ==>
      serialized.lightUnit == old(serialized.lightUnit) && serialized.luxAtDistance == old(serialized.luxAtDistance)
  {
    serialized.SetType(value);
    assert serialized.Types()[0] == value;
    UpdateLightIntensityUnit(serialized);
  }

  /** The conversion step of the unit popup: when the user picked a unit, the
      intensity is first converted from the old unit, then the new unit is stored. */
  method ApplyUnitPopup(u: LightUtils, serialized: SerializedHDLight, owner: HostLight,
                        selected: LightUnit, changed: bool)
    requires serialized.Valid()
    modifies serialized`intensity, serialized`lightUnit
    ensures !changed ==> serialized.intensity == old(serialized.intensity) &&
                         serialized.lightUnit == old(serialized.lightUnit)
    ensures changed ==> serialized.lightUnit == selected
    ensures changed ==>
      serialized.intensity ==
      ConvertLightIntensity(u, old(serialized.lightUnit), selected, SelectionOf(serialized),
                            Inputs(serialized, owner), old(serialized.intensity))
  {
    var oldLightUnit := serialized.lightUnit;
    if changed {
      ConvertSerializedIntensity(u, oldLightUnit, selected, serialized, owner);
      serialized.lightUnit := selected;
    }
  }

  /** After an edit of the intensity field or unit popup the intensity is made non-negative. */
  method ClampEditedIntensity(serialized: SerializedHDLight, changed: bool)
    modifies serialized`intensity
    ensures changed ==> serialized.intensity == Max(old(serialized.intensity), 0.0)
    ensures !changed ==> serialized.intensity == old(serialized.intensity)
  {
    if changed {
      serialized.intensity := Max(serialized.intensity, 0.0);
    }
  }

  /** After an edit of the reference distance it is made at least 0.01, a
      stricter bound than the runtime setter's. */
  method ClampEditedLuxAtDistance(serialized: SerializedHDLight, changed: bool)
    modifies serialized`luxAtDistance
    ensures changed ==> serialized.luxAtDistance == Max(old(serialized.luxAtDistance), 0.01)
    ensures !changed ==> serialized.luxAtDistance == old(serialized.luxAtDistance)
  {
    if changed {
      serialized.luxAtDistance := Max(serialized.luxAtDistance, 0.01);
    }
  }
}
