/** What `UpdateLightIntensity` writes into the host light, stated as a table from
    (light type, unit, reflector) to the formula applied, followed by the exposure
    multiplier. The runtime class proves its imperative code against
    `NativeIntensity`; the lemmas below state the dispatch the code promises. */
module LightIntensity {
  import opened Mathf
  import opened LightTypes
  import opened LightUtilities

  /** The formula the host intensity is computed with, before exposure. */
  datatype Rule =
    | PassThrough             // the authored intensity itself
    | PointLumenToCandela
    | SpotLumenToCandela      // with the spot angle in radians and the exact solid angle
    | AreaLumenToLuminance
    | EvToLuminance
    | LuxToCandela            // at `luxAtDistance`
    | Unassigned              // nothing is written: the previous host intensity stays

  /** The choice `SetLightIntensityPunctual` makes. It has no case for the area
      types, so for them nothing is assigned. */
  function PunctualRule(t: LightType, unit: LightUnit, reflector: bool): Rule {
    match t
    case Directional => PassThrough
    case Point => if unit == Candela then PassThrough else PointLumenToCandela
    case Spot =>
      if unit == Candela then PassThrough
      else if reflector then SpotLumenToCandela
      else PointLumenToCandela
    case Rectangle => Unassigned
    case Disc => Unassigned
  }

  /** The choice `UpdateLightIntensity` makes (editor configuration, where the
      area lumen branch is compiled in). Only `Area`, that is `Rectangle`, takes
      the area branch; a `Disc` light in Lumen goes to the punctual code. */
  function IntensityRule(t: LightType, unit: LightUnit, reflector: bool): Rule {
    match unit
    case Lumen => if t != Area then PunctualRule(t, unit, reflector) else AreaLumenToLuminance
    case Ev100 => EvToLuminance
    case Lux => if t == Spot || t == Point then LuxToCandela else PassThrough
    case Candela => PassThrough
    case Nits => PassThrough
  }

  /** The value a rule gives for light `p`, `prior` being the host intensity
      before the update. */
  function ApplyRule(u: LightUtils, r: Rule, p: LightParameters, prior: real): real {
    match r
    case PassThrough => p.intensity
    case PointLumenToCandela => u.convertPointLightLumenToCandela(p.intensity)
    case SpotLumenToCandela => u.convertSpotLightLumenToCandela(p.intensity, p.spotAngle * Deg2Rad, true)
    case AreaLumenToLuminance =>
      u.convertAreaLightLumenToLuminance(p.lightType, p.intensity, p.areaSize.x, p.areaSize.y)
    case EvToLuminance => u.convertEvToLuminance(p.intensity)
    case LuxToCandela => u.convertLuxToCandela(p.intensity, p.luxAtDistance)
    case Unassigned => prior
  }

  function RuleOf(p: LightParameters): Rule {
    IntensityRule(p.lightType, p.unit, p.enableSpotReflector)
  }

  /** The host light's intensity after `UpdateLightIntensity`. */
  function NativeIntensity(u: LightUtils, p: LightParameters, prior: real, exposure: real): real {
    ApplyRule(u, RuleOf(p), p, prior) * exposure
  }

  /** Lumen on every type but `Area`: Directional passes the value through, Point
      uses the point conversion, Spot uses the spot conversion at the spot angle
      in radians when the reflector is on and the point conversion when it is
      off, and Disc assigns nothing, so the old host value is only re-multiplied
      by the exposure. */
  lemma LumenOnPunctualPath(u: LightUtils, p: LightParameters, prior: real, e: real)
    requires p.unit == Lumen && p.lightType != Area
    ensures p.lightType == Directional ==> NativeIntensity(u, p, prior, e) == p.intensity * e
    ensures p.lightType == Point ==>
      NativeIntensity(u, p, prior, e) == u.convertPointLightLumenToCandela(p.intensity) * e
    ensures p.lightType == Spot && p.enableSpotReflector ==>
      NativeIntensity(u, p, prior, e) ==
      u.convertSpotLightLumenToCandela(p.intensity, p.spotAngle * Deg2Rad, true) * e
    ensures p.lightType == Spot && !p.enableSpotReflector ==>
      NativeIntensity(u, p, prior, e) == u.convertPointLightLumenToCandela(p.intensity) * e
    ensures p.lightType == Disc ==> NativeIntensity(u, p, prior, e) == prior * e
  {
  }

  /** Lumen on `Area` (`Rectangle`) converts to luminance over the area size. */
  lemma LumenOnArea(u: LightUtils, p: LightParameters, prior: real, e: real)
    requires p.unit == Lumen && p.lightType == Area
    ensures NativeIntensity(u, p, prior, e) ==
      u.convertAreaLightLumenToLuminance(Rectangle, p.intensity, p.areaSize.x, p.areaSize.y) * e
  {
  }

  /** The other units: Ev100 converts to luminance on every type, Lux converts to
      candela at `luxAtDistance` on Point and Spot, and everything else passes the
      authored value through. */
  lemma OtherUnits(u: LightUtils, p: LightParameters, prior: real, e: real)
    requires p.unit != Lumen
    ensures p.unit == Ev100 ==> NativeIntensity(u, p, prior, e) == u.convertEvToLuminance(p.intensity) * e
    ensures p.unit == Lux && (p.lightType == Point || p.lightType == Spot) ==>
      NativeIntensity(u, p, prior, e) == u.convertLuxToCandela(p.intensity, p.luxAtDistance) * e
    ensures p.unit == Candela || p.unit == Nits ||
            (p.unit == Lux && p.lightType != Point && p.lightType != Spot) ==>
      NativeIntensity(u, p, prior, e) == p.intensity * e
  {
  }

  /** The host value is assigned for every type and unit except Lumen on a Disc. */
  lemma AssignedUnlessDiscLumen(p: LightParameters)
    ensures RuleOf(p) == Unassigned <==> p.unit == Lumen && p.lightType == Disc
  {
  }

  /** When the host value is assigned, the previous host value does not matter. */
  lemma PriorIrrelevant(u: LightUtils, p: LightParameters, a: real, b: real, e: real)
    requires RuleOf(p) != Unassigned
    ensures NativeIntensity(u, p, a, e) == NativeIntensity(u, p, b, e)
  {
  }

  /** On a Disc light in Lumen every update multiplies the host value by the
      exposure once more: two updates scale it by the exposure squared. */
  lemma DiscLumenCompoundsExposure(u: LightUtils, p: LightParameters, h: real, e: real)
    requires p.unit == Lumen && p.lightType == Disc
    ensures NativeIntensity(u, p, NativeIntensity(u, p, h, e), e) == h * (e * e)
  {
  }

  /** The aspect ratio never enters the host value; luxAtDistance does only for
      Lux on Point and Spot, the spot angle only for a Spot in Lumen with its
      reflector on, and the area size only for Lumen on `Area`. */
  lemma NativeReadsOnlyItsInputs(u: LightUtils, p: LightParameters, prior: real, e: real,
                                 ratio: real, dist: real, angle: real, size: Vector2)
    ensures NativeIntensity(u, p.(aspectRatio := ratio), prior, e) == NativeIntensity(u, p, prior, e)
    ensures !(p.unit == Lux && (p.lightType == Point || p.lightType == Spot)) ==>
      NativeIntensity(u, p.(luxAtDistance := dist), prior, e) == NativeIntensity(u, p, prior, e)
    ensures !(p.unit == Lumen && p.lightType == Spot && p.enableSpotReflector) ==>
      NativeIntensity(u, p.(spotAngle := angle), prior, e) == NativeIntensity(u, p, prior, e)
    ensures !(p.unit == Lumen && p.lightType == Area) ==>
      NativeIntensity(u, p.(areaSize := size), prior, e) == NativeIntensity(u, p, prior, e)
  {
  }
}
