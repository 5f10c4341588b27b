/** The value types shared by the runtime light data and the editor:
    the host engine's light types, the photometric units, small vectors and
    colours, and the snapshot of a light that the conversions read. */
module LightTypes {

  datatype Option<T> = None | Some(value: T) {
    function GetOr(default: T): T {
      match this
      case Some(v) => v
      case None => default
    }
  }

  /** The host engine's `LightType`. The engine's `Area` and `Rectangle` are one
      and the same enum value, so `Area` is an alias below, not a constructor;
      `Disc` is a separate value. */
  datatype LightType = Spot | Directional | Point | Rectangle | Disc

  /** `LightType.Area`: the same tag as `Rectangle`. */
  const Area: LightType := Rectangle

  /** The photometric unit the authored intensity is expressed in. */
  datatype LightUnit = Lumen | Candela | Lux | Nits | Ev100

  /** The light type as the multi-object inspector reports it: one type shared by
      every selected light, or the sentinel `(LightType)(-1)` when they differ. */
  datatype TypeSelection = Uniform(lightType: LightType) | MixedTypes

  datatype Vector2 = Vector2(x: real, y: real)

  datatype Vector3 = Vector3(x: real, y: real, z: real)

  datatype Color = Color(r: real, g: real, b: real, a: real)

  const White: Color := Color(1.0, 1.0, 1.0, 1.0)

  /** The host light's shadow mode (`LightShadows`). */
  datatype LightShadows = NoShadows | Hard | Soft

  /** The host light's `LightShadowCasterMode`. */
  datatype LightShadowCasterMode = Default | NonLightmappedOnly | Everything

  /** What a unit conversion reads from a light: its authored intensity state and
      the host light's geometry. */
  datatype LightParameters = LightParameters(
    lightType: LightType,
    unit: LightUnit,
    intensity: real,
    enableSpotReflector: bool,
    luxAtDistance: real,
    aspectRatio: real,
    spotAngle: real,
    areaSize: Vector2)
}
