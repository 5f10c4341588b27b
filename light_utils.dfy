/** The photometric formulas of `LightUtils` and `ColorUtils` are not part of this
    model: each is a total function held in a `LightUtils` record, and nothing is
    assumed about its values. Every property proved here therefore holds for any
    choice of formulas. */
module LightUtilities {
  import opened LightTypes

  datatype LightUtils = LightUtils(
    // used by the runtime when it derives the host light's intensity
    convertPointLightLumenToCandela: real -> real,
    /** (lumen, spot angle in radians, exact) */
    convertSpotLightLumenToCandela: (real, real, bool) -> real,
    /** (type, lumen, area width, area height) */
    convertAreaLightLumenToLuminance: (LightType, real, real, real) -> real,
    convertEvToLuminance: real -> real,
    /** (lux, distance) */
    convertLuxToCandela: (real, real) -> real,
    /** The runtime unit conversion `LightUtils.ConvertLightIntensity(old, new, data, light)`:
        the intensity it computes for the new unit from the light's parameters and
        the host light's intensity. */
    convertLightIntensity: (LightUnit, LightUnit, LightParameters, real) -> real,

    // used by the inspector's unit conversion
    /** (type, lumen, host intensity, reflector) */
    convertPunctualLightLumenToCandela: (LightType, real, real, bool) -> real,
    /** (type, lumen, host intensity, reflector, distance) */
    convertPunctualLightLumenToLux: (LightType, real, real, bool, real) -> real,
    /** (type, lumen, host intensity, reflector) */
    convertPunctualLightLumenToEv: (LightType, real, real, bool) -> real,
    /** (type, candela, reflector, spot angle, aspect ratio) */
    convertPunctualLightCandelaToLumen: (LightType, real, bool, real, real) -> real,
    /** (candela, distance) */
    convertCandelaToLux: (real, real) -> real,
    convertCandelaToEv: real -> real,
    /** (type, lux, reflector, spot angle, aspect ratio, distance) */
    convertPunctualLightLuxToLumen: (LightType, real, bool, real, real, real) -> real,
    /** (lux, distance) */
    convertLuxToEv: (real, real) -> real,
    /** (type, ev100, reflector, spot angle, aspect ratio) */
    convertPunctualLightEvToLumen: (LightType, real, bool, real, real) -> real,
    convertEvToCandela: real -> real,
    /** (ev100, distance) */
    convertEvToLux: (real, real) -> real,
    /** (type, nits, area width, area height) */
    convertAreaLightLuminanceToLumen: (LightType, real, real, real) -> real,
    convertLuminanceToEv: real -> real,
    /** (type, ev100, area width, area height) */
    convertAreaLightEvToLumen: (LightType, real, real, real) -> real,
    /** (type, lumen, area width, area height) */
    convertAreaLightLumenToEv: (LightType, real, real, real) -> real)
}
