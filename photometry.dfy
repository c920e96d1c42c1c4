/** The photometric conversion formulas the inspector calls, and a description of one
    application of them. The formulas themselves (solid angles, pi, log2 for EV100) live in
    the engine's LightUtils class, which is not part of this model: they are passed in as a
    record of functions, so everything proved here holds whatever those formulas compute. */
module Photometry {
  import opened LightTypes

  /** The LightUtils conversions used by the inspector, as uninterpreted functions over reals. */
  datatype LightUtils = LightUtils(
    pointLumenToCandela: real -> real,
    pointCandelaToLumen: real -> real,
    // candela, cone angle in radians, exact-cone flag
    spotCandelaToLumen: (real, real, bool) -> real,
    // aspect ratio, spot angle in radians -> the two half-angles of the pyramid
    anglesForPyramid: (real, real) -> (real, real),
    // candela, first angle, second angle
    frustumCandelaToLumen: (real, real, real) -> real,
    // extent, intensity, width, height
    areaLumenToLuminance: (LightTypeExtent, real, real, real) -> real,
    areaLuminanceToLumen: (LightTypeExtent, real, real, real) -> real,
    luminanceToEv: real -> real,
    evToLuminance: real -> real,
    areaEvToLumen: (LightTypeExtent, real, real, real) -> real,
    areaLumenToEv: (LightTypeExtent, real, real, real) -> real)

  /** Degrees to radians, as the engine's Mathf.Deg2Rad (pi / 180). */
  const Deg2Rad: real := 0.017453292519943295

  /** One conversion step of the intensity field: which formula, with which geometry. */
  datatype Formula =
    | Keep
    | TakeRuntimeIntensity(runtimeIntensity: real)
    | PointLumenToCandela
    | SpotCandelaToLumen(coneAngle: real, exactCone: bool)
    | FrustumCandelaToLumen(aspectRatio: real, spotAngle: real)
    | PointCandelaToLumen
    | AreaLumenToLuminance(extent: LightTypeExtent, width: real, height: real)
    | AreaLuminanceToLumen(extent: LightTypeExtent, width: real, height: real)
    | LuminanceToEv
    | EvToLuminance
    | AreaEvToLumen(extent: LightTypeExtent, width: real, height: real)
    | AreaLumenToEv(extent: LightTypeExtent, width: real, height: real)
  {
    /** The unit a formula reads and the unit it produces; Keep converts nothing. */
    function Units(): Option<(LightUnit, LightUnit)>
    {
      match this
      case Keep => None
      case TakeRuntimeIntensity(_) => Some((Lumen, Candela))
      case PointLumenToCandela => Some((Lumen, Candela))
      case SpotCandelaToLumen(_, _) => Some((Candela, Lumen))
      case FrustumCandelaToLumen(_, _) => Some((Candela, Lumen))
      case PointCandelaToLumen => Some((Candela, Lumen))
      case AreaLumenToLuminance(_, _, _) => Some((Lumen, Luminance))
      case AreaLuminanceToLumen(_, _, _) => Some((Luminance, Lumen))
      case LuminanceToEv => Some((Luminance, Ev100))
      case EvToLuminance => Some((Ev100, Luminance))
      case AreaEvToLumen(_, _, _) => Some((Ev100, Lumen))
      case AreaLumenToEv(_, _, _) => Some((Lumen, Ev100))
    }

    /** True for the formulas that depend on the area light's extent and size. */
    predicate IsArea()
    {
      AreaLumenToLuminance? || AreaLuminanceToLumen? || AreaEvToLumen? || AreaLumenToEv?
    }
  }

  datatype Option<T> = None | Some(value: T)

  /** The intensity after applying formula f to the stored intensity x. */
  function Apply(u: LightUtils, f: Formula, x: real): real
  {
    match f
    case Keep => x
    case TakeRuntimeIntensity(runtime) => runtime
    case PointLumenToCandela => u.pointLumenToCandela(x)
    case SpotCandelaToLumen(angle, exact) => u.spotCandelaToLumen(x, angle, exact)
    case FrustumCandelaToLumen(aspect, angle) =>
      var (angleA, angleB) := u.anglesForPyramid(aspect, angle);
      u.frustumCandelaToLumen(x, angleA, angleB)
    case PointCandelaToLumen => u.pointCandelaToLumen(x)
    case AreaLumenToLuminance(e, w, h) => u.areaLumenToLuminance(e, x, w, h)
    case AreaLuminanceToLumen(e, w, h) => u.areaLuminanceToLumen(e, x, w, h)
    case LuminanceToEv => u.luminanceToEv(x)
    case EvToLuminance => u.evToLuminance(x)
    case AreaEvToLumen(e, w, h) => u.areaEvToLumen(e, x, w, h)
    case AreaLumenToEv(e, w, h) => u.areaLumenToEv(e, x, w, h)
  }
}
