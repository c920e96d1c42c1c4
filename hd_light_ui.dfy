/** The decision and state-update logic of the HD light inspector: the additional-settings
    mask, the intensity unit and its conversions, and the shape section that drives the
    engine's light type, area size, shadow mode and size clamp. Drawing is left to the host:
    whether the user changed a control is an input, and what the user typed is already in
    the serialized fields when the logic below runs. */
module HDLightUI {
  import opened LightTypes
  import opened Photometry

  // ---------------------------------------------------------------------------
  // Serialized state

  /** The serialized properties of the inspected light that the inspector logic reads or
      writes (the light settings and the additional light data, flattened into one object). */
  class SerializedHDLight {
    var editorLightShape: ShapeChoice
    var spotLightShape: SpotLightShape
    var enableSpotReflector: bool
    var aspectRatio: real
    var lightType: LightType
    var lightTypeExtent: LightTypeExtent
    var shapeWidth: real
    var shapeHeight: real
    var shapeRadius: real
    var areaSizeX: real
    var areaSizeY: real
    var shadowsType: LightShadows
    var isRealtime: bool
    var lightUnit: LightUnit
    var intensity: real
    var showAdditionalSettings: Mask
    var needUpdateAreaLightEmissiveMeshComponents: bool
  }

  /** The engine's light being inspected: its runtime intensity and spot angle (in degrees)
      are read by the conversions, and lightDirty records a call of SetLightDirty. */
  class Light {
    var intensity: real
    var spotAngle: real
    var lightDirty: bool
  }

  // ---------------------------------------------------------------------------
  // Additional-settings mask

  /** Whether a section's additional settings are shown: its bit is set. */
  function GetAdvanced(mask: Advanceable, settings: Mask): (shown: bool)
    ensures shown <==> BitIndex(mask) in settings
  {
    settings * Bit(mask) != {}
  }

  /** The mask after switching one section's additional settings: its bit is cleared when
      set, and set when clear. */
  function Switched(mask: Advanceable, settings: Mask): Mask
  {
    if settings * Bit(mask) != {} then settings - Bit(mask) else settings + Bit(mask)
  }

  /** The sections whose additional settings are shown. */
  function ShownSections(settings: Mask): set<Advanceable>
  {
    set a | a in AllSections && GetAdvanced(a, settings)
  }

  method SwitchAdvanced(mask: Advanceable, serialized: SerializedHDLight)
    modifies serialized`showAdditionalSettings
    ensures serialized.showAdditionalSettings == Switched(mask, old(serialized.showAdditionalSettings))
  {
    if serialized.showAdditionalSettings * Bit(mask) != {} {
      serialized.showAdditionalSettings := serialized.showAdditionalSettings - Bit(mask);
    } else {
      serialized.showAdditionalSettings := serialized.showAdditionalSettings + Bit(mask);
    }
  }

  // ---------------------------------------------------------------------------
  // Intensity unit

  /** The units the intensity popup offers for a shape. The multi-selection sentinel falls
      into the popup's default branch and is offered the area units. Every switch between
      two units offered together has a rung on the conversion ladder. */
  function LegalUnits(shape: ShapeChoice): (units: set<LightUnit>)
    ensures forall a, b :: a in units && b in units && a != b ==> (a, b) in Ladder
  {
    match shape
    case Single(Directional) => {Lux}
    case Single(Point) => {Lumen, Candela}
    case Single(Spot) => {Lumen, Candela}
    case _ => {Lumen, Luminance, Ev100}
  }

  /** The unit the intensity is relabelled to when the shape changes: always one the popup
      offers for the new shape, and Lux exactly when Lux is all it offers. */
  function ResetUnit(shape: ShapeChoice): (u: LightUnit)
    ensures u in LegalUnits(shape)
    ensures u == Lux <==> LegalUnits(shape) == {Lux}
  {
    if shape == Single(Directional) then Lux else Lumen
  }

  method UpdateLightIntensityUnit(serialized: SerializedHDLight)
    modifies serialized`lightUnit
    ensures serialized.lightUnit == ResetUnit(serialized.editorLightShape)
  {
    if serialized.editorLightShape == Single(Directional) {
      serialized.lightUnit := Lux;
    } else {
      serialized.lightUnit := Lumen;
    }
  }

  /** The shape popup of the general section. The popup always stores the selected shape;
      when its change check reports a change (`changed`, an input like the other GUI change
      checks), the unit is reset, without converting the stored intensity, and the light is
      marked dirty. A change reported with the same shape still resets the unit; with no
      change the popup returns the shape it was given. */
  method SelectShape(serialized: SerializedHDLight, light: Light, selected: ShapeChoice, changed: bool)
    requires !changed ==> selected == serialized.editorLightShape
    modifies serialized`editorLightShape, serialized`lightUnit
    modifies serialized`needUpdateAreaLightEmissiveMeshComponents, light`lightDirty
    ensures serialized.editorLightShape == selected
    ensures changed ==>
      serialized.lightUnit == ResetUnit(selected) &&
      serialized.needUpdateAreaLightEmissiveMeshComponents && light.lightDirty
    ensures !changed ==>
      serialized.lightUnit == old(serialized.lightUnit) &&
      serialized.needUpdateAreaLightEmissiveMeshComponents == old(serialized.needUpdateAreaLightEmissiveMeshComponents) &&
      light.lightDirty == old(light.lightDirty)
  {
    serialized.editorLightShape := selected;
    if changed {
      UpdateLightIntensityUnit(serialized);
      serialized.needUpdateAreaLightEmissiveMeshComponents := true;
      light.lightDirty := true;
    }
  }

  // ---------------------------------------------------------------------------
  // Intensity conversion

  /** The (old unit, new unit) pairs tested, in order, by the conversion ladder. */
  const Ladder: seq<(LightUnit, LightUnit)> :=
    [(Lumen, Candela), (Candela, Lumen),
     (Lumen, Luminance), (Luminance, Lumen),
     (Luminance, Ev100), (Ev100, Luminance),
     (Ev100, Lumen), (Lumen, Ev100)]

  /** Everything a conversion may read besides the two units and the stored intensity. */
  datatype ConversionContext = ConversionContext(
    shape: ShapeChoice,
    spotShape: SpotLightShape,
    reflector: bool,
    aspectRatio: real,
    extent: LightTypeExtent,
    width: real,
    height: real,
    runtimeIntensity: real,
    spotAngle: real)
  {
    /** A spot light whose reflector option is on. */
    predicate ReflectorSpot()
    {
      shape == Single(Spot) && reflector
    }
  }

  function ContextOf(serialized: SerializedHDLight, light: Light): ConversionContext
    reads serialized, light
  {
    ConversionContext(serialized.editorLightShape, serialized.spotLightShape,
      serialized.enableSpotReflector, serialized.aspectRatio, serialized.lightTypeExtent,
      serialized.shapeWidth, serialized.shapeHeight, light.intensity, light.spotAngle)
  }

  /** The formula applied when the unit changes from oldUnit to newUnit. A formula is chosen
      exactly for the pairs of the ladder, and it reads oldUnit and produces newUnit. */
  function ConversionFor(oldUnit: LightUnit, newUnit: LightUnit, ctx: ConversionContext): (f: Formula)
    ensures f.Units() == if (oldUnit, newUnit) in Ladder then Some((oldUnit, newUnit)) else None
    ensures f.TakeRuntimeIntensity? <==> oldUnit == Lumen && newUnit == Candela && ctx.ReflectorSpot()
    ensures f.IsArea() ==> f.extent == ctx.extent && f.width == ctx.width && f.height == ctx.height
    ensures f.SpotCandelaToLumen? || f.FrustumCandelaToLumen? ==>
      ctx.ReflectorSpot() && f.Units() == Some((Candela, Lumen))
  {
    match (oldUnit, newUnit)
    case (Lumen, Candela) =>
      if ctx.ReflectorSpot() then TakeRuntimeIntensity(ctx.runtimeIntensity) else PointLumenToCandela
    case (Candela, Lumen) =>
      if ctx.ReflectorSpot() then
        match ctx.spotShape
        case Cone => SpotCandelaToLumen(ctx.spotAngle * Deg2Rad, true)
        case Pyramid => FrustumCandelaToLumen(ctx.aspectRatio, ctx.spotAngle * Deg2Rad)
        case Box => PointCandelaToLumen
      else
        PointCandelaToLumen
    case (Lumen, Luminance) => AreaLumenToLuminance(ctx.extent, ctx.width, ctx.height)
    case (Luminance, Lumen) => AreaLuminanceToLumen(ctx.extent, ctx.width, ctx.height)
    case (Luminance, Ev100) => LuminanceToEv
    case (Ev100, Luminance) => EvToLuminance
    case (Ev100, Lumen) => AreaEvToLumen(ctx.extent, ctx.width, ctx.height)
    case (Lumen, Ev100) => AreaLumenToEv(ctx.extent, ctx.width, ctx.height)
    case _ => Keep
  }

  /** The stored intensity after a unit change; a pair off the ladder (the same unit twice
      among them) leaves it exactly as it was. */
  function ConvertedIntensity(u: LightUtils, oldUnit: LightUnit, newUnit: LightUnit,
                              ctx: ConversionContext, x: real): (r: real)
    ensures (oldUnit, newUnit) !in Ladder ==> r == x
  {
    Apply(u, ConversionFor(oldUnit, newUnit, ctx), x)
  }

  method ConvertLightIntensity(oldLightUnit: LightUnit, newLightUnit: LightUnit,
                               serialized: SerializedHDLight, light: Light, u: LightUtils)
    modifies serialized`intensity
    ensures serialized.intensity ==
      ConvertedIntensity(u, oldLightUnit, newLightUnit, old(ContextOf(serialized, light)), old(serialized.intensity))
  {
    var intensity := serialized.intensity;

    // Punctual lights
    if oldLightUnit == Lumen && newLightUnit == Candela {
      if serialized.editorLightShape == Single(Spot) && serialized.enableSpotReflector {
        // the runtime light already holds the value
        intensity := light.intensity;
      } else {
        intensity := u.pointLumenToCandela(intensity);
      }
    }
    if oldLightUnit == Candela && newLightUnit == Lumen {
      if serialized.editorLightShape == Single(Spot) && serialized.enableSpotReflector {
        if serialized.spotLightShape == Cone {
          intensity := u.spotCandelaToLumen(intensity, light.spotAngle * Deg2Rad, true);
        } else if serialized.spotLightShape == Pyramid {
          var (angleA, angleB) := u.anglesForPyramid(serialized.aspectRatio, light.spotAngle * Deg2Rad);
          intensity := u.frustumCandelaToLumen(intensity, angleA, angleB);
        } else {
          intensity := u.pointCandelaToLumen(intensity);
        }
      } else {
        intensity := u.pointCandelaToLumen(intensity);
      }
    }

    // Area lights
    var w, h, e := serialized.shapeWidth, serialized.shapeHeight, serialized.lightTypeExtent;
    if oldLightUnit == Lumen && newLightUnit == Luminance {
      intensity := u.areaLumenToLuminance(e, intensity, w, h);
    }
    if oldLightUnit == Luminance && newLightUnit == Lumen {
      intensity := u.areaLuminanceToLumen(e, intensity, w, h);
    }
    if oldLightUnit == Luminance && newLightUnit == Ev100 {
      intensity := u.luminanceToEv(intensity);
    }
    if oldLightUnit == Ev100 && newLightUnit == Luminance {
      intensity := u.evToLuminance(intensity);
    }
    if oldLightUnit == Ev100 && newLightUnit == Lumen {
      intensity := u.areaEvToLumen(e, intensity, w, h);
    }
    if oldLightUnit == Lumen && newLightUnit == Ev100 {
      intensity := u.areaLumenToEv(e, intensity, w, h);
    }

    serialized.intensity := intensity;
  }

  /** The intensity popup of the emission section: the popup returns the unit picked among
      those offered for the shape, or the stored unit when nothing was picked; a different
      unit converts the stored intensity, then the choice is stored. */
  method SelectIntensityUnit(serialized: SerializedHDLight, light: Light, u: LightUtils, selected: LightUnit)
    modifies serialized`intensity, serialized`lightUnit
    ensures serialized.lightUnit == selected
    ensures serialized.intensity ==
      if selected == old(serialized.lightUnit) then old(serialized.intensity)
      else ConvertedIntensity(u, old(serialized.lightUnit), selected, old(ContextOf(serialized, light)), old(serialized.intensity))
  {
    var oldUnit := serialized.lightUnit;
    if selected != oldUnit {
      ConvertLightIntensity(oldUnit, selected, serialized, light, u);
    }
    serialized.lightUnit := selected;
  }

  // ---------------------------------------------------------------------------
  // Shape section

  /** The engine's (light type, extent) for each inspector shape. */
  function ShapeTable(shape: LightShape): (t: (LightType, LightTypeExtent))
    ensures ShapeOf(t.0, t.1) == Some(shape)
    ensures t.0 != AreaLight
    ensures t.1 == Punctual <==> shape == Directional || shape == Point || shape == Spot
  {
    match shape
    case Directional => (DirectionalLight, Punctual)
    case Point => (PointLight, Punctual)
    case Spot => (SpotLight, Punctual)
    case Rectangle => (PointLight, RectangleExtent)
    case Tube => (PointLight, TubeExtent)
  }

  /** The inspector shape a light with this engine type and extent is shown as, if any. */
  function ShapeOf(t: LightType, e: LightTypeExtent): Option<LightShape>
  {
    match (t, e)
    case (DirectionalLight, Punctual) => Some(Directional)
    case (PointLight, Punctual) => Some(Point)
    case (SpotLight, Punctual) => Some(Spot)
    case (PointLight, RectangleExtent) => Some(Rectangle)
    case (PointLight, TubeExtent) => Some(Tube)
    case _ => None
  }

  /** The fields the shape section may write. */
  datatype ShapeFields = ShapeFields(
    lightType: LightType,
    lightTypeExtent: LightTypeExtent,
    shapeWidth: real,
    shapeHeight: real,
    shapeRadius: real,
    areaSizeX: real,
    areaSizeY: real,
    shadowsType: LightShadows,
    needsEmissiveMeshUpdate: bool,
    lightDirty: bool)
  {
    /** Width, height and radius of the light's shape. */
    function Sizes(): (real, real, real)
    {
      (shapeWidth, shapeHeight, shapeRadius)
    }
  }

  function ShapeStateOf(serialized: SerializedHDLight, light: Light): ShapeFields
    reads serialized, light
  {
    ShapeFields(serialized.lightType, serialized.lightTypeExtent,
      serialized.shapeWidth, serialized.shapeHeight, serialized.shapeRadius,
      serialized.areaSizeX, serialized.areaSizeY, serialized.shadowsType,
      serialized.needUpdateAreaLightEmissiveMeshComponents, light.lightDirty)
  }

  /** Mathf.Max on two values. */
  function Max(a: real, b: real): real
  {
    if a > b then a else b
  }

  /** The size repair: width and height at least MinLightSize, radius at least zero; a size
      already in range is kept, one out of range becomes the bound; nothing else changes. */
  function ClampSizes(f: ShapeFields): (r: ShapeFields)
    ensures r.shapeWidth >= MinLightSize && r.shapeHeight >= MinLightSize && r.shapeRadius >= 0.0
    ensures r.shapeWidth == (if f.shapeWidth >= MinLightSize then f.shapeWidth else MinLightSize)
    ensures r.shapeHeight == (if f.shapeHeight >= MinLightSize then f.shapeHeight else MinLightSize)
    ensures r.shapeRadius == (if f.shapeRadius >= 0.0 then f.shapeRadius else 0.0)
    ensures r.(shapeWidth := f.shapeWidth, shapeHeight := f.shapeHeight, shapeRadius := f.shapeRadius) == f
  {
    f.(shapeWidth := Max(f.shapeWidth, MinLightSize),
       shapeHeight := Max(f.shapeHeight, MinLightSize),
       shapeRadius := Max(f.shapeRadius, 0.0))
  }

  /** Tube lights never cast shadows; rectangle lights do not when they are realtime. */
  predicate ShadowsForcedOff(shape: ShapeChoice, isRealtime: bool)
  {
    shape == Single(Tube) || (shape == Single(Rectangle) && isRealtime)
  }

  /** The shape switch: engine type and extent, area size for the legacy GI proxy, shadows. */
  function DrawShape(shape: ShapeChoice, isRealtime: bool, sizeEdited: bool, f: ShapeFields): ShapeFields
  {
    match shape
    case MixedSelection => f
    case Single(s) =>
      var typed := f.(lightType := ShapeTable(s).0, lightTypeExtent := ShapeTable(s).1);
      match s
      case Rectangle =>
        var sized := if sizeEdited then typed.(areaSizeX := typed.shapeWidth, areaSizeY := typed.shapeHeight) else typed;
        if isRealtime then sized.(shadowsType := NoShadows) else sized
      case Tube =>
        var sized := if sizeEdited then typed.(areaSizeX := typed.shapeWidth, areaSizeY := MinLightSize) else typed;
        sized.(shadowsType := NoShadows)
      case _ => typed
  }

  /** The edits one pass of the shape section can report. A rectangle or tube draws only its
      size controls, so only sizeEdited can be set; directional, point and spot lights draw no
      size control of their own check, so only otherEdited can be set; the multi-selection
      value draws no control at all. */
  predicate PossibleEdits(shape: ShapeChoice, sizeEdited: bool, otherEdited: bool)
  {
    match shape
    case MixedSelection => !sizeEdited && !otherEdited
    case Single(Rectangle) => !otherEdited
    case Single(Tube) => !otherEdited
    case Single(_) => !sizeEdited
  }

  /** The shape section as a whole. sizeEdited says whether the user changed the width or
      height controls of a rectangle or tube light, otherEdited whether any other control of
      the section changed; either one triggers the size repair and the dirty flags. */
  function ShapeContent(shape: ShapeChoice, isRealtime: bool, sizeEdited: bool, otherEdited: bool,
                        before: ShapeFields): (after: ShapeFields)
    requires PossibleEdits(shape, sizeEdited, otherEdited)
    ensures shape.Single? ==> (after.lightType, after.lightTypeExtent) == ShapeTable(shape.shape)
    ensures shape.MixedSelection? ==>
      after.lightType == before.lightType && after.lightTypeExtent == before.lightTypeExtent
    ensures after.shadowsType == if ShadowsForcedOff(shape, isRealtime) then NoShadows else before.shadowsType
    ensures (after.areaSizeX, after.areaSizeY) ==
      if sizeEdited && shape == Single(Rectangle) then (before.shapeWidth, before.shapeHeight)
      else if sizeEdited && shape == Single(Tube) then (before.shapeWidth, MinLightSize)
      else (before.areaSizeX, before.areaSizeY)
    ensures sizeEdited || otherEdited ==>
      after.Sizes() == ClampSizes(before).Sizes() && after.needsEmissiveMeshUpdate && after.lightDirty
    ensures !(sizeEdited || otherEdited) ==>
      after.Sizes() == before.Sizes() &&
      after.needsEmissiveMeshUpdate == before.needsEmissiveMeshUpdate && after.lightDirty == before.lightDirty
  {
    var drawn := DrawShape(shape, isRealtime, sizeEdited, before);
    if sizeEdited || otherEdited then
      ClampSizes(drawn).(needsEmissiveMeshUpdate := true, lightDirty := true)
    else
      drawn
  }

  method DrawShapeContent(serialized: SerializedHDLight, light: Light, sizeEdited: bool, otherEdited: bool)
    requires PossibleEdits(serialized.editorLightShape, sizeEdited, otherEdited)
    modifies serialized`lightType, serialized`lightTypeExtent
    modifies serialized`areaSizeX, serialized`areaSizeY, serialized`shadowsType
    modifies serialized`shapeWidth, serialized`shapeHeight, serialized`shapeRadius
    modifies serialized`needUpdateAreaLightEmissiveMeshComponents, light`lightDirty
    ensures ShapeStateOf(serialized, light) ==
      ShapeContent(serialized.editorLightShape, serialized.isRealtime, sizeEdited, otherEdited,
                   old(ShapeStateOf(serialized, light)))
  {
    match serialized.editorLightShape {
    case Single(Directional) =>
      serialized.lightType := DirectionalLight;
      serialized.lightTypeExtent := Punctual;
    case Single(Point) =>
      serialized.lightType := PointLight;
      serialized.lightTypeExtent := Punctual;
    case Single(Spot) =>
      serialized.lightType := SpotLight;
      serialized.lightTypeExtent := Punctual;
    case Single(Rectangle) =>
      serialized.lightType := PointLight;
      serialized.lightTypeExtent := RectangleExtent;
      if sizeEdited {
        serialized.areaSizeX := serialized.shapeWidth;
        serialized.areaSizeY := serialized.shapeHeight;
      }
      if serialized.isRealtime {
        serialized.shadowsType := NoShadows;
      }
    case Single(Tube) =>
      serialized.lightType := PointLight;
      serialized.lightTypeExtent := TubeExtent;
      if sizeEdited {
        // a thin rectangle stands in for the tube in the legacy GI
        serialized.areaSizeX := serialized.shapeWidth;
        serialized.areaSizeY := MinLightSize;
      }
      serialized.shadowsType := NoShadows;
    case MixedSelection =>
      // multi-selection: nothing to do
    }

    if sizeEdited || otherEdited {
      // a zero size makes the lighting produce NaNs
      serialized.shapeWidth := Max(serialized.shapeWidth, MinLightSize);
      serialized.shapeHeight := Max(serialized.shapeHeight, MinLightSize);
      serialized.shapeRadius := Max(serialized.shapeRadius, 0.0);
      serialized.needUpdateAreaLightEmissiveMeshComponents := true;
      light.lightDirty := true;
    }
  }
}
