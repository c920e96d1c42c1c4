/** Properties of the HD light inspector logic: the conversion ladder, the unit popup, the
    shape section and the additional-settings mask. */
module HDLightUIProperties {
  import opened LightTypes
  import opened Photometry
  import opened HDLightUI

  // ---------------------------------------------------------------------------
  // Conversion ladder

  /** The indices of the ladder rungs whose guard holds for a unit change. */
  function FiringRungs(oldUnit: LightUnit, newUnit: LightUnit): set<int>
  {
    set k | 0 <= k < |Ladder| && Ladder[k] == (oldUnit, newUnit)
  }

  /** Every rung tests a pair of two different units, and no pair is tested twice. */
  lemma LadderPairsDistinct()
    ensures forall k :: 0 <= k < |Ladder| ==> Ladder[k].0 != Ladder[k].1
    ensures forall i, j :: 0 <= i < j < |Ladder| ==> Ladder[i] != Ladder[j]
  {
  }

  /** At most one rung of the ladder fires for any unit change, and none fires when the
      unit does not change. `ConvertLightIntensity` runs the rungs one after another; its
      contract equates that run with the single formula `ConversionFor` picks, and
      `FiringRungPicksFormula` ties the rung that fires to that formula. */
  lemma {:induction false} AtMostOneRungFires(oldUnit: LightUnit, newUnit: LightUnit)
    ensures |FiringRungs(oldUnit, newUnit)| <= 1
    ensures oldUnit == newUnit ==> FiringRungs(oldUnit, newUnit) == {}
  {
    LadderPairsDistinct();
    if k :| 0 <= k < |Ladder| && Ladder[k] == (oldUnit, newUnit) {
      assert FiringRungs(oldUnit, newUnit) == {k};
    } else {
      assert FiringRungs(oldUnit, newUnit) == {};
    }
  }

  /** The formula applied for a unit change is the conversion of the one rung that fires,
      and nothing is converted exactly when no rung fires. */
  lemma {:induction false} FiringRungPicksFormula(oldUnit: LightUnit, newUnit: LightUnit, ctx: ConversionContext)
    ensures var f := ConversionFor(oldUnit, newUnit, ctx);
      (FiringRungs(oldUnit, newUnit) == {} <==> f.Keep?) &&
      (forall k :: k in FiringRungs(oldUnit, newUnit) ==>
         FiringRungs(oldUnit, newUnit) == {k} && f.Units() == Some(Ladder[k]))
  {
    AtMostOneRungFires(oldUnit, newUnit);
    var f := ConversionFor(oldUnit, newUnit, ctx);
    forall k | k in FiringRungs(oldUnit, newUnit)
      ensures FiringRungs(oldUnit, newUnit) == {k} && f.Units() == Some(Ladder[k])
    {
      assert k in FiringRungs(oldUnit, newUnit);
    }
    if (oldUnit, newUnit) in Ladder {
      var k :| 0 <= k < |Ladder| && Ladder[k] == (oldUnit, newUnit);
      assert k in FiringRungs(oldUnit, newUnit);
    }
  }

  /** The ladder holds exactly the unit switches the intensity popup can make: two different
      units that a punctual light, or an area light, offers together. */
  lemma PopupSwitchesAreLadderPairs(a: LightUnit, b: LightUnit)
    ensures (a, b) in Ladder <==>
      a != b && (({a, b} <= LegalUnits(Single(Point))) || ({a, b} <= LegalUnits(Single(Rectangle))))
  {
  }

  /** Converting a unit to itself leaves the intensity exactly as it was. */
  lemma SameUnitKeepsIntensity(u: LightUtils, unit: LightUnit, ctx: ConversionContext, x: real)
    ensures ConvertedIntensity(u, unit, unit, ctx, x) == x
  {
  }

  /** Lumen to candela: a spot light with its reflector on takes the runtime light's
      intensity; every other light uses the point formula. */
  lemma LumenToCandela(u: LightUtils, ctx: ConversionContext, x: real)
    ensures ConvertedIntensity(u, Lumen, Candela, ctx, x) ==
      if ctx.ReflectorSpot() then ctx.runtimeIntensity else u.pointLumenToCandela(x)
  {
  }

  /** Candela to lumen: a spot light with its reflector on uses its sub-shape's solid angle
      (cone formula on the spot angle in radians, frustum formula on the pyramid's two
      angles, point formula for a box); every other light uses the point formula. */
  lemma CandelaToLumen(u: LightUtils, ctx: ConversionContext, x: real)
    ensures ConvertedIntensity(u, Candela, Lumen, ctx, x) ==
      if ctx.ReflectorSpot() && ctx.spotShape == Cone then
        u.spotCandelaToLumen(x, ctx.spotAngle * Deg2Rad, true)
      else if ctx.ReflectorSpot() && ctx.spotShape == Pyramid then
        u.frustumCandelaToLumen(x, u.anglesForPyramid(ctx.aspectRatio, ctx.spotAngle * Deg2Rad).0,
                                   u.anglesForPyramid(ctx.aspectRatio, ctx.spotAngle * Deg2Rad).1)
      else
        u.pointCandelaToLumen(x)
  {
  }

  /** The area conversions use the light's extent, width and height; the luminance and EV100
      pair uses none of them. */
  lemma AreaConversions(u: LightUtils, ctx: ConversionContext, x: real)
    ensures ConvertedIntensity(u, Lumen, Luminance, ctx, x) == u.areaLumenToLuminance(ctx.extent, x, ctx.width, ctx.height)
    ensures ConvertedIntensity(u, Luminance, Lumen, ctx, x) == u.areaLuminanceToLumen(ctx.extent, x, ctx.width, ctx.height)
    ensures ConvertedIntensity(u, Ev100, Lumen, ctx, x) == u.areaEvToLumen(ctx.extent, x, ctx.width, ctx.height)
    ensures ConvertedIntensity(u, Lumen, Ev100, ctx, x) == u.areaLumenToEv(ctx.extent, x, ctx.width, ctx.height)
    ensures ConvertedIntensity(u, Luminance, Ev100, ctx, x) == u.luminanceToEv(x)
    ensures ConvertedIntensity(u, Ev100, Luminance, ctx, x) == u.evToLuminance(x)
  {
  }

  /** For a spot light with its reflector on, lumen to candela does not read the stored
      intensity at all. */
  lemma ReflectorIgnoresStoredLumen(u: LightUtils, ctx: ConversionContext, x: real, y: real)
    requires ctx.ReflectorSpot()
    ensures ConvertedIntensity(u, Lumen, Candela, ctx, x) == ConvertedIntensity(u, Lumen, Candela, ctx, y)
  {
  }

  /** The point formulas are inverse to each other. */
  ghost predicate PointInverse(u: LightUtils)
  {
    && (forall x :: u.pointCandelaToLumen(u.pointLumenToCandela(x)) == x)
    && (forall x :: u.pointLumenToCandela(u.pointCandelaToLumen(x)) == x)
  }

  /** The area formulas for one extent and size, and the EV100 formulas, are inverse in pairs. */
  ghost predicate AreaInverse(u: LightUtils, e: LightTypeExtent, w: real, h: real)
  {
    && (forall x :: u.areaLuminanceToLumen(e, u.areaLumenToLuminance(e, x, w, h), w, h) == x)
    && (forall x :: u.areaLumenToLuminance(e, u.areaLuminanceToLumen(e, x, w, h), w, h) == x)
    && (forall x :: u.areaLumenToEv(e, u.areaEvToLumen(e, x, w, h), w, h) == x)
    && (forall x :: u.areaEvToLumen(e, u.areaLumenToEv(e, x, w, h), w, h) == x)
    && (forall x :: u.evToLuminance(u.luminanceToEv(x)) == x)
    && (forall x :: u.luminanceToEv(u.evToLuminance(x)) == x)
  }

  /** Switching to another unit and back restores the intensity, provided the formulas are
      exact inverses and the light is not a reflector spot. */
  lemma RoundTrip(u: LightUtils, a: LightUnit, b: LightUnit, ctx: ConversionContext, x: real)
    requires (a, b) in Ladder
    requires !ctx.ReflectorSpot()
    requires PointInverse(u) && AreaInverse(u, ctx.extent, ctx.width, ctx.height)
    ensures ConvertedIntensity(u, b, a, ctx, ConvertedIntensity(u, a, b, ctx, x)) == x
  {
  }

  // ---------------------------------------------------------------------------
  // Shape section

  /** After the shape section runs for one shape, the engine's type and extent show that
      shape again. */
  lemma EngineTypeShowsShape(shape: LightShape, isRealtime: bool, sizeEdited: bool, otherEdited: bool,
                             before: ShapeFields)
    requires PossibleEdits(Single(shape), sizeEdited, otherEdited)
    ensures var after := ShapeContent(Single(shape), isRealtime, sizeEdited, otherEdited, before);
      ShapeOf(after.lightType, after.lightTypeExtent) == Some(shape)
  {
  }

  /** The multi-selection sentinel draws no control, so on every pass it can take it leaves
      every field as it was. */
  lemma MixedSelectionIsNoOp(isRealtime: bool, sizeEdited: bool, otherEdited: bool, before: ShapeFields)
    requires PossibleEdits(MixedSelection, sizeEdited, otherEdited)
    ensures ShapeContent(MixedSelection, isRealtime, sizeEdited, otherEdited, before) == before
  {
  }

  /** Drawing the section again without an edit changes nothing: the section settles after
      one pass. */
  lemma RedrawSettles(shape: ShapeChoice, isRealtime: bool, sizeEdited: bool, otherEdited: bool,
                      before: ShapeFields)
    requires PossibleEdits(shape, sizeEdited, otherEdited)
    ensures var after := ShapeContent(shape, isRealtime, sizeEdited, otherEdited, before);
      ShapeContent(shape, isRealtime, false, false, after) == after
  {
  }

  /** A tube whose width is edited becomes a thin rectangle for the legacy GI: the width as
      typed by its minimum height, without shadows. */
  lemma TubeSynthesis(isRealtime: bool, before: ShapeFields)
    ensures var after := ShapeContent(Single(Tube), isRealtime, true, false, before);
      after.areaSizeX == before.shapeWidth && after.areaSizeY == MinLightSize &&
      after.shadowsType == NoShadows && after.lightTypeExtent == TubeExtent
  {
  }

  /** The area size is copied before the size repair, so an edited rectangle whose width was
      below the minimum keeps that width as its area size while its shape width is repaired. */
  lemma AreaSizeCopiedBeforeClamp(isRealtime: bool, before: ShapeFields)
    requires before.shapeWidth < MinLightSize
    ensures var after := ShapeContent(Single(Rectangle), isRealtime, true, false, before);
      after.areaSizeX == before.shapeWidth && after.shapeWidth == MinLightSize &&
      after.areaSizeX != after.shapeWidth
  {
  }

  /** The size repair is idempotent. */
  lemma ClampIdempotent(f: ShapeFields)
    ensures ClampSizes(ClampSizes(f)) == ClampSizes(f)
  {
  }

  // ---------------------------------------------------------------------------
  // Additional-settings mask

  /** Switching a section flips whether it shows its additional settings. */
  lemma SwitchFlips(mask: Advanceable, settings: Mask)
    ensures GetAdvanced(mask, Switched(mask, settings)) == !GetAdvanced(mask, settings)
  {
  }

  /** Switching a section leaves every bit outside its own as it was. */
  lemma SwitchKeepsOtherBits(mask: Advanceable, settings: Mask)
    ensures Switched(mask, settings) - Bit(mask) == settings - Bit(mask)
  {
  }

  /** Switching a section never changes whether another section shows its settings. */
  lemma SwitchLeavesOtherSections(mask: Advanceable, other: Advanceable, settings: Mask)
    requires other != mask
    ensures GetAdvanced(other, Switched(mask, settings)) == GetAdvanced(other, settings)
  {
  }

  /** Switching the same section twice restores the mask. */
  lemma SwitchTwiceRestores(mask: Advanceable, settings: Mask)
    ensures Switched(mask, Switched(mask, settings)) == settings
  {
  }

  /** Switching a section adds it to, or removes it from, the shown sections, and touches
      no other section. */
  lemma SwitchTogglesOneSection(mask: Advanceable, settings: Mask)
    ensures ShownSections(Switched(mask, settings)) ==
      if mask in ShownSections(settings) then ShownSections(settings) - {mask}
      else ShownSections(settings) + {mask}
  {
  }
}
