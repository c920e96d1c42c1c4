# HD light inspector logic, in Dafny

This project models the decision and state-update logic of the high-definition render
pipeline's light inspector (`HDLightUI`). Drawing is left to the host. The model covers three parts:

- **The additional-settings mask.** Each inspector section (General, Shape, Emission,
  ShadowMap, ContactShadow, BakedShadow) owns one bit of the light's
  `showAdditionalSettings` word. `GetAdvanced` reads that bit and `SwitchAdvanced` flips it in place.
- **The intensity unit.**
  - When the shape changes, the unit is reset to Lux for directional lights and to Lumen otherwise.
  - When the user picks another unit, `ConvertLightIntensity` runs a ladder of eight
    `(old unit, new unit)` tests. Each test may apply one photometric formula from the
    engine's `LightUtils` to the stored intensity.
- **The shape section.** Each inspector shape (directional, point, spot, rectangle, tube)
  sets the engine's light type and extent. Rectangle and tube lights also copy their size
  into the legacy area size used for GI. Tube lights, and rectangle lights in realtime mode,
  have their shadows switched off. The multi-selection value leaves all of this alone. When a
  control of the section changed, width and height are clamped to at least 1 cm, the radius to
  at least 0, and the light is marked dirty.

Files and modules:

- `light_types.dfy` (`LightTypes`): the enums, the 1 cm minimum size and the section bits.
- `photometry.dfy` (`Photometry`): the `LightUtils` formulas, passed in as a record of
  functions. Also `Formula`, a description of which formula is applied with which geometry.
- `hd_light_ui.dfy` (`HDLightUI`): the serialized light and the engine light as classes,
  the inspector operations as methods, and the functions that specify them.
- `hd_light_ui_properties.dfy` (`HDLightUIProperties`): lemmas relating the operations.

Modelling choices:

- Floating-point fields are `real`.
- The 32-bit `showAdditionalSettings` integer is modelled by the set of the positions of its
  one bits. Bitwise and, or and complement become intersection, union and complement within
  positions 0 to 31.
- Only the General, Shape and Emission bits are switched in this inspector. The shadow group
  shows its shadow-map, contact-shadow and baked-shadow content under the ShadowMap bit, which
  it reads but never switches. The ContactShadow and BakedShadow bits are neither read nor
  switched here.
- The GUI's "did the user change this control" answers are boolean inputs: `sizeEdited` for
  the rectangle and tube size controls, `otherEdited` for the rest of the section. What the
  user typed is already in the serialized fields when the logic runs.
- `PossibleEdits` restricts these inputs to what one pass can report. Rectangle and tube lights
  draw only their size controls, inside the inner change check, so the outer check fires
  exactly when the inner one does. Directional, point and spot lights draw no size control of
  an inner check. The multi-selection value draws no control, so no edit is reported for it.
- `SetLightDirty` is recorded as `Light.lightDirty`.

Behaviour of the code worth knowing:

- A unit pair that is not on the ladder keeps the stored intensity unchanged. This includes
  the same unit twice, and pairs such as Lux to Candela. Nothing rejects such a pair. Every
  switch between two units the popup offers together is on the ladder. A stored unit the popup
  does not offer is relabelled without conversion, unless it forms a ladder pair with the
  picked unit. A multi-selection whose stored unit is Candela, switched to Luminance, is
  relabelled without conversion (`ConvertedIntensity`). Switched to Lumen, it is converted with
  the point formula (`CandelaToLumen`).
- Changing the shape relabels the unit but does not convert the stored intensity.
- The shape popup's change check decides the unit reset, not a comparison of shapes. A change
  reported with the same shape still resets the unit. A Candela point light is then relabelled
  Lumen, and an area light in Luminance or Ev100 is relabelled Lumen, without any conversion.
- The multi-selection value falls into the unit popup's default branch, so it is offered the
  area units.
- For a spot light whose reflector is on, Lumen to Candela takes the runtime light's intensity
  and ignores the stored one. So a Lumen, Candela, Lumen round trip need not return the
  starting value.
- Lumen to Candela tests only the shape and the reflector flag, not the spot sub-shape. A Box
  spot whose reflector flag is still on therefore takes the runtime intensity, although the
  reflector toggle is not shown for Box spots (`LumenToCandela`).
- The Ev100 and Lumen conversions of area lights call their own `LightUtils` functions. The
  model keeps them opaque and does not compose them through luminance.
- The size clamp runs only when a control of the section changed, not on every pass.
- The rectangle and tube area size is copied before the clamp. An edited width below 1 cm is
  therefore kept in `areaSizeX` while `shapeWidth` is raised to 1 cm
  (`AreaSizeCopiedBeforeClamp`).

## Model

| member | source | states |
|---|---|---|
| `LightTypes.Bit` | com.unity.render-pipelines.high-definition/Editor/Lighting/HDLightUI.cs:54-62 | each section's flag is exactly the one bit at that section's position (General at 0 up to BakedShadow at 5), and no other section has that bit |
| `HDLightUI.GetAdvanced` | com.unity.render-pipelines.high-definition/Editor/Lighting/HDLightUI.cs:70-73 | a section shows its additional settings exactly when its bit is set in the mask |
| `HDLightUI.SwitchAdvanced` | com.unity.render-pipelines.high-definition/Editor/Lighting/HDLightUI.cs:75-85 | the mask field is updated in place to the switched mask; no other field changes |
| `HDLightUIProperties.SwitchFlips` | com.unity.render-pipelines.high-definition/Editor/Lighting/HDLightUI.cs:75-85 | switching a section flips whether it is shown |
| `HDLightUIProperties.SwitchKeepsOtherBits` | com.unity.render-pipelines.high-definition/Editor/Lighting/HDLightUI.cs:77-84 | every bit outside the section's own is unchanged by a switch, set bits and unused bits alike |
| `HDLightUIProperties.SwitchLeavesOtherSections` | com.unity.render-pipelines.high-definition/Editor/Lighting/HDLightUI.cs:75-85 | switching one section never changes whether another section is shown |
| `HDLightUIProperties.SwitchTwiceRestores` | com.unity.render-pipelines.high-definition/Editor/Lighting/HDLightUI.cs:75-85 | switching the same section twice restores the original mask |
| `HDLightUIProperties.SwitchTogglesOneSection` | com.unity.render-pipelines.high-definition/Editor/Lighting/HDLightUI.cs:70-85 | the set of shown sections gains or loses exactly the switched section |
| `HDLightUI.LegalUnits` | com.unity.render-pipelines.high-definition/Editor/Lighting/HDLightUI.cs:318-330 | any two different units the popup offers for one shape form a pair on the conversion ladder |
| `HDLightUI.ResetUnit` | com.unity.render-pipelines.high-definition/Editor/Lighting/HDLightUI.cs:303-309 | the unit chosen on a shape change is one the popup offers for that shape; it is Lux exactly when Lux is the only unit offered |
| `HDLightUI.UpdateLightIntensityUnit` | com.unity.render-pipelines.high-definition/Editor/Lighting/HDLightUI.cs:303-309 | only the unit field changes, and it becomes the reset unit of the current shape (Lux for directional, Lumen otherwise, the multi-selection value included) |
| `HDLightUI.SelectShape` | com.unity.render-pipelines.high-definition/Editor/Lighting/HDLightUI.cs:134-143 | the selected shape is always stored; when the popup's change check reports a change the unit is reset for the selected shape (the intensity is not converted) and both dirty flags are set, even if the same shape was picked again; with no reported change (the popup then returns the stored shape) the unit and flags are kept |
| `HDLightUI.ConversionFor` | com.unity.render-pipelines.high-definition/Editor/Lighting/HDLightUI.cs:343-386 | a formula is chosen exactly for the eight ladder pairs, and it converts from the old unit to the new one; the runtime intensity is taken only for Lumen to Candela on a reflector spot; cone and frustum formulas only for reflector spots; area formulas get the light's extent, width and height |
| `HDLightUI.ConvertedIntensity` | com.unity.render-pipelines.high-definition/Editor/Lighting/HDLightUI.cs:337-388 | a unit pair off the ladder leaves the intensity exactly unchanged |
| `HDLightUI.ConvertLightIntensity` | com.unity.render-pipelines.high-definition/Editor/Lighting/HDLightUI.cs:337-389 | the sequence of eight guarded reassignments stores exactly the single formula `ConversionFor` picks, applied to the old intensity; nothing but the intensity changes |
| `HDLightUI.SelectIntensityUnit` | com.unity.render-pipelines.high-definition/Editor/Lighting/HDLightUI.cs:311-335 | the unit the popup returns is stored; a unit different from the stored one converts the intensity first, and the same unit keeps it |
| `HDLightUI.ShapeTable` | com.unity.render-pipelines.high-definition/Editor/Lighting/HDLightUI.cs:162-236 | the (light type, extent) written per shape identifies that shape again; Area is never written; the extent is Punctual exactly for directional, point and spot |
| `HDLightUI.ClampSizes` | com.unity.render-pipelines.high-definition/Editor/Lighting/HDLightUI.cs:257-262 | width and height end at least 0.01 and radius at least 0; in-range values are kept and out-of-range ones become the bound; no other field changes |
| `HDLightUI.ShapeContent` | com.unity.render-pipelines.high-definition/Editor/Lighting/HDLightUI.cs:156-266 | for every edit a pass can report: type and extent follow the shape table, and the multi-selection value keeps them; shadows are forced off exactly for tube, or rectangle when realtime; an edited size is copied into the area size (tube height 0.01); any edit clamps the sizes and sets both dirty flags; no edit keeps sizes and flags |
| `HDLightUI.DrawShapeContent` | com.unity.render-pipelines.high-definition/Editor/Lighting/HDLightUI.cs:156-266 | the step-by-step field updates leave the serialized light and the light in exactly the state `ShapeContent` describes; no other field changes |
| `HDLightUIProperties.LadderPairsDistinct` | com.unity.render-pipelines.high-definition/Editor/Lighting/HDLightUI.cs:343-385 | every ladder test is on two different units, and no pair is tested twice |
| `HDLightUIProperties.AtMostOneRungFires` | com.unity.render-pipelines.high-definition/Editor/Lighting/HDLightUI.cs:337-388 | for any unit change at most one ladder test holds, and none when the unit does not change |
| `HDLightUIProperties.FiringRungPicksFormula` | com.unity.render-pipelines.high-definition/Editor/Lighting/HDLightUI.cs:337-388 | the formula the conversion applies is the conversion of the one ladder test that holds, and nothing is converted exactly when no test holds |
| `HDLightUIProperties.PopupSwitchesAreLadderPairs` | com.unity.render-pipelines.high-definition/Editor/Lighting/HDLightUI.cs:318-386 | a pair is on the ladder if and only if it switches between two different units offered together for a punctual or an area light |
| `HDLightUIProperties.SameUnitKeepsIntensity` | com.unity.render-pipelines.high-definition/Editor/Lighting/HDLightUI.cs:337-388 | converting a unit to itself returns the intensity exactly |
| `HDLightUIProperties.LumenToCandela` | com.unity.render-pipelines.high-definition/Editor/Lighting/HDLightUI.cs:343-352 | Lumen to Candela gives the runtime intensity for a reflector spot and the point formula otherwise |
| `HDLightUIProperties.CandelaToLumen` | com.unity.render-pipelines.high-definition/Editor/Lighting/HDLightUI.cs:353-372 | Candela to Lumen uses, for a reflector spot, the cone formula (spot angle in radians, exact cone), the frustum formula on the two pyramid angles, or the point formula for a box; the point formula for every other light |
| `HDLightUIProperties.AreaConversions` | com.unity.render-pipelines.high-definition/Editor/Lighting/HDLightUI.cs:375-386 | the Lumen and Luminance pairs and the Ev100 and Lumen pairs use the area formulas on the extent, width and height; the Luminance and Ev100 pair uses no geometry |
| `HDLightUIProperties.ReflectorIgnoresStoredLumen` | com.unity.render-pipelines.high-definition/Editor/Lighting/HDLightUI.cs:345-349 | for a reflector spot, Lumen to Candela gives the same result whatever the stored intensity |
| `HDLightUIProperties.RoundTrip` | com.unity.render-pipelines.high-definition/Editor/Lighting/HDLightUI.cs:343-386 | for a light that is not a reflector spot, converting along a ladder pair and back restores the intensity when the formulas are exact inverses |
| `HDLightUIProperties.EngineTypeShowsShape` | com.unity.render-pipelines.high-definition/Editor/Lighting/HDLightUI.cs:162-250 | after the section runs for a shape, the stored type and extent identify that shape |
| `HDLightUIProperties.MixedSelectionIsNoOp` | com.unity.render-pipelines.high-definition/Editor/Lighting/HDLightUI.cs:248-250 | the multi-selection value leaves every field as it was on every pass it can take |
| `HDLightUIProperties.RedrawSettles` | com.unity.render-pipelines.high-definition/Editor/Lighting/HDLightUI.cs:156-266 | running the section again without an edit changes nothing |
| `HDLightUIProperties.TubeSynthesis` | com.unity.render-pipelines.high-definition/Editor/Lighting/HDLightUI.cs:232-246 | an edited tube gets area size (width, 0.01), the tube extent and no shadows |
| `HDLightUIProperties.AreaSizeCopiedBeforeClamp` | com.unity.render-pipelines.high-definition/Editor/Lighting/HDLightUI.cs:219-262 | an edited rectangle whose width was below 0.01 keeps that width as its area size, while its shape width becomes 0.01 |
| `HDLightUIProperties.ClampIdempotent` | com.unity.render-pipelines.high-definition/Editor/Lighting/HDLightUI.cs:257-262 | clamping twice is the same as clamping once |

## Left out

- All drawing: sliders, popups, property fields, foldout groups, styles, and the expanded
  state of foldouts. The change checks they feed in are boolean inputs.
- The bodies of the `LightUtils` conversions: solid angles, pi and log2 for EV100, and the
  pyramid angles. They are not part of this model. They are parameters, so every result holds
  for any formulas.
- Floating-point arithmetic. Reals stand in for floats, so `0.01f` is exactly 0.01.
  `Mathf.Deg2Rad` is written as the decimal 0.017453292519943295.
- `SetLightDirty` and the emissive-mesh update are recorded as two flags only. What the host
  does with them is not modelled.
- The `Debug.Assert` default branches. Shapes and spot sub-shapes are closed enums, plus the
  multi-selection value for shapes.
- `DrawShapeAdvancedContent` (when the reflector toggle is shown), the emission, volumetric
  and shadow drawers, the light-layer field, and the fade-distance clamp of the emission
  section. These choose which fields are displayed, or are outside the shape and unit logic.
- How the serialized light derives its shape from the stored type and extent.
  `SerializedHDLight` is not part of this model. `ShapeOf` only inverts the shape table.
- The light settings and the additional light data are two serialized objects in the engine.
  Here they are flattened into one class. `isRealtime`, a property the host derives, is a field.
- `HDLightUIProperties.RoundTrip`: assumes the formulas are exact inverses. In floating point
  they are inverse only within rounding error, which the model does not capture.
