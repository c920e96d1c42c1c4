/** Enumerations and constants of the HD light inspector and the light data it edits. */
module LightTypes {

  /** The inspector's shape: the engine's LightType and LightTypeExtent folded into one choice. */
  datatype LightShape = Spot | Directional | Point | Rectangle | Tube

  /** What the shape popup holds: one shape, or the value -1 that stands for a
      multi-selection of lights whose shapes differ. */
  datatype ShapeChoice = Single(shape: LightShape) | MixedSelection

  /** Sub-shape of a spot light. */
  datatype SpotLightShape = Cone | Pyramid | Box

  /** Photometric unit in which the intensity field is stored. */
  datatype LightUnit = Lumen | Candela | Lux | Luminance | Ev100

  /** The engine's runtime light type. The inspector never writes Area: rectangle and tube
      lights run as point lights with an extent. */
  datatype LightType = SpotLight | DirectionalLight | PointLight | AreaLight

  /** Extent of a light: punctual, or one of the two area shapes. */
  datatype LightTypeExtent = Punctual | RectangleExtent | TubeExtent

  /** Shadow mode of the engine's light. */
  datatype LightShadows = NoShadows | HardShadows | SoftShadows

  /** Smallest width or height a light may have (1 cm), also the height given to a tube. */
  const MinLightSize: real := 0.01

  /** Sections of the inspector whose additional settings can be shown or hidden;
      each owns one bit of the showAdditionalSettings mask. */
  datatype Advanceable = General | Shape | Emission | ShadowMap | ContactShadow | BakedShadow

  /** A 32-bit flag word, as the set of the positions (0 to 31) of its one bits: bitwise
      and, or and complement become intersection, union and complement within 0..31. */
  type Mask = s: set<int> | forall i :: i in s ==> 0 <= i < 32

  /** The bit position a section owns: General is bit 0, and so on up to BakedShadow at bit 5. */
  function BitIndex(a: Advanceable): (i: int)
    ensures 0 <= i < 32
  {
    match a
    case General => 0
    case Shape => 1
    case Emission => 2
    case ShadowMap => 3
    case ContactShadow => 4
    case BakedShadow => 5
  }

  /** The flag word of one section (the enum value 1 << BitIndex(a)). */
  function Bit(a: Advanceable): (b: Mask)
    ensures |b| == 1
    ensures BitIndex(a) in b
    ensures forall other :: other != a ==> BitIndex(other) !in b
  {
    {BitIndex(a)}
  }

  const AllSections: set<Advanceable> := {General, Shape, Emission, ShadowMap, ContactShadow, BakedShadow}
}
