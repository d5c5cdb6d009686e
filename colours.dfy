/** `getColorForType` of both variants. Each call builds a fresh `Random(42)`, so the jitter
    inside a colour is always the same first draw `draw`, and the colour depends on the code
    alone. */
module Colours {
  import opened Geometry
  import opened Config
  import E = ElementType

  function Grey(k: real): Vec3 { Vec3(k, k, k) }

  function ColourForType(v: Variant, code: int, draw: real): Vec3 {
    match v
    case V1 =>
      // the earlier variant switches on raw literals; its case 4 is the Canopy code
      if code == 1 then Grey(0.3 + draw * 0.1)
      else if code == 2 then Vec3(0.1, 0.4, 0.6 + draw * 0.2)
      else if code == 3 then LawnColour(draw * 0.2)
      else if code == 4 then BrownColour(draw * 0.15)
      else GroundColour(draw * 0.15)
    case V2 =>
      if code == E.Road then Grey(0.25 + draw * 0.1)
      else if code == E.WaterPool then Vec3(0.1, 0.4, 0.6 + draw * 0.2)
      else if code == E.Lawn then LawnColour(draw * 0.2)
      else if code == E.Building || code == E.HouseWall then BrownColour(draw * 0.15)
      else if code == E.Roof then Vec3(0.3 + draw * 0.15, 0.2 + draw * 0.15, 0.1 + draw * 0.15)
      else if code == E.Trunk then TrunkColour
      else if code == E.Canopy then CanopyColour
      else GroundColour(draw * 0.15)
  }

  function LawnColour(g: real): Vec3 { Vec3(0.1 + g * 0.2, 0.5 + g, 0.1 + g * 0.1) }
  function BrownColour(b: real): Vec3 { Vec3(0.5 + b, 0.3 + b, 0.1 + b) }
  function GroundColour(g: real): Vec3 { Vec3(0.7 + g, 0.6 + g, 0.45 + g) }

  /** The fixed colours the decoration builders pass explicitly. */
  const TrunkColour: Vec3 := Vec3(0.4, 0.2, 0.1)
  const CanopyColour: Vec3 := Vec3(0.1, 0.5, 0.1)
  const WallColour: Vec3 := Vec3(0.6, 0.4, 0.2)
  const RoofColour: Vec3 := Vec3(0.3, 0.2, 0.1)

  predicate InUnitCube(c: Vec3) {
    0.0 <= c.x <= 1.0 && 0.0 <= c.y <= 1.0 && 0.0 <= c.z <= 1.0
  }

  /** Every colour channel lies in [0, 1] for a draw of `nextFloat()`, which lies in [0, 1). */
  lemma ColourInRange(v: Variant, code: int, draw: real)
    requires 0.0 <= draw < 1.0
    ensures InUnitCube(ColourForType(v, code, draw))
  {
  }

  /** In the earlier variant the Building code 6 falls to the default ground colour, while
      case 4, written as the building case, is the Canopy code and gets the brown of the later
      variant's Building case. */
  lemma EarlierVariantColourCases(draw: real)
    ensures ColourForType(V1, E.Building, draw) == ColourForType(V1, E.Land, draw)
    ensures ColourForType(V1, E.Canopy, draw) == ColourForType(V2, E.Building, draw)
    ensures ColourForType(V1, E.Canopy, draw) != ColourForType(V1, E.Land, draw)
  {
  }

  /** Road colours are grey, and the same draw gives Road, WaterPool, Lawn and Land four
      different colours in both variants. */
  lemma GroundColoursDiffer(v: Variant, draw: real)
    requires 0.0 <= draw < 1.0
    ensures var road := ColourForType(v, E.Road, draw); road.x == road.y == road.z
    ensures var cs := [ColourForType(v, E.Land, draw), ColourForType(v, E.Road, draw),
                       ColourForType(v, E.WaterPool, draw), ColourForType(v, E.Lawn, draw)];
      forall a, b :: 0 <= a < b < 4 ==> cs[a] != cs[b]
  {
  }
}
