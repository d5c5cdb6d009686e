/** The integer land-use and material codes shared by both generator variants. */
module ElementType {

  const Land: int := 0
  const Road: int := 1
  const WaterPool: int := 2
  const Lawn: int := 3
  const Canopy: int := 4
  const Trunk: int := 5
  const Building: int := 6
  const HouseWall: int := 7
  const Roof: int := 8

  /** Every code, in the order of their values. */
  const AllCodes: seq<int> := [Land, Road, WaterPool, Lawn, Canopy, Trunk, Building, HouseWall, Roof]

  predicate IsCode(c: int) { c in AllCodes }

  /** The codes the stamping stage writes into a type grid. */
  predicate IsGroundCode(c: int) {
    c == Land || c == Road || c == WaterPool || c == Lawn || c == Building
  }

  /** The codes that only the decoration primitives carry. */
  predicate IsPropCode(c: int) {
    c == Trunk || c == Canopy || c == HouseWall || c == Roof
  }

  /** The nine codes are pairwise distinct and are exactly 0..8. */
  lemma CodesDistinct()
    ensures |AllCodes| == 9
    ensures forall a, b :: 0 <= a < b < |AllCodes| ==> AllCodes[a] != AllCodes[b]
    ensures forall c :: IsCode(c) <==> 0 <= c <= 8
  {
  }

  /** Ground and prop codes split the nine codes into two disjoint groups. */
  lemma GroundAndPropPartition(c: int)
    ensures IsCode(c) <==> (IsGroundCode(c) || IsPropCode(c))
    ensures !(IsGroundCode(c) && IsPropCode(c))
  {
  }

  /** The default cell code is Land, the literal 0 of the earlier variant, and Road, WaterPool
      and Lawn are the literals 1, 2 and 3 that variant tests against. */
  lemma LiteralsAgree()
    ensures Land == 0 && Road == 1 && WaterPool == 2 && Lawn == 3
  {
  }
}
