/** The constants of both generator classes and what differs between them. */
module Config {

  /** `V1` is the earlier class `TerrainData`, `V2` the full pipeline `TerrainDataV2`. */
  datatype Variant = V1 | V2

  /** The side of the base grid (`GRID_SIZE`, `BASE_GRID_SIZE`). */
  const BaseGridSize: nat := 50
  /** The side of the upsampled grid (`FINAL_GRID_SIZE`). */
  const FinalGridSize: nat := 200
  /** The world extent of the terrain in x and z. */
  const TerrainSize: real := 100.0
  /** The admissible range of synthesized heights. */
  const MinBaseHeight: real := -2.0
  const MaxHeight: real := 10.0

  /** Number of tree candidates drawn on a grid of side `g`. */
  function TreeCount(v: Variant, g: nat): nat {
    match v
    case V1 => 15
    case V2 => g
  }

  /** Number of building candidates drawn on a grid of side `g`. */
  function BuildingCount(v: Variant, g: nat): nat {
    match v
    case V1 => 3
    case V2 => g / 20
  }

  /** Building candidates: the start cell is `draw + StartOffset`, drawn below `g - StartSpan`;
      the size is `draw + SizeOffset`, drawn below `SizeSpan`. */
  function StartOffset(v: Variant): int { match v case V1 => 3 case V2 => 4 }
  function StartSpan(v: Variant): int { match v case V1 => 6 case V2 => 8 }
  function SizeOffset(v: Variant): int { match v case V1 => 3 case V2 => 4 }
  function SizeSpan(v: Variant): int { match v case V1 => 3 case V2 => 4 }

  /** World coordinate of grid index `i` on a grid of side `g`: `(i / g - 0.5) * TERRAIN_SIZE`. */
  function WorldCoord(i: int, g: nat): real
    requires g > 0
  {
    ((i as real) / (g as real) - 0.5) * TerrainSize
  }
}
