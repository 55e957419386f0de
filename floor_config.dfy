/**
 * The parameters of one floor object, as the property group declares
 * them, and the hard bounds the property declarations enforce.
 */
module FloorConfig {
  import opened Geometry

  datatype FloorMaterial = Wood | Tile

  datatype WoodStyle = Regular | Parquet | HerringboneParquet | Herringbone

  datatype TileStyle = Regular | Hopscotch | SteppingStone | Hexagon | Windmill

  datatype Config = Config(
    floorMaterial: FloorMaterial,
    woodStyle: WoodStyle,
    tileStyle: TileStyle,
    // overall extent: x and y
    width: real,
    length: real,
    // gap between boards or tiles in both directions
    spacing: real,
    // z extent of one board or tile
    thickness: real,
    varyThickness: bool,
    thicknessVariance: real,
    boardWidth: real,
    varyWidth: bool,
    widthVariance: real,
    widthSpacing: real,
    boardLength: real,
    shortBoardLength: real,
    varyLength: bool,
    lengthVariance: real,
    maxBoards: int,
    lengthSpacing: real,
    boardsInGroup: int,
    tileWidth: real,
    tileLength: real,
    mortarDepth: real,
    offsetTiles: bool,
    randomOffset: bool,
    offset: real,
    offsetVariance: real)

  /**
   * The `min`/`max` bounds of the property declarations. The `soft_max`
   * bounds only limit the UI slider and are not enforced.
   */
  predicate ValidConfig(c: Config) {
    && c.width >= 2.0 * FOOT
    && c.length >= 2.0 * FOOT
    && c.spacing >= 0.0
    && c.thickness >= 0.25 * INCH
    && 1.0 <= c.thicknessVariance <= 100.0
    && c.boardWidth >= 2.0 * INCH
    && 1.0 <= c.widthVariance <= 100.0
    && c.widthSpacing >= 0.0
    && c.boardLength >= 2.0 * FOOT
    && c.shortBoardLength >= 6.0 * INCH
    && 1.0 <= c.lengthVariance <= 100.0
    && c.maxBoards >= 1
    && c.lengthSpacing >= 0.0
    && c.boardsInGroup >= 1
    && c.tileWidth >= 2.0 * INCH
    && c.tileLength >= 2.0 * INCH
    && c.mortarDepth >= 0.0
    && 0.001 <= c.offset <= 100.0
    && 0.001 <= c.offsetVariance <= 100.0
  }
}
