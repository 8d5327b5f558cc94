/** The isometric drawing context of isometric/src/iso-context.ts: the
    choice of tile size and the mapping between board cells and screen
    points.  Of the canvas only its width is used. */
module IsoContexts {
  import Worlds

  /** A tile size (the source's Point(width, height)). */
  datatype TileSize = TileSize(tileWidth: int, tileHeight: int)

  /** The corners of a tile's top face (v1 top, v2 right, v3 bottom, v4
      left) and the bottom heights of its side faces. */
  datatype Vertices = Vertices(v1x: real, v1y: real, v2x: real, v2y: real, v3x: real, v3y: real,
                               v4x: real, v4y: real, v5y: real, v6y: real, v7y: real)

  const MaxTileWidth: int := 128
  const MaxTileHeight: int := 64
  /** The tile width the context starts with. */
  const StartTileWidth: int := 64
  /** The vertical screen offset of the board's origin. */
  const BaseTranslationY: real := 250.0

  /** The sizes calculateValidSizes lists: (4k, 2k) for k = 1 .. 32. */
  function ValidSizes(): (s: seq<TileSize>)
    ensures |s| == 32
    ensures forall k :: 0 <= k < |s| ==> s[k] == TileSize(4 * (k + 1), 2 * (k + 1))
  {
    seq(32, k => TileSize(4 * (k + 1), 2 * (k + 1)))
  }

  /** calculateValidSizes: widths step by 4 and heights by 2 until either
      passes its maximum. */
  method CalculateValidSizes() returns (sizes: seq<TileSize>)
    ensures sizes == ValidSizes()
  {
    sizes := [];
    var width, height := 4, 2;
    while width <= MaxTileWidth && height <= MaxTileHeight
      invariant |sizes| <= 32 && width == 4 * (|sizes| + 1) && height == 2 * (|sizes| + 1)
      invariant sizes == ValidSizes()[..|sizes|]
      decreases MaxTileWidth - width
    {
      sizes := sizes + [TileSize(width, height)];
      width, height := width + 4, height + 2;
    }
    assert |sizes| == 32;
  }

  /** Array.findIndex with the predicate `size.x === w`: the first index
      at or after `from` of that width, or -1. */
  function FindIndexOfWidth(sizes: seq<TileSize>, w: int, from: nat): (i: int)
    requires from <= |sizes|
    ensures i == -1 || from <= i < |sizes|
    ensures i == -1 <==> forall k :: from <= k < |sizes| ==> sizes[k].tileWidth != w
    ensures i != -1 ==> sizes[i].tileWidth == w && forall k :: from <= k < i ==> sizes[k].tileWidth != w
    decreases |sizes| - from
  {
    if from == |sizes| then -1
    else if sizes[from].tileWidth == w then from
    else FindIndexOfWidth(sizes, w, from + 1)
  }

  /** The index after incTileSize: one up, saturating at the last. */
  function IncIndex(i: int, len: int): int {
    if i < len - 1 then i + 1 else i
  }

  /** The index after decTileSize: one down, saturating at 0. */
  function DecIndex(i: int): int {
    if i > 0 then i - 1 else i
  }

  class IsometricContext {
    var canvasWidth: real
    var tileSizes: seq<TileSize>
    var selectedTileSizeIndex: int

    ghost predicate Valid()
      reads this`tileSizes, this`selectedTileSizeIndex
    {
      tileSizes == ValidSizes() && 0 <= selectedTileSizeIndex < |tileSizes|
    }

    /** The constructor selects the size of width 64. */
    constructor(canvasWidth: real)
      ensures Valid() && this.canvasWidth == canvasWidth
      ensures tileSizes[selectedTileSizeIndex].tileWidth == StartTileWidth
      ensures selectedTileSizeIndex == 15
    {
      this.canvasWidth := canvasWidth;
      var sizes := CalculateValidSizes();
      tileSizes := sizes;
      assert sizes[15].tileWidth == 64;
      selectedTileSizeIndex := FindIndexOfWidth(sizes, StartTileWidth, 0);
    }

    /** incTileSize: the next larger size, unless at the largest. */
    method IncTileSize()
      requires Valid()
      modifies this`selectedTileSizeIndex
      ensures Valid() && selectedTileSizeIndex == IncIndex(old(selectedTileSizeIndex), |tileSizes|)
    {
      if selectedTileSizeIndex < |tileSizes| - 1 {
        selectedTileSizeIndex := selectedTileSizeIndex + 1;
      }
    }

    /** decTileSize: the next smaller size, unless at the smallest. */
    method DecTileSize()
      requires Valid()
      modifies this`selectedTileSizeIndex
      ensures Valid() && selectedTileSizeIndex == DecIndex(old(selectedTileSizeIndex))
    {
      if selectedTileSizeIndex > 0 {
        selectedTileSizeIndex := selectedTileSizeIndex - 1;
      }
    }

    /** tileSize: the selected tile size, whose width is twice its height. */
    function TileSizeNow(): (t: TileSize)
      requires Valid()
      reads this`tileSizes, this`selectedTileSizeIndex
      ensures t.tileWidth == 2 * t.tileHeight && 2 <= t.tileHeight <= MaxTileHeight
    {
      tileSizes[selectedTileSizeIndex]
    }

    /** baseTranslation: the screen point of the board's origin. */
    function BaseTranslation(): (real, real)
      reads this`canvasWidth
    {
      (canvasWidth / 2.0, BaseTranslationY)
    }

    /** screenToIso: the board cell under a screen point. */
    function ScreenToIso(screenX: real, screenY: real): Worlds.Point
      requires Valid()
      reads this`tileSizes, this`selectedTileSizeIndex, this`canvasWidth
    {
      var tileWidth := TileSizeNow().tileWidth as real;
      var tileHeight := TileSizeNow().tileHeight as real;
      var baseT := BaseTranslation();
      var isoX := screenX - baseT.0;
      var isoY := screenY - baseT.1;
      var boardXMaybeFloat := (isoX / (tileWidth / 2.0) + isoY / (tileHeight / 2.0)) / 2.0;
      var boardYMaybeFloat := (isoY / (tileHeight / 2.0) - isoX / (tileWidth / 2.0)) / 2.0;
      Worlds.Point(boardXMaybeFloat.Floor, boardYMaybeFloat.Floor)
    }

    /** tileVertices: the tile's corners relative to the board origin,
        its top face raised by zHeight tile heights. */
    function TileVertices(boardX: int, boardY: int, zHeight: real): (v: Vertices)
      requires Valid()
      reads this`tileSizes, this`selectedTileSizeIndex
      ensures var t := TileSizeNow();
              v.v3y - v.v1y == t.tileHeight as real && v.v2x - v.v4x == t.tileWidth as real &&
              v.v1x == v.v3x && v.v2y == v.v4y
    {
      var tileWidth := TileSizeNow().tileWidth as real;
      var tileHeight := TileSizeNow().tileHeight as real;
      var isoX := (boardX - boardY) as real * tileWidth / 2.0;
      var isoY := (boardX + boardY) as real * tileHeight / 2.0;
      var topOffsetY := -zHeight * tileHeight;
      Vertices(isoX, isoY + topOffsetY,
               isoX + tileWidth / 2.0, isoY + tileHeight / 2.0 + topOffsetY,
               isoX, isoY + tileHeight + topOffsetY,
               isoX - tileWidth / 2.0, isoY + tileHeight / 2.0 + topOffsetY,
               isoY + tileHeight, isoY + tileHeight / 2.0, isoY + tileHeight / 2.0)
    }

    /** A point of a tile's top face at height 0, given by its fractions
        (u, v) along the two board axes, lies on that tile: screenToIso
        inverts tileVertices. */
    lemma ScreenToIsoOfTile(boardX: int, boardY: int, u: real, v: real, screenX: real, screenY: real)
      requires Valid() && 0.0 <= u < 1.0 && 0.0 <= v < 1.0
      requires screenX == TileVertices(boardX, boardY, 0.0).v1x + BaseTranslation().0 +
                          (u - v) * TileSizeNow().tileWidth as real / 2.0
      requires screenY == TileVertices(boardX, boardY, 0.0).v1y + BaseTranslation().1 +
                          (u + v) * TileSizeNow().tileHeight as real / 2.0
      ensures ScreenToIso(screenX, screenY) == Worlds.Point(boardX, boardY)
    {
      var t := TileSizeNow();
      var tw := t.tileWidth as real;
      var th := t.tileHeight as real;
      var v1 := TileVertices(boardX, boardY, 0.0);
      var baseT := BaseTranslation();
      var sx := screenX;
      var sy := screenY;
      var isoX := sx - baseT.0;
      var isoY := sy - baseT.1;
      assert v1.v1x == (boardX - boardY) as real * tw / 2.0;
      assert v1.v1y == (boardX + boardY) as real * th / 2.0 + -0.0 * th;
      Unproject((boardX - boardY) as real, u - v, tw, isoX);
      Unproject((boardX + boardY) as real, u + v, th, isoY);
      var bxf := (isoX / (tw / 2.0) + isoY / (th / 2.0)) / 2.0;
      var byf := (isoY / (th / 2.0) - isoX / (tw / 2.0)) / 2.0;
      assert bxf == boardX as real + u;
      assert byf == boardY as real + v;
      assert ScreenToIso(sx, sy) == Worlds.Point(bxf.Floor, byf.Floor);
    }

    /** In particular the top corner of a tile at height 0, shifted by the
        base translation, maps back to the tile. */
    lemma ScreenToIsoOfCorner(boardX: int, boardY: int)
      requires Valid()
      ensures var v1 := TileVertices(boardX, boardY, 0.0);
              var baseT := BaseTranslation();
              ScreenToIso(v1.v1x + baseT.0, v1.v1y + baseT.1) == Worlds.Point(boardX, boardY)
    {
      var v1 := TileVertices(boardX, boardY, 0.0);
      var baseT := BaseTranslation();
      var t := TileSizeNow();
      assert (0.0 - 0.0) * t.tileWidth as real / 2.0 == 0.0;
      assert (0.0 + 0.0) * t.tileHeight as real / 2.0 == 0.0;
      ScreenToIsoOfTile(boardX, boardY, 0.0, 0.0, v1.v1x + baseT.0, v1.v1y + baseT.1);
    }

    /** Raising a tile moves its top face up by zHeight tile heights and
        leaves the side faces' bottoms where they were. */
    lemma HeightOffsetsTopFace(boardX: int, boardY: int, zHeight: real)
      requires Valid()
      ensures var flat := TileVertices(boardX, boardY, 0.0);
              var raised := TileVertices(boardX, boardY, zHeight);
              var off := -zHeight * TileSizeNow().tileHeight as real;
              raised.v1y == flat.v1y + off && raised.v2y == flat.v2y + off &&
              raised.v3y == flat.v3y + off && raised.v4y == flat.v4y + off &&
              raised.v1x == flat.v1x && raised.v2x == flat.v2x &&
              raised.v3x == flat.v3x && raised.v4x == flat.v4x &&
              raised.v5y == flat.v5y && raised.v6y == flat.v6y && raised.v7y == flat.v7y
    {
    }
  }

  /** A coordinate p + d tile halves along an axis, divided by the half
      tile, is p + d. */
  lemma Unproject(p: real, d: real, tw: real, x: real)
    requires tw > 0.0 && x == p * tw / 2.0 + d * tw / 2.0
    ensures x / (tw / 2.0) == p + d
  {
    assert x == (p + d) * (tw / 2.0);
  }

  /** The listed sizes grow strictly, width and height alike. */
  lemma ValidSizesIncrease(i: int, j: int)
    requires 0 <= i < j < 32
    ensures ValidSizes()[i].tileWidth < ValidSizes()[j].tileWidth
    ensures ValidSizes()[i].tileHeight < ValidSizes()[j].tileHeight
  {
  }

  /** Both steps keep the index in range and saturate at the ends, and a
      step down undoes a step up that was not blocked. */
  lemma IndexStepsStayInRange(i: int, len: int)
    requires 0 <= i < len
    ensures 0 <= IncIndex(i, len) < len && 0 <= DecIndex(i) < len
    ensures i == len - 1 ==> IncIndex(i, len) == i
    ensures i == 0 ==> DecIndex(i) == 0
    ensures i < len - 1 ==> DecIndex(IncIndex(i, len)) == i
    ensures i > 0 ==> IncIndex(DecIndex(i), len) == i
  {
  }
}
