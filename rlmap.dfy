/** The character map of rlmap/src/map.ts: a fixed 20 by 20 grid of
    tiles, each a character with a foreground and a background colour. */
module Maps {
  /** A map tile; `ch` is the one-character string drawn. */
  datatype Tile = Tile(ch: string, fg: string, bg: string)

  const Blank: string := " "
  const DefaultFg: string := "#000000"
  const DefaultBg: string := "#ffffff"

  /** A grid of `height` rows of `width` tiles. */
  ghost predicate IsGrid(g: seq<seq<Tile>>, width: int, height: int) {
    |g| == height && forall y :: 0 <= y < |g| ==> |g[y]| == width
  }

  class Map {
    const gridWidth: int := 20
    const gridHeight: int := 20
    var charGrid: seq<seq<Tile>>

    ghost predicate Valid()
      reads this`charGrid
    {
      IsGrid(charGrid, gridWidth, gridHeight)
    }

    predicate InRange(x: int, y: int) {
      0 <= x < gridWidth && 0 <= y < gridHeight
    }

    /** A blank map in the default colours. */
    constructor()
      ensures Valid()
      ensures forall y, x :: InRange(x, y) ==> charGrid[y][x] == Tile(Blank, DefaultFg, DefaultBg)
    {
      new;
      charGrid := InitCharGrid(Blank, DefaultFg, DefaultBg);
    }

    function GetGridWidth(): int { gridWidth }

    function GetGridHeight(): int { gridHeight }

    /** getTile does no bounds check; its callers keep to the grid. */
    function GetTile(x: int, y: int): Tile
      requires Valid() && InRange(x, y)
      reads this`charGrid
    {
      charGrid[y][x]
    }

    /** setTile: writes one in-range cell; out of range nothing changes. */
    method SetTile(x: int, y: int, tile: Tile)
      requires Valid()
      modifies this`charGrid
      ensures Valid()
      ensures InRange(x, y) ==> charGrid == old(charGrid)[y := old(charGrid)[y][x := tile]] && GetTile(x, y) == tile
      ensures !InRange(x, y) ==> charGrid == old(charGrid)
    {
      if x >= 0 && x < gridWidth && y >= 0 && y < gridHeight {
        charGrid := charGrid[y := charGrid[y][x := tile]];
      }
    }

    /** initCharGrid: the full grid of one tile, built row by row. */
    method InitCharGrid(defaultChar: string, defaultFgColor: string, defaultBgColor: string)
      returns (grid: seq<seq<Tile>>)
      ensures IsGrid(grid, gridWidth, gridHeight)
      ensures forall y, x :: InRange(x, y) ==> grid[y][x] == Tile(defaultChar, defaultFgColor, defaultBgColor)
    {
      var t := Tile(defaultChar, defaultFgColor, defaultBgColor);
      grid := [];
      for y := 0 to gridHeight
        invariant IsGrid(grid, gridWidth, y)
        invariant forall j, x :: 0 <= j < y && 0 <= x < gridWidth ==> grid[j][x] == t
      {
        var row: seq<Tile> := [];
        for x := 0 to gridWidth
          invariant |row| == x && forall i :: 0 <= i < x ==> row[i] == t
        {
          row := row + [t];
        }
        grid := grid + [row];
      }
    }

    function GetCharGrid(): seq<seq<Tile>>
      reads this`charGrid
    {
      charGrid
    }
  }

  /** Setting a cell changes that cell and no other, and keeps the size. */
  lemma SetTileChangesOneCell(g: seq<seq<Tile>>, x: int, y: int, tile: Tile)
    requires IsGrid(g, 20, 20) && 0 <= x < 20 && 0 <= y < 20
    ensures var r := g[y := g[y][x := tile]];
            IsGrid(r, 20, 20) && r[y][x] == tile &&
            forall j, i :: 0 <= j < 20 && 0 <= i < 20 && (i, j) != (x, y) ==> r[j][i] == g[j][i]
  {
  }
}

/** The level generator of rlmap/src/generator.ts: rooms drawn with box
    characters, joined by corridors, and the rest filled with wall. */
module Generators {
  import opened Wrappers
  import opened Maps

  /** A room by two opposite corners. */
  datatype Room = Room(x1: int, y1: int, x2: int, y2: int)

  const Floor: string := "."
  const Door: string := "+"
  const Wall: string := "\U{2588}"
  const TopLeft: string := "\U{250C}"
  const TopRight: string := "\U{2510}"
  const BottomLeft: string := "\U{2514}"
  const BottomRight: string := "\U{2518}"
  const Horizontal: string := "\U{2500}"
  const Vertical: string := "\U{2502}"

  function Min(a: int, b: int): int { if a < b then a else b }

  function Max(a: int, b: int): int { if a < b then b else a }

  /** doRectsOverlap: closed intervals on both axes, so rooms that only
      touch overlap. */
  predicate DoRectsOverlap(x1: int, y1: int, w1: int, h1: int, x2: int, y2: int, w2: int, h2: int) {
    !(x2 > x1 + w1 || x1 > x2 + w2 || y2 > y1 + h1 || y1 > y2 + h2)
  }

  /** The room the random draws of generateLevel place: widths 4..9,
      heights 3..7, and a corner leaving a free column and row. */
  function RoomFromRandoms(gridWidth: int, gridHeight: int, rw: real, rh: real, rx: real, ry: real): (r: Room)
  {
    var width := 4 + (rw * 6.0).Floor;
    var height := 3 + (rh * 5.0).Floor;
    var x1 := (rx * (gridWidth - width - 1) as real).Floor;
    var y1 := (ry * (gridHeight - height - 1) as real).Floor;
    Room(x1, y1, x1 + width, y1 + height)
  }

  /** The number of rooms generateLevel draws: 3 + floor(3 r). */
  function NumRooms(r: real): int {
    3 + (r * 3.0).Floor
  }

  /** What drawRoom leaves at (a, b) for the room from (sX, sY) to (eX, eY)
      once its edges have been drawn up to column hx, its sides up to row
      vy and its floor up to row iy, column ix; None where it wrote nothing.
      Later writes win, so the last corner drawn takes a shared cell. */
  function Drawn(a: int, b: int, sX: int, sY: int, eX: int, eY: int, hx: int, vy: int, iy: int, ix: int): Option<string> {
    if a == eX && b == eY then Some(BottomRight)
    else if a == sX && b == eY then Some(BottomLeft)
    else if a == eX && b == sY then Some(TopRight)
    else if a == sX && b == sY then Some(TopLeft)
    else if sX < a < eX && a < hx && (b == sY || b == eY) then Some(Horizontal)
    else if sY < b < eY && b < vy && (a == sX || a == eX) then Some(Vertical)
    else if sX < a < eX && sY < b < eY && (b < iy || (b == iy && a < ix)) then Some(Floor)
    else None
  }

  /** The tile at a cell after drawing `drawn` over `before` in the given colours. */
  function Over(before: Tile, drawn: Option<string>, fg: string, bg: string): Tile {
    match drawn
    case None => before
    case Some(c) => Tile(c, fg, bg)
  }

  /** The finished room: corners, edges, sides and floor. */
  function RoomChar(a: int, b: int, sX: int, sY: int, eX: int, eY: int): Option<string> {
    Drawn(a, b, sX, sY, eX, eY, eX, eY, eY, eX)
  }

  /** The corridor rewrites: a blank becomes floor and a wall becomes a
      door; nothing else changes. */
  predicate Rewritten(before: Tile, after: Tile, fg: string, bg: string) {
    after == before ||
    (before.ch == Blank && after == Tile(Floor, fg, bg)) ||
    ((before.ch == Vertical || before.ch == Horizontal) && after == Tile(Door, fg, bg))
  }

  /** a lies on the walk from `from` towards `to`, `to` excluded. */
  predicate OnWalk(a: int, from: int, to: int) {
    (from <= a < to) || (to < a <= from)
  }


  /** a cell the corridor from (cx1, cy1) to (cx2, cy2) may rewrite: on
      or beside its horizontal leg, or on or beside its vertical leg. */
  predicate NearWalk(a: int, b: int, cx1: int, cy1: int, cx2: int, cy2: int) {
    (OnWalk(a, cx1, cx2) && cy1 - 1 <= b <= cy1 + 1) ||
    (OnWalk(b, cy1, cy2) && cx2 - 1 <= a <= cx2 + 1)
  }

  /** The column or row the corridor runs through: floor of the midpoint. */
  function Mid(p: int, q: int): int {
    (p + q) / 2
  }

  /** Whether `room` overlaps the earlier room `other`, as generateLevel's
      placement check asks. */
  predicate Overlaps(room: Room, other: Room) {
    DoRectsOverlap(room.x1, room.y1, room.x2 - room.x1, room.y2 - room.y1,
                   other.x1, other.y1, other.x2 - other.x1, other.y2 - other.y1)
  }

  /** One random draw for a room: width, height, column and row. */
  datatype Draw = Draw(rw: real, rh: real, rx: real, ry: real)

  predicate UnitDraw(d: Draw) {
    0.0 <= d.rw < 1.0 && 0.0 <= d.rh < 1.0 && 0.0 <= d.rx < 1.0 && 0.0 <= d.ry < 1.0
  }

  function RoomOf(gridWidth: int, gridHeight: int, d: Draw): Room {
    RoomFromRandoms(gridWidth, gridHeight, d.rw, d.rh, d.rx, d.ry)
  }

  /** The placement check turns `room` down: it overlaps a room placed
      before. */
  predicate Rejected(room: Room, rooms: seq<Room>) {
    exists j :: 0 <= j < |rooms| && Overlaps(room, rooms[j])
  }

  /** No room overlaps one placed before it. */
  predicate Separated(rooms: seq<Room>) {
    forall i, j :: 0 <= j < i < |rooms| ==> !Overlaps(rooms[i], rooms[j])
  }

  class Generator {
    const gridWidth: int
    const gridHeight: int

    constructor(gridWidth: int, gridHeight: int)
      ensures this.gridWidth == gridWidth && this.gridHeight == gridHeight
    {
      this.gridWidth := gridWidth;
      this.gridHeight := gridHeight;
    }

    ghost predicate Fits(m: Map)
      reads m`charGrid
    {
      m.Valid() && m.gridWidth == gridWidth && m.gridHeight == gridHeight
    }

    /** drawRoom: the box between the two corners, whichever way round
        they are given; cells off the grid are skipped. */
    method DrawRoom(m: Map, x1: int, y1: int, x2: int, y2: int, fg: string, bg: string)
      requires Fits(m)
      modifies m`charGrid
      ensures Fits(m)
      ensures forall y, x :: m.InRange(x, y) ==>
                m.charGrid[y][x] ==
                Over(old(m.charGrid[y][x]), RoomChar(x, y, Min(x1, x2), Min(y1, y2), Max(x1, x2), Max(y1, y2)), fg, bg)
    {
      var startX := Min(x1, x2);
      var startY := Min(y1, y2);
      var endX := Max(x1, x2);
      var endY := Max(y1, y2);
      ghost var g0 := m.charGrid;
      DrawCorners(m, startX, startY, endX, endY, fg, bg);
      var x := startX + 1;
      while x < endX
        invariant startX + 1 <= x && (x <= endX || x == startX + 1)
        invariant Fits(m)
        invariant forall b, a :: m.InRange(a, b) ==>
                    m.charGrid[b][a] == Over(g0[b][a], Drawn(a, b, startX, startY, endX, endY, x, startY + 1, startY + 1, startX + 1), fg, bg)
      {
        if startY >= 0 && startY < gridHeight && x >= 0 && x < gridWidth {
          m.SetTile(x, startY, Tile(Horizontal, fg, bg));
        }
        if endY >= 0 && endY < gridHeight && x >= 0 && x < gridWidth {
          m.SetTile(x, endY, Tile(Horizontal, fg, bg));
        }
        x := x + 1;
      }
      DrawSides(m, startX, startY, endX, endY, fg, bg, g0);
      FillFloor(m, startX, startY, endX, endY, fg, bg, g0);
    }

    /** The four corner writes of drawRoom. */
    method DrawCorners(m: Map, startX: int, startY: int, endX: int, endY: int, fg: string, bg: string)
      requires Fits(m) && startX <= endX && startY <= endY
      modifies m`charGrid
      ensures Fits(m)
      ensures forall b, a :: m.InRange(a, b) ==>
                m.charGrid[b][a] ==
                Over(old(m.charGrid[b][a]), Drawn(a, b, startX, startY, endX, endY, startX + 1, startY + 1, startY + 1, startX + 1), fg, bg)
    {
      if startY >= 0 && startY < gridHeight && startX >= 0 && startX < gridWidth {
        m.SetTile(startX, startY, Tile(TopLeft, fg, bg));
      }
      if startY >= 0 && startY < gridHeight && endX >= 0 && endX < gridWidth {
        m.SetTile(endX, startY, Tile(TopRight, fg, bg));
      }
      if endY >= 0 && endY < gridHeight && startX >= 0 && startX < gridWidth {
        m.SetTile(startX, endY, Tile(BottomLeft, fg, bg));
      }
      if endY >= 0 && endY < gridHeight && endX >= 0 && endX < gridWidth {
        m.SetTile(endX, endY, Tile(BottomRight, fg, bg));
      }
    }

    /** The side loop of drawRoom. */
    method DrawSides(m: Map, startX: int, startY: int, endX: int, endY: int, fg: string, bg: string,
                     ghost g0: seq<seq<Tile>>)
      requires Fits(m) && startX <= endX && startY <= endY && IsGrid(g0, gridWidth, gridHeight)
      requires forall b, a :: m.InRange(a, b) ==>
                 m.charGrid[b][a] == Over(g0[b][a], Drawn(a, b, startX, startY, endX, endY, endX, startY + 1, startY + 1, startX + 1), fg, bg)
      modifies m`charGrid
      ensures Fits(m)
      ensures forall b, a :: m.InRange(a, b) ==>
                m.charGrid[b][a] == Over(g0[b][a], Drawn(a, b, startX, startY, endX, endY, endX, endY, startY + 1, startX + 1), fg, bg)
    {
      var y := startY + 1;
      while y < endY
        invariant startY + 1 <= y && (y <= endY || y == startY + 1)
        invariant Fits(m)
        invariant forall b, a :: m.InRange(a, b) ==>
                    m.charGrid[b][a] == Over(g0[b][a], Drawn(a, b, startX, startY, endX, endY, endX, y, startY + 1, startX + 1), fg, bg)
      {
        if y >= 0 && y < gridHeight && startX >= 0 && startX < gridWidth {
          m.SetTile(startX, y, Tile(Vertical, fg, bg));
        }
        if y >= 0 && y < gridHeight && endX >= 0 && endX < gridWidth {
          m.SetTile(endX, y, Tile(Vertical, fg, bg));
        }
        y := y + 1;
      }
    }

    /** The floor loops of drawRoom. */
    method FillFloor(m: Map, startX: int, startY: int, endX: int, endY: int, fg: string, bg: string,
                     ghost g0: seq<seq<Tile>>)
      requires Fits(m) && startX <= endX && startY <= endY && IsGrid(g0, gridWidth, gridHeight)
      requires forall b, a :: m.InRange(a, b) ==>
                 m.charGrid[b][a] == Over(g0[b][a], Drawn(a, b, startX, startY, endX, endY, endX, endY, startY + 1, startX + 1), fg, bg)
      modifies m`charGrid
      ensures Fits(m)
      ensures forall b, a :: m.InRange(a, b) ==>
                m.charGrid[b][a] == Over(g0[b][a], RoomChar(a, b, startX, startY, endX, endY), fg, bg)
    {
      var y := startY + 1;
      while y < endY
        invariant startY + 1 <= y && (y <= endY || y == startY + 1)
        invariant Fits(m)
        invariant forall b, a :: m.InRange(a, b) ==>
                    m.charGrid[b][a] == Over(g0[b][a], Drawn(a, b, startX, startY, endX, endY, endX, endY, y, startX + 1), fg, bg)
      {
        var x := startX + 1;
        while x < endX
          invariant startX + 1 <= x && (x <= endX || x == startX + 1)
          invariant Fits(m)
          invariant forall b, a :: m.InRange(a, b) ==>
                      m.charGrid[b][a] == Over(g0[b][a], Drawn(a, b, startX, startY, endX, endY, endX, endY, y, x), fg, bg)
        {
          if y >= 0 && y < gridHeight && x >= 0 && x < gridWidth {
            m.SetTile(x, y, Tile(Floor, fg, bg));
          }
          x := x + 1;
        }
        y := y + 1;
      }
    }

    /** The placement loop of generateLevel for one room: draw after draw
        until the room overlaps none placed so far; `used` is the number of
        draws taken, and None means the draws ran out first. */
    method PlaceRoom(rooms: seq<Room>, draws: seq<Draw>) returns (room: Option<Room>, used: nat)
      ensures used <= |draws|
      ensures room.Some? ==> 1 <= used && room.value == RoomOf(gridWidth, gridHeight, draws[used - 1]) &&
                              forall j :: 0 <= j < |rooms| ==> !Overlaps(room.value, rooms[j])
      ensures room.None? ==> used == |draws|
      ensures forall k :: 0 <= k < |draws| && k + 1 < used ==>
                Rejected(RoomOf(gridWidth, gridHeight, draws[k]), rooms)
      ensures room.None? ==> forall k :: 0 <= k < |draws| ==>
                Rejected(RoomOf(gridWidth, gridHeight, draws[k]), rooms)
    {
      var i := 0;
      while i < |draws|
        invariant i <= |draws|
        invariant forall k :: 0 <= k < i ==>
                    Rejected(RoomOf(gridWidth, gridHeight, draws[k]), rooms)
      {
        var candidate := RoomOf(gridWidth, gridHeight, draws[i]);
        var overlap := AnyOverlap(candidate, rooms);
        if !overlap {
          return Some(candidate), i + 1;
        }
        i := i + 1;
      }
      return None, i;
    }

    /** The inner loop of the placement check: stops at the first earlier
        room the candidate overlaps. */
    method AnyOverlap(candidate: Room, rooms: seq<Room>) returns (overlap: bool)
      ensures overlap <==> Rejected(candidate, rooms)
    {
      overlap := false;
      for i := 0 to |rooms|
        invariant forall j :: 0 <= j < i ==> !Overlaps(candidate, rooms[j])
      {
        var existingRoom := rooms[i];
        if DoRectsOverlap(candidate.x1, candidate.y1, candidate.x2 - candidate.x1, candidate.y2 - candidate.y1,
                          existingRoom.x1, existingRoom.y1, existingRoom.x2 - existingRoom.x1, existingRoom.y2 - existingRoom.y1) {
          overlap := true;
          break;
        }
      }
    }

    /** connectRooms: an L-shaped corridor from the centre of room1 along
        its row to the column of room2's centre, then along that column to
        room2's centre row. Blanks on the way become floor, walls it crosses
        become doors, and nothing away from the corridor changes. */
    method ConnectRooms(m: Map, room1: Room, room2: Room, fg: string, bg: string)
      requires Fits(m)
      modifies m`charGrid
      ensures Fits(m)
      ensures forall b, a :: m.InRange(a, b) ==> Rewritten(old(m.charGrid[b][a]), m.charGrid[b][a], fg, bg)
      ensures forall b, a :: m.InRange(a, b) && m.charGrid[b][a] != old(m.charGrid[b][a]) ==>
                NearWalk(a, b, Mid(room1.x1, room1.x2), Mid(room1.y1, room1.y2), Mid(room2.x1, room2.x2), Mid(room2.y1, room2.y2))
      ensures forall a :: OnWalk(a, Mid(room1.x1, room1.x2), Mid(room2.x1, room2.x2)) && m.InRange(a, Mid(room1.y1, room1.y2)) ==>
                m.charGrid[Mid(room1.y1, room1.y2)][a].ch != Blank
      ensures forall b :: OnWalk(b, Mid(room1.y1, room1.y2), Mid(room2.y1, room2.y2)) && m.InRange(Mid(room2.x1, room2.x2), b) ==>
                m.charGrid[b][Mid(room2.x1, room2.x2)].ch != Blank
    {
      var centerX1 := Mid(room1.x1, room1.x2);
      var centerY1 := Mid(room1.y1, room1.y2);
      var centerX2 := Mid(room2.x1, room2.x2);
      var centerY2 := Mid(room2.y1, room2.y2);
      ghost var g0 := m.charGrid;
      WalkRow(m, centerX1, centerX2, centerY1, fg, bg);
      ghost var g1 := m.charGrid;
      WalkColumn(m, centerX2, centerY1, centerY2, fg, bg);
      forall b, a | m.InRange(a, b)
        ensures Rewritten(g0[b][a], m.charGrid[b][a], fg, bg)
      {
        RewrittenTransitive(g0[b][a], g1[b][a], m.charGrid[b][a], fg, bg);
      }
    }

    /** The horizontal leg of connectRooms: from column `fromX` towards
        `toX` along row y, `toX` itself excluded. */
    method WalkRow(m: Map, fromX: int, toX: int, y: int, fg: string, bg: string)
      requires Fits(m)
      modifies m`charGrid
      ensures Fits(m)
      ensures forall b, a :: m.InRange(a, b) ==> Rewritten(old(m.charGrid[b][a]), m.charGrid[b][a], fg, bg)
      ensures forall b, a :: m.InRange(a, b) && m.charGrid[b][a] != old(m.charGrid[b][a]) ==>
                OnWalk(a, fromX, toX) && y - 1 <= b <= y + 1
      ensures forall b, a :: m.InRange(a, b) && old(m.charGrid[b][a]).ch != Blank ==> m.charGrid[b][a].ch != Blank
      ensures forall a :: OnWalk(a, fromX, toX) && m.InRange(a, y) ==> m.charGrid[y][a].ch != Blank
    {
      var x := fromX;
      ghost var g0 := m.charGrid;
      while x != toX
        invariant Fits(m)
        invariant (fromX <= x <= toX) || (toX <= x <= fromX)
        invariant forall b, a :: m.InRange(a, b) ==> Rewritten(g0[b][a], m.charGrid[b][a], fg, bg)
        invariant forall b, a :: m.InRange(a, b) && m.charGrid[b][a] != g0[b][a] ==>
                    OnWalk(a, fromX, x) && y - 1 <= b <= y + 1
        invariant forall b, a :: m.InRange(a, b) && g0[b][a].ch != Blank ==> m.charGrid[b][a].ch != Blank
        invariant forall a :: OnWalk(a, fromX, x) && m.InRange(a, y) ==> m.charGrid[y][a].ch != Blank
        decreases if x < toX then toX - x else x - toX
      {
        ghost var mid := m.charGrid;
        CrossRow(m, x, y, fg, bg);
        forall b, a | m.InRange(a, b)
          ensures Rewritten(g0[b][a], m.charGrid[b][a], fg, bg)
        {
          RewrittenTransitive(g0[b][a], mid[b][a], m.charGrid[b][a], fg, bg);
        }
        x := x + if x < toX then 1 else -1;
      }
    }

    /** The vertical leg of connectRooms: from row `fromY` towards `toY`
        down column x, `toY` itself excluded. */
    method WalkColumn(m: Map, x: int, fromY: int, toY: int, fg: string, bg: string)
      requires Fits(m)
      modifies m`charGrid
      ensures Fits(m)
      ensures forall b, a :: m.InRange(a, b) ==> Rewritten(old(m.charGrid[b][a]), m.charGrid[b][a], fg, bg)
      ensures forall b, a :: m.InRange(a, b) && m.charGrid[b][a] != old(m.charGrid[b][a]) ==>
                OnWalk(b, fromY, toY) && x - 1 <= a <= x + 1
      ensures forall b, a :: m.InRange(a, b) && old(m.charGrid[b][a]).ch != Blank ==> m.charGrid[b][a].ch != Blank
      ensures forall b :: OnWalk(b, fromY, toY) && m.InRange(x, b) ==> m.charGrid[b][x].ch != Blank
    {
      var y := fromY;
      ghost var g0 := m.charGrid;
      while y != toY
        invariant Fits(m)
        invariant (fromY <= y <= toY) || (toY <= y <= fromY)
        invariant forall b, a :: m.InRange(a, b) ==> Rewritten(g0[b][a], m.charGrid[b][a], fg, bg)
        invariant forall b, a :: m.InRange(a, b) && m.charGrid[b][a] != g0[b][a] ==>
                    OnWalk(b, fromY, y) && x - 1 <= a <= x + 1
        invariant forall b, a :: m.InRange(a, b) && g0[b][a].ch != Blank ==> m.charGrid[b][a].ch != Blank
        invariant forall b :: OnWalk(b, fromY, y) && m.InRange(x, b) ==> m.charGrid[b][x].ch != Blank
        decreases if y < toY then toY - y else y - toY
      {
        ghost var mid := m.charGrid;
        CrossColumn(m, x, y, fg, bg);
        forall b, a | m.InRange(a, b)
          ensures Rewritten(g0[b][a], m.charGrid[b][a], fg, bg)
        {
          RewrittenTransitive(g0[b][a], mid[b][a], m.charGrid[b][a], fg, bg);
        }
        y := y + if y < toY then 1 else -1;
      }
    }

    /** One step of the horizontal leg of connectRooms at (x, y): the cell
        itself turns from blank to floor or from side wall to door, and an
        edge wall just above or below turns to a door. */
    method CrossRow(m: Map, x: int, y: int, fg: string, bg: string)
      requires Fits(m)
      modifies m`charGrid
      ensures Fits(m)
      ensures forall b, a :: m.InRange(a, b) ==> Rewritten(old(m.charGrid[b][a]), m.charGrid[b][a], fg, bg)
      ensures forall b, a :: m.InRange(a, b) && (a != x || b < y - 1 || y + 1 < b) ==> m.charGrid[b][a] == old(m.charGrid[b][a])
      ensures forall b, a :: m.InRange(a, b) && old(m.charGrid[b][a]).ch != Blank ==> m.charGrid[b][a].ch != Blank
      ensures m.InRange(x, y) ==> m.charGrid[y][x].ch != Blank
    {
      TileCharsDistinct();
      if y >= 0 && y < gridHeight && x >= 0 && x < gridWidth {
        ghost var g0 := m.charGrid;
        Retile(m, x, y, Blank, Floor, fg, bg, x, x, y - 1, y + 1);
        ghost var g1 := m.charGrid;
        Retile(m, x, y, Vertical, Door, fg, bg, x, x, y - 1, y + 1);
        ghost var g2 := m.charGrid;
        Retile(m, x, y + 1, Horizontal, Door, fg, bg, x, x, y - 1, y + 1);
        ghost var g3 := m.charGrid;
        Retile(m, x, y - 1, Horizontal, Door, fg, bg, x, x, y - 1, y + 1);
        RetiledTwice(g1, g2, g3, x, x, y - 1, y + 1, fg, bg);
        RetiledTwice(g1, g3, m.charGrid, x, x, y - 1, y + 1, fg, bg);
        RetiledTwice(g0, g1, m.charGrid, x, x, y - 1, y + 1, fg, bg);
        RetiledKeepsNonBlank(g0, m.charGrid, x, x, y - 1, y + 1, fg, bg);
        RetiledKeepsNonBlank(g1, m.charGrid, x, x, y - 1, y + 1, fg, bg);
      }
    }

    /** One rewrite step of connectRooms: the tile at (x, y), when it is on
        the grid and shows `from`, is set to `to` in the drawing colours.
        The box (lx..hx, ly..hy) around (x, y) bounds what may change. */
    method Retile(m: Map, x: int, y: int, from: string, to: string, fg: string, bg: string,
                  ghost lx: int, ghost hx: int, ghost ly: int, ghost hy: int)
      requires Fits(m) && lx <= x <= hx && ly <= y <= hy
      requires (from == Blank && to == Floor) || ((from == Vertical || from == Horizontal) && to == Door)
      modifies m`charGrid
      ensures Fits(m) && RetiledIn(old(m.charGrid), m.charGrid, lx, hx, ly, hy, fg, bg)
      ensures m.InRange(x, y) ==>
                m.charGrid[y][x] == if old(m.charGrid[y][x]).ch == from then Tile(to, fg, bg) else old(m.charGrid[y][x])
    {
      if y >= 0 && y < gridHeight && x >= 0 && x < gridWidth && m.GetTile(x, y).ch == from {
        m.SetTile(x, y, Tile(to, fg, bg));
      }
    }

    /** One step of the vertical leg of connectRooms at (x, y): the cell
        itself turns from blank to floor or from edge wall to door, and a
        side wall just left or right turns to a door. */
    method CrossColumn(m: Map, x: int, y: int, fg: string, bg: string)
      requires Fits(m)
      modifies m`charGrid
      ensures Fits(m)
      ensures forall b, a :: m.InRange(a, b) ==> Rewritten(old(m.charGrid[b][a]), m.charGrid[b][a], fg, bg)
      ensures forall b, a :: m.InRange(a, b) && (b != y || a < x - 1 || x + 1 < a) ==> m.charGrid[b][a] == old(m.charGrid[b][a])
      ensures forall b, a :: m.InRange(a, b) && old(m.charGrid[b][a]).ch != Blank ==> m.charGrid[b][a].ch != Blank
      ensures m.InRange(x, y) ==> m.charGrid[y][x].ch != Blank
    {
      TileCharsDistinct();
      if y >= 0 && y < gridHeight && x >= 0 && x < gridWidth {
        ghost var g0 := m.charGrid;
        Retile(m, x, y, Blank, Floor, fg, bg, x - 1, x + 1, y, y);
        ghost var g1 := m.charGrid;
        Retile(m, x, y, Horizontal, Door, fg, bg, x - 1, x + 1, y, y);
        ghost var g2 := m.charGrid;
        Retile(m, x + 1, y, Vertical, Door, fg, bg, x - 1, x + 1, y, y);
        ghost var g3 := m.charGrid;
        Retile(m, x - 1, y, Vertical, Door, fg, bg, x - 1, x + 1, y, y);
        RetiledTwice(g1, g2, g3, x - 1, x + 1, y, y, fg, bg);
        RetiledTwice(g1, g3, m.charGrid, x - 1, x + 1, y, y, fg, bg);
        RetiledTwice(g0, g1, m.charGrid, x - 1, x + 1, y, y, fg, bg);
        RetiledKeepsNonBlank(g0, m.charGrid, x - 1, x + 1, y, y, fg, bg);
        RetiledKeepsNonBlank(g1, m.charGrid, x - 1, x + 1, y, y, fg, bg);
      }
    }

    /** The last pass of generateLevel: every blank cell becomes wall in the
        drawing colours; every other cell is kept. */
    method FillBlanks(m: Map, fg: string, bg: string)
      requires Fits(m)
      modifies m`charGrid
      ensures Fits(m)
      ensures forall b, a :: m.InRange(a, b) ==>
                m.charGrid[b][a] == if old(m.charGrid[b][a]).ch == Blank then Tile(Wall, fg, bg) else old(m.charGrid[b][a])
    {
      ghost var g0: seq<seq<Tile>> := m.charGrid;
      for y := 0 to gridHeight
        invariant Fits(m)
        invariant forall b, a :: m.InRange(a, b) ==>
                    m.charGrid[b][a] == if b < y && g0[b][a].ch == Blank then Tile(Wall, fg, bg) else g0[b][a]
      {
        for x := 0 to gridWidth
          invariant Fits(m)
          invariant forall b, a :: m.InRange(a, b) ==>
                      m.charGrid[b][a] == if (b < y || (b == y && a < x)) && g0[b][a].ch == Blank then Tile(Wall, fg, bg) else g0[b][a]
        {
          if m.GetTile(x, y).ch == Blank {
            m.SetTile(x, y, Tile(Wall, fg, bg));
          }
        }
      }
    }

    /** generateLevel: places up to NumRooms(rNum) rooms from the random
        `draws`, none overlapping an earlier one, draws each, joins each to
        the next by a corridor and fills what is left blank with wall. No
        blank cell remains, and every cell it changes gets the drawing
        colours. */
    method GenerateLevel(m: Map, fg: string, bg: string, rNum: real, draws: seq<Draw>) returns (rooms: seq<Room>)
      requires Fits(m) && 0.0 <= rNum < 1.0
      modifies m`charGrid
      ensures Fits(m)
      ensures |rooms| <= NumRooms(rNum) && Separated(rooms)
      ensures forall b, a :: m.InRange(a, b) ==> m.charGrid[b][a].ch != Blank
      ensures forall b, a :: m.InRange(a, b) ==>
                m.charGrid[b][a] == old(m.charGrid[b][a]) || (m.charGrid[b][a].fg == fg && m.charGrid[b][a].bg == bg)
    {
      ghost var g0 := m.charGrid;
      var numRooms := NumRooms(rNum);
      rooms := [];
      var rest := draws;
      var i := 0;
      while i < numRooms
        invariant Fits(m) && |rooms| <= i && (i <= numRooms || i == 0) && Separated(rooms)
        invariant forall b, a :: m.InRange(a, b) ==> Painted(g0[b][a], m.charGrid[b][a], fg, bg)
        decreases numRooms - i
      {
        var room, used := PlaceRoom(rooms, rest);
        rest := rest[used..];
        if room.None? {
          break;
        }
        DrawRoom(m, room.value.x1, room.value.y1, room.value.x2, room.value.y2, fg, bg);
        rooms := rooms + [room.value];
        i := i + 1;
      }
      for k := 0 to if |rooms| == 0 then 0 else |rooms| - 1
        invariant Fits(m)
        invariant forall b, a :: m.InRange(a, b) ==> Painted(g0[b][a], m.charGrid[b][a], fg, bg)
      {
        ConnectRooms(m, rooms[k], rooms[k + 1], fg, bg);
      }
      FillBlanks(m, fg, bg);
      TileCharsDistinct();
    }
  }

  /** A cell is either as it was or in the drawing colours. */
  predicate Painted(before: Tile, after: Tile, fg: string, bg: string) {
    after == before || (after.fg == fg && after.bg == bg)
  }

  /** g2 is g1 after corridor rewrites of cells in the box lx..hx by
      ly..hy only. */
  ghost predicate RetiledIn(g1: seq<seq<Tile>>, g2: seq<seq<Tile>>, lx: int, hx: int, ly: int, hy: int,
                            fg: string, bg: string) {
    IsGrid(g1, 20, 20) && IsGrid(g2, 20, 20) &&
    forall b, a :: 0 <= b < 20 && 0 <= a < 20 ==>
      Rewritten(g1[b][a], g2[b][a], fg, bg) && (g2[b][a] == g1[b][a] || (lx <= a <= hx && ly <= b <= hy))
  }

  /** Rewrites inside one box compose. */
  lemma RetiledTwice(g0: seq<seq<Tile>>, g1: seq<seq<Tile>>, g2: seq<seq<Tile>>, lx: int, hx: int, ly: int, hy: int,
                     fg: string, bg: string)
    requires RetiledIn(g0, g1, lx, hx, ly, hy, fg, bg) && RetiledIn(g1, g2, lx, hx, ly, hy, fg, bg)
    ensures RetiledIn(g0, g2, lx, hx, ly, hy, fg, bg)
  {
    forall b, a | 0 <= b < 20 && 0 <= a < 20
      ensures Rewritten(g0[b][a], g2[b][a], fg, bg)
    {
      RewrittenTransitive(g0[b][a], g1[b][a], g2[b][a], fg, bg);
    }
  }

  /** Corridor rewrites never blank a cell. */
  lemma RetiledKeepsNonBlank(g1: seq<seq<Tile>>, g2: seq<seq<Tile>>, lx: int, hx: int, ly: int, hy: int,
                             fg: string, bg: string)
    requires RetiledIn(g1, g2, lx, hx, ly, hy, fg, bg)
    ensures forall b, a :: 0 <= b < 20 && 0 <= a < 20 && g1[b][a].ch != Blank ==> g2[b][a].ch != Blank
  {
    TileCharsDistinct();
  }

  /** Corridor rewrites compose: floor and doors are never rewritten. */
  lemma RewrittenTransitive(t0: Tile, t1: Tile, t2: Tile, fg: string, bg: string)
    requires Rewritten(t0, t1, fg, bg) && Rewritten(t1, t2, fg, bg)
    ensures Rewritten(t0, t2, fg, bg)
  {
    TileCharsDistinct();
  }

  /** The characters the generator writes differ from the blank and from
      each other where it matters. */
  lemma TileCharsDistinct()
    ensures Floor != Blank && Door != Blank && Wall != Blank
    ensures Floor != Vertical && Floor != Horizontal && Door != Vertical && Door != Horizontal
  {
    assert Floor[0] != Blank[0] && Door[0] != Blank[0] && Wall[0] != Blank[0];
    assert Floor[0] != Vertical[0] && Floor[0] != Horizontal[0] && Door[0] != Vertical[0] && Door[0] != Horizontal[0];
  }

  /** The overlap test does not depend on which room comes first. */
  lemma OverlapSymmetric(x1: int, y1: int, w1: int, h1: int, x2: int, y2: int, w2: int, h2: int)
    ensures DoRectsOverlap(x1, y1, w1, h1, x2, y2, w2, h2) <==> DoRectsOverlap(x2, y2, w2, h2, x1, y1, w1, h1)
  {
  }

  /** The test is on closed boxes: two rooms overlap exactly when their
      column ranges and their row ranges meet, so rooms sharing only an
      edge or a corner overlap. */
  lemma OverlapMeansRangesMeet(x1: int, y1: int, w1: int, h1: int, x2: int, y2: int, w2: int, h2: int)
    requires w1 >= 0 && h1 >= 0 && w2 >= 0 && h2 >= 0
    ensures DoRectsOverlap(x1, y1, w1, h1, x2, y2, w2, h2) <==>
            Max(x1, x2) <= Min(x1 + w1, x2 + w2) && Max(y1, y2) <= Min(y1 + h1, y2 + h2)
  {
  }

  /** generateLevel draws three, four or five rooms. */
  lemma NumRoomsRange(r: real)
    requires 0.0 <= r < 1.0
    ensures 3 <= NumRooms(r) <= 5
  {
  }

  /** floor(r * n) is one of 0 .. n - 1 for 0 <= r < 1. */
  lemma FloorOfFraction(r: real, n: int)
    requires 0.0 <= r < 1.0 && 1 <= n
    ensures 0 <= (r * n as real).Floor <= n - 1
  {
    assert n as real - r * n as real == (1.0 - r) * n as real;
    assert (1.0 - r) * n as real > 0.0 by {
      ProductBothPositive(1.0 - r, n as real);
    }
    assert r * n as real >= 0.0 by {
      ProductNonNegative(r, n as real);
    }
  }

  lemma ProductBothPositive(a: real, b: real)
    requires a > 0.0 && b > 0.0
    ensures a * b > 0.0
  {
  }

  lemma ProductNonNegative(a: real, b: real)
    requires a >= 0.0 && b >= 0.0
    ensures a * b >= 0.0
  {
  }

  /** On a grid of at least 11 columns and 9 rows a random room is 4 to 9
      cells wide, 3 to 7 high, and lies in the grid with a free last column
      and row. */
  lemma RoomFromRandomsFits(gridWidth: int, gridHeight: int, d: Draw)
    requires UnitDraw(d) && gridWidth >= 11 && gridHeight >= 9
    ensures var r := RoomOf(gridWidth, gridHeight, d);
            4 <= r.x2 - r.x1 <= 9 && 3 <= r.y2 - r.y1 <= 7 &&
            0 <= r.x1 && r.x2 <= gridWidth - 2 && 0 <= r.y1 && r.y2 <= gridHeight - 2
  {
    FloorOfFraction(d.rw, 6);
    FloorOfFraction(d.rh, 5);
    var width := 4 + (d.rw * 6.0).Floor;
    var height := 3 + (d.rh * 5.0).Floor;
    FloorOfFraction(d.rx, gridWidth - width - 1);
    FloorOfFraction(d.ry, gridHeight - height - 1);
  }

  /** A room draws exactly the cells of its box, corners included. */
  lemma RoomCoversItsBox(a: int, b: int, sX: int, sY: int, eX: int, eY: int)
    requires sX <= eX && sY <= eY
    ensures RoomChar(a, b, sX, sY, eX, eY).Some? <==> sX <= a <= eX && sY <= b <= eY
  {
  }

  /** In a room at least two cells each way the corners get their corner
      characters, the edges between them horizontal and vertical walls, and
      the inside floor. */
  lemma RoomShape(a: int, b: int, sX: int, sY: int, eX: int, eY: int)
    requires sX < eX && sY < eY
    ensures a == sX && b == sY ==> RoomChar(a, b, sX, sY, eX, eY) == Some(TopLeft)
    ensures a == eX && b == sY ==> RoomChar(a, b, sX, sY, eX, eY) == Some(TopRight)
    ensures a == sX && b == eY ==> RoomChar(a, b, sX, sY, eX, eY) == Some(BottomLeft)
    ensures a == eX && b == eY ==> RoomChar(a, b, sX, sY, eX, eY) == Some(BottomRight)
    ensures sX < a < eX && (b == sY || b == eY) ==> RoomChar(a, b, sX, sY, eX, eY) == Some(Horizontal)
    ensures sY < b < eY && (a == sX || a == eX) ==> RoomChar(a, b, sX, sY, eX, eY) == Some(Vertical)
    ensures RoomChar(a, b, sX, sY, eX, eY) == Some(Floor) <==> sX < a < eX && sY < b < eY
  {
    TileCharsDistinct();
    assert Horizontal[0] != Floor[0] && Vertical[0] != Floor[0];
    assert TopLeft[0] != Floor[0] && TopRight[0] != Floor[0] && BottomLeft[0] != Floor[0] && BottomRight[0] != Floor[0];
  }

  /** A room one cell high is a single row: its end cells take the bottom
      corners, which are drawn last. */
  lemma FlatRoomTakesBottomCorners(sX: int, eX: int, y: int)
    requires sX < eX
    ensures RoomChar(sX, y, sX, y, eX, y) == Some(BottomLeft)
    ensures RoomChar(eX, y, sX, y, eX, y) == Some(BottomRight)
  {
  }
}
