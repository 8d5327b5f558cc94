/** The elevation board of the isometric editor, isometric/src/world.ts.
    The board is a grid of elevations indexed board[y][x].  The texture the
    editor can load is a grid of colour strings read through getTexel; here
    it is a value holding its size and a colour per pixel. */
module Worlds {
  import opened Wrappers

  /** A board cell, as TileCoordinates (boardX, boardY). */
  datatype Point = Point(x: int, y: int)

  /** The loaded texture canvas: its size and the colour of each pixel. */
  datatype Texture = Texture(width: int, height: int, pixel: (int, int) -> string)

  /** The three kinds of elevation edit of TileEditType. */
  datatype TileEditType = Single | Global | Flood

  /** What getTexel answers without a texture or outside it. */
  const Black: string := "#000000"

  /** The board's default size. */
  const DefaultSize: int := 16

  /** getTexel on a given texture. */
  function TexelOf(texture: Option<Texture>, x: int, y: int): string {
    match texture
    case None => Black
    case Some(t) =>
      if x < 0 || x >= t.width || y < 0 || y >= t.height then Black else t.pixel(x, y)
  }

  /** Math.max(0, e). */
  function Max0(e: int): (r: int)
    ensures r >= 0 && r >= e && (r == 0 || r == e)
  {
    if e < 0 then 0 else e
  }

  /** `width` columns in each of `height` rows, all zero. */
  function ZeroBoard(width: int, height: int): (b: seq<seq<int>>)
    ensures |b| == if height < 0 then 0 else height
    ensures forall y :: 0 <= y < |b| ==> |b[y]| == (if width < 0 then 0 else width)
    ensures forall y, x :: 0 <= y < |b| && 0 <= x < |b[y]| ==> b[y][x] == 0
  {
    var w := if width < 0 then 0 else width;
    var h := if height < 0 then 0 else height;
    seq(h, _ => seq(w, _ => 0))
  }

  /** A board with at least one row, all rows as long as the first. */
  ghost predicate Rectangular(b: seq<seq<int>>) {
    |b| >= 1 && forall y :: 0 <= y < |b| ==> |b[y]| == |b[0]|
  }

  ghost predicate NonNegative(b: seq<seq<int>>) {
    forall y, x :: 0 <= y < |b| && 0 <= x < |b[y]| ==> b[y][x] >= 0
  }

  /** The board with cell (x, y) set to e. */
  function Updated(b: seq<seq<int>>, x: int, y: int, e: int): seq<seq<int>>
    requires 0 <= y < |b| && 0 <= x < |b[y]|
  {
    b[y := b[y][x := e]]
  }

  /** The board with every cell in `cells` raised by delta, floored at 0. */
  function Raised(b: seq<seq<int>>, cells: set<Point>, delta: int): (r: seq<seq<int>>)
    ensures |r| == |b| && forall y :: 0 <= y < |b| ==> |r[y]| == |b[y]|
  {
    seq(|b|, y requires 0 <= y < |b| => seq(|b[y]|, x requires 0 <= x < |b[y]| =>
      if Point(x, y) in cells then Max0(b[y][x] + delta) else b[y][x]))
  }

  /** The clockwise rotation: new[i][j] = old[H-1-j][i]. */
  function RotatedCw(b: seq<seq<int>>): (r: seq<seq<int>>)
    requires Rectangular(b)
    ensures |r| == |b[0]| && forall i :: 0 <= i < |r| ==> |r[i]| == |b|
  {
    seq(|b[0]|, i requires 0 <= i < |b[0]| => seq(|b|, j requires 0 <= j < |b| => b[|b| - 1 - j][i]))
  }

  /** The counter-clockwise rotation: new[i][j] = old[j][W-1-i]. */
  function RotatedCcw(b: seq<seq<int>>): (r: seq<seq<int>>)
    requires Rectangular(b)
    ensures |r| == |b[0]| && forall i :: 0 <= i < |r| ==> |r[i]| == |b|
  {
    seq(|b[0]|, i requires 0 <= i < |b[0]| => seq(|b|, j requires 0 <= j < |b| => b[j][|b[0]| - 1 - i]))
  }

  /** The texture canvas turned by a quarter clockwise, as the canvas
      rotation in rotateWorld draws it: the pixel landing on (x, y) is the
      one the board rotation moves there. */
  function TextureCw(t: Texture): Texture {
    Texture(t.height, t.width, (x, y) => t.pixel(y, t.height - 1 - x))
  }

  function TextureCcw(t: Texture): Texture {
    Texture(t.height, t.width, (x, y) => t.pixel(t.width - 1 - y, x))
  }

  /** Two cells that share an edge. */
  predicate Adjacent(a: Point, b: Point) {
    (a.x == b.x && (a.y == b.y + 1 || a.y + 1 == b.y)) ||
    (a.y == b.y && (a.x == b.x + 1 || a.x + 1 == b.x))
  }

  /** A cell the flood may spread to: in a width by height board, with
      the target texel. */
  predicate FloodableIn(n: Point, width: int, height: int, texture: Option<Texture>, target: string) {
    0 <= n.x < width && 0 <= n.y < height && TexelOf(texture, n.x, n.y) == target
  }

  /** What floodIter promises of the cells it calls op on, in call order:
      they start at `start`, never repeat, each later cell is floodable and
      touches an earlier one, and every floodable neighbour of a called
      cell is called too. */
  ghost predicate FloodOrder(calls: seq<Point>, start: Point, width: int, height: int, texture: Option<Texture>) {
    var target := TexelOf(texture, start.x, start.y);
    |calls| > 0 && calls[0] == start &&
    (forall i, j :: 0 <= i < j < |calls| ==> calls[i] != calls[j]) &&
    (forall i :: 0 < i < |calls| ==>
       FloodableIn(calls[i], width, height, texture, target) &&
       exists j :: 0 <= j < i && Adjacent(calls[j], calls[i])) &&
    (forall c, n :: c in calls && Adjacent(c, n) && FloodableIn(n, width, height, texture, target) ==> n in calls)
  }

  /** Every called cell after the first is floodable and touches an
      earlier one. */
  ghost predicate Spanning(calls: seq<Point>, width: int, height: int, texture: Option<Texture>, target: string) {
    forall i :: 0 < i < |calls| ==>
      FloodableIn(calls[i], width, height, texture, target) &&
      exists j :: 0 <= j < i && Adjacent(calls[j], calls[i])
  }

  /** Every cell waiting on the stack, but the start, is floodable and
      touches a called cell. */
  ghost predicate StackFed(stack: seq<Point>, calls: seq<Point>, start: Point, width: int, height: int,
                           texture: Option<Texture>, target: string) {
    forall m :: m in stack && m != start ==>
      FloodableIn(m, width, height, texture, target) &&
      exists j :: 0 <= j < |calls| && Adjacent(calls[j], m)
  }

  /** Every floodable neighbour of a visited cell is visited or waiting. */
  ghost predicate ClosedUpTo(visited: set<Point>, stack: seq<Point>, width: int, height: int,
                             texture: Option<Texture>, target: string) {
    forall c, n :: c in visited && Adjacent(c, n) && FloodableIn(n, width, height, texture, target) ==>
      n in visited || n in stack
  }

  /** The loop invariant of floodIter. */
  ghost predicate FloodInvariant(calls: seq<Point>, stack: seq<Point>, visited: set<Point>, start: Point,
                                 cand: set<Point>, width: int, height: int, texture: Option<Texture>, target: string) {
    visited == Elements(calls) && visited <= cand &&
    (forall m :: m in stack ==> m in cand) &&
    (|calls| == 0 ==> stack == [start]) &&
    (|calls| > 0 ==> calls[0] == start) &&
    (forall i, j :: 0 <= i < j < |calls| ==> calls[i] != calls[j]) &&
    Spanning(calls, width, height, texture, target) &&
    StackFed(stack, calls, start, width, height, texture, target) &&
    ClosedUpTo(visited, stack, width, height, texture, target)
  }

  /** Popping a visited cell keeps the invariant. */
  lemma SkipKeeps(calls: seq<Point>, popped: seq<Point>, stack: seq<Point>, visited: set<Point>, start: Point,
                  cand: set<Point>, width: int, height: int, texture: Option<Texture>, target: string, c: Point)
    requires FloodInvariant(calls, popped, visited, start, cand, width, height, texture, target)
    requires popped == stack + [c] && c in visited
    ensures FloodInvariant(calls, stack, visited, start, cand, width, height, texture, target)
  {
    ClosedAfterSkip(visited, stack, c, width, height, texture, target);
    StackFedShrinks(popped, stack, calls, start, width, height, texture, target);
  }

  /** An empty stack leaves the promise of floodIter. */
  lemma FloodDone(calls: seq<Point>, visited: set<Point>, start: Point, cand: set<Point>,
                  width: int, height: int, texture: Option<Texture>, target: string)
    requires FloodInvariant(calls, [], visited, start, cand, width, height, texture, target)
    requires target == TexelOf(texture, start.x, start.y)
    ensures FloodOrder(calls, start, width, height, texture)
  {
  }

  lemma ClosedAfterSkip(visited: set<Point>, stack: seq<Point>, c: Point, width: int, height: int,
                        texture: Option<Texture>, target: string)
    requires c in visited && ClosedUpTo(visited, stack + [c], width, height, texture, target)
    ensures ClosedUpTo(visited, stack, width, height, texture, target)
  {
  }

  lemma StackFedShrinks(popped: seq<Point>, stack: seq<Point>, calls: seq<Point>, start: Point,
                        width: int, height: int, texture: Option<Texture>, target: string)
    requires StackFed(popped, calls, start, width, height, texture, target)
    requires forall m :: m in stack ==> m in popped
    ensures StackFed(stack, calls, start, width, height, texture, target)
  {
  }

  /** A popped cell that is not the start is floodable and touches a
      called cell. */
  lemma StackFedPopped(popped: seq<Point>, calls: seq<Point>, start: Point, c: Point,
                       width: int, height: int, texture: Option<Texture>, target: string)
    requires StackFed(popped, calls, start, width, height, texture, target) && c in popped && c != start
    ensures FloodableIn(c, width, height, texture, target) && exists j :: 0 <= j < |calls| && Adjacent(calls[j], c)
  {
  }

  lemma SpanningAppend(calls: seq<Point>, c: Point, start: Point, width: int, height: int,
                       texture: Option<Texture>, target: string)
    requires Spanning(calls, width, height, texture, target)
    requires |calls| > 0 ==>
               FloodableIn(c, width, height, texture, target) && exists j :: 0 <= j < |calls| && Adjacent(calls[j], c)
    ensures Spanning(calls + [c], width, height, texture, target)
  {
    var s := calls + [c];
    forall i | 0 < i < |s|
      ensures FloodableIn(s[i], width, height, texture, target) && exists j :: 0 <= j < i && Adjacent(s[j], s[i])
    {
      if i < |calls| {
        var j :| 0 <= j < i && Adjacent(calls[j], calls[i]);
        assert s[j] == calls[j];
      } else {
        var j :| 0 <= j < |calls| && Adjacent(calls[j], c);
        assert s[j] == calls[j];
      }
    }
  }

  lemma StackFedAfterPush(popped: seq<Point>, stack0: seq<Point>, pushed: seq<Point>, calls0: seq<Point>, c: Point,
                          start: Point, width: int, height: int, texture: Option<Texture>, target: string)
    requires StackFed(popped, calls0, start, width, height, texture, target)
    requires forall m :: m in stack0 ==> m in popped
    requires forall m :: m in pushed ==> m in stack0 || (FloodableIn(m, width, height, texture, target) && Adjacent(c, m))
    ensures StackFed(pushed, calls0 + [c], start, width, height, texture, target)
  {
    var calls := calls0 + [c];
    forall m | m in pushed && m != start
      ensures FloodableIn(m, width, height, texture, target) && exists j :: 0 <= j < |calls| && Adjacent(calls[j], m)
    {
      if m in stack0 {
        var j :| 0 <= j < |calls0| && Adjacent(calls0[j], m);
        assert calls[j] == calls0[j];
      } else {
        assert Adjacent(calls[|calls0|], m);
      }
    }
  }

  lemma ClosedAfterVisit(visited0: set<Point>, stack0: seq<Point>, c: Point, pushed: seq<Point>,
                         width: int, height: int, texture: Option<Texture>, target: string)
    requires ClosedUpTo(visited0, stack0 + [c], width, height, texture, target)
    requires forall m :: m in stack0 ==> m in pushed
    requires forall n :: Adjacent(c, n) && FloodableIn(n, width, height, texture, target) ==>
               n in visited0 + {c} || n in pushed
    ensures ClosedUpTo(visited0 + {c}, pushed, width, height, texture, target)
  {
  }

  /** A walk from `start` through floodable cells, one edge at a time. */
  ghost predicate FloodPath(p: seq<Point>, start: Point, width: int, height: int, texture: Option<Texture>) {
    var target := TexelOf(texture, start.x, start.y);
    |p| > 0 && p[0] == start &&
    forall i :: 0 < i < |p| ==> FloodableIn(p[i], width, height, texture, target) && Adjacent(p[i - 1], p[i])
  }

  class World {
    var board: seq<seq<int>>
    /** textureCanvas and textureCtx, which are set and cleared together. */
    var texture: Option<Texture>
    var usingTexture: bool
    var hoveredTile: Option<Point>
    var currentCenter: Option<Point>

    ghost predicate Valid()
      reads this`board
    {
      Rectangular(board)
    }

    function Width(): int
      requires Valid()
      reads this`board
    {
      |board[0]|
    }

    function Height(): int
      requires Valid()
      reads this`board
    {
      |board|
    }

    predicate InBounds(x: int, y: int)
      requires Valid()
      reads this`board
    {
      0 <= x < Width() && 0 <= y < Height()
    }

    /** A fresh `width` by `height` board without a texture. */
    constructor(width: int, height: int)
      ensures board == ZeroBoard(width, height) && (height >= 1 ==> Valid())
      ensures texture.None? && !usingTexture && hoveredTile.None? && currentCenter.None?
    {
      texture := None;
      usingTexture := false;
      hoveredTile := None;
      currentCenter := None;
      new;
      InitBoard(width, height);
    }

    /** initBoard: `height` rows of `width` zeros, built row by row. */
    method InitBoard(width: int, height: int)
      modifies this`board
      ensures board == ZeroBoard(width, height)
      ensures height >= 1 ==> Valid()
    {
      var b: seq<seq<int>> := [];
      var y := 0;
      while y < height
        invariant 0 <= y && (height >= 0 ==> y <= height) && (height < 0 ==> y == 0)
        invariant b == ZeroBoard(width, y)
      {
        var row: seq<int> := [];
        var x := 0;
        while x < width
          invariant 0 <= x && (width >= 0 ==> x <= width) && (width < 0 ==> x == 0)
          invariant |row| == (if x < 0 then 0 else x) && forall i :: 0 <= i < |row| ==> row[i] == 0
        {
          row := row + [0];
          x := x + 1;
        }
        ZeroBoardGrows(width, y, b, row);
        b := b + [row];
        y := y + 1;
      }
      if height < 0 {
        assert |ZeroBoard(width, height)| == 0;
      }
      board := b;
    }

    /** getTile: the elevation of an in-bounds cell, nothing elsewhere. */
    function GetTile(boardX: int, boardY: int): (r: Option<int>)
      requires Valid()
      reads this`board
      ensures r.Some? <==> InBounds(boardX, boardY)
      ensures r.Some? ==> r.value == board[boardY][boardX]
    {
      if boardX >= 0 && boardX < |board[0]| && boardY >= 0 && boardY < |board| then
        Some(board[boardY][boardX])
      else None
    }

    /** setTile: writes an in-bounds cell; out of bounds nothing changes. */
    method SetTile(boardX: int, boardY: int, elevation: int)
      requires Valid()
      modifies this`board
      ensures Valid() && Width() == old(Width()) && Height() == old(Height())
      ensures InBounds(boardX, boardY) ==> board == Updated(old(board), boardX, boardY, elevation)
      ensures !InBounds(boardX, boardY) ==> board == old(board)
    {
      if boardX >= 0 && boardX < |board[0]| && boardY >= 0 && boardY < |board| {
        board := board[boardY := board[boardY][boardX := elevation]];
      }
    }

    function GetHoveredTile(): Option<Point>
      reads this`hoveredTile
    {
      hoveredTile
    }

    function Texel(x: int, y: int): string
      reads this`texture
    {
      TexelOf(texture, x, y)
    }

    /** getActualCenter: the middle cell, rounded down. */
    function GetActualCenter(): (c: Point)
      requires Valid()
      reads this`board
      ensures 0 <= 2 * c.x <= Width() && Width() - 2 < 2 * c.x
      ensures 0 <= 2 * c.y <= Height() && Height() - 2 < 2 * c.y
      ensures InBounds(c.x, c.y) <==> Width() > 0
    {
      Point(Width() / 2, Height() / 2)
    }

    /** getCurrentCenter: the centre the user moved to, else the middle. */
    function GetCurrentCenter(): (c: Point)
      requires Valid()
      reads this`board, this`currentCenter
      ensures currentCenter.Some? ==> c == currentCenter.value
      ensures currentCenter.None? ==> c == GetActualCenter()
    {
      if currentCenter.Some? then currentCenter.value else GetActualCenter()
    }

    /** moveCenter: shifts the current centre, rounding down. */
    method MoveCenter(deltaX: real, deltaY: real)
      requires Valid()
      modifies this`currentCenter
      ensures var c := old(GetCurrentCenter());
              currentCenter == Some(Point((c.x as real + deltaX).Floor, (c.y as real + deltaY).Floor))
    {
      var center: Point;
      if currentCenter.None? {
        center := GetActualCenter();
        currentCenter := Some(center);
      } else {
        center := currentCenter.value;
      }
      var x := (center.x as real + deltaX).Floor;
      var y := (center.y as real + deltaY).Floor;
      currentCenter := Some(Point(x, y));
    }

    method Recenter()
      requires Valid()
      modifies this`currentCenter
      ensures currentCenter == Some(GetActualCenter())
    {
      currentCenter := Some(GetActualCenter());
    }

    /** changeElevation: a Single edit raises one cell, a Global edit every
        cell whose texel matches the chosen cell's, a Flood edit the cells
        the flood fill reaches; elevations never go below 0. */
    method ChangeElevation(boardX: int, boardY: int, delta: int, operation: TileEditType)
      returns (ghost flooded: seq<Point>)
      requires Valid()
      modifies this`board
      ensures Valid() && Width() == old(Width()) && Height() == old(Height())
      ensures operation == Single && InBounds(boardX, boardY) ==>
                board == Updated(old(board), boardX, boardY, Max0(old(board)[boardY][boardX] + delta))
      ensures operation == Single && !InBounds(boardX, boardY) ==> board == old(board)
      ensures operation == Global && !usingTexture ==> board == old(board)
      ensures operation == Global && usingTexture ==>
                board == Raised(old(board), SameTexel(Texel(boardX, boardY)), delta)
      ensures operation == Flood && texture.None? ==> board == old(board)
      ensures operation == Flood && texture.Some? ==>
                FloodOrder(flooded, Point(boardX, boardY), Width(), Height(), texture) &&
                board == Raised(old(board), Elements(flooded), delta)
      ensures NonNegative(old(board)) ==> NonNegative(board)
    {
      flooded := [];
      match operation {
        case Single =>
          var t := GetTile(boardX, boardY);
          // A missing tile reads as null, which adds as 0.
          var current := if t.Some? then t.value else 0;
          SetTile(boardX, boardY, Max0(current + delta));
        case Global =>
          if usingTexture {
            var targetColor := Texel(boardX, boardY);
            GlobalEdit(targetColor, delta);
          }
        case Flood =>
          var calls := FloodIter(boardX, boardY);
          ApplyRaise(calls, delta);
          flooded := calls;
          if texture.None? {
            assert Elements(calls) == {};
            RaisedNothing(old(board), delta);
          }
      }
    }

    /** The in-bounds cells whose texel is `color`. */
    ghost function SameTexel(color: string): set<Point>
      requires Valid()
      reads this`board, this`texture
    {
      set x, y | 0 <= x < Width() && 0 <= y < Height() && Texel(x, y) == color :: Point(x, y)
    }

    /** The Global edit's double loop over the board. */
    method GlobalEdit(targetColor: string, delta: int)
      requires Valid()
      modifies this`board
      ensures Valid() && board == Raised(old(board), SameTexel(targetColor), delta)
      ensures NonNegative(old(board)) ==> NonNegative(board)
    {
      ghost var b0 := board;
      ghost var cells := SameTexel(targetColor);
      var y := 0;
      while y < |board|
        invariant Valid() && |board| == |b0| && |board[0]| == |b0[0]| && 0 <= y <= |board|
        invariant forall j, i :: 0 <= j < |board| && 0 <= i < |board[j]| ==>
                    board[j][i] == if j < y then Raised(b0, cells, delta)[j][i] else b0[j][i]
      {
        var x := 0;
        while x < |board[0]|
          invariant Valid() && |board| == |b0| && |board[0]| == |b0[0]| && 0 <= x <= |board[0]|
          invariant forall j, i :: 0 <= j < |board| && 0 <= i < |board[j]| ==>
                      board[j][i] == if j < y || (j == y && i < x) then Raised(b0, cells, delta)[j][i] else b0[j][i]
        {
          if Texel(x, y) == targetColor {
            assert Point(x, y) in cells;
            SetTile(x, y, Max0(board[y][x] + delta));
          } else {
            assert Point(x, y) !in cells;
          }
          x := x + 1;
        }
        y := y + 1;
      }
      RowsEqual(board, Raised(b0, cells, delta));
      assert cells == SameTexel(targetColor);
      if NonNegative(b0) {
        RaisedNonNegative(b0, cells, delta);
      }
    }

    /** The flood edit: op applied to each cell floodIter visits, in order.
        The cells are distinct, so each is raised once from its old value. */
    method ApplyRaise(calls: seq<Point>, delta: int)
      requires Valid()
      requires forall i, j :: 0 <= i < j < |calls| ==> calls[i] != calls[j]
      modifies this`board
      ensures Valid() && board == Raised(old(board), Elements(calls), delta)
      ensures NonNegative(old(board)) ==> NonNegative(board)
    {
      ghost var b0 := board;
      RaisedNothing(b0, delta);
      assert Elements(calls[..0]) == {};
      for k := 0 to |calls|
        invariant Valid() && |board| == |b0| && |board[0]| == |b0[0]|
        invariant board == Raised(b0, Elements(calls[..k]), delta)
      {
        var c := calls[k];
        var t := GetTile(c.x, c.y);
        var current := if t.Some? then t.value else 0;
        ghost var before := Elements(calls[..k]);
        assert c !in before;
        SetTile(c.x, c.y, Max0(current + delta));
        assert calls[..k + 1] == calls[..k] + [c];
        ElementsAppend(calls[..k], c);
        RaisedStep(b0, before, c, delta, board);
      }
      assert calls[..|calls|] == calls;
      if NonNegative(b0) {
        RaisedNonNegative(b0, Elements(calls), delta);
      }
    }

    /** floodIter: the cells on which op is called, in call order; without
        a texture op is never called. */
    method FloodIter(boardX: int, boardY: int) returns (calls: seq<Point>)
      requires Valid()
      ensures texture.None? ==> calls == []
      ensures texture.Some? ==> FloodOrder(calls, Point(boardX, boardY), Width(), Height(), texture)
    {
      if texture.None? {
        return [];
      }
      var targetColor := Texel(boardX, boardY);
      var start := Point(boardX, boardY);
      ghost var cand := Cells() + {start};
      var visited: set<Point> := {};
      var stack := [start];
      calls := [];
      while |stack| > 0
        invariant FloodInvariant(calls, stack, visited, start, cand, Width(), Height(), texture, targetColor)
        decreases |cand - visited|, |stack|
      {
        var c := stack[|stack| - 1];
        ghost var popped := stack;
        stack := stack[..|stack| - 1];
        assert popped == stack + [c];
        if c in visited {
          SkipKeeps(calls, popped, stack, visited, start, cand, Width(), Height(), texture, targetColor, c);
          continue;
        }
        ghost var visited0 := visited;
        visited, stack, calls := Visit(c, calls, popped, stack, visited, start, cand, targetColor);
        assert cand - visited == (cand - visited0) - {c};
      }
      FloodDone(calls, visited, start, cand, Width(), Height(), texture, targetColor);
    }

    /** One visit of floodIter's loop: c is called and its floodable
        unvisited neighbours pushed. */
    method Visit(c: Point, calls: seq<Point>, ghost popped: seq<Point>, stack: seq<Point>, visited: set<Point>,
                 ghost start: Point, ghost cand: set<Point>, targetColor: string)
      returns (visited': set<Point>, stack': seq<Point>, calls': seq<Point>)
      requires Valid() && cand == Cells() + {start}
      requires targetColor == Texel(start.x, start.y)
      requires FloodInvariant(calls, popped, visited, start, cand, Width(), Height(), texture, targetColor)
      requires popped == stack + [c] && c !in visited
      ensures FloodInvariant(calls', stack', visited', start, cand, Width(), Height(), texture, targetColor)
      ensures visited' == visited + {c} && c in cand
    {
      ghost var w, h, tex := Width(), Height(), texture;
      if c != start {
        StackFedPopped(popped, calls, start, c, w, h, tex, targetColor);
      }
      SpanningAppend(calls, c, start, w, h, tex, targetColor);
      visited' := visited + {c};
      ElementsAppend(calls, c);
      calls' := calls + [c];
      stack' := PushNeighbors(c, visited', stack, targetColor);
      StackFedAfterPush(popped, stack, stack', calls, c, start, w, h, tex, targetColor);
      ClosedAfterVisit(visited, stack, c, stack', w, h, tex, targetColor);
      forall m | m in stack'
        ensures m in cand
      {
        if m !in stack {
          assert m in Cells();
        }
      }
    }

    /** The neighbour loop of floodIter: pushes, in order, each neighbour
        of c that is in bounds, not yet visited and of the target texel. */
    method PushNeighbors(c: Point, visited: set<Point>, stack: seq<Point>, targetColor: string)
      returns (pushed: seq<Point>)
      requires Valid()
      ensures forall m :: m in stack ==> m in pushed
      ensures forall m :: m in pushed ==> m in stack || (Floodable(m, targetColor) && Adjacent(c, m))
      ensures forall n :: Adjacent(c, n) && FloodableIn(n, Width(), Height(), texture, targetColor) ==>
                n in visited || n in pushed
    {
      var neighbors := [Point(c.x + 1, c.y), Point(c.x - 1, c.y), Point(c.x, c.y + 1), Point(c.x, c.y - 1)];
      pushed := stack;
      for k := 0 to 4
        invariant forall m :: m in stack ==> m in pushed
        invariant forall m :: m in pushed ==> m in stack || (Floodable(m, targetColor) && Adjacent(c, m))
        invariant forall q :: 0 <= q < k && Floodable(neighbors[q], targetColor) ==>
                    neighbors[q] in visited || neighbors[q] in pushed
      {
        var neighbor := neighbors[k];
        if neighbor.x >= 0 && neighbor.x < Width() && neighbor.y >= 0 && neighbor.y < Height() &&
           neighbor !in visited && Texel(neighbor.x, neighbor.y) == targetColor {
          pushed := pushed + [neighbor];
        }
      }
      assert forall n :: Adjacent(c, n) ==> n in neighbors;
    }

    /** Every in-bounds cell. */
    ghost function Cells(): set<Point>
      requires Valid()
      reads this`board
    {
      set x, y | 0 <= x < Width() && 0 <= y < Height() :: Point(x, y)
    }

    /** A cell the flood may spread to from a neighbour. */
    predicate Floodable(n: Point, targetColor: string)
      requires Valid()
      reads this`board, this`texture
    {
      FloodableIn(n, Width(), Height(), texture, targetColor)
    }

    /** rotateWorld: the board turned a quarter, the texture with it. */
    method RotateWorld(counterClockwise: bool)
      requires Valid()
      modifies this`board, this`texture
      ensures old(Width()) >= 1 ==> Valid() && Width() == old(Height()) && Height() == old(Width())
      ensures board == if counterClockwise then RotatedCcw(old(board)) else RotatedCw(old(board))
      ensures usingTexture && old(texture).Some? ==>
                texture == Some(if counterClockwise then TextureCcw(old(texture).value) else TextureCw(old(texture).value))
      ensures !(usingTexture && old(texture).Some?) ==> texture == old(texture)
    {
      if usingTexture && texture.Some? {
        texture := Some(if counterClockwise then TextureCcw(texture.value) else TextureCw(texture.value));
      }
      var newBoard: seq<seq<int>>;
      if !counterClockwise {
        newBoard := RotatedCw(board);
      } else {
        newBoard := RotatedCcw(board);
      }
      RotatedRectangular(board);
      board := newBoard;
    }

    /** setHoveredTile / clearHoveredTile. */
    method SetHoveredTile(x: int, y: int)
      modifies this`hoveredTile
      ensures GetHoveredTile() == Some(Point(x, y))
    {
      hoveredTile := Some(Point(x, y));
    }

    method ClearHoveredTile()
      modifies this`hoveredTile
      ensures GetHoveredTile().None?
    {
      hoveredTile := None;
    }

    /** setTexture: loads an image and starts a zero board of its size. */
    method SetTexture(img: Texture)
      modifies this`texture, this`usingTexture, this`board
      ensures texture == Some(img) && usingTexture && board == ZeroBoard(img.width, img.height)
      ensures img.height >= 1 ==> Valid()
    {
      texture := Some(img);
      usingTexture := true;
      InitBoard(img.width, img.height);
    }

    /** clearTexture. */
    method ClearTexture()
      modifies this`texture, this`usingTexture
      ensures texture.None? && !usingTexture
    {
      usingTexture := false;
      texture := None;
    }

    /** The event handler's reset: no texture and a default-sized board. */
    method Reset()
      modifies this`texture, this`usingTexture, this`board
      ensures texture.None? && !usingTexture && Valid()
      ensures board == ZeroBoard(DefaultSize, DefaultSize)
    {
      ClearTexture();
      InitBoard(DefaultSize, DefaultSize);
    }

    /** The event handler's bulk edit: Global or Flood. */
    method ChangeTileElevationBulk(x: int, y: int, delta: int, isGlobal: bool)
      returns (ghost flooded: seq<Point>)
      requires Valid()
      modifies this`board
      ensures Valid() && Width() == old(Width()) && Height() == old(Height())
      ensures isGlobal && !usingTexture ==> board == old(board)
      ensures isGlobal && usingTexture ==> board == Raised(old(board), SameTexel(Texel(x, y)), delta)
      ensures !isGlobal && texture.None? ==> board == old(board)
      ensures !isGlobal && texture.Some? ==>
                FloodOrder(flooded, Point(x, y), Width(), Height(), texture) &&
                board == Raised(old(board), Elements(flooded), delta)
      ensures NonNegative(old(board)) ==> NonNegative(board)
    {
      var op := if isGlobal then Global else Flood;
      flooded := ChangeElevation(x, y, delta, op);
    }
  }

  lemma RotatedRectangular(b: seq<seq<int>>)
    requires Rectangular(b)
    ensures |b[0]| >= 1 ==> Rectangular(RotatedCw(b)) && Rectangular(RotatedCcw(b))
  {
  }

  lemma ZeroBoardGrows(width: int, y: int, b: seq<seq<int>>, row: seq<int>)
    requires y >= 0 && b == ZeroBoard(width, y)
    requires |row| == (if width < 0 then 0 else width) && forall i :: 0 <= i < |row| ==> row[i] == 0
    ensures b + [row] == ZeroBoard(width, y + 1)
  {
    var z := ZeroBoard(width, y + 1);
    assert |b + [row]| == |z|;
    forall j | 0 <= j < |z|
      ensures (b + [row])[j] == z[j]
    {
      assert |(b + [row])[j]| == |z[j]|;
    }
  }

  /** The cells a sequence holds. */
  ghost function Elements(s: seq<Point>): set<Point> {
    set d | d in s
  }

  lemma ElementsAppend(s: seq<Point>, c: Point)
    ensures Elements(s + [c]) == Elements(s) + {c}
  {
  }

  /** Boards of equal shape and cells are equal. */
  lemma RowsEqual(a: seq<seq<int>>, b: seq<seq<int>>)
    requires |a| == |b| && forall y :: 0 <= y < |a| ==> |a[y]| == |b[y]|
    requires forall y, x :: 0 <= y < |a| && 0 <= x < |a[y]| ==> a[y][x] == b[y][x]
    ensures a == b
  {
    forall y | 0 <= y < |a|
      ensures a[y] == b[y]
    {
    }
  }

  /** Raising no cells changes nothing. */
  lemma RaisedNothing(b: seq<seq<int>>, delta: int)
    ensures Raised(b, {}, delta) == b
  {
    RowsEqual(Raised(b, {}, delta), b);
  }

  /** Raising keeps elevations non-negative. */
  lemma RaisedNonNegative(b: seq<seq<int>>, cells: set<Point>, delta: int)
    requires NonNegative(b)
    ensures NonNegative(Raised(b, cells, delta))
  {
  }

  /** Raising one more cell, not raised before, from its old value. */
  lemma RaisedStep(b0: seq<seq<int>>, before: set<Point>, c: Point, delta: int, after: seq<seq<int>>)
    requires c !in before
    requires 0 <= c.y < |b0| && 0 <= c.x < |b0[c.y]| ==>
               after == Updated(Raised(b0, before, delta), c.x, c.y, Max0(Raised(b0, before, delta)[c.y][c.x] + delta))
    requires !(0 <= c.y < |b0| && 0 <= c.x < |b0[c.y]|) ==> after == Raised(b0, before, delta)
    ensures after == Raised(b0, before + {c}, delta)
  {
    RowsEqual(after, Raised(b0, before + {c}, delta));
  }

  /** Every cell the flood calls op on is reached by a walk of floodable
      cells from the start. */
  lemma CalledCellsAreReachable(calls: seq<Point>, start: Point, width: int, height: int,
                                texture: Option<Texture>, i: nat) returns (p: seq<Point>)
    requires FloodOrder(calls, start, width, height, texture) && i < |calls|
    ensures FloodPath(p, start, width, height, texture) && p[|p| - 1] == calls[i]
    decreases i
  {
    if i == 0 {
      p := [start];
    } else {
      var j :| 0 <= j < i && Adjacent(calls[j], calls[i]);
      var q := CalledCellsAreReachable(calls, start, width, height, texture, j);
      p := q + [calls[i]];
      PathExtends(q, calls[i], start, width, height, texture);
    }
  }

  /** A walk of floodable cells extends by a floodable neighbour of its end. */
  lemma PathExtends(q: seq<Point>, c: Point, start: Point, width: int, height: int, texture: Option<Texture>)
    requires FloodPath(q, start, width, height, texture)
    requires FloodableIn(c, width, height, texture, TexelOf(texture, start.x, start.y)) && Adjacent(q[|q| - 1], c)
    ensures FloodPath(q + [c], start, width, height, texture)
  {
    var p := q + [c];
    forall i | 0 < i < |p|
      ensures FloodableIn(p[i], width, height, texture, TexelOf(texture, start.x, start.y)) && Adjacent(p[i - 1], p[i])
    {
      if i < |q| {
        assert p[i] == q[i] && p[i - 1] == q[i - 1];
      }
    }
  }

  /** Every walk of floodable cells from the start ends on a called cell:
      the flood is complete. */
  lemma {:induction false} ReachableCellsAreCalled(calls: seq<Point>, start: Point, width: int, height: int,
                                                   texture: Option<Texture>, p: seq<Point>)
    requires FloodOrder(calls, start, width, height, texture)
    requires FloodPath(p, start, width, height, texture)
    ensures p[|p| - 1] in calls
    decreases |p|
  {
    if |p| == 1 {
      assert calls[0] == start;
    } else {
      var q := p[..|p| - 1];
      assert FloodPath(q, start, width, height, texture);
      ReachableCellsAreCalled(calls, start, width, height, texture, q);
      assert Adjacent(q[|q| - 1], p[|p| - 1]);
    }
  }

  /** Turning clockwise then counter-clockwise, or the other way round,
      gives the board back. */
  lemma RotationsCancel(b: seq<seq<int>>)
    requires Rectangular(b) && |b[0]| >= 1
    ensures RotatedCcw(RotatedCw(b)) == b
    ensures RotatedCw(RotatedCcw(b)) == b
  {
    RotatedRectangular(b);
    var r := RotatedCcw(RotatedCw(b));
    assert |r| == |b|;
    forall y | 0 <= y < |b|
      ensures r[y] == b[y]
    {
      assert |r[y]| == |b[y]|;
    }
    var s := RotatedCw(RotatedCcw(b));
    forall y | 0 <= y < |b|
      ensures s[y] == b[y]
    {
      assert |s[y]| == |b[y]|;
    }
  }

  /** Four clockwise turns give the board back. */
  lemma FourTurns(b: seq<seq<int>>)
    requires Rectangular(b) && |b[0]| >= 1
    ensures var r1 := RotatedCw(b);
            Rectangular(r1) && Rectangular(RotatedCw(r1)) && Rectangular(RotatedCw(RotatedCw(r1))) &&
            RotatedCw(RotatedCw(RotatedCw(r1))) == b
  {
    RotatedRectangular(b);
    var r1 := RotatedCw(b);
    RotatedRectangular(r1);
    var r2 := RotatedCw(r1);
    RotatedRectangular(r2);
    var r3 := RotatedCw(r2);
    RotationsCancel(r3);
    ThreeTurns(b);
    RotationsCancel(b);
  }

  /** Three clockwise turns are one counter-clockwise turn. */
  lemma ThreeTurns(b: seq<seq<int>>)
    requires Rectangular(b) && |b[0]| >= 1
    ensures Rectangular(RotatedCw(b)) && Rectangular(RotatedCw(RotatedCw(b)))
    ensures RotatedCw(RotatedCw(RotatedCw(b))) == RotatedCcw(b)
  {
    RotatedRectangular(b);
    var r1 := RotatedCw(b);
    RotatedRectangular(r1);
    var r2 := RotatedCw(r1);
    var r3 := RotatedCw(r2);
    var h, w := |b|, |b[0]|;
    assert |r3| == w && |r2| == h && |r1| == w;
    forall i | 0 <= i < w
      ensures r3[i] == RotatedCcw(b)[i]
    {
      forall j | 0 <= j < h
        ensures r3[i][j] == b[j][w - 1 - i]
      {
        assert r3[i][j] == r2[h - 1 - j][i];
        assert r2[h - 1 - j][i] == r1[w - 1 - i][h - 1 - j];
        assert r1[w - 1 - i][h - 1 - j] == b[j][w - 1 - i];
      }
    }
  }

  /** The texel of each cell moves with the cell when the board and the
      texture are turned together. */
  lemma TexelFollowsRotation(t: Texture, b: seq<seq<int>>, i: int, j: int)
    requires Rectangular(b) && t.width == |b[0]| && t.height == |b|
    requires 0 <= i < |b[0]| && 0 <= j < |b|
    ensures TexelOf(Some(TextureCw(t)), j, i) == TexelOf(Some(t), i, |b| - 1 - j)
    ensures RotatedCw(b)[i][j] == b[|b| - 1 - j][i]
    ensures TexelOf(Some(TextureCcw(t)), j, i) == TexelOf(Some(t), |b[0]| - 1 - i, j)
    ensures RotatedCcw(b)[i][j] == b[j][|b[0]| - 1 - i]
  {
  }

  /** Setting a cell changes that cell and no other. */
  lemma UpdatedChangesOneCell(b: seq<seq<int>>, x: int, y: int, e: int)
    requires 0 <= y < |b| && 0 <= x < |b[y]|
    ensures var r := Updated(b, x, y, e);
            |r| == |b| && r[y][x] == e &&
            forall j, i :: 0 <= j < |b| && 0 <= i < |b[j]| && (i, j) != (x, y) ==> i < |r[j]| && r[j][i] == b[j][i]
  {
  }
}
