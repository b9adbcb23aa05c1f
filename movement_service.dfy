/** The movement-range calculator: every board cell within a Manhattan
    distance of a start cell, enumerated offset by offset. */
module MovementService {
  import opened Units

  /** The board is a fixed twelve by twelve grid. */
  const BoardWidth: int := 12
  const BoardHeight: int := 12

  predicate OnBoard(t: Tile)
  {
    0 <= t.x < BoardWidth && 0 <= t.y < BoardHeight
  }

  function Manhattan(a: Tile, b: Tile): nat
  {
    Abs(b.x - a.x) + Abs(b.y - a.y)
  }

  /** Row-major order on cells: by x, then by y. Relative to a fixed start
      cell it is the order of the offsets the two loops visit. */
  predicate Before(a: Tile, b: Tile)
  {
    a.x < b.x || (a.x == b.x && a.y < b.y)
  }

  /** Strictly increasing in `Before`; in particular no cell twice. */
  predicate StrictlyOrdered(s: seq<Tile>)
  {
    forall i, j :: 0 <= i < j < |s| ==> Before(s[i], s[j])
  }

  /** Appending a cell after every cell already listed keeps the order. */
  lemma AppendOrdered(s: seq<Tile>, t: Tile)
    requires StrictlyOrdered(s)
    requires forall u :: u in s ==> Before(u, t)
    ensures StrictlyOrdered(s + [t])
  {
    var r := s + [t];
    forall i, j | 0 <= i < j < |r|
      ensures Before(r[i], r[j])
    {
      if j == |s| {
        assert r[i] in s;
      }
    }
  }

  /** The offset of `t` from `start` comes before the offset (x, y) in the
      order the two loops visit offsets. */
  predicate OffsetVisited(start: Tile, t: Tile, x: int, y: int)
  {
    t.x - start.x < x || (t.x - start.x == x && t.y - start.y < y)
  }

  /** `calculateMovableTiles`: the on-board cells within `range` steps of
      `start`, each once, in ascending x offset and then ascending y offset. */
  method CalculateMovableTiles(start: Tile, range: int) returns (tiles: seq<Tile>)
    ensures forall t :: t in tiles ==> OnBoard(t) && Manhattan(start, t) <= range
    ensures forall t :: OnBoard(t) && Manhattan(start, t) <= range ==> t in tiles
    ensures StrictlyOrdered(tiles)
    ensures range < 0 ==> tiles == []
    ensures range >= 0 && OnBoard(start) ==> start in tiles
  {
    tiles := [];
    var x := -range;
    while x <= range
      invariant range >= 0 ==> -range <= x <= range + 1
      invariant range < 0 ==> x == -range && tiles == []
      invariant forall t :: t in tiles ==>
                  OnBoard(t) && Manhattan(start, t) <= range && t.x - start.x < x
      invariant forall t :: OnBoard(t) && Manhattan(start, t) <= range && t.x - start.x < x ==>
                  t in tiles
      invariant StrictlyOrdered(tiles)
    {
      var y := -range;
      while y <= range
        invariant -range <= y <= range + 1
        invariant forall t :: t in tiles ==>
                    OnBoard(t) && Manhattan(start, t) <= range && OffsetVisited(start, t, x, y)
        invariant forall t ::
                    OnBoard(t) && Manhattan(start, t) <= range && OffsetVisited(start, t, x, y) ==>
                    t in tiles
        invariant StrictlyOrdered(tiles)
      {
        if Abs(x) + Abs(y) <= range {
          var newX := start.x + x;
          var newY := start.y + y;
          if newX >= 0 && newX < BoardWidth && newY >= 0 && newY < BoardHeight {
            AppendOrdered(tiles, Tile(newX, newY));
            tiles := tiles + [Tile(newX, newY)];
          }
        }
        y := y + 1;
      }
      x := x + 1;
    }
    if range >= 0 && OnBoard(start) {
      assert Manhattan(start, start) == 0;
    }
  }
}
