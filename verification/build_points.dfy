/** `RandomStrategy.find_adjacent_build_points`
    (model/player/strategies/random_strategy.py): the empty cells next to
    a player's buildings that leave room for a 2x2 building. */
module BuildPoints {
  import opened Base

  /** The part of the AI's known map the search reads: its side and the
      cells where `get` finds an object. */
  datatype KnownMap = KnownMap(size: int, taken: set<Coord>)

  /** The offsets tried in each direction, in the order tried. */
  const Deltas: seq<int> := [-1, 0, 1]

  predicate InMap(m: KnownMap, x: int, y: int) {
    0 <= x < m.size && 0 <= y < m.size
  }

  /** The `t`-th cell of the 2x2 block cornered at (x, y), in the order the
      search checks them: (0,0), (0,1), (1,0), (1,1). */
  function BlockCell(x: int, y: int, t: nat): Coord
    requires t < 4
  {
    Coord(x + t / 2, y + t % 2)
  }

  predicate CellFree(m: KnownMap, x: int, y: int, t: nat)
    requires t < 4
  {
    var b := BlockCell(x, y, t);
    InMap(m, b.x, b.y) && b !in m.taken
  }

  /** The first `n` cells of the block lie in the map and are empty. */
  predicate BlockPrefixFree(m: KnownMap, x: int, y: int, n: nat)
    requires n <= 4
  {
    forall t :: 0 <= t < n ==> CellFree(m, x, y, t)
  }

  /** The whole 2x2 block cornered at (x, y) lies in the map and is empty. */
  predicate BlockFree(m: KnownMap, x: int, y: int) {
    BlockPrefixFree(m, x, y, 4)
  }

  /** A cell the search accepts: in the map, empty, with room for a 2x2
      building cornered at it. */
  predicate Accepts(m: KnownMap, p: Coord) {
    InMap(m, p.x, p.y) && p !in m.taken && BlockFree(m, p.x, p.y)
  }

  /** One of the eight cells around `c`. */
  predicate Neighbour(c: Coord, p: Coord) {
    -1 <= p.x - c.x <= 1 && -1 <= p.y - c.y <= 1 && p != c
  }

  // ---------------------------------------------------------------------
  // The search, as a specification

  /** What trying offset (dx, dy) around `c` adds. */
  function Step(m: KnownMap, c: Coord, dx: int, dy: int): (r: seq<Coord>)
    ensures |r| <= 1
  {
    if dx == 0 && dy == 0 then []
    else
      var p := Coord(c.x + dx, c.y + dy);
      if Accepts(m, p) then [p] else []
  }

  /** The inner loop: one dx, the dys in order. */
  function Row(m: KnownMap, c: Coord, dx: int, dys: seq<int>): (r: seq<Coord>)
    ensures |r| <= |dys|
  {
    if |dys| == 0 then [] else Row(m, c, dx, dys[..|dys| - 1]) + Step(m, c, dx, dys[|dys| - 1])
  }

  /** The outer loop over the dxs in order, each with the dys `dys`. */
  function Rows(m: KnownMap, c: Coord, dxs: seq<int>, dys: seq<int>): seq<Coord>
  {
    if |dxs| == 0 then [] else Rows(m, c, dxs[..|dxs| - 1], dys) + Row(m, c, dxs[|dxs| - 1], dys)
  }

  /** Everything found around one building. */
  function Around(m: KnownMap, c: Coord): seq<Coord> {
    Rows(m, c, Deltas, Deltas)
  }

  /** Building by building, in the player's order, with no de-duplication. */
  function AllPoints(m: KnownMap, anchors: seq<Coord>): seq<Coord> {
    if |anchors| == 0 then [] else AllPoints(m, anchors[..|anchors| - 1]) + Around(m, anchors[|anchors| - 1])
  }

  // ---------------------------------------------------------------------
  // The search, as written

  /** The nested 2x2 check, with its two `break`s. */
  method CheckBlock(m: KnownMap, x: int, y: int) returns (hasSpace: bool)
    ensures hasSpace <==> BlockFree(m, x, y)
  {
    hasSpace := true;
    var ox := 0;
    while ox < 2
      invariant 0 <= ox <= 2
      invariant hasSpace && BlockPrefixFree(m, x, y, 2 * ox)
    {
      var oy := 0;
      while oy < 2
        invariant 0 <= oy <= 2
        invariant hasSpace && BlockPrefixFree(m, x, y, 2 * ox + oy)
      {
        var cx, cy := x + ox, y + oy;
        assert BlockCell(x, y, 2 * ox + oy) == Coord(cx, cy);
        if !(0 <= cx < m.size && 0 <= cy < m.size) {
          hasSpace := false;
          assert !CellFree(m, x, y, 2 * ox + oy);
          break;
        }
        if Coord(cx, cy) in m.taken {
          hasSpace := false;
          assert !CellFree(m, x, y, 2 * ox + oy);
          break;
        }
        oy := oy + 1;
      }
      if !hasSpace {
        break;
      }
      ox := ox + 1;
    }
  }

  /** The body of the inner loop: one offset around `c`. */
  method TryOffset(m: KnownMap, c: Coord, dx: int, dy: int) returns (found: seq<Coord>)
    ensures found == Step(m, c, dx, dy)
  {
    found := [];
    if !(dx == 0 && dy == 0) {
      var x, y := c.x + dx, c.y + dy;
      if 0 <= x < m.size && 0 <= y < m.size {
        var p := Coord(x, y);
        if p !in m.taken {
          var hasSpace := CheckBlock(m, x, y);
          if hasSpace {
            found := [p];
          }
        }
      }
    }
  }

  /** The inner loop over dy for one dx. */
  method ScanRow(m: KnownMap, c: Coord, dx: int) returns (found: seq<Coord>)
    ensures found == Row(m, c, dx, Deltas)
  {
    found := [];
    var b := 0;
    while b < 3
      invariant 0 <= b <= 3
      invariant found == Row(m, c, dx, Deltas[..b])
    {
      var more := TryOffset(m, c, dx, Deltas[b]);
      assert Deltas[..b + 1][..b] == Deltas[..b];
      found := found + more;
      b := b + 1;
    }
    assert Deltas[..3] == Deltas;
  }

  /** The loop over dx around one building. */
  method ScanAround(m: KnownMap, c: Coord) returns (found: seq<Coord>)
    ensures found == Around(m, c)
  {
    found := [];
    var a := 0;
    while a < 3
      invariant 0 <= a <= 3
      invariant found == Rows(m, c, Deltas[..a], Deltas)
    {
      var more := ScanRow(m, c, Deltas[a]);
      assert Deltas[..a + 1][..a] == Deltas[..a];
      found := found + more;
      a := a + 1;
    }
    assert Deltas[..3] == Deltas;
  }

  /** `find_adjacent_build_points`: each building's anchor in turn. */
  method FindAdjacentBuildPoints(m: KnownMap, anchors: seq<Coord>) returns (pts: seq<Coord>)
    ensures pts == AllPoints(m, anchors)
  {
    pts := [];
    var i := 0;
    while i < |anchors|
      invariant 0 <= i <= |anchors|
      invariant pts == AllPoints(m, anchors[..i])
    {
      var more := ScanAround(m, anchors[i]);
      assert anchors[..i + 1][..i] == anchors[..i];
      pts := pts + more;
      i := i + 1;
    }
    assert anchors[..|anchors|] == anchors;
  }

  // ---------------------------------------------------------------------
  // Properties

  lemma {:induction false} RowMembers(m: KnownMap, c: Coord, dx: int, dys: seq<int>, q: Coord)
    ensures q in Row(m, c, dx, dys) <==> exists j :: 0 <= j < |dys| && q in Step(m, c, dx, dys[j])
    decreases |dys|
  {
    if |dys| > 0 {
      var n := |dys| - 1;
      RowMembers(m, c, dx, dys[..n], q);
      if q in Row(m, c, dx, dys[..n]) {
        var j :| 0 <= j < n && q in Step(m, c, dx, dys[..n][j]);
        assert dys[..n][j] == dys[j];
      }
      if exists j :: 0 <= j < |dys| && q in Step(m, c, dx, dys[j]) {
        var j :| 0 <= j < |dys| && q in Step(m, c, dx, dys[j]);
        if j < n {
          assert dys[..n][j] == dys[j];
        }
      }
    }
  }

  lemma {:induction false} RowsMembers(m: KnownMap, c: Coord, dxs: seq<int>, dys: seq<int>, q: Coord)
    ensures q in Rows(m, c, dxs, dys) <==> exists a :: 0 <= a < |dxs| && q in Row(m, c, dxs[a], dys)
    decreases |dxs|
  {
    if |dxs| > 0 {
      var n := |dxs| - 1;
      var front := dxs[..n];
      RowsMembers(m, c, front, dys, q);
      assert Rows(m, c, dxs, dys) == Rows(m, c, front, dys) + Row(m, c, dxs[n], dys);
      assert forall a :: 0 <= a < n ==> front[a] == dxs[a];
    }
  }

  /** Around one building the search finds exactly the accepted cells
      among its eight neighbours. */
  lemma AroundMembers(m: KnownMap, c: Coord, q: Coord)
    ensures q in Around(m, c) <==> Neighbour(c, q) && Accepts(m, q)
  {
    if q in Around(m, c) {
      AroundSound(m, c, q);
    }
    if Neighbour(c, q) && Accepts(m, q) {
      AroundComplete(m, c, q);
    }
  }

  /** One step finds only the accepted cell at its offset, never the centre. */
  lemma StepMember(m: KnownMap, c: Coord, dx: int, dy: int, q: Coord)
    requires q in Step(m, c, dx, dy)
    ensures q == Coord(c.x + dx, c.y + dy) && Accepts(m, q) && !(dx == 0 && dy == 0)
  {
  }

  lemma AroundSound(m: KnownMap, c: Coord, q: Coord)
    requires q in Around(m, c)
    ensures Neighbour(c, q) && Accepts(m, q)
  {
    RowsMembers(m, c, Deltas, Deltas, q);
    var a :| 0 <= a < 3 && q in Row(m, c, Deltas[a], Deltas);
    RowMembers(m, c, Deltas[a], Deltas, q);
    var j :| 0 <= j < 3 && q in Step(m, c, Deltas[a], Deltas[j]);
    StepMember(m, c, Deltas[a], Deltas[j], q);
  }

  lemma AroundComplete(m: KnownMap, c: Coord, q: Coord)
    requires Neighbour(c, q) && Accepts(m, q)
    ensures q in Around(m, c)
  {
    var dx, dy := q.x - c.x, q.y - c.y;
    assert Deltas[dx + 1] == dx && Deltas[dy + 1] == dy;
    assert q in Step(m, c, dx, dy);
    RowMembers(m, c, dx, Deltas, q);
    RowsMembers(m, c, Deltas, Deltas, q);
  }

  lemma {:induction false} AllPointsMembers(m: KnownMap, anchors: seq<Coord>, q: Coord)
    ensures q in AllPoints(m, anchors) <==> exists k :: 0 <= k < |anchors| && q in Around(m, anchors[k])
    decreases |anchors|
  {
    if |anchors| > 0 {
      var n := |anchors| - 1;
      AllPointsMembers(m, anchors[..n], q);
      NearStep(m, anchors, anchors[..n], q);
    }
  }

  /** Some building of a non-empty list has `q` around it exactly when one
      of the front does or the last one does. */
  lemma NearStep(m: KnownMap, anchors: seq<Coord>, front: seq<Coord>, q: Coord)
    requires |anchors| > 0 && front == anchors[..|anchors| - 1]
    ensures (exists k :: 0 <= k < |anchors| && q in Around(m, anchors[k])) <==>
              (exists k :: 0 <= k < |front| && q in Around(m, front[k])) || q in Around(m, anchors[|anchors| - 1])
  {
    if exists k :: 0 <= k < |front| && q in Around(m, front[k]) {
      var k :| 0 <= k < |front| && q in Around(m, front[k]);
      assert front[k] == anchors[k];
    }
    if exists k :: 0 <= k < |anchors| && q in Around(m, anchors[k]) {
      var k :| 0 <= k < |anchors| && q in Around(m, anchors[k]);
      if k < |front| {
        assert front[k] == anchors[k];
      }
    }
  }


  /** A point is returned exactly when it lies in the map, is empty, has an
      empty 2x2 block inside the map cornered at it, and neighbours some
      building's anchor without being that anchor. */
  lemma BuildPointsExact(m: KnownMap, anchors: seq<Coord>, q: Coord)
    ensures q in AllPoints(m, anchors) <==>
              Accepts(m, q) && exists k :: 0 <= k < |anchors| && Neighbour(anchors[k], q)
  {
    AllPointsMembers(m, anchors, q);
    if q in AllPoints(m, anchors) {
      var k :| 0 <= k < |anchors| && q in Around(m, anchors[k]);
      AroundMembers(m, anchors[k], q);
    }
    if Accepts(m, q) && exists k :: 0 <= k < |anchors| && Neighbour(anchors[k], q) {
      var k :| 0 <= k < |anchors| && Neighbour(anchors[k], q);
      AroundMembers(m, anchors[k], q);
    }
  }

  /** The points come building by building: the points of a list of
      buildings are those of its first part followed by those of the rest,
      so a cell next to two buildings is listed twice. */
  lemma {:induction false} AllPointsSplit(m: KnownMap, a: seq<Coord>, b: seq<Coord>)
    ensures AllPoints(m, a + b) == AllPoints(m, a) + AllPoints(m, b)
    decreases |b|
  {
    if |b| == 0 {
      assert a + b == a;
    } else {
      var n := |b| - 1;
      assert (a + b)[..|a + b| - 1] == a + b[..n];
      assert (a + b)[|a + b| - 1] == b[n];
      AllPointsSplit(m, a, b[..n]);
    }
  }

  /** At most eight points per building: the building's own cell is
      never tried. */
  lemma AroundAtMostEight(m: KnownMap, c: Coord)
    ensures |Around(m, c)| <= 8
  {
    var d2 := Deltas[..2];
    assert d2[..1] == [-1] && d2[1] == 0 && Deltas[..2] == d2 && Deltas[2] == 1;
    assert Row(m, c, 0, d2) == Row(m, c, 0, [-1]) + Step(m, c, 0, 0);
    assert |Row(m, c, 0, Deltas)| <= 2;
    assert Rows(m, c, d2, Deltas) == Rows(m, c, [-1], Deltas) + Row(m, c, 0, Deltas);
  }
}
