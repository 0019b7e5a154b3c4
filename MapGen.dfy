/** `generateMap`: five checkpoints on an 8 x 6 grid, in rows below the
    80-pixel band kept for the status bar, joined by a Manhattan polyline
    that first runs horizontally, then vertically, to each checkpoint. */
module MapGen {
  import opened Geometry

  const Cols: int := 8
  const Rows: int := 6
  /** Height of the band at the top of the canvas the road must avoid. */
  const UiBand: int := 80

  /** `Math.ceil(80 / cellH)` with `cellH = height / 6`, as an integer
      ceiling division. */
  function FirstUsableRow(height: nat): int
    requires height > 0
  {
    (UiBand * Rows + height - 1) / height
  }

  /** The ceiling is exact: the first usable row is the first whose top
      edge lies at or below the band. */
  lemma FirstUsableRowIsCeiling(height: nat)
    requires height > 0
    ensures FirstUsableRow(height) * height >= UiBand * Rows
    ensures (FirstUsableRow(height) - 1) * height < UiBand * Rows
  {
    var q := FirstUsableRow(height);
    var m := UiBand * Rows + height - 1;
    assert m == q * height + m % height;
  }

  function UsableRows(height: nat): int
    requires height > 0
  {
    Rows - FirstUsableRow(height)
  }

  /** The random draw `Math.floor(Math.random() * n)` for a row offset:
      0..n-1 when n is positive, and n..0 otherwise (the code still runs
      when no row is usable). */
  predicate RowPickOk(k: int, n: int) {
    if n > 0 then 0 <= k < n else n <= k <= 0
  }

  datatype Checkpoint = Checkpoint(c: int, r: int)

  /** Column of the i-th checkpoint: 0, then 2, 4, 6 from the loop
      `c += 2` while `c < cols - 1`, then the last column. */
  function Column(i: int): int {
    if i == 4 then Cols - 1 else 2 * i
  }

  /** The five checkpoints for row offsets `picks` below the first usable row. */
  function Checkpoints(first: int, picks: seq<int>): (cps: seq<Checkpoint>)
    requires |picks| == 5
    ensures |cps| == 5
  {
    seq(5, i requires 0 <= i < 5 => Checkpoint(Column(i), first + picks[i]))
  }

  /** Every checkpoint row lies in [first usable row, 6) when a row is usable. */
  lemma CheckpointRows(height: nat, picks: seq<int>)
    requires height > 0 && |picks| == 5
    requires forall i :: 0 <= i < 5 ==> RowPickOk(picks[i], UsableRows(height))
    requires UsableRows(height) > 0
    ensures forall i :: 0 <= i < 5 ==>
      FirstUsableRow(height) <= Checkpoints(FirstUsableRow(height), picks)[i].r < Rows
    ensures forall i :: 0 <= i < 5 ==>
      Checkpoints(FirstUsableRow(height), picks)[i].c == [0, 2, 4, 6, 7][i]
  {
  }

  /** Pixel centre of cell i for a cell size. */
  function Center(i: int, cell: real): real {
    (i as real) * cell + cell / 2.0
  }

  /** The polyline through the checkpoints: it starts at x = 0 in the
      row of the first one, and for each next checkpoint adds the corner
      at its column in the previous row and then the checkpoint itself. */
  function Road(cps: seq<Checkpoint>, cw: real, ch: real): (path: seq<Point>)
    requires |cps| >= 1
    ensures |path| == 2 * |cps| - 1
  {
    if |cps| == 1 then [Point(0.0, Center(cps[0].r, ch))]
    else
      var last := cps[|cps| - 1];
      Road(cps[..|cps| - 1], cw, ch)
        + [Point(Center(last.c, cw), Center(cps[|cps| - 2].r, ch)), Point(Center(last.c, cw), Center(last.r, ch))]
  }

  /** The road's shape: it starts at x = 0 on the first checkpoint's row,
      waypoint 2i is the centre of checkpoint i, and the legs alternate:
      each odd waypoint keeps the y of the one before it (a horizontal
      leg) and the next keeps its x (a vertical leg). */
  lemma {:induction false} RoadShape(cps: seq<Checkpoint>, cw: real, ch: real)
    requires |cps| >= 1
    ensures Road(cps, cw, ch)[0] == Point(0.0, Center(cps[0].r, ch))
    ensures forall i :: 1 <= i < |cps| ==>
      Road(cps, cw, ch)[2 * i] == Point(Center(cps[i].c, cw), Center(cps[i].r, ch))
    ensures forall i :: 1 <= i < |cps| ==>
      Road(cps, cw, ch)[2 * i - 1] == Point(Center(cps[i].c, cw), Center(cps[i - 1].r, ch))
    ensures forall i :: 1 <= i < |cps| ==>
      Road(cps, cw, ch)[2 * i - 1].y == Road(cps, cw, ch)[2 * i - 2].y
      && Road(cps, cw, ch)[2 * i].x == Road(cps, cw, ch)[2 * i - 1].x
  {
    if |cps| > 1 {
      var init := cps[..|cps| - 1];
      RoadShape(init, cw, ch);
      var p, q := Road(init, cw, ch), Road(cps, cw, ch);
      assert forall j :: 0 <= j < |p| ==> q[j] == p[j];
    }
  }

  /** A row at or below the first usable one has its centre below the band. */
  lemma CenterBelowBand(height: nat, r: int)
    requires height > 0 && r >= FirstUsableRow(height)
    ensures Center(r, height as real / 6.0) > UiBand as real
  {
    FirstUsableRowIsCeiling(height);
    var h := height as real;
    var f := FirstUsableRow(height);
    assert (f as real) * h >= 480.0 by {
      assert ((f * height) as real) == (f as real) * h;
    }
    var rr, ff := r as real, f as real;
    assert rr * h >= ff * h by {
      assert (rr - ff) * h >= 0.0 by { MulNonneg(rr - ff, h); }
    }
    assert Center(r, h / 6.0) == rr * h / 6.0 + h / 12.0;
  }

  /** `generateMap` for canvas size width x height and the five row
      offsets drawn for the checkpoints. */
  function MapPath(width: nat, height: nat, picks: seq<int>): seq<Point>
    requires height > 0 && |picks| == 5
  {
    Road(Checkpoints(FirstUsableRow(height), picks), width as real / 8.0, height as real / 6.0)
  }

  /** The generated road has 9 waypoints, starts at the left edge, joins
      consecutive waypoints by horizontal or vertical legs, and when a row
      is usable runs entirely below the status band. */
  lemma MapPathShape(width: nat, height: nat, picks: seq<int>)
    requires height > 0 && |picks| == 5
    requires forall i :: 0 <= i < 5 ==> RowPickOk(picks[i], UsableRows(height))
    ensures |MapPath(width, height, picks)| == 9
    ensures MapPath(width, height, picks)[0].x == 0.0
    ensures forall j :: 0 <= j < 8 ==>
      MapPath(width, height, picks)[j].x == MapPath(width, height, picks)[j + 1].x
      || MapPath(width, height, picks)[j].y == MapPath(width, height, picks)[j + 1].y
    ensures UsableRows(height) > 0 ==>
      forall j :: 0 <= j < 9 ==> MapPath(width, height, picks)[j].y > UiBand as real
  {
    var cps := Checkpoints(FirstUsableRow(height), picks);
    var cw, ch := width as real / 8.0, height as real / 6.0;
    var path := Road(cps, cw, ch);
    RoadShape(cps, cw, ch);
    forall j | 0 <= j < 8
      ensures path[j].x == path[j + 1].x || path[j].y == path[j + 1].y
    {
      if j % 2 == 0 {
        assert path[2 * (j / 2 + 1) - 1].y == path[2 * (j / 2 + 1) - 2].y;
      } else {
        assert path[2 * ((j + 1) / 2)].x == path[2 * ((j + 1) / 2) - 1].x;
      }
    }
    if UsableRows(height) > 0 {
      forall j | 0 <= j < 9
        ensures path[j].y > UiBand as real
      {
        var i := if j % 2 == 0 then j / 2 else (j - 1) / 2;
        assert path[j].y == Center(cps[i].r, ch) by {
          if j == 0 {
          } else if j % 2 == 0 {
            assert path[2 * i] == Point(Center(cps[i].c, cw), Center(cps[i].r, ch));
          } else {
            assert path[2 * (i + 1) - 1] == Point(Center(cps[i + 1].c, cw), Center(cps[i].r, ch));
          }
        }
        CenterBelowBand(height, cps[i].r);
      }
    }
  }

  /** The loops of `generateMap`: the checkpoint pushes and the two
      pushes per leg. */
  method Generate(width: nat, height: nat, picks: seq<int>) returns (path: seq<Point>)
    requires height > 0 && |picks| == 5
    ensures path == MapPath(width, height, picks)
  {
    var cw, ch := width as real / 8.0, height as real / 6.0;
    var first := FirstUsableRow(height);
    ghost var want := Checkpoints(first, picks);
    var cps := [Checkpoint(0, first + picks[0])];
    var c := 2;
    while c < Cols - 1
      invariant 1 <= |cps| <= 4 && c == 2 * |cps|
      invariant cps == want[..|cps|]
    {
      cps := cps + [Checkpoint(c, first + picks[|cps|])];
      c := c + 2;
    }
    cps := cps + [Checkpoint(Cols - 1, first + picks[|cps|])];
    assert cps == want;
    var currentY := Center(cps[0].r, ch);
    path := [Point(0.0, currentY)];
    var i := 1;
    while i < |cps|
      invariant 1 <= i <= |cps|
      invariant path == Road(cps[..i], cw, ch)
      invariant currentY == Center(cps[i - 1].r, ch)
    {
      var targetX := Center(cps[i].c, cw);
      var targetY := Center(cps[i].r, ch);
      path := path + [Point(targetX, currentY), Point(targetX, targetY)];
      currentY := targetY;
      assert cps[..i + 1][..i] == cps[..i];
      i := i + 1;
    }
    assert cps[..i] == cps;
  }
}
