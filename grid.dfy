/** src/utils/grid.ts: the offset that centres the background dot grid in the viewport. */
module Grid {
  import opened Wrappers
  import opened Js

  /** The position of the grid dot nearest the centre: `(viewport / gridSize / 2) * gridSize`. */
  function CenterDot(viewport: real, gridSize: real): (c: real)
    requires gridSize != 0.0
    ensures c == viewport / 2.0
  {
    var fits := viewport / gridSize;
    assert fits * gridSize == viewport;
    (fits / 2.0) * gridSize
  }

  /**
   * `alignGridToCenter(viewport, gridSize)`. A zero grid size makes JavaScript
   * compute NaN; that result is `None` here.
   */
  function AlignGridToCenter(viewport: real, gridSize: real): (r: Option<int>)
    ensures r.None? <==> gridSize == 0.0
    ensures r.Some? ==> r.value == Round(Rem(viewport / 2.0 - gridSize / 2.0, gridSize))
  {
    if gridSize == 0.0 then None
    else
      var shift := viewport - CenterDot(viewport, gridSize) - gridSize / 2.0;
      Some(Round(Rem(shift, gridSize)))
  }

  /**
   * The shift is reduced to less than one grid cell: after rounding it is
   * within half a unit of that, and within one cell for a whole-number grid
   * size. It points the same way as `viewport - gridSize`.
   */
  lemma {:induction false} AlignGridBounds(viewport: real, gridSize: real)
    requires gridSize != 0.0
    ensures Abs(AlignGridToCenter(viewport, gridSize).value as real) < Abs(gridSize) + 0.5
    ensures gridSize == gridSize.Floor as real ==>
              Abs(AlignGridToCenter(viewport, gridSize).value as real) <= Abs(gridSize)
    ensures viewport >= gridSize ==> AlignGridToCenter(viewport, gridSize).value >= 0
    ensures viewport <= gridSize ==> AlignGridToCenter(viewport, gridSize).value <= 0
  {
    var shift := viewport / 2.0 - gridSize / 2.0;
    RemBounds(shift, gridSize);
    RoundBelow(Rem(shift, gridSize), gridSize);
  }

  /** Rounding a number smaller than `g` in size. */
  lemma RoundBelow(m: real, g: real)
    requires Abs(m) < Abs(g)
    ensures Abs(Round(m) as real) < Abs(g) + 0.5
    ensures g == g.Floor as real ==> Abs(Round(m) as real) <= Abs(g)
    ensures m >= 0.0 ==> Round(m) >= 0
    ensures m <= 0.0 ==> Round(m) <= 0
  {
    var r := Round(m);
    if g == g.Floor as real {
      // r and |g| are whole numbers less than one unit apart past |g|
      var n := g.Floor;
      if n > 0 {
        assert r > -n - 1 && r < n + 1;
      } else {
        assert r > n - 1 && r < -n + 1;
      }
    }
  }

  /** A grid as wide as the viewport needs no shift. */
  lemma AlignGridFullViewport(gridSize: real)
    requires gridSize != 0.0
    ensures AlignGridToCenter(gridSize, gridSize) == Some(0)
  {
    assert gridSize / 2.0 - gridSize / 2.0 == 0.0;
    RemBounds(0.0, gridSize);
  }
}
