/**
 * The brick wall `Game.__init__` builds: one column every 75 units from
 * x = 5 while x < width - 5, each column eight bricks high with
 * 4, 4, 3, 3, 2, 2, 1, 1 hits from top to bottom.
 */
module Layout {
  import opened Objects

  const COLUMN_START: int := 5
  const COLUMN_STEP: int := 75
  const ROWS: nat := 8

  /** Hits of the brick in each row, top row first. */
  const ROW_HITS: seq<int> := [4, 4, 3, 3, 2, 2, 1, 1]

  /** Centre height of row `r` (30, 50, ..., 170). */
  function RowY(r: int): real
  {
    30.0 + 20.0 * r as real
  }

  /** Centre of column `k`: its left edge `x = 5 + 75 * k` plus half a brick. */
  function ColumnX(k: int): real
  {
    (COLUMN_START + COLUMN_STEP * k) as real + 37.5
  }

  /** The number of values of `range(start, stop, step)`. */
  function RangeLen(start: int, stop: int, step: int): nat
    requires step > 0
    decreases stop - start
  {
    if start >= stop then 0 else 1 + RangeLen(start + step, stop, step)
  }

  /** Every row's hit count is a key of `Brick.COLORS`, so the lookup in `Brick.__init__` succeeds. */
  lemma RowHitsHaveColors(r: int)
    requires 0 <= r < ROWS
    ensures ROW_HITS[r] in COLORS && 1 <= ROW_HITS[r] <= 4
  {
  }

  /** On the 830-unit wide window the wall loop runs over 11 values of x, so 88 bricks. */
  lemma ColumnCount()
    ensures RangeLen(COLUMN_START, 830 - 5, COLUMN_STEP) == 11
  {
  }
}
