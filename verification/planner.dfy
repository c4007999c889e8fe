/**
  The column planner: column pitch, column count and leftover whitespace
  (`colWidth` and `setup` in dist/magic-grid.cjs.js), with the container and
  the first item reduced to their measured widths.
 */
module Planner {
  import opened Columns

  /** A strictly positive length. The gutter is one once defaults are applied. */
  type Pos = n: int | n >= 1 witness 1

  /** `colWidth`: the first item's width plus the gutter, the stride between column starts. */
  function Pitch(itemWidth: nat, gutter: Pos): (p: Pos)
    ensures p == itemWidth + gutter
    ensures p > itemWidth
  {
    itemWidth + gutter
  }

  /**
    What a column count must satisfy: at least one column, no more than a set
    cap, the columns fit the width unless there is only one, and one more
    column would not fit unless the cap stopped the count.
   */
  predicate CountFits(width: nat, pitch: Pos, maxColumns: nat, n: nat) {
    && n >= 1
    && (maxColumns > 0 ==> n <= maxColumns)
    && (n == 1 || n * pitch <= width)
    && (n == maxColumns || width < (n + 1) * pitch)
  }

  /**
    The number of columns: as many pitches as fit in the width, one when none
    fits, and `maxColumns` when that is set (non-zero) and exceeded.
   */
  function ColumnCount(width: nat, pitch: Pos, maxColumns: nat): (n: nat)
    ensures CountFits(width, pitch, maxColumns, n)
    ensures maxColumns > 0 && width / pitch > maxColumns ==> n == maxColumns
  {
    var fitting := width / pitch;
    var natural := if fitting == 0 then 1 else fitting;
    DivBounds(width, pitch);
    if maxColumns > 0 && natural > maxColumns then
      MulMonotone(maxColumns, fitting, pitch);
      maxColumns
    else natural
  }

  /** Floor division brackets the width between two consecutive multiples of the pitch. */
  lemma DivBounds(width: nat, pitch: Pos)
    ensures (width / pitch) * pitch <= width < (width / pitch + 1) * pitch
  {
  }

  /** Multiplying by a positive pitch keeps order. */
  lemma MulMonotone(a: nat, b: nat, pitch: Pos)
    requires a <= b
    ensures a * pitch <= b * pitch
  {
  }

  /** `CountFits` pins down one count, and `ColumnCount` computes it. */
  lemma {:induction false} ColumnCountUnique(width: nat, pitch: Pos, maxColumns: nat, n: nat)
    ensures CountFits(width, pitch, maxColumns, n) <==> n == ColumnCount(width, pitch, maxColumns)
  {
    var c := ColumnCount(width, pitch, maxColumns);
    if CountFits(width, pitch, maxColumns, n) && n != c {
      var lo, hi := if n < c then n else c, if n < c then c else n;
      assert CountFits(width, pitch, maxColumns, lo) && CountFits(width, pitch, maxColumns, hi);
      MulMonotone(lo + 1, hi, pitch);
      assert false;
    }
  }

  /** The columns of a fresh pass and the leftover horizontal whitespace. */
  datatype Plan = Plan(cols: seq<Column>, wSpace: int)

  /**
    `setup`: `ColumnCount` empty columns in index order, and the whitespace
    left once the columns (without the last gutter) are laid side by side.
   */
  function Setup(width: nat, itemWidth: nat, gutter: Pos, maxColumns: nat): (p: Plan)
    ensures |p.cols| == ColumnCount(width, Pitch(itemWidth, gutter), maxColumns)
    ensures forall j :: 0 <= j < |p.cols| ==> p.cols[j] == Column(j, 0)
    ensures Indexed(p.cols)
    ensures p.wSpace + |p.cols| * Pitch(itemWidth, gutter) - gutter == width
  {
    var pitch := Pitch(itemWidth, gutter);
    var n := ColumnCount(width, pitch, maxColumns);
    Plan(seq(n, j requires 0 <= j < n => Column(j, 0)), width - n * pitch + gutter)
  }

  /**
    Half the whitespace, rounded down, is the left margin of the content; the
    right margin is the rest, so the two differ by at most one. When the
    columns fit, the content lies inside the container.
   */
  lemma Centered(width: nat, itemWidth: nat, gutter: Pos, maxColumns: nat)
    ensures var p := Setup(width, itemWidth, gutter, maxColumns);
            var left := p.wSpace / 2;
            var right := width - (left + |p.cols| * Pitch(itemWidth, gutter) - gutter);
            && 0 <= right - left <= 1
            && (|p.cols| * Pitch(itemWidth, gutter) <= width ==> 0 <= left && 0 <= right)
  {
  }
}
