/**
  The placement pass of `positionItems` (dist/magic-grid.cjs.js), as a fold
  over the item heights that carries the column list.
 */
module Placing {
  import opened Columns

  /** Where one item goes: the index of its column and its `left`/`top` offsets. */
  datatype Placement = Placement(column: nat, left: int, top: int)

  /** The `left` offset of an item in the column with index `index`. */
  function ColumnLeft(index: nat, pitch: int, offset: int): int {
    index * pitch + offset
  }

  /** Every placement's `left` is its column's offset: one centering offset for all items. */
  predicate Aligned(placed: seq<Placement>, pitch: int, offset: int) {
    forall t :: 0 <= t < |placed| ==> placed[t].left == ColumnLeft(placed[t].column, pitch, offset)
  }

  /** `nextCol`: the shortest column in `useMin` mode, else column `i mod |cols|`. */
  function NextCol(cols: seq<Column>, i: nat, useMin: bool): (k: nat)
    requires |cols| > 0
    ensures k < |cols|
    ensures useMin ==> IsFirstMin(cols, k)
    ensures !useMin ==> k == i % |cols|
  {
    if useMin then GetMin(cols) else i % |cols|
  }

  /** The columns after one item is placed, the slot chosen for it, and its placement. */
  datatype StepResult = StepResult(cols: seq<Column>, slot: nat, placed: Placement)

  /**
    Placing item `i` of height `h`: the item sits one gutter below the chosen
    column's current height, at that column's horizontal position, and that
    column alone grows by the item's height plus a gutter.
   */
  function Step(cols: seq<Column>, i: nat, h: nat, gutter: nat, pitch: int, offset: int, useMin: bool): (r: StepResult)
    requires |cols| > 0
    ensures r.slot == NextCol(cols, i, useMin)
    ensures |r.cols| == |cols|
    ensures r.placed.column == cols[r.slot].index
    ensures r.placed.left == ColumnLeft(cols[r.slot].index, pitch, offset)
    ensures r.placed.top == cols[r.slot].height + gutter
    ensures r.cols[r.slot].index == cols[r.slot].index
    ensures r.cols[r.slot].height == r.placed.top + h
    ensures forall j :: 0 <= j < |cols| && j != r.slot ==> r.cols[j] == cols[j]
    ensures forall j :: 0 <= j < |cols| ==> cols[j].height <= r.cols[j].height
  {
    var k := NextCol(cols, i, useMin);
    var col := cols[k];
    var placed := Placement(col.index, ColumnLeft(col.index, pitch, offset), col.height + gutter);
    StepResult(cols[k := col.(height := col.height + h + gutter)], k, placed)
  }

  /** The columns at the end of a pass and the placement of every item, in item order. */
  datatype PassResult = PassResult(cols: seq<Column>, placed: seq<Placement>)

  /**
    The loop of `positionItems` from item `i` on: place `heights[0]` as item
    `i`, then the rest on the updated columns. Column identities are kept,
    heights only grow, and every item's `left` comes from its column index
    and the one centering offset of the pass.
   */
  function Place(cols: seq<Column>, heights: seq<nat>, i: nat, gutter: nat, pitch: int, offset: int, useMin: bool): (p: PassResult)
    requires |cols| > 0
    ensures |p.cols| == |cols| && |p.placed| == |heights|
    ensures forall j :: 0 <= j < |cols| ==> p.cols[j].index == cols[j].index
    ensures forall j :: 0 <= j < |cols| ==> cols[j].height <= p.cols[j].height
    ensures Indexed(cols) ==> forall t :: 0 <= t < |heights| ==> p.placed[t].column < |cols|
    ensures Aligned(p.placed, pitch, offset)
    decreases |heights|
  {
    if |heights| == 0 then PassResult(cols, [])
    else
      var s := Step(cols, i, heights[0], gutter, pitch, offset, useMin);
      var rest := Place(s.cols, heights[1..], i + 1, gutter, pitch, offset, useMin);
      PassResult(rest.cols, [s.placed] + rest.placed)
  }

  /** The columns as they stand just before item `t` of the pass is placed. */
  function ColsBefore(cols: seq<Column>, heights: seq<nat>, t: nat, i: nat, gutter: nat, pitch: int, offset: int, useMin: bool): seq<Column>
    requires |cols| > 0 && t <= |heights|
  {
    Place(cols, heights[..t], i, gutter, pitch, offset, useMin).cols
  }

  /** Item `t` of a pass is placed by one `Step` on the columns as they stand before it. */
  lemma {:induction false} PlacedByStep(cols: seq<Column>, heights: seq<nat>, i: nat, gutter: nat, pitch: int, offset: int, useMin: bool, t: nat)
    requires |cols| > 0 && t < |heights|
    ensures var before := ColsBefore(cols, heights, t, i, gutter, pitch, offset, useMin);
            && |before| == |cols|
            && Place(cols, heights, i, gutter, pitch, offset, useMin).placed[t]
               == Step(before, i + t, heights[t], gutter, pitch, offset, useMin).placed
    decreases t
  {
    var s := Step(cols, i, heights[0], gutter, pitch, offset, useMin);
    if t > 0 {
      PlacedByStep(s.cols, heights[1..], i + 1, gutter, pitch, offset, useMin, t - 1);
      assert heights[..t][0] == heights[0];
      assert heights[..t][1..] == heights[1..][..t - 1];
    }
  }

  /**
    A placement sits on the first shortest of the given columns (ties go to
    the leftmost), one gutter below that column's height.
   */
  predicate OnFirstShortest(before: seq<Column>, placed: Placement, gutter: nat) {
    exists k: nat :: && k < |before|
                     && IsFirstMin(before, k)
                     && placed.column == before[k].index
                     && placed.top == before[k].height + gutter
  }

  /**
    In `useMin` mode every item goes on the first shortest column as the
    columns stand just before it is placed; in particular it is no taller
    than any other column at that moment.
   */
  lemma UseMinPicksShortest(cols: seq<Column>, heights: seq<nat>, i: nat, gutter: nat, pitch: int, offset: int)
    requires |cols| > 0
    ensures forall t :: 0 <= t < |heights| ==>
              OnFirstShortest(ColsBefore(cols, heights, t, i, gutter, pitch, offset, true),
                              Place(cols, heights, i, gutter, pitch, offset, true).placed[t], gutter)
    ensures forall t, j :: 0 <= t < |heights| && 0 <= j < |cols| ==>
              Place(cols, heights, i, gutter, pitch, offset, true).placed[t].top
              <= ColsBefore(cols, heights, t, i, gutter, pitch, offset, true)[j].height + gutter
  {
    var p := Place(cols, heights, i, gutter, pitch, offset, true);
    forall t | 0 <= t < |heights|
      ensures OnFirstShortest(ColsBefore(cols, heights, t, i, gutter, pitch, offset, true), p.placed[t], gutter)
      ensures forall j :: 0 <= j < |cols| ==>
                p.placed[t].top <= ColsBefore(cols, heights, t, i, gutter, pitch, offset, true)[j].height + gutter
    {
      PlacedByStep(cols, heights, i, gutter, pitch, offset, true, t);
      var before := ColsBefore(cols, heights, t, i, gutter, pitch, offset, true);
      var k := Step(before, i + t, heights[t], gutter, pitch, offset, true).slot;
      assert IsFirstMin(before, k);
      assert p.placed[t].column == before[k].index && p.placed[t].top == before[k].height + gutter;
    }
  }

  /** Item `t` of a pass starting at item `i` sits on column `(i + t) mod n`. */
  predicate Cyclic(placed: seq<Placement>, i: nat, n: nat)
    requires n > 0
  {
    forall t :: 0 <= t < |placed| ==> placed[t].column == (i + t) % n
  }

  /** In round-robin mode, item `i + t` of a pass goes on column `(i + t) mod |cols|`. */
  lemma {:induction false} RoundRobin(cols: seq<Column>, heights: seq<nat>, i: nat, gutter: nat, pitch: int, offset: int)
    requires |cols| > 0 && Indexed(cols)
    ensures Cyclic(Place(cols, heights, i, gutter, pitch, offset, false).placed, i, |cols|)
    decreases |heights|
  {
    if |heights| > 0 {
      var p := Place(cols, heights, i, gutter, pitch, offset, false);
      var s := Step(cols, i, heights[0], gutter, pitch, offset, false);
      var rest := Place(s.cols, heights[1..], i + 1, gutter, pitch, offset, false);
      assert p.placed == [s.placed] + rest.placed;
      assert Indexed(s.cols);
      RoundRobin(s.cols, heights[1..], i + 1, gutter, pitch, offset);
      forall t | 0 <= t < |heights|
        ensures p.placed[t].column == (i + t) % |cols|
      {
        if t == 0 {
          assert p.placed[0] == s.placed && s.slot == i % |cols|;
        } else {
          assert p.placed[t] == rest.placed[t - 1];
          assert rest.placed[t - 1].column == (i + 1 + (t - 1)) % |cols|;
        }
      }
    }
  }

  /** Every item's top is at least one gutter below where its column stood before the pass. */
  predicate BelowStart(cols: seq<Column>, placed: seq<Placement>, gutter: nat) {
    forall t :: 0 <= t < |placed| && placed[t].column < |cols| ==>
      cols[placed[t].column].height + gutter <= placed[t].top
  }

  lemma {:induction false} TopsBelowStart(cols: seq<Column>, heights: seq<nat>, i: nat, gutter: nat, pitch: int, offset: int, useMin: bool)
    requires |cols| > 0 && Indexed(cols)
    ensures BelowStart(cols, Place(cols, heights, i, gutter, pitch, offset, useMin).placed, gutter)
    decreases |heights|
  {
    if |heights| > 0 {
      var p := Place(cols, heights, i, gutter, pitch, offset, useMin);
      var s := Step(cols, i, heights[0], gutter, pitch, offset, useMin);
      var rest := Place(s.cols, heights[1..], i + 1, gutter, pitch, offset, useMin);
      assert p.placed == [s.placed] + rest.placed;
      assert Indexed(s.cols);
      TopsBelowStart(s.cols, heights[1..], i + 1, gutter, pitch, offset, useMin);
      forall t | 0 < t < |heights| && p.placed[t].column < |cols|
        ensures cols[p.placed[t].column].height + gutter <= p.placed[t].top
      {
        assert p.placed[t] == rest.placed[t - 1];
      }
    }
  }

  /**
    Items in the same column are stacked in item order without overlap: a
    later item starts at least one gutter below the bottom of an earlier one.
   */
  predicate Stacked(placed: seq<Placement>, heights: seq<nat>, gutter: nat)
    requires |placed| == |heights|
  {
    forall t1, t2 :: 0 <= t1 < t2 < |placed| && placed[t1].column == placed[t2].column ==>
      placed[t1].top + heights[t1] + gutter <= placed[t2].top
  }

  lemma {:induction false} StackedInOrder(cols: seq<Column>, heights: seq<nat>, i: nat, gutter: nat, pitch: int, offset: int, useMin: bool)
    requires |cols| > 0 && Indexed(cols)
    ensures Stacked(Place(cols, heights, i, gutter, pitch, offset, useMin).placed, heights, gutter)
    decreases |heights|
  {
    if |heights| > 0 {
      var p := Place(cols, heights, i, gutter, pitch, offset, useMin);
      var s := Step(cols, i, heights[0], gutter, pitch, offset, useMin);
      var rest := Place(s.cols, heights[1..], i + 1, gutter, pitch, offset, useMin);
      assert p.placed == [s.placed] + rest.placed;
      assert Indexed(s.cols);
      TopsBelowStart(s.cols, heights[1..], i + 1, gutter, pitch, offset, useMin);
      StackedInOrder(s.cols, heights[1..], i + 1, gutter, pitch, offset, useMin);
      forall t1, t2 | 0 <= t1 < t2 < |heights| && p.placed[t1].column == p.placed[t2].column
        ensures p.placed[t1].top + heights[t1] + gutter <= p.placed[t2].top
      {
        assert p.placed[t2] == rest.placed[t2 - 1];
        if t1 > 0 {
          assert p.placed[t1] == rest.placed[t1 - 1];
          assert heights[t1] == heights[1..][t1 - 1];
        }
      }
    }
  }

  /** Every item ends no lower than the final height of its column. */
  predicate Covered(cols: seq<Column>, placed: seq<Placement>, heights: seq<nat>)
    requires |placed| == |heights|
  {
    forall t :: 0 <= t < |placed| && placed[t].column < |cols| ==>
      placed[t].top + heights[t] <= cols[placed[t].column].height
  }

  lemma {:induction false} ColumnsCoverItems(cols: seq<Column>, heights: seq<nat>, i: nat, gutter: nat, pitch: int, offset: int, useMin: bool)
    requires |cols| > 0 && Indexed(cols)
    ensures var p := Place(cols, heights, i, gutter, pitch, offset, useMin);
            Covered(p.cols, p.placed, heights)
    decreases |heights|
  {
    if |heights| > 0 {
      var p := Place(cols, heights, i, gutter, pitch, offset, useMin);
      var s := Step(cols, i, heights[0], gutter, pitch, offset, useMin);
      var rest := Place(s.cols, heights[1..], i + 1, gutter, pitch, offset, useMin);
      assert p.placed == [s.placed] + rest.placed;
      assert Indexed(s.cols);
      ColumnsCoverItems(s.cols, heights[1..], i + 1, gutter, pitch, offset, useMin);
      forall t | 0 <= t < |heights| && p.placed[t].column < |cols|
        ensures p.placed[t].top + heights[t] <= p.cols[p.placed[t].column].height
      {
        if t > 0 {
          assert p.placed[t] == rest.placed[t - 1];
          assert heights[t] == heights[1..][t - 1];
        }
      }
    }
  }

  /** Sum of a sequence of lengths. */
  function Sum(xs: seq<nat>): nat {
    if |xs| == 0 then 0 else xs[0] + Sum(xs[1..])
  }

  /** Total height stacked in a list of columns. */
  function Total(cols: seq<Column>): int {
    if |cols| == 0 then 0 else cols[0].height + Total(cols[1..])
  }

  /**
    With a single column every item goes on it, in either mode, and each top
    is the column's start plus the heights of all earlier items and one gutter
    per item up to and including this one.
   */
  lemma {:induction false} SingleColumn(cols: seq<Column>, heights: seq<nat>, i: nat, gutter: nat, pitch: int, offset: int, useMin: bool)
    requires |cols| == 1
    ensures forall t :: 0 <= t < |heights| ==>
              Place(cols, heights, i, gutter, pitch, offset, useMin).placed[t].column == cols[0].index
    ensures forall t :: 0 <= t < |heights| ==>
              Place(cols, heights, i, gutter, pitch, offset, useMin).placed[t].top
              == cols[0].height + Sum(heights[..t]) + (t + 1) * gutter
    decreases |heights|
  {
    if |heights| > 0 {
      var p := Place(cols, heights, i, gutter, pitch, offset, useMin);
      var s := Step(cols, i, heights[0], gutter, pitch, offset, useMin);
      var rest := Place(s.cols, heights[1..], i + 1, gutter, pitch, offset, useMin);
      assert p.placed == [s.placed] + rest.placed;
      assert s.slot == 0;
      SingleColumn(s.cols, heights[1..], i + 1, gutter, pitch, offset, useMin);
      forall t | 0 <= t < |heights|
        ensures p.placed[t].column == cols[0].index
        ensures p.placed[t].top == cols[0].height + Sum(heights[..t]) + (t + 1) * gutter
      {
        if t == 0 {
          assert heights[..0] == [];
        } else {
          assert p.placed[t] == rest.placed[t - 1];
          assert heights[..t][1..] == heights[1..][..t - 1];
          assert Sum(heights[..t]) == heights[0] + Sum(heights[1..][..t - 1]);
          assert (t - 1 + 1) * gutter + gutter == (t + 1) * gutter;
        }
      }
    }
  }

  /** Changing one column's height changes the total by the difference. */
  lemma {:induction false} TotalUpdate(cols: seq<Column>, k: nat, c: Column)
    requires k < |cols|
    ensures Total(cols[k := c]) == Total(cols) - cols[k].height + c.height
    decreases |cols|
  {
    if k > 0 {
      assert cols[k := c][1..] == cols[1..][k - 1 := c];
      TotalUpdate(cols[1..], k - 1, c);
    }
  }

  /** A pass adds exactly the item heights plus one gutter per item to the columns. */
  lemma {:induction false} PassConservesHeight(cols: seq<Column>, heights: seq<nat>, i: nat, gutter: nat, pitch: int, offset: int, useMin: bool)
    requires |cols| > 0
    ensures Total(Place(cols, heights, i, gutter, pitch, offset, useMin).cols)
            == Total(cols) + Sum(heights) + |heights| * gutter
    decreases |heights|
  {
    if |heights| > 0 {
      var s := Step(cols, i, heights[0], gutter, pitch, offset, useMin);
      assert s.cols == cols[s.slot := s.cols[s.slot]];
      TotalUpdate(cols, s.slot, s.cols[s.slot]);
      PassConservesHeight(s.cols, heights[1..], i + 1, gutter, pitch, offset, useMin);
      assert (|heights| - 1) * gutter + gutter == |heights| * gutter;
    }
  }

  /** A positive multiple of a positive stride is at least the stride. */
  lemma StrideMultiple(k: int, pitch: int)
    requires k >= 1 && pitch > 0
    ensures k * pitch >= pitch
  {
  }

  /** Items in different columns start at least one pitch apart horizontally. */
  predicate Apart(placed: seq<Placement>, pitch: int) {
    forall t1, t2 :: 0 <= t1 < |placed| && 0 <= t2 < |placed| && placed[t1].column < placed[t2].column ==>
      placed[t1].left + pitch <= placed[t2].left
  }

  /** Placements aligned on the column grid are a pitch apart across columns. */
  lemma AlignedApart(placed: seq<Placement>, pitch: int, offset: int)
    requires pitch > 0 && Aligned(placed, pitch, offset)
    ensures Apart(placed, pitch)
  {
    forall t1, t2 | 0 <= t1 < |placed| && 0 <= t2 < |placed| && placed[t1].column < placed[t2].column
      ensures placed[t1].left + pitch <= placed[t2].left
    {
      var c1, c2 := placed[t1].column, placed[t2].column;
      assert placed[t2].left - placed[t1].left == (c2 - c1) * pitch;
      StrideMultiple(c2 - c1, pitch);
    }
  }
}
