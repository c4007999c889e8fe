/**
  The MagicGrid object of dist/magic-grid.cjs.js: construction, the readiness
  gate, one-shot style initialisation and the placement pass, with the
  document reduced to a snapshot of measured numbers.
 */
module MagicGrid {
  import opened Wrappers
  import opened Columns
  import opened Planner
  import opened Placing
  import opened Settings

  /** The measured bounding box of one item. */
  datatype Box = Box(width: nat, height: nat)

  /**
    What the grid reads from the document: the container's `length`
    property (undefined, `None`, for an ordinary element), its measured width,
    and its children in document order.
   */
  datatype Dom = Dom(lengthProp: Option<int>, width: nat, items: seq<Box>)

  /** The styles `init` writes: absolute positioning on so many items, with or without transitions. */
  datatype Styles = Unstyled | Styled(absoluteItems: nat, transitions: bool)

  /** The state of one MagicGrid object once its options are defaulted. */
  datatype Grid = Grid(
    containerClass: string,
    dom: Dom,
    staticMode: bool,
    size: Option<int>,
    gutter: Pos,
    maxColumns: nat,
    useMin: bool,
    animate: bool,
    started: bool,
    styles: Styles)

  /** Why construction throws: a configuration error, or no element matched the selector. */
  datatype Thrown = ConfigError(message: string) | NullContainer

  /** `started` is set exactly when the styles have been written. */
  predicate Consistent(g: Grid) {
    g.started <==> g.styles.Styled?
  }

  /**
    `ready`: always in static mode; otherwise the container's `length`
    property must be positive and the number of children must equal the
    configured item count.
   */
  function Ready(g: Grid): (r: bool)
    ensures g.staticMode ==> r
    ensures !g.staticMode ==> (r <==> g.dom.lengthProp.Some? && g.dom.lengthProp.value > 0
                                      && g.size == Some(|g.dom.items|))
  {
    g.staticMode || (g.dom.lengthProp.Some? && g.dom.lengthProp.value > 0 && g.size == Some(|g.dom.items|))
  }

  /** Outside static mode, a container without a `length` property is never ready. */
  lemma OrdinaryContainerNeverReady(g: Grid)
    requires !g.staticMode && g.dom.lengthProp.None?
    ensures !Ready(g)
  {
  }

  /**
    `init`: when ready and not yet started, position the container and every
    current item and mark the grid started; otherwise change nothing.
   */
  function Init(g: Grid): (r: Grid)
    ensures !Ready(g) || g.started ==> r == g
    ensures Ready(g) && !g.started ==>
              && r.started
              && r.styles == Styled(|g.dom.items|, g.animate)
              && r.(started := false, styles := g.styles) == g
    ensures Consistent(g) ==> Consistent(r)
  {
    if !Ready(g) || g.started then g
    else g.(styles := Styled(|g.dom.items|, g.animate), started := true)
  }

  /** A second `init` changes nothing. */
  lemma InitIdempotent(g: Grid)
    ensures Init(Init(g)) == Init(g)
  {
  }

  /**
    `init` called after each of a series of document changes: once started,
    the grid stays started and its styles are never written again.
   */
  function InitEach(g: Grid, doms: seq<Dom>): (r: Grid)
    ensures g.started ==> r.started && r.styles == g.styles
    ensures Consistent(g) ==> Consistent(r)
    ensures r.staticMode == g.staticMode && r.size == g.size && r.gutter == g.gutter
    decreases |doms|
  {
    if |doms| == 0 then g else InitEach(Init(g.(dom := doms[0])), doms[1..])
  }

  /**
    The constructor: validate, look the container up (a `null` result throws
    when its children are read), default the options, then `init`.
   */
  function Construct(o: Options, found: Option<Dom>): (r: Result<Grid, Thrown>)
    ensures r.Success? <==> Valid(o) && found.Some?
    ensures !HasContainer(o) ==> r == Failure(ConfigError(ErrorMessage("container")))
    ensures HasContainer(o) && !HasItems(o) && !Flag(o.staticMode) ==>
              r == Failure(ConfigError(ErrorMessage("items or static")))
    ensures Valid(o) && found.None? ==> r == Failure(NullContainer)
    ensures r.Success? ==>
              && r.value.containerClass == o.container.value
              && r.value.dom == found.value
              && r.value.staticMode == Flag(o.staticMode)
              && r.value.size == o.items
              && (o.gutter.Some? && o.gutter.value > 0 ==> r.value.gutter == o.gutter.value)
              && (o.gutter.None? || o.gutter == Some(0) ==> r.value.gutter == DefaultGutter)
              && (o.maxColumns.Some? ==> r.value.maxColumns == o.maxColumns.value)
              && (o.maxColumns.None? ==> r.value.maxColumns == 0)
              && r.value.useMin == Flag(o.useMin)
              && r.value.animate == Flag(o.animate)
              && Consistent(r.value)
              && (r.value.started <==> Ready(r.value))
  {
    match CheckParams(o)
    case Fail(message) => Failure(ConfigError(message))
    case Pass =>
      if found.None? then Failure(NullContainer)
      else
        var g := Grid(o.container.value, found.value, Flag(o.staticMode), o.items, GutterOf(o),
                      MaxColumnsOf(o), Flag(o.useMin), Flag(o.animate), false, Unstyled);
        Success(Init(g))
  }

  /** Every valid configuration whose container exists constructs without throwing. */
  lemma ValidConstructs(o: Options, d: Dom)
    requires Valid(o)
    ensures Construct(o, Some(d)).Success?
  {
  }

  /** The result of a placement pass: each item's placement, the final columns and the container height. */
  datatype Layout = Layout(placed: seq<Placement>, cols: seq<Column>, height: int)

  /** The item heights in document order. */
  function Heights(items: seq<Box>): (hs: seq<nat>)
    ensures |hs| == |items|
    ensures forall t :: 0 <= t < |items| ==> hs[t] == items[t].height
  {
    seq(|items|, t requires 0 <= t < |items| => items[t].height)
  }

  /** The pitch of the grid, measured from its first item. */
  function GridPitch(g: Grid): Pos
    requires |g.dom.items| > 0
  {
    Pitch(g.dom.items[0].width, g.gutter)
  }

  /** The columns and whitespace `setup` gives for the grid's current measurements. */
  function GridPlan(g: Grid): Plan
    requires |g.dom.items| > 0
  {
    Setup(g.dom.width, g.dom.items[0].width, g.gutter, g.maxColumns)
  }

  /**
    `positionItems`: one pass over the items in document order on fresh
    columns, every `left` shifted by half the leftover whitespace; the
    container is as tall as the tallest column, so every item ends inside it.
   */
  function PositionItems(g: Grid): (l: Layout)
    requires |g.dom.items| > 0
    ensures |l.placed| == |g.dom.items|
    ensures |l.cols| == ColumnCount(g.dom.width, GridPitch(g), g.maxColumns)
    ensures forall t :: 0 <= t < |l.placed| ==> l.placed[t].column < |l.cols|
    ensures Aligned(l.placed, GridPitch(g), GridPlan(g).wSpace / 2)
    ensures forall j :: 0 <= j < |l.cols| ==> l.cols[j].height <= l.height
    ensures exists j :: 0 <= j < |l.cols| && l.cols[j].height == l.height
    ensures forall t :: 0 <= t < |l.placed| ==> l.placed[t].top + g.dom.items[t].height <= l.height
    ensures Stacked(l.placed, Heights(g.dom.items), g.gutter)
    ensures !g.useMin ==> Cyclic(l.placed, 0, |l.cols|)
  {
    var plan := GridPlan(g);
    var hs := Heights(g.dom.items);
    var p := Place(plan.cols, hs, 0, g.gutter, GridPitch(g), plan.wSpace / 2, g.useMin);
    var k := GetMax(p.cols);
    ColumnsCoverItems(plan.cols, hs, 0, g.gutter, GridPitch(g), plan.wSpace / 2, g.useMin);
    StackedInOrder(plan.cols, hs, 0, g.gutter, GridPitch(g), plan.wSpace / 2, g.useMin);
    RoundRobin(plan.cols, hs, 0, g.gutter, GridPitch(g), plan.wSpace / 2);
    Layout(p.placed, p.cols, p.cols[k].height)
  }

  /**
    Items no wider than the first one (the width every column is sized by)
    sit side by side: across columns, an item ends at least one gutter
    before the next column's item starts.
   */
  predicate SideBySide(placed: seq<Placement>, items: seq<Box>, gutter: int)
    requires |placed| == |items|
  {
    forall t1, t2 :: 0 <= t1 < |placed| && 0 <= t2 < |placed| && placed[t1].column < placed[t2].column ==>
      placed[t1].left + items[t1].width + gutter <= placed[t2].left
  }

  lemma ColumnsDoNotOverlap(g: Grid)
    requires |g.dom.items| > 0
    requires forall t :: 0 <= t < |g.dom.items| ==> g.dom.items[t].width <= g.dom.items[0].width
    ensures SideBySide(PositionItems(g).placed, g.dom.items, g.gutter)
  {
    var l := PositionItems(g);
    AlignedApart(l.placed, GridPitch(g), GridPlan(g).wSpace / 2);
  }
}
