# MagicGrid layout core in Dafny

This project models the layout arithmetic of MagicGrid, a masonry grid
(`dist/magic-grid.cjs.js`). The document is replaced by plain numbers: a
container width, the container's `length` property, and each child's measured
width and height. What remains is a small, pure, sequential core:

- **Configuration** (`Settings`, `settings.dfy`): the options object with
  JavaScript truthiness written out, `checkParams`/`error`, and the falsy
  defaults of the constructor (a falsy gutter becomes 25, a falsy
  `maxColumns` means "no cap").
- **Columns** (`Columns`, `columns.dfy`): the column record and the two
  linear scans `getMin`/`getMax`, which keep the first strict extremum.
- **Column planner** (`Planner`, `planner.dfy`): `colWidth` (the pitch) and
  `setup` (column count, fresh columns, leftover whitespace).
- **Placement pass** (`Placing`, `placing.dfy`): `nextCol` and the loop of
  `positionItems`, as a recursive fold over item heights that carries the
  column list.
- **Grid object** (`MagicGrid`, `grid.dfy`): construction, `ready`, the
  one-shot `init` guarded by `started`, and `positionItems` with the
  container height taken from `getMax`.
- **Worked layouts** (`Scenarios`, `scenarios.dfy`): a 1000-wide container
  with 300-wide items, round-robin and shortest-first.

Three behaviours of the code are easy to misread; the model follows the code:

- `ready` outside static mode tests `container.length > 0`, not that the
  container exists. An ordinary element has no `length` property, so such a
  grid is never ready (`MagicGrid.OrdinaryContainerNeverReady`). The model
  keeps `length` as an abstract input (`Dom.lengthProp`).
- The resize handler passes the *result* of `positionItems()` to
  `setTimeout` (line 230), so relayout runs at once with no debounce. Resize
  handling is outside the model either way.
- The doc comment of `getMin` says "longest"; the code finds the shortest
  column, and so does `Columns.GetMin`.

Widths and heights are `nat`, positions `int`. Dafny's `/` with a positive
divisor is floor division, matching `Math.floor` at lines 124 and 167, also
for a negative leftover whitespace.

## Model

| member | source | states |
|---|---|---|
| Settings.CheckParams | dist/magic-grid.cjs.js:13-16 | validation passes exactly when the container is truthy and `items` or `static` is; a missing container is reported first with the message for "container"; otherwise both `items` and `static` falsy fail with "items or static" |
| Settings.ErrorMessage | dist/magic-grid.cjs.js:19-21 | the thrown message carries the property name, at a fixed position, between a fixed head and tail |
| Settings.MessageNamesProperty | dist/magic-grid.cjs.js:19-21 | the property name can be read back from the message: the message names exactly the missing property |
| Settings.GutterOf | dist/magic-grid.cjs.js:76 | the gutter is at least 1; a truthy gutter is kept and a missing or zero gutter becomes 25 |
| Settings.MaxColumnsOf | dist/magic-grid.cjs.js:77 | the cap is 0 ("no cap") exactly when `maxColumns` is missing or zero, and a given cap is kept as is |
| Columns.MinScan | dist/magic-grid.cjs.js:50-54 | the scan that replaces the kept column only on a strictly shorter one ends on the first shortest column |
| Columns.MaxScan | dist/magic-grid.cjs.js:32-36 | the scan that replaces the kept column only on a strictly taller one ends on the first tallest column |
| Columns.GetMin | dist/magic-grid.cjs.js:49-57 | on a non-empty list, returns a column no taller than any other, with every earlier column strictly taller |
| Columns.GetMax | dist/magic-grid.cjs.js:31-39 | on a non-empty list, returns a column no shorter than any other, with every earlier column strictly shorter |
| Columns.GetMinCharacterized | dist/magic-grid.cjs.js:49-57 | a position is the first shortest column if and only if it is what `getMin` returns |
| Columns.GetMaxCharacterized | dist/magic-grid.cjs.js:31-39 | a position is the first tallest column if and only if it is what `getMax` returns |
| Planner.Pitch | dist/magic-grid.cjs.js:111-113 | the pitch is the first item's width plus the gutter, so it is strictly wider than the item |
| Planner.ColumnCount | dist/magic-grid.cjs.js:124-129 | the count is at least 1, at most a set cap, fits the width unless it is 1, and one more column would not fit unless the cap stopped it; when the cap is set and exceeded the count is exactly the cap |
| Planner.ColumnCountUnique | dist/magic-grid.cjs.js:124-129 | those conditions admit exactly one count, the one computed |
| Planner.Setup | dist/magic-grid.cjs.js:122-138 | exactly `ColumnCount` columns, column `j` has index `j` and height 0, and whitespace plus the columns' span (without the last gutter) equals the container width |
| Planner.Centered | dist/magic-grid.cjs.js:135-167 | the left margin (half the whitespace, rounded down) and the right margin differ by 0 or 1, and both are non-negative when the columns fit |
| Placing.NextCol | dist/magic-grid.cjs.js:149-155 | the chosen column is in range; in `useMin` mode it is the first shortest column, otherwise column `i mod n` |
| Placing.Step | dist/magic-grid.cjs.js:169-178 | one item: top is the chosen column's height plus the gutter, left is its index times the pitch plus the offset, that column grows by item height plus gutter and no other column changes |
| Placing.Place | dist/magic-grid.cjs.js:162-178 | a pass keeps the number and indices of the columns, never lowers a column, places every item on an existing column, and gives every item `left = index * pitch + offset` with one offset for the whole pass |
| Placing.PlacedByStep | dist/magic-grid.cjs.js:169-178 | item `t` of a pass is placed by one step on the columns as they stand after items `0..t-1` |
| Placing.UseMinPicksShortest | dist/magic-grid.cjs.js:150-151 | in `useMin` mode each item goes on the first shortest column as the columns stand just before it (ties to the leftmost), one gutter below its height; so that column was no taller than any other |
| Placing.RoundRobin | dist/magic-grid.cjs.js:154 | in round-robin mode item `i` goes on column `i mod n` |
| Placing.TopsBelowStart | dist/magic-grid.cjs.js:175-177 | every item's top is at least one gutter below its column's height at the start of the pass |
| Placing.StackedInOrder | dist/magic-grid.cjs.js:169-178 | two items in one column are stacked in item order, the later one at least one gutter below the bottom of the earlier one |
| Placing.ColumnsCoverItems | dist/magic-grid.cjs.js:175-177 | every item's bottom is at or above the final height of its column |
| Placing.PassConservesHeight | dist/magic-grid.cjs.js:177 | a pass adds to the columns' total height exactly the item heights plus one gutter per item |
| Placing.SingleColumn | dist/magic-grid.cjs.js:169-178 | with one column every item goes on it in either mode, and item `t`'s top is the start height plus the earlier items' heights plus `t + 1` gutters |
| Placing.AlignedApart | dist/magic-grid.cjs.js:171 | items placed on the column grid start at least one pitch apart when their columns differ |
| MagicGrid.ColumnsDoNotOverlap | dist/magic-grid.cjs.js:111-113 | when no item is wider than the first (the width columns are sized by), an item ends at least one gutter before any item in a later column starts |
| MagicGrid.Ready | dist/magic-grid.cjs.js:189-192 | static mode is always ready; otherwise ready exactly when the container's `length` is positive and the child count equals the configured item count |
| MagicGrid.OrdinaryContainerNeverReady | dist/magic-grid.cjs.js:191 | outside static mode a container with no `length` property is never ready |
| MagicGrid.Init | dist/magic-grid.cjs.js:90-103 | unready or already started: nothing changes; otherwise the container and every current item get positioned (with transitions when animating), `started` becomes true and nothing else changes |
| MagicGrid.InitIdempotent | dist/magic-grid.cjs.js:91 | a second `init` changes nothing |
| MagicGrid.InitEach | dist/magic-grid.cjs.js:90-103 | over any series of document changes each followed by `init`, a started grid stays started and its styles are never rewritten |
| MagicGrid.Construct | dist/magic-grid.cjs.js:68-83 | construction throws the configuration errors in `checkParams` order, throws when no container matches, and otherwise applies every default and has run `init` exactly when the grid is ready |
| MagicGrid.ValidConstructs | dist/magic-grid.cjs.js:68-83 | a valid configuration whose container exists never throws |
| MagicGrid.PositionItems | dist/magic-grid.cjs.js:162-181 | one placement per item on one of `ColumnCount` columns, all aligned with one centering offset; the container height is the height of a tallest column, every item ends inside it, items in one column do not overlap, and round-robin places item `i` on column `i mod n` |
| Scenarios.SamplePlan | dist/magic-grid.cjs.js:122-138 | 300-wide items with gutter 25 in a 1000-wide container give pitch 325, three columns and 50 of whitespace |
| Scenarios.RoundRobinExample | dist/magic-grid.cjs.js:162-181 | heights 200, 150, 300 round-robin go to columns 0, 1, 2 at left 25, 350, 675; columns reach 225, 175, 325; container 325 |
| Scenarios.UseMinExample | dist/magic-grid.cjs.js:162-181 | shortest-first with a fourth item 50 tall: it goes on column 1 (175), which grows to 250; container 325 |

## Left out

- Document access (`document.querySelector`, `.children`,
  `getBoundingClientRect`): replaced by a `Dom` snapshot of numbers; a
  selector that matches nothing is the `NullContainer` failure.
- Style strings: the `"px"` suffixes, the transition text and the container
  height written with no unit (line 180) are not modelled; positions are
  numbers and `init`'s styles are a summary (`Styles`).
- `getReady` (lines 202-216) and `listen` (lines 223-233): interval polling,
  the resize listener and `setTimeout` are host scheduling. `InitEach` covers
  the repeated `init` calls the polling makes; the timer itself is left out.
- Floating-point measurements: widths and heights are whole numbers.
- `colWidth` on an empty item list: `items[0]` is undefined there, so
  `PositionItems` requires at least one item.
- Settings.GutterOf: negative gutters are not modelled (`gutter` is a `nat`
  option). The source keeps a negative gutter (`config.gutter || 25`), and
  the layout still runs while the pitch stays positive; but then line 177
  can lower a column and line 175 can give a negative top, so the promises
  that heights never drop and that tops lie a gutter below the column start
  would not hold.
- Settings.MaxColumnsOf: negative caps are not modelled (`maxColumns` is a
  `nat` option); the source would then build no columns and fail.
- Re-measurement between reads: the source calls `colWidth` twice in
  `setup` (lines 124 and 135) and once per item (line 171), and reads the
  container width and each item's height from the live document during the
  pass. The model measures everything once per pass, which is the same when
  nothing changes during the pass.
- Repeated relayout: `PositionItems` is a function of the measurements, so
  two passes over unchanged content give identical offsets by construction.
