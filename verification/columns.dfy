/**
  Columns of one placement pass and the two linear scans over them
  (`getMin` and `getMax` in dist/magic-grid.cjs.js).
 */
module Columns {

  /** A column: its position among the columns and the height stacked in it so far. */
  datatype Column = Column(index: nat, height: int)

  /** Every column records its own position in the list. */
  predicate Indexed(cols: seq<Column>) {
    forall j :: 0 <= j < |cols| ==> cols[j].index == j
  }

  /** `k` is a shortest column, and no column before it is as short. */
  predicate IsFirstMin(cols: seq<Column>, k: nat) {
    && k < |cols|
    && (forall j :: 0 <= j < |cols| ==> cols[k].height <= cols[j].height)
    && (forall j :: 0 <= j < k ==> cols[k].height < cols[j].height)
  }

  /** `k` is a tallest column, and no column before it is as tall. */
  predicate IsFirstMax(cols: seq<Column>, k: nat) {
    && k < |cols|
    && (forall j :: 0 <= j < |cols| ==> cols[j].height <= cols[k].height)
    && (forall j :: 0 <= j < k ==> cols[j].height < cols[k].height)
  }

  /**
    The left-to-right scan behind `getMin`: `best` is the column kept so far
    and `i` the next column to compare; a column replaces `best` only when it
    is strictly shorter.
   */
  function MinScan(cols: seq<Column>, best: nat, i: nat): (k: nat)
    requires best < |cols| && i <= |cols|
    requires forall j :: 0 <= j < i ==> cols[best].height <= cols[j].height
    requires forall j :: 0 <= j < best ==> cols[best].height < cols[j].height
    ensures IsFirstMin(cols, k)
    decreases |cols| - i
  {
    if i == |cols| then best
    else if cols[i].height < cols[best].height then MinScan(cols, i, i + 1)
    else MinScan(cols, best, i + 1)
  }

  /** The scan behind `getMax`, keeping the first strictly taller column. */
  function MaxScan(cols: seq<Column>, best: nat, i: nat): (k: nat)
    requires best < |cols| && i <= |cols|
    requires forall j :: 0 <= j < i ==> cols[j].height <= cols[best].height
    requires forall j :: 0 <= j < best ==> cols[j].height < cols[best].height
    ensures IsFirstMax(cols, k)
    decreases |cols| - i
  {
    if i == |cols| then best
    else if cols[i].height > cols[best].height then MaxScan(cols, i, i + 1)
    else MaxScan(cols, best, i + 1)
  }

  /** Position of the shortest column, the first one on ties (`getMin`). */
  function GetMin(cols: seq<Column>): (k: nat)
    requires |cols| > 0
    ensures IsFirstMin(cols, k)
  {
    MinScan(cols, 0, 0)
  }

  /** Position of the tallest column, the first one on ties (`getMax`). */
  function GetMax(cols: seq<Column>): (k: nat)
    requires |cols| > 0
    ensures IsFirstMax(cols, k)
  {
    MaxScan(cols, 0, 0)
  }

  /** The first shortest column is unique, so `GetMin` is exactly it. */
  lemma GetMinCharacterized(cols: seq<Column>, k: nat)
    requires |cols| > 0
    ensures IsFirstMin(cols, k) <==> k == GetMin(cols)
  {
  }

  /** The first tallest column is unique, so `GetMax` is exactly it. */
  lemma GetMaxCharacterized(cols: seq<Column>, k: nat)
    requires |cols| > 0
    ensures IsFirstMax(cols, k) <==> k == GetMax(cols)
  {
  }
}
