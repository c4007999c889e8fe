/**
  Worked layouts: a 1000-wide container, a 25 gutter and items 300 wide,
  placed round-robin and shortest-first.
 */
module Scenarios {
  import opened Wrappers
  import opened Columns
  import opened Planner
  import opened Placing
  import opened MagicGrid

  /** A static grid over `items` in a container 1000 wide, with the default gutter and no cap. */
  function Sample(items: seq<Box>, useMin: bool): Grid {
    Grid("", Dom(None, 1000, items), true, None, 25, 0, useMin, false, false, Unstyled)
  }

  /** Three empty columns, as `setup` makes them for the sample container. */
  const Empty3: seq<Column> := [Column(0, 0), Column(1, 0), Column(2, 0)]

  /** Items 300 wide give a pitch of 325, three columns and 50 of leftover whitespace. */
  lemma SamplePlan(items: seq<Box>, useMin: bool)
    requires |items| > 0 && items[0].width == 300
    ensures GridPitch(Sample(items, useMin)) == 325
    ensures GridPlan(Sample(items, useMin)) == Plan(Empty3, 50)
  {
    assert ColumnCount(1000, 325, 0) == 3;
  }

  /** The round-robin pass over heights 200, 150 and 300. */
  lemma RoundRobinPass()
    ensures Place(Empty3, [200, 150, 300], 0, 25, 325, 25, false)
            == PassResult([Column(0, 225), Column(1, 175), Column(2, 325)],
                          [Placement(0, 25, 25), Placement(1, 350, 25), Placement(2, 675, 25)])
  {
    var hs: seq<nat> := [200, 150, 300];
    var s0 := Step(Empty3, 0, 200, 25, 325, 25, false);
    assert s0.cols == [Column(0, 225), Column(1, 0), Column(2, 0)];
    var s1 := Step(s0.cols, 1, 150, 25, 325, 25, false);
    assert s1.cols == [Column(0, 225), Column(1, 175), Column(2, 0)];
    var s2 := Step(s1.cols, 2, 300, 25, 325, 25, false);
    assert s2.cols == [Column(0, 225), Column(1, 175), Column(2, 325)];
    assert hs[1..] == [150, 300] && hs[1..][1..] == [300] && hs[1..][1..][1..] == [];
    assert Place(s2.cols, [], 3, 25, 325, 25, false) == PassResult(s2.cols, []);
    assert Place(s1.cols, [300], 2, 25, 325, 25, false) == PassResult(s2.cols, [s2.placed]);
    assert Place(s0.cols, [150, 300], 1, 25, 325, 25, false) == PassResult(s2.cols, [s1.placed, s2.placed]);
  }

  /**
    Round-robin: the three items go to columns 0, 1 and 2, the columns reach
    225, 175 and 325, and the container is 325 tall.
   */
  lemma RoundRobinExample()
    ensures PositionItems(Sample([Box(300, 200), Box(300, 150), Box(300, 300)], false))
            == Layout([Placement(0, 25, 25), Placement(1, 350, 25), Placement(2, 675, 25)],
                      [Column(0, 225), Column(1, 175), Column(2, 325)], 325)
  {
    var items := [Box(300, 200), Box(300, 150), Box(300, 300)];
    SamplePlan(items, false);
    assert Heights(items) == [200, 150, 300];
    RoundRobinPass();
    GetMaxCharacterized([Column(0, 225), Column(1, 175), Column(2, 325)], 2);
  }

  /** One shortest-first step on the given columns, spelled out. */
  lemma MinStep(cols: seq<Column>, i: nat, h: nat, k: nat)
    requires Indexed(cols) && IsFirstMin(cols, k)
    ensures Step(cols, i, h, 25, 325, 25, true)
            == StepResult(cols[k := Column(k, cols[k].height + h + 25)], k,
                          Placement(k, k * 325 + 25, cols[k].height + 25))
  {
    GetMinCharacterized(cols, k);
  }

  const AfterFirst: seq<Column> := [Column(0, 225), Column(1, 0), Column(2, 0)]
  const AfterSecond: seq<Column> := [Column(0, 225), Column(1, 175), Column(2, 0)]
  const AfterThird: seq<Column> := [Column(0, 225), Column(1, 175), Column(2, 325)]
  const AfterFourth: seq<Column> := [Column(0, 225), Column(1, 250), Column(2, 325)]

  /** First shortest-first step: all columns are empty, so column 0 takes the item. */
  lemma UseMinStep1()
    ensures Step(Empty3, 0, 200, 25, 325, 25, true) == StepResult(AfterFirst, 0, Placement(0, 25, 25))
  {
    MinStep(Empty3, 0, 200, 0);
    assert Empty3[0 := Column(0, 225)] == AfterFirst;
  }

  /** Second step: column 1 is the first of the two empty columns. */
  lemma UseMinStep2()
    ensures Step(AfterFirst, 1, 150, 25, 325, 25, true) == StepResult(AfterSecond, 1, Placement(1, 350, 25))
  {
    MinStep(AfterFirst, 1, 150, 1);
    assert AfterFirst[1 := Column(1, 175)] == AfterSecond;
  }

  /** Third step: column 2 is the only empty column. */
  lemma UseMinStep3()
    ensures Step(AfterSecond, 2, 300, 25, 325, 25, true) == StepResult(AfterThird, 2, Placement(2, 675, 25))
  {
    MinStep(AfterSecond, 2, 300, 2);
    assert AfterSecond[2 := Column(2, 325)] == AfterThird;
  }

  /** Fourth step: column 1, at 175, is the shortest. */
  lemma UseMinStep4()
    ensures Step(AfterThird, 3, 50, 25, 325, 25, true) == StepResult(AfterFourth, 1, Placement(1, 350, 200))
  {
    MinStep(AfterThird, 3, 50, 1);
    assert AfterThird[1 := Column(1, 250)] == AfterFourth;
  }

  /** The last two shortest-first steps as a pass. */
  lemma UseMinTail()
    ensures Place(AfterSecond, [300, 50], 2, 25, 325, 25, true)
            == PassResult(AfterFourth, [Placement(2, 675, 25), Placement(1, 350, 200)])
  {
    UseMinStep3();
    UseMinStep4();
    var hs: seq<nat> := [300, 50];
    assert hs[1..] == [50] && hs[1..][1..] == [];
    assert Place(AfterFourth, [], 4, 25, 325, 25, true) == PassResult(AfterFourth, []);
    assert Place(AfterThird, [50], 3, 25, 325, 25, true) == PassResult(AfterFourth, [Placement(1, 350, 200)]);
  }

  /** The last three shortest-first steps as a pass. */
  lemma UseMinRest()
    ensures Place(AfterFirst, [150, 300, 50], 1, 25, 325, 25, true)
            == PassResult(AfterFourth, [Placement(1, 350, 25), Placement(2, 675, 25), Placement(1, 350, 200)])
  {
    UseMinStep2();
    UseMinTail();
    var hs: seq<nat> := [150, 300, 50];
    assert hs[1..] == [300, 50];
  }

  /** The shortest-first pass over heights 200, 150, 300 and 50. */
  lemma UseMinPass(cols: seq<Column>, hs: seq<nat>)
    requires cols == Empty3 && hs == [200, 150, 300, 50]
    ensures Place(cols, hs, 0, 25, 325, 25, true)
            == PassResult(AfterFourth,
                          [Placement(0, 25, 25), Placement(1, 350, 25), Placement(2, 675, 25),
                           Placement(1, 350, 200)])
  {
    UseMinStep1();
    UseMinRest();
    var s := Step(cols, 0, hs[0], 25, 325, 25, true);
    assert s == StepResult(AfterFirst, 0, Placement(0, 25, 25));
    assert hs[1..] == [150, 300, 50];
    assert Place(cols, hs, 0, 25, 325, 25, true)
           == PassResult(AfterFourth, [s.placed] + Place(s.cols, hs[1..], 1, 25, 325, 25, true).placed);
  }

  /**
    Shortest-first with a fourth item 50 tall: the first three land as in
    round-robin, then the fourth goes on column 1 (175, the shortest), which
    grows to 250; the container stays 325 tall.
   */
  lemma UseMinExample()
    ensures PositionItems(Sample([Box(300, 200), Box(300, 150), Box(300, 300), Box(300, 50)], true))
            == Layout([Placement(0, 25, 25), Placement(1, 350, 25), Placement(2, 675, 25), Placement(1, 350, 200)],
                      AfterFourth, 325)
  {
    var items := [Box(300, 200), Box(300, 150), Box(300, 300), Box(300, 50)];
    SamplePlan(items, true);
    assert Heights(items) == [200, 150, 300, 50];
    UseMinPass(Empty3, Heights(items));
    GetMaxCharacterized(AfterFourth, 2);
  }
}
