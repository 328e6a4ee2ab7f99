/** The positions of test_heuristicAI.py worked through the model: the two
    slot-count tests, and the four choose_move tests. Each choose_move test
    is proved on any grid with the test's rows (so that the verifier reasons
    about the rows one slot at a time) and then on the test's grid itself. */
module HeuristicExamples {
  import opened Grid
  import opened Heuristic

  /** Row 0 holds three pieces of player 2 in columns 4 to 6. */
  const RowOfThree: Cells := [
    [0, 0, 0, 0, 2, 2, 2],
    [0, 0, 0, 0, 0, 0, 0],
    [0, 0, 0, 0, 0, 0, 0],
    [0, 0, 0, 0, 0, 0, 0],
    [0, 0, 0, 0, 0, 0, 0],
    [0, 0, 0, 0, 0, 0, 0]]

  /** Player 2 at (0, 0), (1, 1) and (3, 3): a diagonal with a gap at (2, 2). */
  const DiagonalGap: Cells := [
    [2, 0, 0, 0, 0, 0, 0],
    [0, 2, 0, 0, 0, 0, 0],
    [0, 0, 0, 0, 0, 0, 0],
    [0, 0, 0, 2, 0, 0, 0],
    [0, 0, 0, 0, 0, 0, 0],
    [0, 0, 0, 0, 0, 0, 0]]

  /** Slot test one: the empty slot at (0, 3) extends the row of three. */
  lemma SlotCountRowOfThree()
    ensures SlotCount(RowOfThree, 0, 3, 2) == 3
  {
    assert LineCount(RowOfThree, 0, 3, 2, Horizontal) == 3;
  }

  /** Slot test two: the empty slot at (2, 2) fills the diagonal's gap. */
  lemma SlotCountDiagonalGap()
    ensures SlotCount(DiagonalGap, 2, 2, 2) == 3
  {
    assert LineCount(DiagonalGap, 2, 2, 2, DiagonalUp) == 3;
  }

  /** Every column legal, as on an empty board. */
  const AllColumns: seq<int> := [1, 2, 3, 4, 5, 6, 7]

  /** The columns of the full list, grouped by distance from the centre. */
  lemma AtDistanceOfAll()
    ensures AtDistance(AllColumns, 0) == [4]
    ensures AtDistance(AllColumns, 1) == [3, 5]
    ensures AtDistance(AllColumns, 2) == [2, 6]
    ensures AtDistance(AllColumns, 3) == [1, 7]
  {
    assert AllColumns[1..] == [2, 3, 4, 5, 6, 7];
  }

  /** The full list is looked at from the centre column outwards, the left
      column of each pair first. */
  lemma CentreFirstOfAll()
    ensures CentreFirst(AllColumns) == [4, 3, 5, 2, 6, 1, 7]
  {
    AtDistanceOfAll();
    var l3 := Layers(AllColumns, 3);
    assert l3 == [1, 7];
    var l2 := Layers(AllColumns, 2);
    assert l2 == [2, 6] + l3;
    var l1 := Layers(AllColumns, 1);
    assert l1 == [3, 5] + l2;
    assert CentreFirst(AllColumns) == [4] + l1;
  }

  /** The legal list of the avoid-enabling test: columns 3 and 4 are full. */
  const AvoidLegal: seq<int> := [1, 2, 5, 6, 7]

  /** The columns of AvoidLegal, grouped by distance from the centre. */
  lemma AtDistanceOfAvoidLegal()
    ensures AtDistance(AvoidLegal, 0) == []
    ensures AtDistance(AvoidLegal, 1) == [5]
    ensures AtDistance(AvoidLegal, 2) == [2, 6]
    ensures AtDistance(AvoidLegal, 3) == [1, 7]
  {
    assert AvoidLegal[1..] == [2, 5, 6, 7];
  }

  /** AvoidLegal is looked at from column 5 outwards. */
  lemma CentreFirstOfAvoidLegal()
    ensures CentreFirst(AvoidLegal) == [5, 2, 6, 1, 7]
  {
    AtDistanceOfAvoidLegal();
    var l3 := Layers(AvoidLegal, 3);
    assert l3 == [1, 7];
    var l2 := Layers(AvoidLegal, 2);
    assert l2 == [2, 6] + l3;
    var l1 := Layers(AvoidLegal, 1);
    assert l1 == [5] + l2;
    assert CentreFirst(AvoidLegal) == [] + l1;
  }

  // ----- Slots worked out from their lines -----

  /** The larger of a and b. */
  function Max(a: int, b: int): int {
    if a < b then b else a
  }

  /** With the four line counts around (r, c) known, the slot count is the
      largest of them and the slot wins exactly when one of them is 3. */
  lemma SlotFromLines(g: Cells, r: int, c: int, t: int, a: int, b: int, d: int, e: int)
    requires WellFormed(g)
    requires LineCount(g, r, c, t, DiagonalUp) == a && LineCount(g, r, c, t, Horizontal) == b
    requires LineCount(g, r, c, t, DiagonalDown) == d && LineCount(g, r, c, t, Vertical) == e
    ensures SlotCount(g, r, c, t) == Max(Max(Max(a, b), d), e)
    ensures SlotWins(g, r, c, t) <==> a == 3 || b == 3 || d == 3 || e == 3
  {
    assert Lines[0] == DiagonalUp && Lines[1] == Horizontal && Lines[2] == DiagonalDown && Lines[3] == Vertical;
    assert BestLineUpTo(g, r, c, t, 1) == a;
    SlotCountWins(g, r, c, t);
  }

  /** The winning test at index i of cols is the one at the slot (r, c)
      on top of that column. */
  lemma SlotAt(g: Cells, cols: seq<int>, heights: seq<int>, token: int, i: int, r: int, c: int)
    requires ValidInputs(g, cols, heights) && 0 <= i < |cols|
    requires c == cols[i] - 1 && r == heights[c]
    ensures WinsAt(g, cols, heights, token, i) <==> SlotWins(g, r, c, token)
  {
  }

  // ----- ChooseBlocksColumn -----

  /** Player 2 holds the bottom three cells of column 1. */
  const BlockingOne: Cells := [
    [2, 0, 0, 0, 0, 0, 0],
    [2, 0, 0, 0, 0, 0, 0],
    [2, 0, 0, 0, 0, 0, 0],
    [0, 0, 0, 0, 0, 0, 0],
    [0, 0, 0, 0, 0, 0, 0],
    [0, 0, 0, 0, 0, 0, 0]]

  /** g has the rows of BlockingOne. */
  predicate IsBlockingOne(g: Cells) {
    |g| == Rows &&
    g[0] == BlockingOne[0] && g[1] == BlockingOne[1] && g[2] == BlockingOne[2] &&
    g[3] == BlockingOne[3] && g[4] == BlockingOne[4] && g[5] == BlockingOne[5]
  }

  /** The slots of BlockingOne for player 1 at the top of each column: columns 4, 3, 5. */
  lemma BlockingOneOwn0(g: Cells)
    requires IsBlockingOne(g)
    ensures WellFormed(g)
    ensures !SlotWins(g, 0, 3, 1)
    ensures !SlotWins(g, 0, 2, 1)
    ensures !SlotWins(g, 0, 4, 1)
  {
    assert WellFormed(g);
    SlotFromLines(g, 0, 3, 1, 0, 0, 0, 0);
    SlotFromLines(g, 0, 2, 1, 0, 0, 0, 0);
    SlotFromLines(g, 0, 4, 1, 0, 0, 0, 0);
  }

  /** The slots of BlockingOne for player 1 at the top of each column: columns 2, 6, 1. */
  lemma BlockingOneOwn1(g: Cells)
    requires IsBlockingOne(g)
    ensures WellFormed(g)
    ensures !SlotWins(g, 0, 1, 1)
    ensures !SlotWins(g, 0, 5, 1)
    ensures !SlotWins(g, 3, 0, 1)
  {
    assert WellFormed(g);
    SlotFromLines(g, 0, 1, 1, 0, 0, 0, 0);
    SlotFromLines(g, 0, 5, 1, 0, 0, 0, 0);
    SlotFromLines(g, 3, 0, 1, 0, 0, 0, 0);
  }

  /** The slots of BlockingOne for player 1 at the top of each column: column 7. */
  lemma BlockingOneOwn2(g: Cells)
    requires IsBlockingOne(g)
    ensures WellFormed(g)
    ensures !SlotWins(g, 0, 6, 1)
  {
    assert WellFormed(g);
    SlotFromLines(g, 0, 6, 1, 0, 0, 0, 0);
  }

  /** The slots of BlockingOne for player 2 at the top of each column: columns 4, 3, 5. */
  lemma BlockingOneThreats0(g: Cells)
    requires IsBlockingOne(g)
    ensures WellFormed(g)
    ensures !SlotWins(g, 0, 3, 2)
    ensures !SlotWins(g, 0, 2, 2)
    ensures !SlotWins(g, 0, 4, 2)
  {
    assert WellFormed(g);
    SlotFromLines(g, 0, 3, 2, 0, 0, 0, 0);
    SlotFromLines(g, 0, 2, 2, 0, 0, 0, 0);
    SlotFromLines(g, 0, 4, 2, 0, 0, 0, 0);
  }

  /** The slots of BlockingOne for player 2 at the top of each column: columns 2, 6, 1. */
  lemma BlockingOneThreats1(g: Cells)
    requires IsBlockingOne(g)
    ensures WellFormed(g)
    ensures !SlotWins(g, 0, 1, 2)
    ensures !SlotWins(g, 0, 5, 2)
    ensures SlotWins(g, 3, 0, 2)
  {
    assert WellFormed(g);
    SlotFromLines(g, 0, 1, 2, 0, 1, 1, 0);
    SlotFromLines(g, 0, 5, 2, 0, 0, 0, 0);
    assert Run(g, 1, 0, -1, 0, 2, 2) == 3;
    assert Run(g, 2, 0, -1, 0, 2, 1) == 3;
    SlotFromLines(g, 3, 0, 2, 0, 0, 0, 3);
  }

  /** No column of BlockingOne wins at once for player 1. */
  lemma BlockingOneNoWin(g: Cells)
    requires IsBlockingOne(g)
    ensures ValidInputs(g, [4, 3, 5, 2, 6, 1, 7], [3, 0, 0, 0, 0, 0, 0])
    ensures FirstWinFrom(g, [4, 3, 5, 2, 6, 1, 7], [3, 0, 0, 0, 0, 0, 0], 1, 0) == 7
  {
    assert ValidInputs(g, [4, 3, 5, 2, 6, 1, 7], [3, 0, 0, 0, 0, 0, 0]);
    BlockingOneOwn0(g);
    BlockingOneOwn1(g);
    BlockingOneOwn2(g);
    SlotAt(g, [4, 3, 5, 2, 6, 1, 7], [3, 0, 0, 0, 0, 0, 0], 1, 0, 0, 3);
    SlotAt(g, [4, 3, 5, 2, 6, 1, 7], [3, 0, 0, 0, 0, 0, 0], 1, 1, 0, 2);
    SlotAt(g, [4, 3, 5, 2, 6, 1, 7], [3, 0, 0, 0, 0, 0, 0], 1, 2, 0, 4);
    SlotAt(g, [4, 3, 5, 2, 6, 1, 7], [3, 0, 0, 0, 0, 0, 0], 1, 3, 0, 1);
    SlotAt(g, [4, 3, 5, 2, 6, 1, 7], [3, 0, 0, 0, 0, 0, 0], 1, 4, 0, 5);
    SlotAt(g, [4, 3, 5, 2, 6, 1, 7], [3, 0, 0, 0, 0, 0, 0], 1, 5, 3, 0);
    SlotAt(g, [4, 3, 5, 2, 6, 1, 7], [3, 0, 0, 0, 0, 0, 0], 1, 6, 0, 6);
  }

  /** The first column of BlockingOne, in centre-first order, that wins for player 2 is column 1. */
  lemma BlockingOneThreat(g: Cells)
    requires IsBlockingOne(g)
    ensures ValidInputs(g, [4, 3, 5, 2, 6, 1, 7], [3, 0, 0, 0, 0, 0, 0])
    ensures FirstWinFrom(g, [4, 3, 5, 2, 6, 1, 7], [3, 0, 0, 0, 0, 0, 0], 2, 0) == 5
  {
    assert ValidInputs(g, [4, 3, 5, 2, 6, 1, 7], [3, 0, 0, 0, 0, 0, 0]);
    BlockingOneThreats0(g);
    BlockingOneThreats1(g);
    SlotAt(g, [4, 3, 5, 2, 6, 1, 7], [3, 0, 0, 0, 0, 0, 0], 2, 0, 0, 3);
    SlotAt(g, [4, 3, 5, 2, 6, 1, 7], [3, 0, 0, 0, 0, 0, 0], 2, 1, 0, 2);
    SlotAt(g, [4, 3, 5, 2, 6, 1, 7], [3, 0, 0, 0, 0, 0, 0], 2, 2, 0, 4);
    SlotAt(g, [4, 3, 5, 2, 6, 1, 7], [3, 0, 0, 0, 0, 0, 0], 2, 3, 0, 1);
    SlotAt(g, [4, 3, 5, 2, 6, 1, 7], [3, 0, 0, 0, 0, 0, 0], 2, 4, 0, 5);
    SlotAt(g, [4, 3, 5, 2, 6, 1, 7], [3, 0, 0, 0, 0, 0, 0], 2, 5, 3, 0);
  }

  /** choose_move for player 1 on a grid with the rows of BlockingOne. */
  lemma BlockingOneChoice(g: Cells)
    requires IsBlockingOne(g)
    ensures ValidInputs(g, AllColumns, [3, 0, 0, 0, 0, 0, 0])
    ensures ChooseSpec(g, AllColumns, [3, 0, 0, 0, 0, 0, 0], 1) == Move(1)
  {
    assert ValidInputs(g, AllColumns, [3, 0, 0, 0, 0, 0, 0]);
    CentreFirstOfAll();
    BlockingOneNoWin(g);
    BlockingOneThreat(g);
    ChoosePriority(g, AllColumns, [3, 0, 0, 0, 0, 0, 0], 1);
  }

  /** With player 2 three high in column 1, player 1 blocks on top of it. */
  lemma ChooseBlocksColumn()
    ensures ValidInputs(BlockingOne, AllColumns, [3, 0, 0, 0, 0, 0, 0])
    ensures ChooseSpec(BlockingOne, AllColumns, [3, 0, 0, 0, 0, 0, 0], 1) == Move(1)
  {
    BlockingOneChoice(BlockingOne);
  }

  // ----- ChooseBlocksDiagonal -----

  /** Player 2 has a diagonal (0, 0), (1, 1), (3, 3) with a gap at (2, 2), and pieces at (1, 2); player 1 holds (0, 4). The heights do not match the grid: column 3 is listed at height 2 over an empty bottom cell. */
  const BlockingTwo: Cells := [
    [2, 0, 0, 0, 1, 0, 0],
    [0, 2, 2, 0, 0, 0, 0],
    [0, 0, 0, 0, 0, 0, 0],
    [0, 0, 0, 2, 0, 0, 0],
    [0, 0, 0, 0, 0, 0, 0],
    [0, 0, 0, 0, 0, 0, 0]]

  /** g has the rows of BlockingTwo. */
  predicate IsBlockingTwo(g: Cells) {
    |g| == Rows &&
    g[0] == BlockingTwo[0] && g[1] == BlockingTwo[1] && g[2] == BlockingTwo[2] &&
    g[3] == BlockingTwo[3] && g[4] == BlockingTwo[4] && g[5] == BlockingTwo[5]
  }

  /** The slots of BlockingTwo for player 1 at the top of each column: columns 4, 3, 5. */
  lemma BlockingTwoOwn0(g: Cells)
    requires IsBlockingTwo(g)
    ensures WellFormed(g)
    ensures !SlotWins(g, 4, 3, 1)
    ensures !SlotWins(g, 2, 2, 1)
    ensures !SlotWins(g, 1, 4, 1)
  {
    assert WellFormed(g);
    SlotFromLines(g, 4, 3, 1, 0, 0, 0, 0);
    SlotFromLines(g, 2, 2, 1, 0, 0, 0, 0);
    SlotFromLines(g, 1, 4, 1, 0, 0, 0, 1);
  }

  /** The slots of BlockingTwo for player 1 at the top of each column: columns 2, 6, 1. */
  lemma BlockingTwoOwn1(g: Cells)
    requires IsBlockingTwo(g)
    ensures WellFormed(g)
    ensures !SlotWins(g, 2, 1, 1)
    ensures !SlotWins(g, 0, 5, 1)
    ensures !SlotWins(g, 1, 0, 1)
  {
    assert WellFormed(g);
    SlotFromLines(g, 2, 1, 1, 0, 0, 0, 0);
    SlotFromLines(g, 0, 5, 1, 0, 1, 0, 0);
    SlotFromLines(g, 1, 0, 1, 0, 0, 0, 0);
  }

  /** The slots of BlockingTwo for player 1 at the top of each column: column 7. */
  lemma BlockingTwoOwn2(g: Cells)
    requires IsBlockingTwo(g)
    ensures WellFormed(g)
    ensures !SlotWins(g, 0, 6, 1)
  {
    assert WellFormed(g);
    SlotFromLines(g, 0, 6, 1, 0, 0, 0, 0);
  }

  /** The slots of BlockingTwo for player 2 at the top of each column: columns 4, 3. */
  lemma BlockingTwoThreats0(g: Cells)
    requires IsBlockingTwo(g)
    ensures WellFormed(g)
    ensures !SlotWins(g, 4, 3, 2)
    ensures SlotWins(g, 2, 2, 2)
  {
    assert WellFormed(g);
    SlotFromLines(g, 4, 3, 2, 0, 0, 0, 1);
    assert Run(g, 1, 1, -1, -1, 2, 2) == 3;
    SlotFromLines(g, 2, 2, 2, 3, 0, 0, 1);
  }

  /** No column of BlockingTwo wins at once for player 1. */
  lemma BlockingTwoNoWin(g: Cells)
    requires IsBlockingTwo(g)
    ensures ValidInputs(g, [4, 3, 5, 2, 6, 1, 7], [1, 2, 2, 4, 1, 0, 0])
    ensures FirstWinFrom(g, [4, 3, 5, 2, 6, 1, 7], [1, 2, 2, 4, 1, 0, 0], 1, 0) == 7
  {
    assert ValidInputs(g, [4, 3, 5, 2, 6, 1, 7], [1, 2, 2, 4, 1, 0, 0]);
    BlockingTwoOwn0(g);
    BlockingTwoOwn1(g);
    BlockingTwoOwn2(g);
    SlotAt(g, [4, 3, 5, 2, 6, 1, 7], [1, 2, 2, 4, 1, 0, 0], 1, 0, 4, 3);
    SlotAt(g, [4, 3, 5, 2, 6, 1, 7], [1, 2, 2, 4, 1, 0, 0], 1, 1, 2, 2);
    SlotAt(g, [4, 3, 5, 2, 6, 1, 7], [1, 2, 2, 4, 1, 0, 0], 1, 2, 1, 4);
    SlotAt(g, [4, 3, 5, 2, 6, 1, 7], [1, 2, 2, 4, 1, 0, 0], 1, 3, 2, 1);
    SlotAt(g, [4, 3, 5, 2, 6, 1, 7], [1, 2, 2, 4, 1, 0, 0], 1, 4, 0, 5);
    SlotAt(g, [4, 3, 5, 2, 6, 1, 7], [1, 2, 2, 4, 1, 0, 0], 1, 5, 1, 0);
    SlotAt(g, [4, 3, 5, 2, 6, 1, 7], [1, 2, 2, 4, 1, 0, 0], 1, 6, 0, 6);
  }

  /** The first column of BlockingTwo, in centre-first order, that wins for player 2 is column 3. */
  lemma BlockingTwoThreat(g: Cells)
    requires IsBlockingTwo(g)
    ensures ValidInputs(g, [4, 3, 5, 2, 6, 1, 7], [1, 2, 2, 4, 1, 0, 0])
    ensures FirstWinFrom(g, [4, 3, 5, 2, 6, 1, 7], [1, 2, 2, 4, 1, 0, 0], 2, 0) == 1
  {
    assert ValidInputs(g, [4, 3, 5, 2, 6, 1, 7], [1, 2, 2, 4, 1, 0, 0]);
    BlockingTwoThreats0(g);
    SlotAt(g, [4, 3, 5, 2, 6, 1, 7], [1, 2, 2, 4, 1, 0, 0], 2, 0, 4, 3);
    SlotAt(g, [4, 3, 5, 2, 6, 1, 7], [1, 2, 2, 4, 1, 0, 0], 2, 1, 2, 2);
  }

  /** choose_move for player 1 on a grid with the rows of BlockingTwo. */
  lemma BlockingTwoChoice(g: Cells)
    requires IsBlockingTwo(g)
    ensures ValidInputs(g, AllColumns, [1, 2, 2, 4, 1, 0, 0])
    ensures ChooseSpec(g, AllColumns, [1, 2, 2, 4, 1, 0, 0], 1) == Move(3)
  {
    assert ValidInputs(g, AllColumns, [1, 2, 2, 4, 1, 0, 0]);
    CentreFirstOfAll();
    BlockingTwoNoWin(g);
    BlockingTwoThreat(g);
    ChoosePriority(g, AllColumns, [1, 2, 2, 4, 1, 0, 0], 1);
  }

  /** Player 1 fills the gap of player 2's diagonal, in column 3. */
  lemma ChooseBlocksDiagonal()
    ensures ValidInputs(BlockingTwo, AllColumns, [1, 2, 2, 4, 1, 0, 0])
    ensures ChooseSpec(BlockingTwo, AllColumns, [1, 2, 2, 4, 1, 0, 0], 1) == Move(3)
  {
    BlockingTwoChoice(BlockingTwo);
  }

  // ----- ChooseBlocksRow -----

  /** Player 2 has three in a row at (2, 1) to (2, 3), open at (2, 4). */
  const BlockingThree: Cells := [
    [2, 1, 1, 1, 2, 0, 0],
    [0, 2, 1, 1, 1, 0, 0],
    [0, 2, 2, 2, 0, 0, 0],
    [0, 0, 0, 1, 0, 0, 0],
    [0, 0, 0, 0, 0, 0, 0],
    [0, 0, 0, 0, 0, 0, 0]]

  /** g has the rows of BlockingThree. */
  predicate IsBlockingThree(g: Cells) {
    |g| == Rows &&
    g[0] == BlockingThree[0] && g[1] == BlockingThree[1] && g[2] == BlockingThree[2] &&
    g[3] == BlockingThree[3] && g[4] == BlockingThree[4] && g[5] == BlockingThree[5]
  }

  /** The slots of BlockingThree for player 1 at the top of each column: columns 4, 3, 5. */
  lemma BlockingThreeOwn0(g: Cells)
    requires IsBlockingThree(g)
    ensures WellFormed(g)
    ensures !SlotWins(g, 4, 3, 1)
    ensures !SlotWins(g, 3, 2, 1)
    ensures !SlotWins(g, 2, 4, 1)
  {
    assert WellFormed(g);
    SlotFromLines(g, 4, 3, 1, 0, 0, 0, 1);
    SlotFromLines(g, 3, 2, 1, 0, 1, 0, 0);
    assert Run(g, 0, 2, -1, -1, 1, 2) == 2;
    assert Run(g, 1, 3, -1, -1, 1, 1) == 2;
    SlotFromLines(g, 2, 4, 1, 2, 0, 1, 1);
  }

  /** The slots of BlockingThree for player 1 at the top of each column: columns 2, 6, 1. */
  lemma BlockingThreeOwn1(g: Cells)
    requires IsBlockingThree(g)
    ensures WellFormed(g)
    ensures !SlotWins(g, 3, 1, 1)
    ensures !SlotWins(g, 0, 5, 1)
    ensures !SlotWins(g, 1, 0, 1)
  {
    assert WellFormed(g);
    SlotFromLines(g, 3, 1, 1, 0, 0, 0, 0);
    SlotFromLines(g, 0, 5, 1, 0, 0, 1, 0);
    SlotFromLines(g, 1, 0, 1, 0, 0, 1, 0);
  }

  /** The slots of BlockingThree for player 1 at the top of each column: column 7. */
  lemma BlockingThreeOwn2(g: Cells)
    requires IsBlockingThree(g)
    ensures WellFormed(g)
    ensures !SlotWins(g, 0, 6, 1)
  {
    assert WellFormed(g);
    SlotFromLines(g, 0, 6, 1, 0, 0, 0, 0);
  }

  /** The slots of BlockingThree for player 2 at the top of each column: columns 4, 3, 5. */
  lemma BlockingThreeThreats0(g: Cells)
    requires IsBlockingThree(g)
    ensures WellFormed(g)
    ensures !SlotWins(g, 4, 3, 2)
    ensures !SlotWins(g, 3, 2, 2)
    ensures SlotWins(g, 2, 4, 2)
  {
    assert WellFormed(g);
    SlotFromLines(g, 4, 3, 2, 0, 0, 0, 0);
    SlotFromLines(g, 3, 2, 2, 1, 0, 1, 1);
    assert Run(g, 2, 2, 0, -1, 2, 2) == 3;
    assert Run(g, 2, 3, 0, -1, 2, 1) == 3;
    SlotFromLines(g, 2, 4, 2, 0, 3, 0, 0);
  }

  /** No column of BlockingThree wins at once for player 1. */
  lemma BlockingThreeNoWin(g: Cells)
    requires IsBlockingThree(g)
    ensures ValidInputs(g, [4, 3, 5, 2, 6, 1, 7], [1, 3, 3, 4, 2, 0, 0])
    ensures FirstWinFrom(g, [4, 3, 5, 2, 6, 1, 7], [1, 3, 3, 4, 2, 0, 0], 1, 0) == 7
  {
    assert ValidInputs(g, [4, 3, 5, 2, 6, 1, 7], [1, 3, 3, 4, 2, 0, 0]);
    BlockingThreeOwn0(g);
    BlockingThreeOwn1(g);
    BlockingThreeOwn2(g);
    SlotAt(g, [4, 3, 5, 2, 6, 1, 7], [1, 3, 3, 4, 2, 0, 0], 1, 0, 4, 3);
    SlotAt(g, [4, 3, 5, 2, 6, 1, 7], [1, 3, 3, 4, 2, 0, 0], 1, 1, 3, 2);
    SlotAt(g, [4, 3, 5, 2, 6, 1, 7], [1, 3, 3, 4, 2, 0, 0], 1, 2, 2, 4);
    SlotAt(g, [4, 3, 5, 2, 6, 1, 7], [1, 3, 3, 4, 2, 0, 0], 1, 3, 3, 1);
    SlotAt(g, [4, 3, 5, 2, 6, 1, 7], [1, 3, 3, 4, 2, 0, 0], 1, 4, 0, 5);
    SlotAt(g, [4, 3, 5, 2, 6, 1, 7], [1, 3, 3, 4, 2, 0, 0], 1, 5, 1, 0);
    SlotAt(g, [4, 3, 5, 2, 6, 1, 7], [1, 3, 3, 4, 2, 0, 0], 1, 6, 0, 6);
  }

  /** The first column of BlockingThree, in centre-first order, that wins for player 2 is column 5. */
  lemma BlockingThreeThreat(g: Cells)
    requires IsBlockingThree(g)
    ensures ValidInputs(g, [4, 3, 5, 2, 6, 1, 7], [1, 3, 3, 4, 2, 0, 0])
    ensures FirstWinFrom(g, [4, 3, 5, 2, 6, 1, 7], [1, 3, 3, 4, 2, 0, 0], 2, 0) == 2
  {
    assert ValidInputs(g, [4, 3, 5, 2, 6, 1, 7], [1, 3, 3, 4, 2, 0, 0]);
    BlockingThreeThreats0(g);
    SlotAt(g, [4, 3, 5, 2, 6, 1, 7], [1, 3, 3, 4, 2, 0, 0], 2, 0, 4, 3);
    SlotAt(g, [4, 3, 5, 2, 6, 1, 7], [1, 3, 3, 4, 2, 0, 0], 2, 1, 3, 2);
    SlotAt(g, [4, 3, 5, 2, 6, 1, 7], [1, 3, 3, 4, 2, 0, 0], 2, 2, 2, 4);
  }

  /** choose_move for player 1 on a grid with the rows of BlockingThree. */
  lemma BlockingThreeChoice(g: Cells)
    requires IsBlockingThree(g)
    ensures ValidInputs(g, AllColumns, [1, 3, 3, 4, 2, 0, 0])
    ensures ChooseSpec(g, AllColumns, [1, 3, 3, 4, 2, 0, 0], 1) == Move(5)
  {
    assert ValidInputs(g, AllColumns, [1, 3, 3, 4, 2, 0, 0]);
    CentreFirstOfAll();
    BlockingThreeNoWin(g);
    BlockingThreeThreat(g);
    ChoosePriority(g, AllColumns, [1, 3, 3, 4, 2, 0, 0], 1);
  }

  /** Player 1 closes player 2's row in column 5. */
  lemma ChooseBlocksRow()
    ensures ValidInputs(BlockingThree, AllColumns, [1, 3, 3, 4, 2, 0, 0])
    ensures ChooseSpec(BlockingThree, AllColumns, [1, 3, 3, 4, 2, 0, 0], 1) == Move(5)
  {
    BlockingThreeChoice(BlockingThree);
  }

  // ----- ChooseAvoidsEnabling -----

  /** A crowded grid on which neither player can win at once; columns 3 and 4 are full. */
  const AvoidEnabling: Cells := [
    [2, 2, 1, 1, 2, 2, 2],
    [0, 2, 1, 1, 0, 2, 2],
    [0, 0, 1, 1, 0, 0, 0],
    [0, 0, 2, 2, 0, 0, 0],
    [0, 0, 1, 1, 0, 0, 0],
    [0, 0, 1, 1, 0, 0, 0]]

  /** g has the rows of AvoidEnabling. */
  predicate IsAvoidEnabling(g: Cells) {
    |g| == Rows &&
    g[0] == AvoidEnabling[0] && g[1] == AvoidEnabling[1] && g[2] == AvoidEnabling[2] &&
    g[3] == AvoidEnabling[3] && g[4] == AvoidEnabling[4] && g[5] == AvoidEnabling[5]
  }

  /** The slots of AvoidEnabling for player 1 at the top of each column: columns 5, 2, 6. */
  lemma AvoidEnablingOwn0(g: Cells)
    requires IsAvoidEnabling(g)
    ensures WellFormed(g)
    ensures SlotCount(g, 1, 4, 1) == 2
    ensures !SlotWins(g, 1, 4, 1)
    ensures SlotCount(g, 2, 1, 1) == 2
    ensures !SlotWins(g, 2, 1, 1)
    ensures SlotCount(g, 2, 5, 1) == 0
    ensures !SlotWins(g, 2, 5, 1)
  {
    assert WellFormed(g);
    assert Run(g, 1, 2, 0, -1, 1, 2) == 2;
    assert Run(g, 1, 3, 0, -1, 1, 1) == 2;
    SlotFromLines(g, 1, 4, 1, 1, 2, 1, 0);
    assert Run(g, 2, 3, 0, 1, 1, 2) == 2;
    assert Run(g, 2, 2, 0, 1, 1, 1) == 2;
    assert Run(g, 0, 3, -1, 1, 1, 2) == 2;
    assert Run(g, 1, 2, -1, 1, 1, 1) == 2;
    SlotFromLines(g, 2, 1, 1, 0, 2, 2, 0);
    SlotFromLines(g, 2, 5, 1, 0, 0, 0, 0);
  }

  /** The slots of AvoidEnabling for player 1 at the top of each column: columns 1, 7. */
  lemma AvoidEnablingOwn1(g: Cells)
    requires IsAvoidEnabling(g)
    ensures WellFormed(g)
    ensures SlotCount(g, 1, 0, 1) == 0
    ensures !SlotWins(g, 1, 0, 1)
    ensures SlotCount(g, 2, 6, 1) == 0
    ensures !SlotWins(g, 2, 6, 1)
  {
    assert WellFormed(g);
    SlotFromLines(g, 1, 0, 1, 0, 0, 0, 0);
    SlotFromLines(g, 2, 6, 1, 0, 0, 0, 0);
  }

  /** The slots of AvoidEnabling for player 2 at the top of each column: columns 5, 2, 6. */
  lemma AvoidEnablingThreats0(g: Cells)
    requires IsAvoidEnabling(g)
    ensures WellFormed(g)
    ensures !SlotWins(g, 1, 4, 2)
    ensures !SlotWins(g, 2, 1, 2)
    ensures !SlotWins(g, 2, 5, 2)
  {
    assert WellFormed(g);
    assert Run(g, 1, 6, 0, 1, 2, 2) == 2;
    assert Run(g, 1, 5, 0, 1, 2, 1) == 2;
    SlotFromLines(g, 1, 4, 2, 0, 2, 1, 1);
    assert Run(g, 0, 1, -1, 0, 2, 2) == 2;
    assert Run(g, 1, 1, -1, 0, 2, 1) == 2;
    SlotFromLines(g, 2, 1, 2, 1, 0, 0, 2);
    assert Run(g, 0, 5, -1, 0, 2, 2) == 2;
    assert Run(g, 1, 5, -1, 0, 2, 1) == 2;
    SlotFromLines(g, 2, 5, 2, 0, 0, 1, 2);
  }

  /** The slots of AvoidEnabling for player 2 at the top of each column: columns 1, 7. */
  lemma AvoidEnablingThreats1(g: Cells)
    requires IsAvoidEnabling(g)
    ensures WellFormed(g)
    ensures !SlotWins(g, 1, 0, 2)
    ensures !SlotWins(g, 2, 6, 2)
  {
    assert WellFormed(g);
    SlotFromLines(g, 1, 0, 2, 0, 1, 1, 1);
    assert Run(g, 0, 4, -1, -1, 2, 2) == 2;
    assert Run(g, 1, 5, -1, -1, 2, 1) == 2;
    assert Run(g, 0, 6, -1, 0, 2, 2) == 2;
    assert Run(g, 1, 6, -1, 0, 2, 1) == 2;
    SlotFromLines(g, 2, 6, 2, 2, 0, 0, 2);
  }

  /** The slots of AvoidEnabling for player 2 one above the top of each column: columns 5, 2, 6. */
  lemma AvoidEnablingAbove0(g: Cells)
    requires IsAvoidEnabling(g)
    ensures WellFormed(g)
    ensures SlotCount(g, 2, 4, 2) == 3
    ensures SlotCount(g, 3, 1, 2) == 2
    ensures SlotCount(g, 3, 5, 2) == 0
  {
    assert WellFormed(g);
    assert Run(g, 1, 5, -1, 1, 2, 2) == 3;
    SlotFromLines(g, 2, 4, 2, 0, 0, 3, 0);
    assert Run(g, 3, 3, 0, 1, 2, 2) == 2;
    assert Run(g, 3, 2, 0, 1, 2, 1) == 2;
    SlotFromLines(g, 3, 1, 2, 0, 2, 0, 0);
    SlotFromLines(g, 3, 5, 2, 0, 0, 0, 0);
  }

  /** The slots of AvoidEnabling for player 2 one above the top of each column: columns 1, 7. */
  lemma AvoidEnablingAbove1(g: Cells)
    requires IsAvoidEnabling(g)
    ensures WellFormed(g)
    ensures SlotCount(g, 2, 0, 2) == 1
    ensures SlotCount(g, 3, 6, 2) == 0
  {
    assert WellFormed(g);
    SlotFromLines(g, 2, 0, 2, 0, 0, 1, 0);
    SlotFromLines(g, 3, 6, 2, 0, 0, 0, 0);
  }

  /** No column of AvoidEnabling wins at once for player 1. */
  lemma AvoidEnablingNoWin(g: Cells)
    requires IsAvoidEnabling(g)
    ensures ValidInputs(g, [5, 2, 6, 1, 7], [1, 2, 6, 6, 1, 2, 2])
    ensures FirstWinFrom(g, [5, 2, 6, 1, 7], [1, 2, 6, 6, 1, 2, 2], 1, 0) == 5
  {
    assert ValidInputs(g, [5, 2, 6, 1, 7], [1, 2, 6, 6, 1, 2, 2]);
    AvoidEnablingOwn0(g);
    AvoidEnablingOwn1(g);
    SlotAt(g, [5, 2, 6, 1, 7], [1, 2, 6, 6, 1, 2, 2], 1, 0, 1, 4);
    SlotAt(g, [5, 2, 6, 1, 7], [1, 2, 6, 6, 1, 2, 2], 1, 1, 2, 1);
    SlotAt(g, [5, 2, 6, 1, 7], [1, 2, 6, 6, 1, 2, 2], 1, 2, 2, 5);
    SlotAt(g, [5, 2, 6, 1, 7], [1, 2, 6, 6, 1, 2, 2], 1, 3, 1, 0);
    SlotAt(g, [5, 2, 6, 1, 7], [1, 2, 6, 6, 1, 2, 2], 1, 4, 2, 6);
  }

  /** No column of AvoidEnabling wins at once for player 2. */
  lemma AvoidEnablingThreat(g: Cells)
    requires IsAvoidEnabling(g)
    ensures ValidInputs(g, [5, 2, 6, 1, 7], [1, 2, 6, 6, 1, 2, 2])
    ensures FirstWinFrom(g, [5, 2, 6, 1, 7], [1, 2, 6, 6, 1, 2, 2], 2, 0) == 5
  {
    assert ValidInputs(g, [5, 2, 6, 1, 7], [1, 2, 6, 6, 1, 2, 2]);
    AvoidEnablingThreats0(g);
    AvoidEnablingThreats1(g);
    SlotAt(g, [5, 2, 6, 1, 7], [1, 2, 6, 6, 1, 2, 2], 2, 0, 1, 4);
    SlotAt(g, [5, 2, 6, 1, 7], [1, 2, 6, 6, 1, 2, 2], 2, 1, 2, 1);
    SlotAt(g, [5, 2, 6, 1, 7], [1, 2, 6, 6, 1, 2, 2], 2, 2, 2, 5);
    SlotAt(g, [5, 2, 6, 1, 7], [1, 2, 6, 6, 1, 2, 2], 2, 3, 1, 0);
    SlotAt(g, [5, 2, 6, 1, 7], [1, 2, 6, 6, 1, 2, 2], 2, 4, 2, 6);
  }

  /** The fallback of AvoidEnabling: only column 2 scores, since column 5's
      slot above would give player 2 a higher count than player 1's own. */
  lemma AvoidEnablingFallback(g: Cells)
    requires IsAvoidEnabling(g)
    ensures ValidInputs(g, [5, 2, 6, 1, 7], [1, 2, 6, 6, 1, 2, 2])
    ensures BestMove(g, [5, 2, 6, 1, 7], [1, 2, 6, 6, 1, 2, 2], 1) == 2
  {
    assert ValidInputs(g, [5, 2, 6, 1, 7], [1, 2, 6, 6, 1, 2, 2]);
    AvoidEnablingOwn0(g);
    AvoidEnablingOwn1(g);
    AvoidEnablingAbove0(g);
    AvoidEnablingAbove1(g);
    assert Score(g, [5, 2, 6, 1, 7], [1, 2, 6, 6, 1, 2, 2], 1, 0) == 0;
    assert Score(g, [5, 2, 6, 1, 7], [1, 2, 6, 6, 1, 2, 2], 1, 1) == 2;
    assert Score(g, [5, 2, 6, 1, 7], [1, 2, 6, 6, 1, 2, 2], 1, 2) == 0;
    assert Score(g, [5, 2, 6, 1, 7], [1, 2, 6, 6, 1, 2, 2], 1, 3) == 0;
    assert Score(g, [5, 2, 6, 1, 7], [1, 2, 6, 6, 1, 2, 2], 1, 4) == 0;
    BestIsFirstMax(g, [5, 2, 6, 1, 7], [1, 2, 6, 6, 1, 2, 2], 1);
    var k :| FirstMax(g, [5, 2, 6, 1, 7], [1, 2, 6, 6, 1, 2, 2], 1, k) && [5, 2, 6, 1, 7][k] == BestMove(g, [5, 2, 6, 1, 7], [1, 2, 6, 6, 1, 2, 2], 1);
    assert Score(g, [5, 2, 6, 1, 7], [1, 2, 6, 6, 1, 2, 2], 1, 1) <= Score(g, [5, 2, 6, 1, 7], [1, 2, 6, 6, 1, 2, 2], 1, k);
    assert k == 0 || k == 1 || k == 2 || k == 3 || k == 4;
  }

  /** choose_move for player 1 on a grid with the rows of AvoidEnabling. */
  lemma AvoidEnablingChoice(g: Cells)
    requires IsAvoidEnabling(g)
    ensures ValidInputs(g, AvoidLegal, [1, 2, 6, 6, 1, 2, 2])
    ensures ChooseSpec(g, AvoidLegal, [1, 2, 6, 6, 1, 2, 2], 1) == Move(2)
  {
    assert ValidInputs(g, AvoidLegal, [1, 2, 6, 6, 1, 2, 2]);
    CentreFirstOfAvoidLegal();
    AvoidEnablingNoWin(g);
    AvoidEnablingThreat(g);
    AvoidEnablingFallback(g);
    ChoosePriority(g, AvoidLegal, [1, 2, 6, 6, 1, 2, 2], 1);
  }

  /** Column 5 would give player 1 two in a row but hand player 2 the diagonal slot above it, so player 1 plays column 2 instead. */
  lemma ChooseAvoidsEnabling()
    ensures ValidInputs(AvoidEnabling, AvoidLegal, [1, 2, 6, 6, 1, 2, 2])
    ensures ChooseSpec(AvoidEnabling, AvoidLegal, [1, 2, 6, 6, 1, 2, 2], 1) == Move(2)
  {
    AvoidEnablingChoice(AvoidEnabling);
  }
}
