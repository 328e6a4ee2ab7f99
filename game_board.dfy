/** The board engine of gameBoard.py: a 6 x 7 grid filled by gravity, the
    column heights, the ascending list of legal columns, the move counter and
    the two players' move histories, and win detection around the cell just
    played. */
module Board {
  import opened Grid

  datatype Option<T> = None | Some(value: T)

  /** The two ways add_piece rejects a column (the source raises ValueError). */
  datatype MoveError = InvalidColumn | ColumnFull

  datatype Outcome = Ok | Fail(error: MoveError)

  const NoVictor: string := "No Victor"

  /** The result of check_victory: the name of the first orientation, in the
      order of Lines, along which (r, c) completes four for token. */
  function VictoryResult(g: Cells, r: int, c: int, token: int): string
    requires WellFormed(g)
  {
    var i := FirstLineFrom(g, r, c, token, 0);
    if i < |Lines| then Lines[i].Name() else NoVictor
  }

  /** The value of an r x c board array as a grid. */
  ghost function Snapshot(b: array2<int>): (g: Cells)
    requires b.Length0 == Rows && b.Length1 == Cols
    reads b
    ensures WellFormed(g)
    ensures forall r, c :: 0 <= r < Rows && 0 <= c < Cols ==> g[r][c] == b[r, c]
  {
    seq(Rows, r requires 0 <= r < Rows reads b =>
      seq(Cols, c requires 0 <= c < Cols reads b => b[r, c]))
  }

  /** The 1-based columns k + 1 .. |h| that are not full, in ascending order. */
  function LegalFrom(h: seq<int>, k: nat): seq<int>
    decreases |h| - k
  {
    if k >= |h| then []
    else (if h[k] < Rows then [k + 1] else []) + LegalFrom(h, k + 1)
  }

  function LegalColumns(h: seq<int>): seq<int> {
    LegalFrom(h, 0)
  }

  /** Python's list.remove: drop the first occurrence of x. */
  function RemoveFirst(s: seq<int>, x: int): seq<int> {
    if s == [] then []
    else if s[0] == x then s[1..]
    else [s[0]] + RemoveFirst(s[1..], x)
  }

  function Sum(h: seq<int>): int {
    if h == [] then 0 else h[0] + Sum(h[1..])
  }

  predicate Increasing(s: seq<int>) {
    forall i, j :: 0 <= i < j < |s| ==> s[i] < s[j]
  }

  /** LegalFrom lists exactly the columns after k whose height is below Rows,
      in ascending order. */
  lemma {:induction false} LegalFromExact(h: seq<int>, k: nat)
    ensures forall x :: x in LegalFrom(h, k) <==> k + 1 <= x <= |h| && h[x - 1] < Rows
    ensures Increasing(LegalFrom(h, k))
    decreases |h| - k
  {
    if k < |h| {
      LegalFromExact(h, k + 1);
      var rest := LegalFrom(h, k + 1);
      if h[k] < Rows {
        var s := [k + 1] + rest;
        assert LegalFrom(h, k) == s;
        forall i, j | 0 <= i < j < |s|
          ensures s[i] < s[j]
        {
          assert s[j] == rest[j - 1] && rest[j - 1] in rest;
          if i > 0 {
            assert s[i] == rest[i - 1];
          }
        }
      } else {
        assert LegalFrom(h, k) == rest;
      }
    }
  }

  /** The legal-move list holds exactly the columns that are not full, in
      ascending order. */
  lemma LegalColumnsExact(h: seq<int>)
    ensures forall x :: x in LegalColumns(h) <==> 1 <= x <= |h| && h[x - 1] < Rows
    ensures Increasing(LegalColumns(h))
  {
    LegalFromExact(h, 0);
  }

  /** Raising one column's height keeps the legal list, unless the column has
      just become full, in which case the list loses that column and nothing
      else: the incremental update add_piece makes. */
  lemma {:induction false} LegalAfterIncrement(h: seq<int>, j: int, k: nat)
    requires 0 <= j < |h| && h[j] < Rows
    ensures LegalFrom(h[j := h[j] + 1], k) ==
      if h[j] + 1 == Rows && k <= j then RemoveFirst(LegalFrom(h, k), j + 1)
      else LegalFrom(h, k)
    decreases |h| - k
  {
    var h' := h[j := h[j] + 1];
    if k < |h| {
      LegalAfterIncrement(h, j, k + 1);
      var head := if h[k] < Rows then [k + 1] else [];
      var head' := if h'[k] < Rows then [k + 1] else [];
      var rest := LegalFrom(h, k + 1);
      assert LegalFrom(h, k) == head + rest;
      assert LegalFrom(h', k) == head' + LegalFrom(h', k + 1);
      if h[j] + 1 == Rows && k == j {
        assert head == [k + 1] && head' == [];
        assert (head + rest)[1..] == rest;
      } else if h[j] + 1 == Rows && k < j {
        assert head' == head;
        if h[k] < Rows {
          assert (head + rest)[0] == k + 1;
          assert (head + rest)[1..] == rest;
        } else {
          assert head + rest == rest;
        }
      } else {
        assert head' == head;
      }
    }
  }

  lemma {:induction false} SumUpdate(h: seq<int>, j: int, v: int)
    requires 0 <= j < |h|
    ensures Sum(h[j := v]) == Sum(h) - h[j] + v
  {
    if j == 0 {
      assert h[j := v][1..] == h[1..];
    } else {
      assert h[j := v][1..] == h[1..][j - 1 := v];
      SumUpdate(h[1..], j - 1, v);
    }
  }

  /** With every height between 0 and Rows, the heights total at most
      Rows per column, and reach that total only when every column is full. */
  lemma {:induction false} SumBound(h: seq<int>)
    requires forall i :: 0 <= i < |h| ==> 0 <= h[i] <= Rows
    ensures Sum(h) <= Rows * |h|
    ensures Sum(h) == Rows * |h| ==> forall i :: 0 <= i < |h| ==> h[i] == Rows
  {
    if h != [] {
      SumBound(h[1..]);
      assert forall i :: 1 <= i < |h| ==> h[i] == h[1..][i - 1];
    }
  }

  lemma {:induction false} LegalFromFull(h: seq<int>, k: nat)
    requires forall i :: k <= i < |h| ==> h[i] == Rows
    ensures LegalFrom(h, k) == []
    decreases |h| - k
  {
    if k < |h| {
      LegalFromFull(h, k + 1);
    }
  }

  /** Once all Rows * Cols pieces are down there is no legal column left. */
  lemma FullBoardHasNoLegalMoves(h: seq<int>)
    requires |h| == Cols && forall i :: 0 <= i < |h| ==> 0 <= h[i] <= Rows
    requires Sum(h) == Rows * Cols
    ensures LegalColumns(h) == []
  {
    SumBound(h);
    LegalFromFull(h, 0);
  }

  /** check_victory reports "No Victor" exactly when no orientation has line
      count 3, and otherwise the name of the first such orientation. */
  lemma VictoryResultIsFirst(g: Cells, r: int, c: int, token: int)
    requires WellFormed(g)
    ensures VictoryResult(g, r, c, token) == NoVictor <==>
      forall k :: 0 <= k < |Lines| ==> LineCount(g, r, c, token, Lines[k]) != 3
    ensures forall k :: 0 <= k < |Lines| ==>
      (VictoryResult(g, r, c, token) == Lines[k].Name() <==>
        LineCount(g, r, c, token, Lines[k]) == 3 &&
        forall j :: 0 <= j < k ==> LineCount(g, r, c, token, Lines[j]) != 3)
  {
    FirstLineIsFirst(g, r, c, token, 0);
    NamesDistinct();
  }

  /** The four direction names and "No Victor" are pairwise different. */
  lemma NamesDistinct()
    ensures forall k, j :: 0 <= k < |Lines| && 0 <= j < |Lines| && k != j ==>
      Lines[k].Name() != Lines[j].Name()
    ensures forall k :: 0 <= k < |Lines| ==> Lines[k].Name() != NoVictor
  {
    assert forall k, j :: 0 <= k < |Lines| && 0 <= j < |Lines| && k != j ==>
      |Lines[k].Name()| != |Lines[j].Name()|;
    assert forall k :: 0 <= k < |Lines| ==> |Lines[k].Name()| != |NoVictor|;
  }

  lemma {:induction false} SumConstant(h: seq<int>, v: int)
    requires forall i :: 0 <= i < |h| ==> h[i] == v
    ensures Sum(h) == v * |h|
  {
    if h != [] {
      assert forall i :: 0 <= i < |h[1..]| ==> h[1..][i] == v;
      SumConstant(h[1..], v);
    }
  }

  /** The token of the player whose turn it is after moveNum moves: player
      one moves first. */
  function Token(moveNum: int): int {
    if moveNum % 2 == 1 then 2 else 1
  }

  /** The value of a GameBoard: each field it keeps, the board as a grid. */
  datatype Game = Game(
    cells: Cells,
    heights: seq<int>,
    legal: seq<int>,
    moveNum: int,
    playerOne: seq<int>,
    playerTwo: seq<int>,
    victor: Option<int>,
    direction: string,
    complete: bool)

  /** Pieces rest on the floor or on other pieces: column c holds exactly
      its lowest heights[c] cells, each a player's token. */
  ghost predicate Gravity(g: Cells, h: seq<int>)
    requires WellFormed(g) && |h| == Cols
  {
    (forall c :: 0 <= c < Cols ==> 0 <= h[c] <= Rows) &&
    forall r, c :: InBounds(r, c) ==> 0 <= g[r][c] <= 2 && (g[r][c] == 0 <==> h[c] <= r)
  }

  predicate ColumnsInRange(s: seq<int>) {
    forall i :: 0 <= i < |s| ==> 1 <= s[i] <= Cols
  }

  /** How the fields of a GameBoard relate to one another between moves. */
  ghost predicate Consistent(s: Game) {
    Tracked(s) && Settled(s)
  }

  /** Board, heights, legal list, counter and histories agree. */
  ghost predicate Tracked(s: Game) {
    WellFormed(s.cells) && |s.heights| == Cols && Gravity(s.cells, s.heights) &&
    s.legal == LegalColumns(s.heights) &&
    s.moveNum == Sum(s.heights) &&
    s.moveNum == |s.playerOne| + |s.playerTwo| &&
    |s.playerTwo| <= |s.playerOne| <= |s.playerTwo| + 1 &&
    ColumnsInRange(s.playerOne) && ColumnsInRange(s.playerTwo)
  }

  /** A won game names its winner, the last player to move, and a direction;
      otherwise the game is over exactly when all Rows * Cols pieces are down. */
  ghost predicate Settled(s: Game) {
    (s.victor.Some? ==>
      s.complete && s.victor.value == Token(s.moveNum - 1) &&
      exists k :: 0 <= k < |Lines| && Lines[k].Name() == s.direction) &&
    (s.victor.None? ==> s.direction == "" && (s.complete <==> s.moveNum == Rows * Cols))
  }

  /** A freshly constructed board. */
  const Initial: Game := Game(
    seq(Rows, r => seq(Cols, c => 0)), [0, 0, 0, 0, 0, 0, 0], [1, 2, 3, 4, 5, 6, 7],
    0, [], [], None, "", false)

  /** add_piece on a board value: the outcome and the board afterwards. */
  function AddPieceSpec(s: Game, column: int): (Outcome, Game)
    requires Consistent(s)
  {
    if column < 1 || column > Cols then (Fail(InvalidColumn), s)
    else if s.heights[column - 1] == Rows then (Fail(ColumnFull), s)
    else (Ok, Play(s, column - 1))
  }

  /** The grid g with token written at (row, col). */
  function Place(g: Cells, row: int, col: int, token: int): Cells
    requires WellFormed(g) && InBounds(row, col)
  {
    g[row := g[row][col := token]]
  }

  /** The placement part of an accepted move into the 0-based column col:
      the token of the player to move lands on top of the column, the move
      is recorded in that player's history, and counter, height and legal
      list advance. */
  function Drop(s: Game, col: int): Game
    requires WellFormed(s.cells) && |s.heights| == Cols && 0 <= col < Cols
    requires 0 <= s.heights[col] < Rows
  {
    var token := Token(s.moveNum);
    var row := s.heights[col];
    s.(
      cells := Place(s.cells, row, col, token),
      heights := s.heights[col := row + 1],
      legal := if row + 1 == Rows then RemoveFirst(s.legal, col + 1) else s.legal,
      moveNum := s.moveNum + 1,
      playerOne := if token == 1 then s.playerOne + [col + 1] else s.playerOne,
      playerTwo := if token == 1 then s.playerTwo else s.playerTwo + [col + 1])
  }

  /** The result part: the victory check around the piece (row, col) of
      token decides victor, direction and completion, and a board with all
      Rows * Cols pieces down without a victor is a stalemate. */
  function Conclude(d: Game, row: int, col: int, token: int): Game
    requires WellFormed(d.cells)
  {
    var result := VictoryResult(d.cells, row, col, token);
    if result != NoVictor then d.(victor := Some(token), direction := result, complete := true)
    else if d.moveNum == Rows * Cols then d.(complete := true)
    else d
  }

  /** An accepted move into the 0-based column col. */
  function Play(s: Game, col: int): Game
    requires WellFormed(s.cells) && |s.heights| == Cols && 0 <= col < Cols && 0 <= s.heights[col] < Rows
  {
    Conclude(Drop(s, col), s.heights[col], col, Token(s.moveNum))
  }

  lemma InitialConsistent()
    ensures Consistent(Initial)
  {
    InitialCounts();
    InitialGravity();
  }

  /** No column of the empty board is full, and no piece is down. */
  lemma InitialCounts()
    ensures LegalColumns(Initial.heights) == Initial.legal && Sum(Initial.heights) == 0
  {
    var h := Initial.heights;
    assert LegalFrom(h, 4) == [5, 6, 7];
    assert LegalFrom(h, 0) == [1, 2, 3, 4] + LegalFrom(h, 4);
  }

  /** Every cell of the empty board is empty and every height is 0. */
  lemma InitialGravity()
    ensures WellFormed(Initial.cells) && Gravity(Initial.cells, Initial.heights)
  {
  }

  /** A column is accepted exactly when it is in the legal-move list, and a
      rejected column leaves the board as it was. */
  lemma AcceptedIffLegal(s: Game, column: int)
    requires Consistent(s)
    ensures AddPieceSpec(s, column).0 == Ok <==> column in s.legal
    ensures AddPieceSpec(s, column).0 != Ok ==> AddPieceSpec(s, column).1 == s
  {
    LegalColumnsExact(s.heights);
  }

  /** The piece lands in the lowest empty cell of its column, every other
      cell keeps its value, and the raised height again describes the board. */
  lemma DropKeepsGravity(g: Cells, h: seq<int>, col: int, token: int)
    requires WellFormed(g) && |h| == Cols && Gravity(g, h)
    requires 0 <= col < Cols && h[col] < Rows && (token == 1 || token == 2)
    ensures var row := h[col]; var g' := Place(g, row, col, token);
      g[row][col] == 0 &&
      (forall r :: 0 <= r < row ==> g[r][col] != 0) &&
      g'[row][col] == token &&
      (forall r, c :: InBounds(r, c) && (r, c) != (row, col) ==> g'[r][c] == g[r][c]) &&
      Gravity(g', h[col := row + 1])
  {
    DropGravity(g, h, col, token);
  }

  /** The raised height describes the board with the new piece. */
  lemma DropGravity(g: Cells, h: seq<int>, col: int, token: int)
    requires WellFormed(g) && |h| == Cols && Gravity(g, h)
    requires 0 <= col < Cols && h[col] < Rows && (token == 1 || token == 2)
    ensures Gravity(Place(g, h[col], col, token), h[col := h[col] + 1])
  {
    var row := h[col];
    var g' := Place(g, row, col, token);
    var h' := h[col := row + 1];
    forall r, c | InBounds(r, c)
      ensures 0 <= g'[r][c] <= 2 && (g'[r][c] == 0 <==> h'[c] <= r)
    {
      if r == row && c == col {
        assert g'[r][c] == token;
      } else {
        assert g'[r][c] == g[r][c];
      }
    }
  }

  /** Counter, histories and legal list move together with the heights. */
  lemma CountsAfterDrop(h: seq<int>, legal: seq<int>, n: int, one: seq<int>, two: seq<int>, col: int)
    requires |h| == Cols && (forall c :: 0 <= c < Cols ==> 0 <= h[c] <= Rows)
    requires legal == LegalColumns(h) && n == Sum(h) && n == |one| + |two|
    requires |two| <= |one| <= |two| + 1 && ColumnsInRange(one) && ColumnsInRange(two)
    requires 0 <= col < Cols && h[col] < Rows
    ensures var h' := h[col := h[col] + 1];
      var one' := if Token(n) == 1 then one + [col + 1] else one;
      var two' := if Token(n) == 1 then two else two + [col + 1];
      (if h[col] + 1 == Rows then RemoveFirst(legal, col + 1) else legal) == LegalColumns(h') &&
      n + 1 == Sum(h') && n + 1 == |one'| + |two'| &&
      |two'| <= |one'| <= |two'| + 1 &&
      ColumnsInRange(one') && ColumnsInRange(two')
  {
    LegalAfterIncrement(h, col, 0);
    SumUpdate(h, col, h[col] + 1);
  }

  /** Every accepted move on an unfinished game leaves a consistent board. */
  lemma PlayKeepsConsistent(s: Game, col: int)
    requires Consistent(s) && !s.complete && 0 <= col < Cols && s.heights[col] < Rows
    ensures Consistent(Play(s, col))
  {
    DropKeepsTracked(s, col);
    var d := Drop(s, col);
    var p := Conclude(d, s.heights[col], col, Token(s.moveNum));
    assert p.cells == d.cells && p.heights == d.heights && p.legal == d.legal;
    assert p.moveNum == d.moveNum && p.playerOne == d.playerOne && p.playerTwo == d.playerTwo;
    var i := FirstLineFrom(d.cells, s.heights[col], col, Token(s.moveNum), 0);
    if i < |Lines| {
      assert Lines[i].Name() == p.direction;
    }
  }

  lemma DropKeepsTracked(s: Game, col: int)
    requires Tracked(s) && 0 <= col < Cols && s.heights[col] < Rows
    ensures Tracked(Drop(s, col))
  {
    var d, row, token := Drop(s, col), s.heights[col], Token(s.moveNum);
    assert d.cells == Place(s.cells, row, col, token) && d.heights == s.heights[col := row + 1];
    DropGravity(s.cells, s.heights, col, token);
    CountsAfterDrop(s.heights, s.legal, s.moveNum, s.playerOne, s.playerTwo, col);
    assert d.moveNum == s.moveNum + 1;
    assert d.playerOne == if token == 1 then s.playerOne + [col + 1] else s.playerOne;
    assert d.playerTwo == if token == 1 then s.playerTwo else s.playerTwo + [col + 1];
  }

  /** The game is won by the accepted move exactly when the new piece
      completes four in a row for its player in some orientation, and then
      the winner is that player and the reported direction is the name of
      the first such orientation. */
  lemma PlayWinIffFourInARow(s: Game, col: int)
    requires WellFormed(s.cells) && |s.heights| == Cols && Gravity(s.cells, s.heights) && s.victor.None?
    requires 0 <= col < Cols && s.heights[col] < Rows
    ensures var p := Play(s, col); var row := s.heights[col]; var token := Token(s.moveNum);
      p.cells == Place(s.cells, row, col, token) &&
      (p.victor.Some? <==> FourInARowThrough(p.cells, row, col, token)) &&
      (p.victor.Some? ==>
        p.victor.value == token && p.complete &&
        p.direction == VictoryResult(p.cells, row, col, token) != NoVictor)
  {
    var row := s.heights[col];
    var token := Token(s.moveNum);
    DropKeepsGravity(s.cells, s.heights, col, token);
    var d := Drop(s, col);
    assert d.cells == Place(s.cells, row, col, token) && d.heights == s.heights[col := row + 1];
    if row + 1 < Rows {
      assert d.cells[row + 1][col] == 0;
    }
    ConcludeWinIff(d, row, col, token);
  }

  /** Concluding a move whose cell has nothing above it: a victor is
      declared exactly when the piece completes four in a row. */
  lemma ConcludeWinIff(d: Game, row: int, col: int, token: int)
    requires WellFormed(d.cells) && InBounds(row, col) && token != 0 && d.victor.None?
    requires row + 1 < Rows ==> d.cells[row + 1][col] == 0
    ensures var p := Conclude(d, row, col, token);
      p.cells == d.cells &&
      (p.victor.Some? <==> FourInARowThrough(d.cells, row, col, token)) &&
      (p.victor.Some? ==>
        p.victor.value == token && p.complete &&
        p.direction == VictoryResult(d.cells, row, col, token) != NoVictor)
  {
    assert row + -1 * Vertical.DRow() == row + 1;
    assert col + -1 * Vertical.DCol() == col;
    assert !Holds(d.cells, row, col, Vertical.DRow(), Vertical.DCol(), token, -1);
    FirstLineIsFourInARow(d.cells, row, col, token);
  }

  /** A game that has not ended always offers a legal column, and a game
      that ended without a victor has every column full. */
  lemma LegalMovesUntilEnd(s: Game)
    requires Consistent(s)
    ensures !s.complete ==> s.legal != []
    ensures s.complete && s.victor.None? ==>
      s.legal == [] && forall c :: 0 <= c < Cols ==> s.heights[c] == Rows
  {
    LegalColumnsExact(s.heights);
    if s.complete && s.victor.None? {
      SumBound(s.heights);
      FullBoardHasNoLegalMoves(s.heights);
    }
    if s.legal == [] {
      assert forall c :: 0 <= c < Cols ==> s.heights[c] == Rows by {
        forall c | 0 <= c < Cols ensures s.heights[c] == Rows {
          assert (c + 1 in s.legal) == false;
        }
      }
      SumConstant(s.heights, Rows);
    }
  }

  /** A board array of zeros is the empty grid. */
  lemma ZeroSnapshot(b: array2<int>)
    requires b.Length0 == Rows && b.Length1 == Cols
    requires forall r, c :: 0 <= r < Rows && 0 <= c < Cols ==> b[r, c] == 0
    ensures Snapshot(b) == Initial.cells
  {
    var g := Snapshot(b);
    forall r | 0 <= r < Rows
      ensures g[r] == Initial.cells[r]
    {
      assert forall c :: 0 <= c < Cols ==> g[r][c] == Initial.cells[r][c];
    }
  }

  /** The engine of one game: the board array, heights, legal columns,
      counter, histories and result, as gameBoard.py keeps them. */
  class GameBoard {
    var board: array2<int>
    var moveNum: int
    var isComplete: bool
    var playerOneMoves: seq<int>
    var playerTwoMoves: seq<int>
    var rowHeights: array<int>
    var legalMoves: seq<int>
    var victor: Option<int>
    var victoryDirection: string

    ghost predicate Shaped()
      reads this`board, this`rowHeights
    {
      board.Length0 == Rows && board.Length1 == Cols && rowHeights.Length == Cols
    }

    /** The board array as a grid. */
    ghost function Cells(): Cells
      reads this`board, board
      requires board.Length0 == Rows && board.Length1 == Cols
    {
      Snapshot(board)
    }

    /** Everything the object keeps, as a value. */
    ghost function Model(): Game
      reads this, board, rowHeights
      requires Shaped()
    {
      Game(Cells(), rowHeights[..], legalMoves, moveNum, playerOneMoves, playerTwoMoves,
        victor, victoryDirection, isComplete)
    }

    ghost predicate Valid()
      reads this, board, rowHeights
    {
      Shaped() && Consistent(Model())
    }

    /** An empty board, all columns legal, player one to move. */
    constructor ()
      ensures Valid() && Model() == Initial
      ensures fresh(board) && fresh(rowHeights)
    {
      board := new int[Rows, Cols]((r, c) => 0);
      moveNum := 0;
      isComplete := false;
      playerOneMoves := [];
      playerTwoMoves := [];
      rowHeights := new int[Cols](c => 0);
      legalMoves := [1, 2, 3, 4, 5, 6, 7];
      victor := None;
      victoryDirection := "";
      new;
      ZeroSnapshot(board);
      assert rowHeights[..] == Initial.heights;
      assert Model() == Initial;
      InitialConsistent();
    }

    /** add_piece: reject a column outside 1..7 or a full column and change
        nothing, otherwise drop the token of the player to move and update
        everything the move affects. The board afterwards is AddPieceSpec's,
        whose properties are the lemmas above. */
    method AddPiece(column: int) returns (outcome: Outcome)
      requires Valid() && !isComplete
      modifies this, board, rowHeights
      ensures Valid() && board == old(board) && rowHeights == old(rowHeights)
      ensures (outcome, Model()) == AddPieceSpec(old(Model()), column)
    {
      if column < 1 || column > Cols {
        return Fail(InvalidColumn);
      }
      var colIdx := column - 1;
      if rowHeights[colIdx] == Rows {
        return Fail(ColumnFull);
      }
      PlayColumn(colIdx);
      outcome := Ok;
    }

    /** The accepted branch of add_piece: drop the token, then look for a
        victory through the new piece and record the result. */
    method PlayColumn(colIdx: int)
      requires Valid() && !isComplete && 0 <= colIdx < Cols && rowHeights[colIdx] < Rows
      modifies this, board, rowHeights
      ensures Valid() && board == old(board) && rowHeights == old(rowHeights)
      ensures Model() == Play(old(Model()), colIdx)
    {
      ghost var before := Model();
      var rowIdx, token := DropToken(colIdx);
      ghost var dropped := Model();

      RecordResult(rowIdx, colIdx, token);
      assert Model() == Conclude(dropped, rowIdx, colIdx, token);
      PlayKeepsConsistent(before, colIdx);
    }

    /** The result step of add_piece: check for a victory around the new piece,
        then record the victor and direction, or a stalemate once the board
        is full. */
    method RecordResult(rowIdx: int, colIdx: int, token: int)
      requires Shaped()
      modifies this
      ensures Shaped() && board == old(board) && rowHeights == old(rowHeights)
      ensures Model() == Conclude(old(Model()), rowIdx, colIdx, token)
    {
      var moveResult := CheckVictory(rowIdx, colIdx, token);

      if moveResult != NoVictor {
        victor := Some(token);
        victoryDirection := moveResult;
        isComplete := true;
      } else if moveNum == Rows * Cols {
        isComplete := true;
      }
    }

    /** The placement step of add_piece, for a column that is not full: write the
        token, record the move and advance counter, height and legal list. */
    method DropToken(colIdx: int) returns (rowIdx: int, token: int)
      requires Shaped() && 0 <= colIdx < Cols && 0 <= rowHeights[colIdx] < Rows
      modifies board, rowHeights, this`playerOneMoves, this`playerTwoMoves, this`moveNum, this`legalMoves
      ensures Shaped()
      ensures rowIdx == old(rowHeights[colIdx]) && token == Token(old(moveNum))
      ensures Model() == Drop(old(Model()), colIdx)
    {
      token := 1;
      if moveNum % 2 == 1 {
        token := 2;
      }

      rowIdx := rowHeights[colIdx];
      SetCell(rowIdx, colIdx, token);
      RecordMove(colIdx + 1, token);
      RaiseHeight(colIdx);
    }

    /** The bookkeeping step of add_piece: append the column to the mover's move
        list and advance the move counter. */
    method RecordMove(column: int, token: int)
      modifies this`playerOneMoves, this`playerTwoMoves, this`moveNum
      ensures moveNum == old(moveNum) + 1
      ensures playerOneMoves == if token == 1 then old(playerOneMoves) + [column] else old(playerOneMoves)
      ensures playerTwoMoves == if token == 1 then old(playerTwoMoves) else old(playerTwoMoves) + [column]
    {
      if token == 1 {
        playerOneMoves := playerOneMoves + [column];
      } else {
        playerTwoMoves := playerTwoMoves + [column];
      }
      moveNum := moveNum + 1;
    }

    /** The height step of add_piece: raise the column's height and drop the
        column from the legal list once it is full. */
    method RaiseHeight(colIdx: int)
      requires rowHeights.Length == Cols && 0 <= colIdx < Cols
      modifies rowHeights, this`legalMoves
      ensures rowHeights[..] == old(rowHeights[..])[colIdx := old(rowHeights[colIdx]) + 1]
      ensures legalMoves ==
        if old(rowHeights[colIdx]) + 1 == Rows then RemoveFirst(old(legalMoves), colIdx + 1) else old(legalMoves)
    {
      rowHeights[colIdx] := rowHeights[colIdx] + 1;
      if rowHeights[colIdx] == Rows {
        legalMoves := RemoveFirst(legalMoves, colIdx + 1);
      }
    }

    /** The board assignment of add_piece: one cell of the array changes,
        and so the grid changes in that cell only. */
    method SetCell(row: int, col: int, token: int)
      requires Shaped() && InBounds(row, col)
      modifies board
      ensures Cells() == Place(old(Cells()), row, col, token)
    {
      board[row, col] := token;
      ghost var placed := Place(old(Cells()), row, col, token);
      forall r | 0 <= r < Rows
        ensures Cells()[r] == placed[r]
      {
        assert forall c :: 0 <= c < Cols ==> Cells()[r][c] == placed[r][c];
      }
    }

    /** check_victory: try the four orientations in order and report the
        name of the first whose line count is 3, or "No Victor". */
    method CheckVictory(row: int, col: int, token: int) returns (result: string)
      requires Shaped()
      ensures result == VictoryResult(Cells(), row, col, token)
    {
      result := NoVictor;
      var isVictory := false;
      var vecNum := 0;
      ghost var first := FirstLineFrom(Cells(), row, col, token, 0);

      while !isVictory && vecNum < |Lines|
        invariant 0 <= vecNum <= |Lines|
        invariant isVictory ==> vecNum < |Lines| && first == vecNum
        invariant !isVictory ==> first == FirstLineFrom(Cells(), row, col, token, vecNum)
        decreases |Lines| - vecNum, !isVictory
      {
        isVictory := CheckLineForVictory(row, col, token, Lines[vecNum]);
        if !isVictory {
          vecNum := vecNum + 1;
        }
      }

      if isVictory {
        result := Lines[vecNum].Name();
      }
    }

    /** check_line_for_victory: whether the placed piece has three matching
        neighbours along the orientation. */
    method CheckLineForVictory(row: int, col: int, token: int, line: Line) returns (win: bool)
      requires Shaped()
      ensures win <==> LineCount(Cells(), row, col, token, line) == 3
    {
      var consecTokens := CheckDirectionForTokens(row, col, line.DRow(), line.DCol(), token, 0);
      if line != Vertical {
        consecTokens := CheckDirectionForTokens(row, col, -line.DRow(), -line.DCol(), token, consecTokens);
      }
      win := consecTokens == 3;
    }

    /** check_direction_for_tokens: the bounded walk from (row, col) along
        (dr, dc), continuing from consecTokens. */
    method CheckDirectionForTokens(row: int, col: int, dr: int, dc: int, token: int, consecTokens: int)
      returns (count: int)
      requires Shaped()
      ensures count == Run(Cells(), row, col, dr, dc, token, consecTokens)
    {
      var r, c := row, col;
      count := consecTokens;
      var dirUnbounded := true;
      while dirUnbounded && count < 3
        invariant dirUnbounded ==>
          Run(Cells(), r, c, dr, dc, token, count) == Run(Cells(), row, col, dr, dc, token, consecTokens)
        invariant !dirUnbounded ==> count == Run(Cells(), row, col, dr, dc, token, consecTokens)
        decreases if dirUnbounded then 4 - count else 0
      {
        r, c := r + dr, c + dc;
        if !InBounds(r, c) || board[r, c] != token {
          dirUnbounded := false;
        } else {
          count := count + 1;
        }
      }
    }
  }
}
