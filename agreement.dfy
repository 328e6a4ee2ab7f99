/** How the heuristic player and the board engine fit together: the slot
    test of heuristicAI.py, made on the grid before a move, agrees with the
    victory test of gameBoard.py made after it, and the column the player
    picks from a board's own legal list is one the board accepts. */
module Agreement {
  import opened Grid
  import opened Board
  import opened Heuristic

  /** Writing (row, col) leaves every cell a nonzero number of steps away
      from it along an orientation unchanged. */
  lemma HoldsAwayFromPlace(g: Cells, row: int, col: int, token: int, k: int, t: int, i: int)
    requires WellFormed(g) && InBounds(row, col) && 0 <= k < |Lines| && i != 0
    ensures var dr, dc := Lines[k].DRow(), Lines[k].DCol();
      Holds(Place(g, row, col, token), row, col, dr, dc, t, i) == Holds(g, row, col, dr, dc, t, i)
  {
    var dr, dc := Lines[k].DRow(), Lines[k].DCol();
    var r, c := row + i * dr, col + i * dc;
    assert (r, c) != (row, col) by {
      if k == 0 || k == 2 {
        assert dr == 1 && r == row + i;
      } else if k == 1 {
        assert dc == 1 && c == col + i;
      } else {
        assert dr == -1 && r == row - i;
      }
    }
  }

  /** Four in a row through (row, col) ignores what (row, col) holds. */
  lemma FourInARowIgnoresCentre(g: Cells, row: int, col: int, token: int, t: int)
    requires WellFormed(g) && InBounds(row, col)
    ensures FourInARowThrough(Place(g, row, col, token), row, col, t) <==> FourInARowThrough(g, row, col, t)
  {
    var g' := Place(g, row, col, token);
    forall k, s | 0 <= k < |Lines| && 0 <= s <= 3
      ensures FourAround(g', row, col, Lines[k].DRow(), Lines[k].DCol(), t, s) <==>
        FourAround(g, row, col, Lines[k].DRow(), Lines[k].DCol(), t, s)
    {
      forall i | -s <= i <= 3 - s && i != 0 {
        HoldsAwayFromPlace(g, row, col, token, k, t, i);
      }
    }
  }

  /** On a grid whose cell above (row, col) is empty, the slot test at
      (row, col) answers whether writing token there makes four in a row. */
  lemma SlotWinsIffFour(g: Cells, row: int, col: int, token: int)
    requires WellFormed(g) && InBounds(row, col) && token != 0
    requires row + 1 < Rows ==> g[row + 1][col] == 0
    ensures SlotWins(g, row, col, token) <==> FourInARowThrough(Place(g, row, col, token), row, col, token)
  {
    FourInARowIgnoresCentre(g, row, col, token, token);
    assert row + -1 * Vertical.DRow() == row + 1;
    assert col + -1 * Vertical.DCol() == col;
    assert !Holds(g, row, col, Vertical.DRow(), Vertical.DCol(), token, -1);
    FirstLineIsFourInARow(g, row, col, token);
  }

  /** The heuristic's test for a winning slot, on the grid before the move,
      answers whether the engine declares a victor after the move. */
  lemma SlotWinsIffPlayWins(s: Game, col: int)
    requires WellFormed(s.cells) && |s.heights| == Cols && Gravity(s.cells, s.heights) && s.victor.None?
    requires 0 <= col < Cols && s.heights[col] < Rows
    ensures var token := Token(s.moveNum);
      SlotWins(s.cells, s.heights[col], col, token) <==> Play(s, col).victor == Some(token)
  {
    var row, token := s.heights[col], Token(s.moveNum);
    PlayWinIffFourInARow(s, col);
    if row + 1 < Rows {
      assert InBounds(row + 1, col);
    }
    SlotWinsIffFour(s.cells, row, col, token);
  }

  /** A board's own legal list and heights are inputs choose_move accepts. */
  lemma BoardInputsValid(s: Game)
    requires Consistent(s)
    ensures ValidInputs(s.cells, s.legal, s.heights)
  {
    LegalColumnsExact(s.heights);
    forall i | 0 <= i < |s.legal|
      ensures 1 <= s.legal[i] <= Cols
    {
      assert s.legal[i] in s.legal;
    }
  }

  /** On a game still in progress, choose_move over the board's legal list
      picks a column and add_piece accepts it. */
  lemma ChosenMoveAccepted(s: Game, me: int)
    requires Consistent(s) && !s.complete
    ensures ValidInputs(s.cells, s.legal, s.heights)
    ensures ChooseSpec(s.cells, s.legal, s.heights, me).Move?
    ensures AddPieceSpec(s, ChooseSpec(s.cells, s.legal, s.heights, me).column).0 == Ok
  {
    BoardInputsValid(s);
    LegalMovesUntilEnd(s);
    ChoosePriority(s.cells, s.legal, s.heights, me);
    AcceptedIffLegal(s, ChooseSpec(s.cells, s.legal, s.heights, me).column);
  }

  /** When some legal column wins at once for the player to move, the
      column choose_move picks wins the game. */
  lemma ChosenWinWins(s: Game, col: int)
    requires Consistent(s) && !s.complete
    requires 1 <= col <= Cols && col in s.legal && SlotWins(s.cells, s.heights[col - 1], col - 1, Token(s.moveNum))
    ensures ValidInputs(s.cells, s.legal, s.heights)
    ensures var choice := ChooseSpec(s.cells, s.legal, s.heights, Token(s.moveNum));
      choice.Move? && 1 <= choice.column <= Cols && s.heights[choice.column - 1] < Rows &&
      Play(s, choice.column - 1).victor == Some(Token(s.moveNum))
  {
    var me := Token(s.moveNum);
    BoardInputsValid(s);
    LegalColumnsExact(s.heights);
    ChooseTakesAWin(s.cells, s.legal, s.heights, me, col);
    var c := ChooseSpec(s.cells, s.legal, s.heights, me).column;
    assert s.heights[c - 1] < Rows;
    SlotWinsIffPlayWins(s, c - 1);
  }
}
