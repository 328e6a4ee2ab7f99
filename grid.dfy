/** The Connect-Four grid shared by the board engine and the heuristic player.
    The grid has 6 rows and 7 columns and is indexed [row][col] with row 0 at
    the bottom. A cell holds 0 (empty), 1 (player one) or 2 (player two).
    This module holds the directional scan that both components run, as pure
    specification functions, and the facts proved about it. */
module Grid {

  const Rows: int := 6
  const Cols: int := 7

  type Cells = seq<seq<int>>

  predicate WellFormed(g: Cells) {
    |g| == Rows && forall r :: 0 <= r < Rows ==> |g[r]| == Cols
  }

  predicate InBounds(r: int, c: int) {
    0 <= r < Rows && 0 <= c < Cols
  }

  /** The four line orientations, listed in the order win detection tries them.
      (DRow, DCol) is the vector of the orientation's positive direction. */
  datatype Line = DiagonalUp | Horizontal | DiagonalDown | Vertical {
    function DRow(): int {
      match this
      case DiagonalUp => 1
      case Horizontal => 0
      case DiagonalDown => 1
      case Vertical => -1
    }

    function DCol(): int {
      match this
      case DiagonalUp => 1
      case Horizontal => 1
      case DiagonalDown => -1
      case Vertical => 0
    }

    /** The label the board engine records for a win along this orientation. */
    function Name(): string {
      match this
      case DiagonalUp => "Diagonal Up"
      case Horizontal => "Horizontal"
      case DiagonalDown => "Diagonal Down"
      case Vertical => "Vertical"
    }
  }

  const Lines: seq<Line> := [DiagonalUp, Horizontal, DiagonalDown, Vertical]

  /** The cell i steps from (r, c) along (dr, dc) lies on the grid and holds token. */
  predicate Holds(g: Cells, r: int, c: int, dr: int, dc: int, token: int, i: int)
    requires WellFormed(g)
  {
    InBounds(r + i * dr, c + i * dc) && g[r + i * dr][c + i * dc] == token
  }

  /** The bounded directional walk: starting one step from (r, c), step along
      (dr, dc) adding one to count per cell holding token, and stop at the edge
      of the grid, at the first other cell, or once count has reached 3. */
  function Run(g: Cells, r: int, c: int, dr: int, dc: int, token: int, count: int): (n: int)
    requires WellFormed(g)
    ensures count <= n
    ensures count <= 3 ==> n <= 3
    decreases if count < 3 then 3 - count else 0
  {
    if count >= 3 then count
    else if InBounds(r + dr, c + dc) && g[r + dr][c + dc] == token then
      Run(g, r + dr, c + dc, dr, dc, token, count + 1)
    else count
  }

  /** Matching neighbours along one orientation: the walk in the positive
      direction, then (except for Vertical, which looks downward only) the walk
      in the negated direction, continuing from the first walk's count. */
  function LineCount(g: Cells, r: int, c: int, token: int, line: Line): (n: int)
    requires WellFormed(g)
    ensures 0 <= n <= 3
  {
    var up := Run(g, r, c, line.DRow(), line.DCol(), token, 0);
    if line == Vertical then up
    else Run(g, r, c, -line.DRow(), -line.DCol(), token, up)
  }

  /** Index in Lines of the first orientation, from k on, whose LineCount at
      (r, c) is 3; |Lines| when there is none. */
  function FirstLineFrom(g: Cells, r: int, c: int, token: int, k: nat): (i: nat)
    requires WellFormed(g) && k <= |Lines|
    ensures k <= i <= |Lines|
    decreases |Lines| - k
  {
    if k == |Lines| then k
    else if LineCount(g, r, c, token, Lines[k]) == 3 then k
    else FirstLineFrom(g, r, c, token, k + 1)
  }

  /** A window of four cells along (dr, dc) covering offsets -s .. 3 - s from
      (r, c): every cell of it other than (r, c) itself holds token. */
  predicate FourAround(g: Cells, r: int, c: int, dr: int, dc: int, token: int, s: int)
    requires WellFormed(g)
  {
    forall i :: -s <= i <= 3 - s && i != 0 ==> Holds(g, r, c, dr, dc, token, i)
  }

  /** Some orientation has a window of four through (r, c) whose other three
      cells hold token. */
  predicate FourInARowThrough(g: Cells, r: int, c: int, token: int)
    requires WellFormed(g)
  {
    exists k, s :: 0 <= k < |Lines| && 0 <= s <= 3 &&
      FourAround(g, r, c, Lines[k].DRow(), Lines[k].DCol(), token, s)
  }

  lemma HoldsShift(g: Cells, r: int, c: int, dr: int, dc: int, token: int, i: int)
    requires WellFormed(g)
    ensures Holds(g, r + dr, c + dc, dr, dc, token, i) == Holds(g, r, c, dr, dc, token, i + 1)
  {
    assert r + dr + i * dr == r + (i + 1) * dr;
    assert c + dc + i * dc == c + (i + 1) * dc;
  }

  lemma HoldsNegated(g: Cells, r: int, c: int, dr: int, dc: int, token: int, i: int)
    requires WellFormed(g)
    ensures Holds(g, r, c, -dr, -dc, token, i) == Holds(g, r, c, dr, dc, token, -i)
  {
    assert i * -dr == -i * dr;
    assert i * -dc == -i * dc;
  }

  /** The walk counts exactly the consecutive matching cells from one step out:
      the first n - count cells match, and unless the cap of 3 stopped it, the
      next one does not. */
  lemma {:induction false} RunMatches(g: Cells, r: int, c: int, dr: int, dc: int, token: int, count: int)
    requires WellFormed(g) && 0 <= count <= 3
    ensures var n := Run(g, r, c, dr, dc, token, count);
      count <= n <= 3 &&
      (forall i :: 1 <= i <= n - count ==> Holds(g, r, c, dr, dc, token, i)) &&
      (n < 3 ==> !Holds(g, r, c, dr, dc, token, n - count + 1))
    decreases 3 - count
  {
    var n := Run(g, r, c, dr, dc, token, count);
    if count < 3 && InBounds(r + dr, c + dc) && g[r + dr][c + dc] == token {
      RunMatches(g, r + dr, c + dc, dr, dc, token, count + 1);
      assert n == Run(g, r + dr, c + dc, dr, dc, token, count + 1);
      forall i | 1 <= i <= n - count
        ensures Holds(g, r, c, dr, dc, token, i)
      {
        HoldsShift(g, r, c, dr, dc, token, i - 1);
        if i == 1 {
          assert r + 1 * dr == r + dr && c + 1 * dc == c + dc;
        }
      }
      if n < 3 {
        HoldsShift(g, r, c, dr, dc, token, n - count);
      }
    } else if count < 3 {
      assert r + 1 * dr == r + dr && c + 1 * dc == c + dc;
    }
  }

  /** When the first m cells from one step out all hold token, the walk
      reaches count + m or the cap of 3. */
  lemma RunAtLeast(g: Cells, r: int, c: int, dr: int, dc: int, token: int, count: int, m: int)
    requires WellFormed(g) && 0 <= count <= 3 && 0 <= m
    requires forall i :: 1 <= i <= m ==> Holds(g, r, c, dr, dc, token, i)
    ensures var n := Run(g, r, c, dr, dc, token, count);
      n == 3 || count + m <= n
  {
    var n := Run(g, r, c, dr, dc, token, count);
    RunMatches(g, r, c, dr, dc, token, count);
    assert n < 3 ==> !Holds(g, r, c, dr, dc, token, n - count + 1);
    assert 1 <= n - count + 1 <= m ==> Holds(g, r, c, dr, dc, token, n - count + 1);
  }

  /** A walk begun at count runs on from where a walk begun at 0 left off:
      its result is count plus the other walk's, capped at 3. */
  lemma RunShift(g: Cells, r: int, c: int, dr: int, dc: int, token: int, count: int)
    requires WellFormed(g) && 0 <= count <= 3
    ensures var anew := Run(g, r, c, dr, dc, token, 0);
      Run(g, r, c, dr, dc, token, count) == if count + anew < 3 then count + anew else 3
  {
    var n := Run(g, r, c, dr, dc, token, count);
    var k := Run(g, r, c, dr, dc, token, 0);
    RunMatches(g, r, c, dr, dc, token, count);
    RunMatches(g, r, c, dr, dc, token, 0);
    RunAtLeast(g, r, c, dr, dc, token, 0, n - count);
    RunAtLeast(g, r, c, dr, dc, token, count, k);
  }

  /** The line count adds the two directions: positive plus negated, capped at
      3, for the three orientations other than Vertical; only the downward walk
      for Vertical. */
  lemma LineCountSums(g: Cells, r: int, c: int, token: int, line: Line)
    requires WellFormed(g)
    ensures var up := Run(g, r, c, line.DRow(), line.DCol(), token, 0);
      var down := Run(g, r, c, -line.DRow(), -line.DCol(), token, 0);
      LineCount(g, r, c, token, line) ==
        if line == Vertical then up
        else if up + down < 3 then up + down else 3
  {
    var up := Run(g, r, c, line.DRow(), line.DCol(), token, 0);
    if line != Vertical {
      RunShift(g, r, c, -line.DRow(), -line.DCol(), token, up);
    }
  }

  /** A line count of 3 means four in a row through (r, c): some window of four
      cells along the orientation has token in each of its cells other than
      (r, c). For Vertical, which looks downward only, this needs the cell
      above (r, c) not to hold token, as gravity guarantees on the board. */
  lemma LineWinIsFourInARow(g: Cells, r: int, c: int, token: int, line: Line)
    requires WellFormed(g)
    requires line == Vertical ==> !Holds(g, r, c, line.DRow(), line.DCol(), token, -1)
    ensures LineCount(g, r, c, token, line) == 3 <==>
      exists s :: 0 <= s <= 3 && FourAround(g, r, c, line.DRow(), line.DCol(), token, s)
  {
    if LineCount(g, r, c, token, line) == 3 {
      LineWinGivesFour(g, r, c, token, line);
    }
    if s :| 0 <= s <= 3 && FourAround(g, r, c, line.DRow(), line.DCol(), token, s) {
      FourGivesLineWin(g, r, c, token, line, s);
    }
  }

  /** A line count of 3 shows a window of four. */
  lemma LineWinGivesFour(g: Cells, r: int, c: int, token: int, line: Line)
    requires WellFormed(g) && LineCount(g, r, c, token, line) == 3
    ensures exists s :: 0 <= s <= 3 && FourAround(g, r, c, line.DRow(), line.DCol(), token, s)
  {
    var dr, dc := line.DRow(), line.DCol();
    var up := Run(g, r, c, dr, dc, token, 0);
    RunMatches(g, r, c, dr, dc, token, 0);
    RunMatches(g, r, c, -dr, -dc, token, 0);
    LineCountSums(g, r, c, token, line);
    var s := if line == Vertical then 0 else 3 - up;
    forall i | -s <= i <= 3 - s && i != 0
      ensures Holds(g, r, c, dr, dc, token, i)
    {
      if i < 0 {
        HoldsNegated(g, r, c, dr, dc, token, -i);
      }
    }
    assert FourAround(g, r, c, dr, dc, token, s);
  }

  /** A window of four shows a line count of 3. */
  lemma FourGivesLineWin(g: Cells, r: int, c: int, token: int, line: Line, s: int)
    requires WellFormed(g)
    requires line == Vertical ==> !Holds(g, r, c, line.DRow(), line.DCol(), token, -1)
    requires 0 <= s <= 3 && FourAround(g, r, c, line.DRow(), line.DCol(), token, s)
    ensures LineCount(g, r, c, token, line) == 3
  {
    var dr, dc := line.DRow(), line.DCol();
    LineCountSums(g, r, c, token, line);
    assert 1 <= s ==> Holds(g, r, c, dr, dc, token, -1);
    RunAtLeast(g, r, c, dr, dc, token, 0, 3 - s);
    var ndr, ndc := -dr, -dc;
    forall i | 1 <= i <= s
      ensures Holds(g, r, c, ndr, ndc, token, i)
    {
      HoldsNegated(g, r, c, dr, dc, token, i);
    }
    RunAtLeast(g, r, c, ndr, ndc, token, 0, s);
  }

  /** FirstLineFrom picks the first orientation, in the order of Lines, whose
      line count is 3, and returns |Lines| exactly when there is none. */
  lemma {:induction false} FirstLineIsFirst(g: Cells, r: int, c: int, token: int, k: nat)
    requires WellFormed(g) && k <= |Lines|
    ensures var i := FirstLineFrom(g, r, c, token, k);
      (i < |Lines| ==> LineCount(g, r, c, token, Lines[i]) == 3) &&
      (forall j :: k <= j < i ==> LineCount(g, r, c, token, Lines[j]) != 3)
    decreases |Lines| - k
  {
    if k < |Lines| && LineCount(g, r, c, token, Lines[k]) != 3 {
      FirstLineIsFirst(g, r, c, token, k + 1);
    }
  }

  /** Some orientation has line count 3 at (r, c) exactly when there is four
      in a row through (r, c), given that the cell above does not hold token. */
  lemma FirstLineIsFourInARow(g: Cells, r: int, c: int, token: int)
    requires WellFormed(g)
    requires !Holds(g, r, c, Vertical.DRow(), Vertical.DCol(), token, -1)
    ensures FirstLineFrom(g, r, c, token, 0) < |Lines| <==> FourInARowThrough(g, r, c, token)
  {
    var i := FirstLineFrom(g, r, c, token, 0);
    FirstLineIsFirst(g, r, c, token, 0);
    if i < |Lines| {
      LineWinIsFourInARow(g, r, c, token, Lines[i]);
      var s :| 0 <= s <= 3 && FourAround(g, r, c, Lines[i].DRow(), Lines[i].DCol(), token, s);
      assert FourInARowThrough(g, r, c, token);
    }
    if FourInARowThrough(g, r, c, token) {
      var k, s :| 0 <= k < |Lines| && 0 <= s <= 3 &&
        FourAround(g, r, c, Lines[k].DRow(), Lines[k].DCol(), token, s);
      LineWinIsFourInARow(g, r, c, token, Lines[k]);
    }
  }
}
