/** The heuristic move selector of heuristicAI.py. Given a read-only view of
    the grid, the legal columns and the column heights, it looks at the empty
    slot on top of each legal column, nearest the centre first: a slot that
    completes four for itself wins, one that completes four for the opponent
    is blocked, and otherwise the column whose slot lines up the most own
    pieces is preferred, unless the slot just above it would serve the
    opponent better. */
module Heuristic {
  import opened Grid

  /** The other player's token. */
  function Opponent(player: int): int {
    3 - player
  }

  /** A reply of choose_move: a column, or the misuse of an empty list. */
  datatype Choice = Move(column: int) | NoLegalMoves

  /** What check_for_final_moves records: 0 means none found. */
  datatype Final = Final(winning: int, blocking: int)

  /** The best candidate so far: its column and its own count. */
  datatype Candidate = Candidate(column: int, count: int)

  /** The grid, legal list and heights choose_move accepts: each listed
      column names one of the 7 heights. */
  predicate ValidInputs(g: Cells, cols: seq<int>, heights: seq<int>) {
    WellFormed(g) && |heights| == Cols &&
    forall i :: 0 <= i < |cols| ==> 1 <= cols[i] <= Cols
  }

  // ----- Slots -----------------------------------------------------------

  /** The largest line count around (r, c) among the first k orientations. */
  function BestLineUpTo(g: Cells, r: int, c: int, token: int, k: nat): (n: int)
    requires WellFormed(g) && k <= |Lines|
    ensures 0 <= n <= 3
    ensures forall j :: 0 <= j < k ==> LineCount(g, r, c, token, Lines[j]) <= n
    ensures k > 0 ==> exists j :: 0 <= j < k && LineCount(g, r, c, token, Lines[j]) == n
  {
    if k == 0 then 0
    else
      var m := BestLineUpTo(g, r, c, token, k - 1);
      var l := LineCount(g, r, c, token, Lines[k - 1]);
      if l > m then l else m
  }

  /** _check_slot_for_consec_tokens: how many pieces of token would line up
      with a piece placed at (r, c), capped at 3. */
  function SlotCount(g: Cells, r: int, c: int, token: int): int
    requires WellFormed(g)
  {
    BestLineUpTo(g, r, c, token, |Lines|)
  }

  /** A piece of token placed at (r, c) would complete four in some
      orientation: the search of check_slot_for_final_move finds a line. */
  predicate SlotWins(g: Cells, r: int, c: int, token: int)
    requires WellFormed(g)
  {
    FirstLineFrom(g, r, c, token, 0) < |Lines|
  }

  /** A slot wins exactly when its consecutive count reaches the cap. */
  lemma SlotCountWins(g: Cells, r: int, c: int, token: int)
    requires WellFormed(g)
    ensures SlotCount(g, r, c, token) == 3 <==> SlotWins(g, r, c, token)
  {
    FirstLineIsFirst(g, r, c, token, 0);
    var n := SlotCount(g, r, c, token);
    if n == 3 {
      var j :| 0 <= j < |Lines| && LineCount(g, r, c, token, Lines[j]) == 3;
      assert FirstLineFrom(g, r, c, token, 0) <= j;
    }
  }

  // ----- Centre-first order ----------------------------------------------

  /** Distance of a 1-based column from the centre column. */
  function Dist(x: int): int {
    if x >= (Cols + 1) / 2 then x - (Cols + 1) / 2 else (Cols + 1) / 2 - x
  }

  /** The entries of s at distance d from the centre, in their order in s. */
  function AtDistance(s: seq<int>, d: int): seq<int> {
    if s == [] then []
    else (if Dist(s[0]) == d then [s[0]] else []) + AtDistance(s[1..], d)
  }

  /** The entries of s at distance d and farther, nearer ones first. */
  function Layers(s: seq<int>, d: int): seq<int>
    decreases (Cols + 1) / 2 - d
  {
    if d >= (Cols + 1) / 2 then [] else AtDistance(s, d) + Layers(s, d + 1)
  }

  /** The order in which choose_move looks at the legal columns: nearest the
      centre first, and in the given order among columns equally near. */
  function CentreFirst(s: seq<int>): seq<int> {
    Layers(s, 0)
  }

  lemma {:induction false} AtDistanceMembers(s: seq<int>, d: int)
    ensures forall x :: x in AtDistance(s, d) <==> x in s && Dist(x) == d
  {
    if s != [] {
      AtDistanceMembers(s[1..], d);
      assert forall x :: x in s <==> x == s[0] || x in s[1..];
    }
  }

  lemma {:induction false} AtDistanceAppend(a: seq<int>, b: seq<int>, d: int)
    ensures AtDistance(a + b, d) == AtDistance(a, d) + AtDistance(b, d)
  {
    if a == [] {
      assert a + b == b;
    } else {
      var head := if Dist(a[0]) == d then [a[0]] else [];
      assert (a + b)[0] == a[0] && (a + b)[1..] == a[1..] + b;
      assert AtDistance(a + b, d) == head + AtDistance(a[1..] + b, d);
      AtDistanceAppend(a[1..], b, d);
      assert AtDistance(a, d) == head + AtDistance(a[1..], d);
      assert head + (AtDistance(a[1..], d) + AtDistance(b, d)) == (head + AtDistance(a[1..], d)) + AtDistance(b, d);
    }
  }

  lemma {:induction false} AtDistanceTwice(s: seq<int>, d: int, e: int)
    ensures AtDistance(AtDistance(s, e), d) == if d == e then AtDistance(s, d) else []
  {
    if s != [] {
      AtDistanceTwice(s[1..], d, e);
      var head := if Dist(s[0]) == e then [s[0]] else [];
      AtDistanceAppend(head, AtDistance(s[1..], e), d);
      if Dist(s[0]) == e {
        assert AtDistance(head, d) == if d == e then [s[0]] else [] by {
          assert head[1..] == [];
        }
      }
    }
  }

  /** Filtering the layers from distance e on at distance d keeps the
      entries of s at distance d when d is one of those layers. */
  lemma {:induction false} LayersAtDistance(s: seq<int>, d: int, e: int)
    ensures AtDistance(Layers(s, e), d) ==
      if e <= d < (Cols + 1) / 2 then AtDistance(s, d) else []
    decreases (Cols + 1) / 2 - e
  {
    if e < (Cols + 1) / 2 {
      LayersAtDistance(s, d, e + 1);
      AtDistanceAppend(AtDistance(s, e), Layers(s, e + 1), d);
      AtDistanceTwice(s, d, e);
    }
  }

  lemma {:induction false} LayersMembers(s: seq<int>, e: int)
    ensures forall x :: x in Layers(s, e) <==> x in s && e <= Dist(x) < (Cols + 1) / 2
    decreases (Cols + 1) / 2 - e
  {
    if e < (Cols + 1) / 2 {
      LayersMembers(s, e + 1);
      AtDistanceMembers(s, e);
    }
  }

  lemma {:induction false} AtDistanceAt(s: seq<int>, d: int)
    ensures forall i :: 0 <= i < |AtDistance(s, d)| ==> Dist(AtDistance(s, d)[i]) == d
  {
    if s != [] {
      AtDistanceAt(s[1..], d);
      var head, tail := if Dist(s[0]) == d then [s[0]] else [], AtDistance(s[1..], d);
      assert AtDistance(s, d) == head + tail;
      forall i | 0 <= i < |head + tail|
        ensures Dist((head + tail)[i]) == d
      {
        if i >= |head| {
          assert (head + tail)[i] == tail[i - |head|];
        }
      }
    }
  }

  /** Every entry of the layers from e on is at distance e or farther. */
  lemma {:induction false} LayersFrom(s: seq<int>, e: int)
    ensures forall i :: 0 <= i < |Layers(s, e)| ==> e <= Dist(Layers(s, e)[i])
    decreases (Cols + 1) / 2 - e
  {
    if e < (Cols + 1) / 2 {
      LayersFrom(s, e + 1);
      AtDistanceAt(s, e);
      var a, rest := AtDistance(s, e), Layers(s, e + 1);
      assert Layers(s, e) == a + rest;
      forall i | 0 <= i < |a + rest|
        ensures e <= Dist((a + rest)[i])
      {
        if i < |a| {
          assert (a + rest)[i] == a[i];
        } else {
          assert (a + rest)[i] == rest[i - |a|];
        }
      }
    }
  }

  lemma {:induction false} LayersOrdered(s: seq<int>, e: int)
    ensures forall i, j :: 0 <= i < j < |Layers(s, e)| ==>
      Dist(Layers(s, e)[i]) <= Dist(Layers(s, e)[j])
    decreases (Cols + 1) / 2 - e
  {
    if e < (Cols + 1) / 2 {
      LayersOrdered(s, e + 1);
      LayersFrom(s, e + 1);
      AtDistanceAt(s, e);
      var a, rest := AtDistance(s, e), Layers(s, e + 1);
      var l := a + rest;
      assert Layers(s, e) == l;
      forall i, j | 0 <= i < j < |l|
        ensures Dist(l[i]) <= Dist(l[j])
      {
        if j < |a| {
          assert l[i] == a[i];
          assert l[j] == a[j];
        } else if i < |a| {
          assert l[i] == a[i];
          assert l[j] == rest[j - |a|];
        } else {
          assert l[i] == rest[i - |a|] && l[j] == rest[j - |a|];
        }
      }
    }
  }

  lemma {:induction false} LayersAppend(a: seq<int>, b: seq<int>, e: int)
    ensures multiset(Layers(a + b, e)) == multiset(Layers(a, e)) + multiset(Layers(b, e))
    decreases (Cols + 1) / 2 - e
  {
    if e < (Cols + 1) / 2 {
      LayersAppend(a, b, e + 1);
      AtDistanceAppend(a, b, e);
    }
  }

  lemma {:induction false} LayersSingle(x: int, e: int)
    ensures multiset(Layers([x], e)) ==
      if e <= Dist(x) < (Cols + 1) / 2 then multiset{x} else multiset{}
    decreases (Cols + 1) / 2 - e
  {
    if e < (Cols + 1) / 2 {
      LayersSingle(x, e + 1);
      assert [x][1..] == [];
      var a := AtDistance([x], e);
      assert AtDistance([x][1..], e) == [];
      assert a == if Dist(x) == e then [x] else [];
      assert multiset(Layers([x], e)) == multiset(a) + multiset(Layers([x], e + 1));
    }
  }

  lemma {:induction false} LayersPermutation(s: seq<int>, e: int)
    requires forall i :: 0 <= i < |s| ==> e <= Dist(s[i]) < (Cols + 1) / 2
    ensures multiset(Layers(s, e)) == multiset(s)
  {
    if s != [] {
      var t := s[1..];
      assert s == [s[0]] + t;
      LayersAppend([s[0]], t, e);
      LayersSingle(s[0], e);
      assert forall i :: 0 <= i < |t| ==> t[i] == s[i + 1];
      LayersPermutation(t, e);
      calc {
        multiset(Layers(s, e));
        multiset(Layers([s[0]], e)) + multiset(Layers(t, e));
        multiset{s[0]} + multiset(t);
        multiset([s[0]] + t);
      }
    } else {
      LayersOfEmpty(e);
    }
  }

  lemma {:induction false} LayersOfEmpty(e: int)
    ensures Layers([], e) == []
    decreases (Cols + 1) / 2 - e
  {
    if e < (Cols + 1) / 2 {
      LayersOfEmpty(e + 1);
    }
  }

  lemma {:induction false} AtDistanceNone(s: seq<int>, d: int)
    requires forall i :: 0 <= i < |s| ==> Dist(s[i]) != d
    ensures AtDistance(s, d) == []
  {
    if s != [] {
      assert forall i :: 0 <= i < |s[1..]| ==> s[1..][i] == s[i + 1];
      AtDistanceNone(s[1..], d);
    }
  }

  /** The centre-first order holds only columns of s, each in 1..Cols. */
  lemma CentreFirstInRange(s: seq<int>)
    ensures forall i :: 0 <= i < |CentreFirst(s)| ==>
      1 <= CentreFirst(s)[i] <= Cols && CentreFirst(s)[i] in s
  {
    LayersMembers(s, 0);
    assert (Cols + 1) / 2 == 4;
    forall i | 0 <= i < |CentreFirst(s)|
      ensures 1 <= CentreFirst(s)[i] <= Cols && CentreFirst(s)[i] in s
    {
      assert CentreFirst(s)[i] in CentreFirst(s);
    }
  }

  /** Among columns equally near the centre the given order is kept. */
  lemma CentreFirstStable(s: seq<int>, d: int)
    requires forall i :: 0 <= i < |s| ==> 1 <= s[i] <= Cols
    ensures AtDistance(CentreFirst(s), d) == AtDistance(s, d)
  {
    LayersAtDistance(s, d, 0);
    if !(0 <= d < (Cols + 1) / 2) {
      AtDistanceNone(s, d);
    }
  }

  /** The centre-first order lists the same columns, sorted by distance from
      the centre, and keeps the given order among columns equally near. */
  lemma CentreFirstOrder(s: seq<int>)
    requires forall i :: 0 <= i < |s| ==> 1 <= s[i] <= Cols
    ensures multiset(CentreFirst(s)) == multiset(s)
    ensures forall i, j :: 0 <= i < j < |CentreFirst(s)| ==>
      Dist(CentreFirst(s)[i]) <= Dist(CentreFirst(s)[j])
    ensures forall d :: AtDistance(CentreFirst(s), d) == AtDistance(s, d)
  {
    LayersPermutation(s, 0);
    LayersOrdered(s, 0);
    forall d
      ensures AtDistance(CentreFirst(s), d) == AtDistance(s, d)
    {
      CentreFirstStable(s, d);
    }
  }

  // ----- Final moves -----------------------------------------------------

  /** The slot on top of the column at index i of cols would win for token. */
  predicate WinsAt(g: Cells, cols: seq<int>, heights: seq<int>, token: int, i: int)
    requires ValidInputs(g, cols, heights) && 0 <= i < |cols|
  {
    SlotWins(g, heights[cols[i] - 1], cols[i] - 1, token)
  }

  /** The first index from k on whose slot wins for token, or |cols|. */
  function FirstWinFrom(g: Cells, cols: seq<int>, heights: seq<int>, token: int, k: nat): (i: nat)
    requires ValidInputs(g, cols, heights) && k <= |cols|
    ensures k <= i <= |cols|
    ensures i < |cols| ==> WinsAt(g, cols, heights, token, i)
    ensures forall j :: k <= j < i ==> !WinsAt(g, cols, heights, token, j)
    decreases |cols| - k
  {
    if k == |cols| then k
    else if WinsAt(g, cols, heights, token, k) then k
    else
      var r := FirstWinFrom(g, cols, heights, token, k + 1);
      NoWinBetween(g, cols, heights, token, k, r);
      r
  }

  /** A run of losing indices extends one step down. */
  lemma NoWinBetween(g: Cells, cols: seq<int>, heights: seq<int>, token: int, k: nat, r: nat)
    requires ValidInputs(g, cols, heights) && k < r <= |cols|
    requires !WinsAt(g, cols, heights, token, k)
    requires forall j :: k + 1 <= j < r ==> !WinsAt(g, cols, heights, token, j)
    ensures forall j :: k <= j < r ==> !WinsAt(g, cols, heights, token, j)
  {
    forall j | k <= j < r
      ensures !WinsAt(g, cols, heights, token, j)
    {
      if j != k {
        assert k + 1 <= j < r;
      }
    }
  }

  /** The loop of check_for_final_moves from index i with fields f: stop
      once a winning column is known; a column whose slot wins for me is the
      winning move; otherwise, while no block is known, a column whose slot
      wins for the opponent is the blocking move. */
  function FinalScan(g: Cells, cols: seq<int>, heights: seq<int>, me: int, i: nat, f: Final): Final
    requires ValidInputs(g, cols, heights) && i <= |cols|
    decreases |cols| - i
  {
    if f.winning != 0 || i == |cols| then f
    else
      var col := cols[i] - 1;
      var row := heights[col];
      var next :=
        if SlotWins(g, row, col, me) then f.(winning := cols[i])
        else if f.blocking == 0 && SlotWins(g, row, col, Opponent(me)) then f.(blocking := cols[i])
        else f;
      FinalScan(g, cols, heights, me, i + 1, next)
  }

  /** One pass of the final-move loop at index i, with the slot the source
      looks at. */
  lemma FinalUnfold(g: Cells, cols: seq<int>, heights: seq<int>, me: int, i: nat, f: Final,
                    row: int, col: int, next: Final)
    requires ValidInputs(g, cols, heights) && i < |cols| && f.winning == 0
    requires col == cols[i] - 1 && row == heights[col]
    requires next ==
      if SlotWins(g, row, col, me) then f.(winning := cols[i])
      else if f.blocking == 0 && SlotWins(g, row, col, Opponent(me)) then f.(blocking := cols[i])
      else f
    ensures FinalScan(g, cols, heights, me, i, f) == FinalScan(g, cols, heights, me, i + 1, next)
  {
  }

  /** check_for_final_moves on fresh fields. */
  function FinalMoves(g: Cells, cols: seq<int>, heights: seq<int>, me: int): Final
    requires ValidInputs(g, cols, heights)
  {
    FinalScan(g, cols, heights, me, 0, Final(0, 0))
  }

  /** The result FinalScan from index i and fields f should have: the first
      own win from i on, and the known block or else the first opponent win
      from i on that comes before it. */
  predicate ScanIsFirst(g: Cells, cols: seq<int>, heights: seq<int>, me: int, i: nat, f: Final)
    requires ValidInputs(g, cols, heights) && i <= |cols|
  {
    var w := FirstWinFrom(g, cols, heights, me, i);
    var b := FirstWinFrom(g, cols, heights, Opponent(me), i);
    FinalScan(g, cols, heights, me, i, f) ==
      Final(if w < |cols| then cols[w] else 0,
            if f.blocking != 0 then f.blocking else if b < w then cols[b] else 0)
  }

  lemma {:induction false} FinalScanFirst(g: Cells, cols: seq<int>, heights: seq<int>, me: int, i: nat, f: Final)
    requires ValidInputs(g, cols, heights) && i <= |cols| && f.winning == 0
    ensures ScanIsFirst(g, cols, heights, me, i, f)
    decreases |cols| - i, 1
  {
    if i < |cols| {
      if WinsAt(g, cols, heights, me, i) {
        ScanWinsHere(g, cols, heights, me, i, f);
      } else if f.blocking == 0 && WinsAt(g, cols, heights, Opponent(me), i) {
        ScanBlocksHere(g, cols, heights, me, i, f);
      } else {
        ScanPassesHere(g, cols, heights, me, i, f);
      }
    }
  }

  lemma ScanWinsHere(g: Cells, cols: seq<int>, heights: seq<int>, me: int, i: nat, f: Final)
    requires ValidInputs(g, cols, heights) && i < |cols| && f.winning == 0
    requires WinsAt(g, cols, heights, me, i)
    ensures ScanIsFirst(g, cols, heights, me, i, f)
    decreases |cols| - i, 0
  {
    assert FirstWinFrom(g, cols, heights, me, i) == i;
    assert FinalScan(g, cols, heights, me, i, f) == f.(winning := cols[i]);
  }

  lemma {:induction false} ScanBlocksHere(g: Cells, cols: seq<int>, heights: seq<int>, me: int, i: nat, f: Final)
    requires ValidInputs(g, cols, heights) && i < |cols| && f.winning == 0
    requires !WinsAt(g, cols, heights, me, i) && f.blocking == 0
    requires WinsAt(g, cols, heights, Opponent(me), i)
    ensures ScanIsFirst(g, cols, heights, me, i, f)
    decreases |cols| - i, 0
  {
    var f' := f.(blocking := cols[i]);
    assert FinalScan(g, cols, heights, me, i, f) == FinalScan(g, cols, heights, me, i + 1, f');
    assert FirstWinFrom(g, cols, heights, me, i) == FirstWinFrom(g, cols, heights, me, i + 1);
    assert FirstWinFrom(g, cols, heights, Opponent(me), i) == i;
    FinalScanFirst(g, cols, heights, me, i + 1, f');
  }

  lemma {:induction false} ScanPassesHere(g: Cells, cols: seq<int>, heights: seq<int>, me: int, i: nat, f: Final)
    requires ValidInputs(g, cols, heights) && i < |cols| && f.winning == 0
    requires !WinsAt(g, cols, heights, me, i)
    requires f.blocking == 0 ==> !WinsAt(g, cols, heights, Opponent(me), i)
    ensures ScanIsFirst(g, cols, heights, me, i, f)
    decreases |cols| - i, 0
  {
    var col := cols[i] - 1;
    var row := heights[col];
    assert !SlotWins(g, row, col, me);
    assert f.blocking == 0 ==> !SlotWins(g, row, col, Opponent(me));
    assert FinalScan(g, cols, heights, me, i, f) == FinalScan(g, cols, heights, me, i + 1, f);
    FinalScanFirst(g, cols, heights, me, i + 1, f);
    var w, w' := FirstWinFrom(g, cols, heights, me, i), FirstWinFrom(g, cols, heights, me, i + 1);
    var b, b' := FirstWinFrom(g, cols, heights, Opponent(me), i), FirstWinFrom(g, cols, heights, Opponent(me), i + 1);
    assert w == w';
    assert f.blocking == 0 ==> b == b';
  }

  /** The winning move is the first column, in the order given, whose slot
      wins for me; the blocking move is the first column whose slot wins for
      the opponent, if it comes before the winning one; 0 means none. */
  lemma FinalMovesFirst(g: Cells, cols: seq<int>, heights: seq<int>, me: int)
    requires ValidInputs(g, cols, heights)
    ensures var w := FirstWinFrom(g, cols, heights, me, 0);
      var b := FirstWinFrom(g, cols, heights, Opponent(me), 0);
      FinalMoves(g, cols, heights, me) ==
        Final(if w < |cols| then cols[w] else 0, if b < w then cols[b] else 0)
  {
    FinalScanFirst(g, cols, heights, me, 0, Final(0, 0));
  }

  // ----- Best candidate --------------------------------------------------

  /** The opponent count at the slot directly above (row, col); above the
      top row there is no slot and so no threat. */
  function AboveCount(g: Cells, row: int, col: int, token: int): int
    requires WellFormed(g)
  {
    if row + 1 < Rows then SlotCount(g, row + 1, col, token) else 0
  }

  /** The tie-break loop from index i: a column replaces the best so far
      when its own count is higher and the slot above it gives the
      opponent no more than that count. */
  function BestFrom(g: Cells, cols: seq<int>, heights: seq<int>, me: int, i: nat, best: Candidate): Candidate
    requires ValidInputs(g, cols, heights) && i <= |cols|
    decreases |cols| - i
  {
    if i == |cols| then best
    else
      var col := cols[i] - 1;
      var row := heights[col];
      var own := SlotCount(g, row, col, me);
      var above := AboveCount(g, row, col, Opponent(me));
      BestFrom(g, cols, heights, me, i + 1,
        if own > best.count && above <= own then Candidate(cols[i], own) else best)
  }

  /** One step of the tie-break loop, with the two counts computed for
      index i: its own count and the opponent's count above it. */
  lemma BestUnfold(g: Cells, cols: seq<int>, heights: seq<int>, me: int, i: nat, best: Candidate,
                   row: int, col: int, own: int, above: int, next: Candidate)
    requires ValidInputs(g, cols, heights) && i < |cols|
    requires col == cols[i] - 1 && row == heights[col]
    requires own == SlotCount(g, row, col, me)
    requires row + 1 < Rows ==> above == SlotCount(g, row + 1, col, Opponent(me))
    requires row + 1 >= Rows ==> above == 0
    requires next == if own > best.count && above <= own then Candidate(cols[i], own) else best
    ensures BestFrom(g, cols, heights, me, i, best) == BestFrom(g, cols, heights, me, i + 1, next)
  {
  }

  /** The fallback column: the best candidate, starting from the first
      column in the order with count 0. */
  function BestMove(g: Cells, cols: seq<int>, heights: seq<int>, me: int): int
    requires ValidInputs(g, cols, heights) && cols != []
  {
    BestFrom(g, cols, heights, me, 0, Candidate(cols[0], 0)).column
  }

  /** What index i is worth as a fallback: its own count, or 0 when the
      slot above would give the opponent more. */
  function Score(g: Cells, cols: seq<int>, heights: seq<int>, me: int, i: int): (v: int)
    requires ValidInputs(g, cols, heights) && 0 <= i < |cols|
    ensures 0 <= v <= 3
  {
    var col := cols[i] - 1;
    var row := heights[col];
    var own := SlotCount(g, row, col, me);
    if AboveCount(g, row, col, Opponent(me)) <= own then own else 0
  }

  /** The scores of all indices of cols, in order. */
  function Scores(g: Cells, cols: seq<int>, heights: seq<int>, me: int): (sc: seq<int>)
    requires ValidInputs(g, cols, heights)
    ensures |sc| == |cols|
    ensures forall j :: 0 <= j < |cols| ==> sc[j] == Score(g, cols, heights, me, j)
  {
    seq(|cols|, j requires 0 <= j < |cols| => Score(g, cols, heights, me, j))
  }

  /** One step of the tie-break loop over precomputed scores: a strictly
      higher score takes over. */
  function PickStep(cols: seq<int>, sc: seq<int>, i: nat, best: Candidate): Candidate
    requires |sc| == |cols| && i < |cols|
  {
    if sc[i] > best.count then Candidate(cols[i], sc[i]) else best
  }

  function PickFrom(cols: seq<int>, sc: seq<int>, i: nat, best: Candidate): Candidate
    requires |sc| == |cols| && i <= |cols|
    decreases |cols| - i
  {
    if i == |cols| then best
    else PickFrom(cols, sc, i + 1, PickStep(cols, sc, i, best))
  }

  /** sc[j] is the score of index j. */
  predicate ScoreIs(g: Cells, cols: seq<int>, heights: seq<int>, me: int, sc: seq<int>, j: int)
    requires ValidInputs(g, cols, heights) && |sc| == |cols| && 0 <= j < |cols|
  {
    sc[j] == Score(g, cols, heights, me, j)
  }

  /** One step of the tie-break loop is a step over the scores: with a count
      of at least 0 so far, index i takes over exactly when its score is
      higher. */
  lemma BestStep(g: Cells, cols: seq<int>, heights: seq<int>, me: int, i: nat, best: Candidate, sc: seq<int>)
    requires ValidInputs(g, cols, heights) && i < |cols| && best.count >= 0
    requires |sc| == |cols| && sc[i] == Score(g, cols, heights, me, i)
    ensures PickStep(cols, sc, i, best).count >= 0
    ensures BestFrom(g, cols, heights, me, i, best) ==
      BestFrom(g, cols, heights, me, i + 1, PickStep(cols, sc, i, best))
  {
  }

  /** The tie-break loop, comparing own count and the count above, picks
      what the score comparison picks. */
  lemma BestFromPick(g: Cells, cols: seq<int>, heights: seq<int>, me: int, best: Candidate, sc: seq<int>)
    requires ValidInputs(g, cols, heights) && best.count >= 0
    requires |sc| == |cols| && forall j :: 0 <= j < |cols| ==> ScoreIs(g, cols, heights, me, sc, j)
    ensures BestFrom(g, cols, heights, me, 0, best) == PickFrom(cols, sc, 0, best)
  {
    var i, cur := 0, best;
    while i < |cols|
      invariant i <= |cols| && cur.count >= 0
      invariant BestFrom(g, cols, heights, me, 0, best) == BestFrom(g, cols, heights, me, i, cur)
      invariant PickFrom(cols, sc, 0, best) == PickFrom(cols, sc, i, cur)
    {
      assert ScoreIs(g, cols, heights, me, sc, i);
      BestStep(g, cols, heights, me, i, cur, sc);
      var next := PickStep(cols, sc, i, cur);
      assert PickFrom(cols, sc, i, cur) == PickFrom(cols, sc, i + 1, next);
      i, cur := i + 1, next;
    }
  }

  /** What the tie-break loop knows after index i: best is the column at
      idx; a positive count is idx's score and beats every earlier score,
      and no index before i scores more. */
  predicate PickSoFar(cols: seq<int>, sc: seq<int>, i: nat, best: Candidate, idx: int)
    requires |sc| == |cols| && i <= |cols|
  {
    0 <= idx < |cols| && best.column == cols[idx] && best.count >= 0 &&
    (best.count > 0 ==> idx < i && sc[idx] == best.count) &&
    (best.count == 0 ==> idx == 0) &&
    (forall j :: 0 <= j < i ==> sc[j] <= best.count) &&
    (forall j :: 0 <= j < idx ==> sc[j] < best.count)
  }

  /** k is the first index with the highest of the scores sc. */
  predicate FirstMaxOf(sc: seq<int>, k: int) {
    0 <= k < |sc| &&
    (forall j :: 0 <= j < |sc| ==> sc[j] <= sc[k]) &&
    (forall j :: 0 <= j < k ==> sc[j] < sc[k])
  }

  lemma {:induction false} PickFirstMax(cols: seq<int>, sc: seq<int>, i: nat, best: Candidate, idx: int) returns (k: int)
    requires |sc| == |cols| && i <= |cols|
    requires forall j :: 0 <= j < |sc| ==> sc[j] >= 0
    requires PickSoFar(cols, sc, i, best, idx)
    ensures FirstMaxOf(sc, k)
    ensures PickFrom(cols, sc, i, best).column == cols[k]
    decreases |cols| - i
  {
    if i == |cols| {
      k := idx;
    } else {
      var next := if sc[i] > best.count then Candidate(cols[i], sc[i]) else best;
      if sc[i] > best.count {
        k := PickFirstMax(cols, sc, i + 1, next, i);
      } else {
        k := PickFirstMax(cols, sc, i + 1, next, idx);
      }
    }
  }

  /** The index k of the first highest score among cols. */
  predicate FirstMax(g: Cells, cols: seq<int>, heights: seq<int>, me: int, k: int)
    requires ValidInputs(g, cols, heights)
  {
    0 <= k < |cols| &&
    (forall j :: 0 <= j < |cols| ==> Score(g, cols, heights, me, j) <= Score(g, cols, heights, me, k)) &&
    (forall j :: 0 <= j < k ==> Score(g, cols, heights, me, j) < Score(g, cols, heights, me, k))
  }

  /** The fallback is the first column, in the order given, with the
      highest score. */
  lemma BestIsFirstMax(g: Cells, cols: seq<int>, heights: seq<int>, me: int)
    requires ValidInputs(g, cols, heights) && cols != []
    ensures exists k :: FirstMax(g, cols, heights, me, k) && cols[k] == BestMove(g, cols, heights, me)
  {
    var sc := Scores(g, cols, heights, me);
    assert forall j :: 0 <= j < |cols| ==> ScoreIs(g, cols, heights, me, sc, j);
    BestFromPick(g, cols, heights, me, Candidate(cols[0], 0), sc);
    var k := PickFirstMax(cols, sc, 0, Candidate(cols[0], 0), 0);
    assert FirstMax(g, cols, heights, me, k);
  }

  // ----- choose_move -----------------------------------------------------

  /** choose_move: on the centre-first order, an immediate win, else the
      first block, else the best fallback candidate. */
  function ChooseSpec(g: Cells, legal: seq<int>, heights: seq<int>, me: int): Choice
    requires ValidInputs(g, legal, heights)
  {
    if legal == [] then NoLegalMoves
    else
      var order := CentreFirst(legal);
      CentreFirstInRange(legal);
      CentreFirstOrder(legal);
      var f := FinalMoves(g, order, heights, me);
      if f.winning != 0 then Move(f.winning)
      else if f.blocking != 0 then Move(f.blocking)
      else Move(BestMove(g, order, heights, me))
  }

  /** choose_move answers NoLegalMoves exactly for an empty list and
      otherwise a listed column: the first column nearest the centre that
      wins, else the first that blocks an opponent win, else the fallback. */
  lemma ChoosePriority(g: Cells, legal: seq<int>, heights: seq<int>, me: int)
    requires ValidInputs(g, legal, heights)
    ensures ChooseSpec(g, legal, heights, me) == NoLegalMoves <==> legal == []
    ensures ChooseSpec(g, legal, heights, me).Move? ==> ChooseSpec(g, legal, heights, me).column in legal
    ensures legal != [] ==>
      var order := CentreFirst(legal);
      ValidInputs(g, order, heights) && order != [] &&
      var w := FirstWinFrom(g, order, heights, me, 0);
      var b := FirstWinFrom(g, order, heights, Opponent(me), 0);
      ChooseSpec(g, legal, heights, me) ==
        Move(if w < |order| then order[w]
             else if b < |order| then order[b]
             else BestMove(g, order, heights, me))
  {
    if legal != [] {
      var order := CentreFirst(legal);
      CentreFirstInRange(legal);
      CentreFirstOrder(legal);
      assert |multiset(order)| == |multiset(legal)|;
      FinalMovesFirst(g, order, heights, me);
      BestIsFirstMax(g, order, heights, me);
    }
  }

  /** If some listed column wins at once, choose_move picks a listed column
      that wins at once. */
  lemma ChooseTakesAWin(g: Cells, legal: seq<int>, heights: seq<int>, me: int, col: int)
    requires ValidInputs(g, legal, heights)
    requires 1 <= col <= Cols && col in legal && SlotWins(g, heights[col - 1], col - 1, me)
    ensures var choice := ChooseSpec(g, legal, heights, me);
      choice.Move? && choice.column in legal && 1 <= choice.column <= Cols &&
      SlotWins(g, heights[choice.column - 1], choice.column - 1, me)
  {
    var order := CentreFirst(legal);
    CentreFirstInRange(legal);
    var j := CentreFirstIndex(legal, col);
    FirstWinAtMost(g, order, heights, me, j);
    var w := FirstWinFrom(g, order, heights, me, 0);
    ChooseFirstWin(g, legal, heights, me);
    assert WinsAt(g, order, heights, me, w);
  }

  /** When some column of the centre-first order wins, choose_move picks
      the first such column. */
  lemma ChooseFirstWin(g: Cells, legal: seq<int>, heights: seq<int>, me: int)
    requires ValidInputs(g, legal, heights) && ValidInputs(g, CentreFirst(legal), heights)
    requires FirstWinFrom(g, CentreFirst(legal), heights, me, 0) < |CentreFirst(legal)|
    ensures ChooseSpec(g, legal, heights, me) ==
      Move(CentreFirst(legal)[FirstWinFrom(g, CentreFirst(legal), heights, me, 0)])
  {
    FinalMovesFirst(g, CentreFirst(legal), heights, me);
  }

  /** A column whose slot wins bounds the first winning index. */
  lemma FirstWinAtMost(g: Cells, cols: seq<int>, heights: seq<int>, token: int, j: int)
    requires ValidInputs(g, cols, heights) && 0 <= j < |cols|
    requires SlotWins(g, heights[cols[j] - 1], cols[j] - 1, token)
    ensures FirstWinFrom(g, cols, heights, token, 0) <= j
  {
    assert WinsAt(g, cols, heights, token, j);
  }

  /** Every listed column has a place in the centre-first order. */
  lemma CentreFirstIndex(s: seq<int>, x: int) returns (j: int)
    requires forall i :: 0 <= i < |s| ==> 1 <= s[i] <= Cols
    requires x in s
    ensures 0 <= j < |CentreFirst(s)| && CentreFirst(s)[j] == x
  {
    CentreFirstOrder(s);
    assert x in multiset(CentreFirst(s));
    j :| 0 <= j < |CentreFirst(s)| && CentreFirst(s)[j] == x;
  }

  /** The heuristic player: its token and the two fields the final-move
      search fills in. */
  class HeuristicAI {
    const playerNum: int
    var blockingMove: int
    var winningMove: int

    constructor (playerNum: int)
      ensures this.playerNum == playerNum && blockingMove == 0 && winningMove == 0
    {
      this.playerNum := playerNum;
      blockingMove := 0;
      winningMove := 0;
    }

    /** check_for_final_moves: walk the columns in the order given and record
        the winning or the blocking move, stopping at a winning one. */
    method CheckForFinalMoves(g: Cells, legalMoves: seq<int>, heights: seq<int>)
      requires ValidInputs(g, legalMoves, heights)
      modifies this
      ensures Final(winningMove, blockingMove) ==
        FinalScan(g, legalMoves, heights, playerNum, 0, Final(old(winningMove), old(blockingMove)))
    {
      var currLegalMove := 0;
      while winningMove == 0 && currLegalMove < |legalMoves|
        invariant 0 <= currLegalMove <= |legalMoves|
        invariant FinalScan(g, legalMoves, heights, playerNum, currLegalMove, Final(winningMove, blockingMove)) ==
          FinalScan(g, legalMoves, heights, playerNum, 0, Final(old(winningMove), old(blockingMove)))
      {
        ghost var before := Final(winningMove, blockingMove);
        var column := legalMoves[currLegalMove];
        var colIdx := column - 1;
        var rowIdx := heights[colIdx];
        var win := CheckSlotForFinalMove(g, rowIdx, colIdx, playerNum);
        if win {
          winningMove := column;
        } else if blockingMove == 0 {
          var block := CheckSlotForFinalMove(g, rowIdx, colIdx, Opponent(playerNum));
          if block {
            blockingMove := column;
          }
        }
        FinalUnfold(g, legalMoves, heights, playerNum, currLegalMove, before, rowIdx, colIdx,
          Final(winningMove, blockingMove));
        currLegalMove := currLegalMove + 1;
      }
    }

    /** check_slot_for_final_move: try the four orientations in order until
        one completes four for token through the empty slot (row, col). */
    method CheckSlotForFinalMove(g: Cells, row: int, col: int, token: int) returns (win: bool)
      requires WellFormed(g)
      ensures win <==> SlotWins(g, row, col, token)
    {
      win := false;
      var vecNum := 0;
      ghost var first := FirstLineFrom(g, row, col, token, 0);
      while !win && vecNum < |Lines|
        invariant 0 <= vecNum <= |Lines|
        invariant win ==> vecNum < |Lines| && first == vecNum
        invariant !win ==> first == FirstLineFrom(g, row, col, token, vecNum)
        decreases |Lines| - vecNum, !win
      {
        win := CheckLineForFinalMove(g, row, col, token, Lines[vecNum]);
        if !win {
          vecNum := vecNum + 1;
        }
      }
    }

    /** check_line_for_final_move: whether the line through (row, col) holds
        three pieces of token. */
    method CheckLineForFinalMove(g: Cells, row: int, col: int, token: int, line: Line) returns (win: bool)
      requires WellFormed(g)
      ensures win <==> LineCount(g, row, col, token, line) == 3
    {
      var consecTokens := CountLineTokens(g, row, col, token, line);
      win := consecTokens == 3;
    }

    /** The two scans of check_line_for_final_move: along the orientation,
        then, except for vertical, against it, continuing the count. */
    method CountLineTokens(g: Cells, row: int, col: int, token: int, line: Line) returns (count: int)
      requires WellFormed(g)
      ensures count == LineCount(g, row, col, token, line)
    {
      count := CheckDirForTokens(g, row, col, line.DRow(), line.DCol(), token, 0);
      if line != Vertical {
        count := CheckDirForTokens(g, row, col, -line.DRow(), -line.DCol(), token, count);
      }
    }

    /** check_dir_for_tokens: the bounded walk from (row, col) along
        (dr, dc) over the given grid, continuing from consecTokens. */
    method CheckDirForTokens(g: Cells, row: int, col: int, dr: int, dc: int, token: int, consecTokens: int)
      returns (count: int)
      requires WellFormed(g)
      ensures count == Run(g, row, col, dr, dc, token, consecTokens)
    {
      var r, c := row, col;
      count := consecTokens;
      var dirUnbounded := true;
      while dirUnbounded && count < 3
        invariant dirUnbounded ==>
          Run(g, r, c, dr, dc, token, count) == Run(g, row, col, dr, dc, token, consecTokens)
        invariant !dirUnbounded ==> count == Run(g, row, col, dr, dc, token, consecTokens)
        decreases if dirUnbounded then 4 - count else 0
      {
        r, c := r + dr, c + dc;
        if !InBounds(r, c) || g[r][c] != token {
          dirUnbounded := false;
        } else {
          count := count + 1;
        }
      }
    }

    /** _check_slot_for_consec_tokens: the largest line count of token
        around the empty slot (row, col) over the four orientations.
        Reconstructed from the calls in test_heuristicAI.py; heuristicAI.py
        does not define it. */
    method CheckSlotForConsecTokens(g: Cells, row: int, col: int, token: int) returns (count: int)
      requires WellFormed(g)
      ensures count == SlotCount(g, row, col, token)
    {
      count := 0;
      var vecNum := 0;
      while vecNum < |Lines|
        invariant 0 <= vecNum <= |Lines|
        invariant count == BestLineUpTo(g, row, col, token, vecNum)
      {
        var lineCount := CountLineTokens(g, row, col, token, Lines[vecNum]);
        if lineCount > count {
          count := lineCount;
        }
        vecNum := vecNum + 1;
      }
    }

    /** The tie-break of choose_move over the centre-first order,
        reconstructed like the rest of choose_move. */
    method BestCandidate(g: Cells, order: seq<int>, heights: seq<int>) returns (column: int)
      requires ValidInputs(g, order, heights) && order != []
      ensures column == BestMove(g, order, heights, playerNum)
    {
      var bestColumn, bestCount := order[0], 0;
      ghost var target := BestFrom(g, order, heights, playerNum, 0, Candidate(order[0], 0));
      var i := 0;
      while i < |order|
        invariant 0 <= i <= |order|
        invariant BestFrom(g, order, heights, playerNum, i, Candidate(bestColumn, bestCount)) == target
      {
        bestColumn, bestCount := ConsiderColumn(g, order, heights, i, bestColumn, bestCount);
        i := i + 1;
      }
      column := bestColumn;
    }

    /** One pass of the tie-break loop: index i replaces the best so far
        when its own count is higher and the slot above gives the opponent
        no more. */
    method ConsiderColumn(g: Cells, order: seq<int>, heights: seq<int>, i: nat, bestColumn: int, bestCount: int)
      returns (column: int, count: int)
      requires ValidInputs(g, order, heights) && i < |order|
      ensures var col := order[i] - 1;
        var own := SlotCount(g, heights[col], col, playerNum);
        Candidate(column, count) ==
          if own > bestCount && AboveCount(g, heights[col], col, Opponent(playerNum)) <= own
          then Candidate(order[i], own) else Candidate(bestColumn, bestCount)
      ensures BestFrom(g, order, heights, playerNum, i, Candidate(bestColumn, bestCount)) ==
        BestFrom(g, order, heights, playerNum, i + 1, Candidate(column, count))
    {
      column, count := bestColumn, bestCount;
      var colIdx := order[i] - 1;
      var rowIdx := heights[colIdx];
      var own := CheckSlotForConsecTokens(g, rowIdx, colIdx, playerNum);
      var above := 0;
      if rowIdx + 1 < Rows {
        above := CheckSlotForConsecTokens(g, rowIdx + 1, colIdx, Opponent(playerNum));
      }
      if own > bestCount && above <= own {
        column, count := order[i], own;
      }
      BestUnfold(g, order, heights, playerNum, i, Candidate(bestColumn, bestCount), rowIdx, colIdx, own, above,
        Candidate(column, count));
    }

    /** choose_move: NoLegalMoves for an empty list; otherwise reset the
        fields, search the centre-first order for a winning or blocking
        move, and fall back to the best candidate. heuristicAI.py does not
        define it; it is reconstructed from test_heuristicAI.py. */
    method ChooseMove(g: Cells, legalMoves: seq<int>, heights: seq<int>) returns (choice: Choice)
      requires ValidInputs(g, legalMoves, heights)
      modifies this
      ensures choice == ChooseSpec(g, legalMoves, heights, playerNum)
      ensures legalMoves != [] ==>
        ValidInputs(g, CentreFirst(legalMoves), heights) &&
        Final(winningMove, blockingMove) == FinalMoves(g, CentreFirst(legalMoves), heights, playerNum)
      ensures legalMoves == [] ==> winningMove == old(winningMove) && blockingMove == old(blockingMove)
    {
      if legalMoves == [] {
        return NoLegalMoves;
      }
      blockingMove, winningMove := 0, 0;
      var order := CentreFirst(legalMoves);
      CentreFirstInRange(legalMoves);
      CentreFirstOrder(legalMoves);
      CheckForFinalMoves(g, order, heights);
      if winningMove != 0 {
        choice := Move(winningMove);
      } else if blockingMove != 0 {
        choice := Move(blockingMove);
      } else {
        var column := BestCandidate(g, order, heights);
        choice := Move(column);
      }
    }
  }
}
