/**
 * The 3x3 board shared by the server session and both clients: nine cells holding
 * the text of a button or array slot ("" for an empty cell, otherwise a mark),
 * the eight winning lines, and the win/draw evaluation both sides perform.
 */
module Rules {
  import opened Results

  /** Cell numbers 0..8, row-major. */
  type Index = i: int | 0 <= i < 9

  /** The nine cells; the Java code always holds exactly nine. */
  type Board = b: seq<string> | |b| == 9 witness ["", "", "", "", "", "", "", "", ""]

  /** A board with every cell empty. */
  const Empty: Board := ["", "", "", "", "", "", "", "", ""]

  /** One winning combination of three cells. */
  datatype WinLine = WinLine(a: Index, b: Index, c: Index)

  /** The winning combinations in the order the code scans them: rows, columns, diagonals. */
  const WinLines: seq<WinLine> := [
    WinLine(0, 1, 2), WinLine(3, 4, 5), WinLine(6, 7, 8),
    WinLine(0, 3, 6), WinLine(1, 4, 7), WinLine(2, 5, 8),
    WinLine(0, 4, 8), WinLine(2, 4, 6)
  ]

  /** A line is complete when its three cells hold the same non-empty text. */
  predicate Complete(board: Board, line: WinLine) {
    board[line.a] != "" && board[line.a] == board[line.b] && board[line.b] == board[line.c]
  }

  /** Some winning line is complete. */
  predicate HasLine(board: Board) {
    exists k :: 0 <= k < |WinLines| && Complete(board, WinLines[k])
  }

  /** Line `k` is the first complete line at or after position `from` of the scan. */
  predicate FirstCompleteFrom(board: Board, from: nat, k: int) {
    && from <= k < |WinLines|
    && Complete(board, WinLines[k])
    && forall j :: from <= j < k ==> !Complete(board, WinLines[j])
  }

  /** Line `k` is the first complete line of the whole scan. */
  predicate FirstComplete(board: Board, k: int) {
    FirstCompleteFrom(board, 0, k)
  }

  /** Every cell is empty, "X" or "O". */
  predicate MarksOnly(board: Board) {
    forall i :: 0 <= i < 9 ==> board[i] in {"", "X", "O"}
  }

  /** No cell is empty. */
  predicate Full(board: Board) {
    forall i :: 0 <= i < 9 ==> board[i] != ""
  }

  /** The scan over `WinLines[from..]`: the mark of the first complete line, if any. */
  function WinnerFrom(board: Board, from: nat): (r: Option<string>)
    requires from <= |WinLines|
    ensures r.None? <==> forall j :: from <= j < |WinLines| ==> !Complete(board, WinLines[j])
    ensures r.Some? ==> exists k :: FirstCompleteFrom(board, from, k) && r.value == board[WinLines[k].a]
    decreases |WinLines| - from
  {
    if from == |WinLines| then None
    else if Complete(board, WinLines[from]) then Some(board[WinLines[from].a])
    else WinnerFrom(board, from + 1)
  }

  /** The server's `checkWinner`: the mark of the first complete line, or null. */
  function Winner(board: Board): (r: Option<string>)
    ensures r.Some? <==> HasLine(board)
    ensures r.Some? ==> r.value != ""
    ensures r.Some? ==> exists k :: FirstComplete(board, k) && r.value == board[WinLines[k].a]
  {
    WinnerFrom(board, 0)
  }

  /** At most one line is the first complete one. */
  lemma FirstCompleteUnique(board: Board, k1: int, k2: int)
    requires FirstComplete(board, k1) && FirstComplete(board, k2)
    ensures k1 == k2
  {
  }

  /** Converse of `Winner`'s contract: the first complete line determines the result. */
  lemma WinnerIsFirstLine(board: Board, k: int)
    requires FirstComplete(board, k)
    ensures Winner(board) == Some(board[WinLines[k].a])
  {
    var r := Winner(board);
    var k' :| FirstComplete(board, k') && r.value == board[WinLines[k'].a];
    FirstCompleteUnique(board, k, k');
  }

  /** On a board of "", "X" and "O" the winner is "X" or "O". */
  lemma WinnerIsAMark(board: Board)
    requires MarksOnly(board)
    ensures Winner(board).Some? ==> Winner(board).value in {"X", "O"}
  {
    if Winner(board).Some? {
      var k :| FirstComplete(board, k) && Winner(board).value == board[WinLines[k].a];
      assert board[WinLines[k].a] in {"", "X", "O"};
    }
  }

  /** The client's outcome of `checkWin`. */
  datatype Verdict = Win(mark: string) | Draw | Undecided

  /** The client's `checkWin` decision: the line scan runs first, the full-board test second. */
  function Judge(board: Board): (v: Verdict)
    ensures v.Win? <==> HasLine(board)
    ensures v.Win? ==> Winner(board) == Some(v.mark)
    ensures v.Draw? <==> !HasLine(board) && Full(board)
    ensures v.Undecided? <==> !HasLine(board) && exists i :: 0 <= i < 9 && board[i] == ""
  {
    match Winner(board)
    case Some(m) => Win(m)
    case None => if Full(board) then Draw else Undecided
  }

  /** A full board that also completes a line is a win, never a draw. */
  lemma WinBeatsDraw(board: Board)
    requires Full(board) && HasLine(board)
    ensures Judge(board).Win?
  {
  }

  /** The empty board has no complete line and is not full. */
  lemma EmptyIsUndecided()
    ensures Judge(Empty) == Undecided
    ensures MarksOnly(Empty)
  {
    assert Empty[0] == "";
  }
}
