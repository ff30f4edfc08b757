/**
 * The single-file `GameClient`: the nine button texts, the player's mark, whose
 * turn the client believes it is and whether the game is over. Events are a
 * click on a button and each line the listener thread reads from the server.
 * Besides the fields of the Java class the state records whether the listener
 * thread is still reading and whether the process is still running, since a
 * win ends in `System.exit` and a bad `MOVE:` line kills the listener thread.
 */
module Client {
  import opened Rules
  import opened Protocol

  datatype State = State(
    board: Board,     // the buttons' texts
    myMark: string,
    myTurn: bool,
    gameOver: bool,
    listening: bool,  // the listener thread has not ended
    running: bool     // the process has not exited
  )

  /** A new state and the lines written to the server, in order. */
  datatype Step = Step(next: State, sent: seq<string>)

  /** The constructor: field initialisers, empty buttons, then the identity line. */
  function Connect(playerId: string): (r: Step)
    ensures r.next.board == Empty && r.next.myMark == "X"
    ensures !r.next.myTurn && !r.next.gameOver
    ensures r.next.listening && r.next.running
    ensures r.sent == [PlayerIdLine(playerId)]
  {
    Step(State(Empty, "X", false, false, true, true), [PlayerIdPrefix + playerId])
  }

  /** The mark shown for an opponent's move: `myMark.equals("X") ? "O" : "X"`. */
  function OpponentMark(myMark: string): (m: string)
    ensures m in {"X", "O"}
    ensures m == "O" <==> myMark == "X"
    ensures myMark in {"X", "O"} ==> m != myMark
  {
    if myMark == "X" then "O" else "X"
  }

  /** After a draw: every button cleared; "X" moves first again. */
  function Reset(s: State): (r: State)
    ensures r.board == Empty
    ensures r.myTurn <==> s.myMark == "X"
    ensures r.myMark == s.myMark && r.gameOver == s.gameOver
    ensures r.listening == s.listening && r.running == s.running
  {
    s.(board := Empty, myTurn := s.myMark == "X")
  }

  /** Resetting twice is resetting once. */
  lemma ResetIdempotent(s: State)
    ensures Reset(Reset(s)) == Reset(s)
  {
  }

  /**
   * `checkWin`: a complete line ends the game and `closeConnection` exits the
   * process; otherwise a full board is a draw and resets; otherwise nothing.
   */
  function CheckWin(s: State): (r: State)
    ensures HasLine(s.board) ==> r == s.(gameOver := true, running := false)
    ensures !HasLine(s.board) && Full(s.board) ==> r == Reset(s)
    ensures !HasLine(s.board) && !Full(s.board) ==> r == s
  {
    match Judge(s.board)
    case Win(_) => s.(gameOver := true, running := false)
    case Draw => Reset(s)
    case Undecided => s
  }

  /** The guard of the click handler (a process that has exited has no buttons). */
  predicate CanClick(s: State, i: Index) {
    s.running && s.myTurn && s.board[i] == "" && !s.gameOver
  }

  /** The click handler of button `i`. */
  function Click(s: State, i: Index): (r: Step)
    ensures !CanClick(s, i) ==> r == Step(s, [])
    ensures CanClick(s, i) ==>
              var placed := s.board[i := s.myMark];
              && r.sent == [MoveLine(i)]
              && (HasLine(placed) ==>
                    r.next == s.(board := placed, myTurn := false, gameOver := true, running := false))
              && (!HasLine(placed) && Full(placed) ==> r.next == s.(board := Empty, myTurn := s.myMark == "X"))
              && (!HasLine(placed) && !Full(placed) ==> r.next == s.(board := placed, myTurn := false))
  {
    if CanClick(s, i) then
      Step(CheckWin(s.(board := s.board[i := s.myMark], myTurn := false)), [MovePrefix + IntToString(i)])
    else
      Step(s, [])
  }

  /**
   * One iteration of the listener thread. `MARK:` sets the mark, `TURN` grants the
   * turn, `MOVE:` places the opponent's mark, grants the turn and runs `checkWin`;
   * other lines are ignored. A `MOVE:` whose payload is not a cell number throws
   * an unchecked exception that ends the listener. End of stream ends it quietly;
   * an IOException exits the process unless the game is over.
   */
  function Receive(s: State, input: Inbound): (r: State)
    ensures !s.running || !s.listening ==> r == s
    ensures s.running && s.listening && input.Line? ==>
              var line := input.text;
              && (StartsWith(line, MarkPrefix) ==> r == s.(myMark := Payload(line)))
              && (line == TurnLine ==> r == s.(myTurn := true))
              && (StartsWith(line, MovePrefix) && ParseIndex(Payload(line)).Err? ==> r == s.(listening := false))
              && (StartsWith(line, MovePrefix) && ParseIndex(Payload(line)).Ok? ==>
                    var placed := s.board[ParseIndex(Payload(line)).value := OpponentMark(s.myMark)];
                    && (HasLine(placed) ==>
                          r == s.(board := placed, myTurn := true, gameOver := true, running := false))
                    && (!HasLine(placed) && Full(placed) ==> r == s.(board := Empty, myTurn := s.myMark == "X"))
                    && (!HasLine(placed) && !Full(placed) ==> r == s.(board := placed, myTurn := true)))
              && (!StartsWith(line, MarkPrefix) && line != TurnLine && !StartsWith(line, MovePrefix) ==> r == s)
    ensures s.running && s.listening && input.EndOfStream? ==> r == s.(listening := false)
    ensures s.running && s.listening && input.ReadError? ==>
              r == s.(listening := false, running := s.gameOver)
  {
    if !s.running || !s.listening then s
    else
      match input
      case EndOfStream => s.(listening := false)
      case ReadError => if !s.gameOver then s.(listening := false, running := false) else s.(listening := false)
      case Line(line) =>
        if StartsWith(line, MarkPrefix) then s.(myMark := line[5..])
        else if line == TurnLine then s.(myTurn := true)
        else if StartsWith(line, MovePrefix) then
          match ParseIndex(line[5..])
          case Err(_) => s.(listening := false)
          case Ok(i) => CheckWin(s.(board := s.board[i := OpponentMark(s.myMark)], myTurn := true))
        else s
  }

  /** Something that happens to the client: a button press or a line read. */
  datatype Event = Press(cell: Index) | Hear(input: Inbound)

  function Apply(s: State, e: Event): Step {
    match e
    case Press(i) => Click(s, i)
    case Hear(input) => Step(Receive(s, input), [])
  }

  /** Applies events in order, collecting the lines sent. */
  function Run(s: State, events: seq<Event>): Step
    decreases |events|
  {
    if |events| == 0 then Step(s, [])
    else
      var first := Apply(s, events[0]);
      var rest := Run(first.next, events[1..]);
      Step(rest.next, first.sent + rest.sent)
  }

  /** The state the rest of the model relies on: marks on the board are "X"/"O", and a finished game has exited. */
  predicate WellFormed(s: State) {
    && MarksOnly(s.board)
    && s.myMark in {"X", "O"}
    && (s.gameOver ==> !s.running)
  }

  /** An event other than a `MARK:` line assigning something other than "X" or "O". */
  predicate Benign(e: Event) {
    !(e.Hear? && e.input.Line? && StartsWith(e.input.text, MarkPrefix) && Payload(e.input.text) !in {"X", "O"})
  }

  /** Every well-formed state reachable by one benign event is well-formed. */
  lemma ApplyKeepsWellFormed(s: State, e: Event)
    requires WellFormed(s) && Benign(e)
    ensures WellFormed(Apply(s, e).next)
  {
    match e
    case Press(i) =>
      if CanClick(s, i) {
        PlaceKeepsMarks(s.board, i, s.myMark);
        CheckWinKeepsWellFormed(s.(board := s.board[i := s.myMark], myTurn := false));
      }
    case Hear(input) =>
      if s.running && s.listening && input.Line? && !StartsWith(input.text, MarkPrefix)
         && input.text != TurnLine && StartsWith(input.text, MovePrefix) && ParseIndex(Payload(input.text)).Ok? {
        var i := ParseIndex(Payload(input.text)).value;
        PlaceKeepsMarks(s.board, i, OpponentMark(s.myMark));
        CheckWinKeepsWellFormed(s.(board := s.board[i := OpponentMark(s.myMark)], myTurn := true));
      }
  }

  /** Writing "X" or "O" into one cell keeps every cell "", "X" or "O". */
  lemma PlaceKeepsMarks(board: Board, i: Index, m: string)
    requires MarksOnly(board) && m in {"X", "O"}
    ensures MarksOnly(board[i := m])
  {
    assert forall j :: 0 <= j < 9 ==> board[i := m][j] == (if j == i then m else board[j]);
  }

  /** `checkWin` keeps a well-formed state well-formed. */
  lemma CheckWinKeepsWellFormed(s: State)
    requires WellFormed(s)
    ensures WellFormed(CheckWin(s))
  {
    assert MarksOnly(Empty) by { EmptyIsUndecided(); }
  }

  /** Any sequence of benign events keeps the client well-formed. */
  lemma {:induction false} RunKeepsWellFormed(s: State, events: seq<Event>)
    requires WellFormed(s)
    requires forall k :: 0 <= k < |events| ==> Benign(events[k])
    ensures WellFormed(Run(s, events).next)
    decreases |events|
  {
    if |events| > 0 {
      ApplyKeepsWellFormed(s, events[0]);
      RunKeepsWellFormed(Apply(s, events[0]).next, events[1..]);
    }
  }

  /** Once the process has exited (after a win or a lost connection) nothing changes and nothing is sent. */
  lemma {:induction false} ExitedIsFinal(s: State, events: seq<Event>)
    requires !s.running
    ensures Run(s, events) == Step(s, [])
    decreases |events|
  {
    if |events| > 0 {
      assert Apply(s, events[0]) == Step(s, []);
      ExitedIsFinal(s, events[1..]);
    }
  }

  /** `line` is `MOVE:<i>` for some cell `i`. */
  predicate IsMoveLine(line: string) {
    exists i: Index :: line == MoveLine(i)
  }

  /** The client only ever sends `MOVE:<i>` lines after connecting. */
  lemma {:induction false} RunSendsOnlyMoves(s: State, events: seq<Event>)
    ensures forall k :: 0 <= k < |Run(s, events).sent| ==> IsMoveLine(Run(s, events).sent[k])
    decreases |events|
  {
    if |events| > 0 {
      var first := Apply(s, events[0]);
      var rest := Run(first.next, events[1..]);
      RunSendsOnlyMoves(first.next, events[1..]);
      var sent := Run(s, events).sent;
      assert sent == first.sent + rest.sent;
      forall k | 0 <= k < |sent|
        ensures IsMoveLine(sent[k])
      {
        if k < |first.sent| {
          assert events[0].Press?;
          var i := events[0].cell;
          assert first.sent == [MoveLine(i)];
          assert sent[k] == MoveLine(i);
        } else {
          assert sent[k] == rest.sent[k - |first.sent|];
        }
      }
    }
  }
}
