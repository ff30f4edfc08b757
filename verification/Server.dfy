/**
 * The server's `GameSession`: it opens a match between the first and second
 * accepted sockets, then runs one relay per player. Each relay reads a line,
 * applies a `MOVE:` to the shared board with that relay's mark, checks for a
 * winner, and forwards the line verbatim to the other player unless the move
 * just won. The two relay threads are modelled as an interleaving of atomic
 * steps over one session value. Turn order and occupied cells are not checked,
 * exactly as in the code.
 */
module Server {
  import opened Results
  import opened Rules
  import opened Protocol

  /** Player 1 is the first accepted socket, player 2 the second. */
  datatype Player = One | Two

  /** The mark each relay writes: player 1's relay writes "X", player 2's writes "O". */
  function MarkOf(p: Player): string {
    if p == One then "X" else "O"
  }

  /** The player a relay forwards to. */
  function Opponent(p: Player): Player {
    if p == One then Two else One
  }

  /** One line written to a player's socket. */
  datatype Send = Send(to: Player, line: string)

  /** The shared board and whether each player's relay thread is still reading. */
  datatype Session = Session(board: Board, relay1: bool, relay2: bool)

  predicate Relaying(s: Session, p: Player) {
    if p == One then s.relay1 else s.relay2
  }

  /** The relay of `p` has returned; the other relay is untouched. */
  function Halt(s: Session, p: Player): (r: Session)
    ensures !Relaying(r, p) && Relaying(r, Opponent(p)) == Relaying(s, Opponent(p))
    ensures r.board == s.board
  {
    if p == One then s.(relay1 := false) else s.(relay2 := false)
  }

  /** Both relay threads have been joined, so the session closes both sockets. */
  predicate Closed(s: Session) {
    !s.relay1 && !s.relay2
  }

  /** A session together with the lines it wrote, in order. */
  datatype Emit = Emit(session: Session, sent: seq<Send>)

  /**
   * `GameSession.run` up to starting the relays: every cell empty, both relays
   * reading, and the opening lines sent.
   */
  function Open(): (r: Emit)
    ensures r.session.board == Empty && Relaying(r.session, One) && Relaying(r.session, Two)
    ensures |r.sent| == 3
    ensures r.sent[0] == Send(One, MarkPrefix + MarkOf(One))
    ensures r.sent[1] == Send(Two, MarkPrefix + MarkOf(Two))
    ensures r.sent[2] == Send(One, TurnLine)
  {
    Emit(Session(Empty, true, true), [Send(One, "MARK:X"), Send(Two, "MARK:O"), Send(One, "TURN")])
  }

  /** What one iteration of a relay loop does with a received line. */
  datatype RelayOutcome =
    | Forward(board: Board, line: string)     // printed to the opponent; keep reading
    | Stop(board: Board, winner: string)      // `break` after a winning move, nothing forwarded
    | Crash(board: Board, error: IndexError)  // unchecked exception ends the relay thread

  /** One pass of the `relay` loop body for player `p`'s line. */
  function RelayStep(board: Board, p: Player, line: string): (r: RelayOutcome)
    ensures !StartsWith(line, MovePrefix) ==> r == Forward(board, line)
    ensures StartsWith(line, MovePrefix) && ParseIndex(Payload(line)).Err? ==>
              r == Crash(board, ParseIndex(Payload(line)).error)
    ensures StartsWith(line, MovePrefix) && ParseIndex(Payload(line)).Ok? ==>
              var i := ParseIndex(Payload(line)).value;
              && r.board[i] == MarkOf(p)
              && (forall j :: 0 <= j < 9 && j != i ==> r.board[j] == board[j])
              && (r.Stop? <==> HasLine(r.board))
              && (r.Stop? ==> Winner(r.board) == Some(r.winner))
              && (r.Forward? ==> r.line == line)
              && (!HasLine(r.board) ==> r == Forward(r.board, line))
  {
    if !StartsWith(line, MovePrefix) then Forward(board, line)
    else
      match ParseIndex(Payload(line))
      case Err(e) => Crash(board, e)
      case Ok(i) =>
        var placed := board[i := MarkOf(p)];
        match Winner(placed)
        case Some(w) => Stop(placed, w)
        case None => Forward(placed, line)
  }

  /** A relay changes a cell only to its own mark, and forwards only the line it read. */
  lemma RelayWritesOwnMark(board: Board, p: Player, line: string)
    ensures forall j :: 0 <= j < 9 ==>
              RelayStep(board, p, line).board[j] == board[j] || RelayStep(board, p, line).board[j] == MarkOf(p)
    ensures RelayStep(board, p, line).Forward? ==> RelayStep(board, p, line).line == line
  {
  }

  /** One event of the interleaving: what `readLine` returned to player `from`'s relay. */
  datatype Event = Event(from: Player, input: Inbound)

  /**
   * One step of player `p`'s relay thread. End of stream and an IOException both
   * end the loop; a relay that has returned ignores further input.
   */
  function SessionStep(s: Session, p: Player, input: Inbound): (r: Emit)
    ensures !Relaying(s, p) ==> r == Emit(s, [])
    ensures Relaying(r.session, Opponent(p)) == Relaying(s, Opponent(p))
    ensures Relaying(r.session, p) ==> Relaying(s, p)
    ensures |r.sent| <= 1
    ensures forall k :: 0 <= k < |r.sent| ==> r.sent[k].to == Opponent(p) && input == Line(r.sent[k].line)
    ensures forall j :: 0 <= j < 9 ==> r.session.board[j] == s.board[j] || r.session.board[j] == MarkOf(p)
    ensures !input.Line? ==> r.session.board == s.board
    ensures Relaying(s, p) && !input.Line? ==> r == Emit(Halt(s, p), [])
    ensures Relaying(s, p) && input.Line? && StartsWith(input.text, MovePrefix) && ParseIndex(Payload(input.text)).Err? ==>
              r == Emit(Halt(s, p), [])
    ensures Relaying(s, p) && input.Line? && RelayStep(s.board, p, input.text).Stop? ==>
              r.sent == [] && !Relaying(r.session, p) && HasLine(r.session.board)
    ensures Relaying(s, p) && input.Line? ==>
              var o := RelayStep(s.board, p, input.text);
              && (o.Forward? ==> r == Emit(s.(board := o.board), [Send(Opponent(p), input.text)]))
              && (o.Stop? ==> r == Emit(Halt(s.(board := o.board), p), []))
              && (o.Crash? ==> r == Emit(Halt(s, p), []))
  {
    if !Relaying(s, p) then Emit(s, [])
    else
      match input
      case EndOfStream => Emit(Halt(s, p), [])
      case ReadError => Emit(Halt(s, p), [])
      case Line(text) =>
        RelayWritesOwnMark(s.board, p, text);
        match RelayStep(s.board, p, text)
        case Forward(b, out) => Emit(s.(board := b), [Send(Opponent(p), out)])
        case Stop(b, _) => Emit(Halt(s.(board := b), p), [])
        case Crash(_, _) => Emit(Halt(s, p), [])
  }

  /**
   * Any line that is not a move, a `TURN` or `MARK:` line included, is relayed
   * verbatim to the other player and leaves the board as it was.
   */
  lemma ForwardsNonMoves(s: Session, p: Player, line: string)
    requires Relaying(s, p) && !StartsWith(line, MovePrefix)
    ensures SessionStep(s, p, Line(line)) == Emit(s, [Send(Opponent(p), line)])
  {
  }

  /** Feeds an interleaving of relay events to the session, collecting what it sends. */
  function Run(s: Session, schedule: seq<Event>): (r: Emit)
    decreases |schedule|
  {
    if |schedule| == 0 then Emit(s, [])
    else
      var first := SessionStep(s, schedule[0].from, schedule[0].input);
      var rest := Run(first.session, schedule[1..]);
      Emit(rest.session, first.sent + rest.sent)
  }

  /** Under any interleaving, every cell stays "", "X" or "O". */
  lemma {:induction false} RunKeepsMarks(s: Session, schedule: seq<Event>)
    requires MarksOnly(s.board)
    ensures MarksOnly(Run(s, schedule).session.board)
    decreases |schedule|
  {
    if |schedule| > 0 {
      var first := SessionStep(s, schedule[0].from, schedule[0].input);
      assert MarkOf(schedule[0].from) in {"X", "O"};
      assert MarksOnly(first.session.board);
      RunKeepsMarks(first.session, schedule[1..]);
    }
  }

  /** `line` was read by player `p`'s relay at some point of the schedule. */
  predicate Received(schedule: seq<Event>, p: Player, line: string) {
    exists j :: 0 <= j < |schedule| && schedule[j] == Event(p, Line(line))
  }

  /** Every line the session sends after opening is a line the other player sent, verbatim. */
  lemma {:induction false} RunOnlyForwards(s: Session, schedule: seq<Event>)
    ensures forall k :: 0 <= k < |Run(s, schedule).sent| ==>
              Received(schedule, Opponent(Run(s, schedule).sent[k].to), Run(s, schedule).sent[k].line)
    decreases |schedule|
  {
    if |schedule| > 0 {
      var first := SessionStep(s, schedule[0].from, schedule[0].input);
      var rest := Run(first.session, schedule[1..]);
      RunOnlyForwards(first.session, schedule[1..]);
      var sent := Run(s, schedule).sent;
      assert sent == first.sent + rest.sent;
      forall k | 0 <= k < |sent|
        ensures Received(schedule, Opponent(sent[k].to), sent[k].line)
      {
        if k < |first.sent| {
          assert sent[k] == first.sent[k];
          assert schedule[0] == Event(Opponent(sent[k].to), Line(sent[k].line));
        } else {
          var m := k - |first.sent|;
          assert sent[k] == rest.sent[m];
          var j :| 0 <= j < |schedule[1..]| && schedule[1..][j] == Event(Opponent(sent[k].to), Line(sent[k].line));
          assert schedule[j + 1] == schedule[1..][j];
        }
      }
    }
  }

  /** A relay that has returned never reads again, whatever the schedule. */
  lemma {:induction false} RunHaltIsFinal(s: Session, p: Player, schedule: seq<Event>)
    requires !Relaying(s, p)
    ensures !Relaying(Run(s, schedule).session, p)
    ensures Closed(s) ==> Run(s, schedule) == Emit(s, [])
    decreases |schedule|
  {
    if |schedule| > 0 {
      var first := SessionStep(s, schedule[0].from, schedule[0].input);
      assert !Relaying(first.session, p);
      assert Closed(s) ==> first == Emit(s, []);
      RunHaltIsFinal(first.session, p, schedule[1..]);
    }
  }
}
