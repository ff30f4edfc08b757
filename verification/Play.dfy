/**
 * How the server session and the clients fit together: the opening lines put
 * each client in the right starting state, and a click travels through the
 * server's relay to the other client as the same cell and the same mark.
 */
module Play {
  import opened Results
  import opened Rules
  import opened Protocol
  import Server
  import Client

  /** The lines addressed to `p`, in the order they were written. */
  function Inbox(sent: seq<Server.Send>, p: Server.Player): (r: seq<string>)
    ensures forall k :: 0 <= k < |r| ==> exists j :: 0 <= j < |sent| && sent[j] == Server.Send(p, r[k])
    ensures forall j :: 0 <= j < |sent| && sent[j].to == p ==> sent[j].line in r
    ensures |sent| > 0 && sent[0].to == p ==> |r| > 0 && r[0] == sent[0].line
    decreases |sent|
  {
    if |sent| == 0 then []
    else
      var rest := Inbox(sent[1..], p);
      assert forall j :: 1 <= j < |sent| ==> sent[j] == sent[1..][j - 1];
      (if sent[0].to == p then [sent[0].line] else []) + rest
  }

  /** Feeds lines to a client's listener in order. */
  function Deliver(s: Client.State, lines: seq<string>): Client.State
    decreases |lines|
  {
    if |lines| == 0 then s else Deliver(Client.Receive(s, Line(lines[0])), lines[1..])
  }

  /**
   * After the opening lines, player 1's client holds "X" and may move, player 2's
   * holds "O" and waits; both boards are empty and both clients are well-formed.
   */
  lemma OpeningHandshake(id1: string, id2: string)
    ensures Inbox(Server.Open().sent, Server.One) == [MarkPrefix + "X", TurnLine]
    ensures Inbox(Server.Open().sent, Server.Two) == [MarkPrefix + "O"]
    ensures var c1 := Deliver(Client.Connect(id1).next, Inbox(Server.Open().sent, Server.One));
            c1.myMark == Server.MarkOf(Server.One) && c1.myTurn && c1.board == Empty && Client.WellFormed(c1)
    ensures var c2 := Deliver(Client.Connect(id2).next, Inbox(Server.Open().sent, Server.Two));
            c2.myMark == Server.MarkOf(Server.Two) && !c2.myTurn && c2.board == Empty && Client.WellFormed(c2)
  {
    OpeningInboxes();
    EmptyIsUndecided();
    FirstClientStarts(id1);
    SecondClientWaits(id2);
    assert Server.MarkOf(Server.One) == "X" && Server.MarkOf(Server.Two) == "O";
  }

  /** The opening lines addressed to each player. */
  lemma OpeningInboxes()
    ensures Inbox(Server.Open().sent, Server.One) == [MarkPrefix + "X", TurnLine]
    ensures Inbox(Server.Open().sent, Server.Two) == [MarkPrefix + "O"]
  {
    var sent := Server.Open().sent;
    var tail2 := sent[1..][1..];
    assert tail2 == [Server.Send(Server.One, TurnLine)] && tail2[1..] == [];
    assert Inbox(tail2, Server.One) == [TurnLine];
    assert Inbox(tail2, Server.Two) == [];
    assert Inbox(sent[1..], Server.One) == [TurnLine];
    assert Inbox(sent[1..], Server.Two) == [MarkPrefix + "O"];
  }

  /** `MARK:X` then `TURN` gives a new client the mark "X" and the turn. */
  lemma FirstClientStarts(id: string)
    ensures var c := Deliver(Client.Connect(id).next, [MarkPrefix + "X", TurnLine]);
            c.myMark == "X" && c.myTurn && c.board == Empty && !c.gameOver && c.running
  {
    var c0 := Client.Connect(id).next;
    assert StartsWith(MarkPrefix + "X", MarkPrefix) && Payload(MarkPrefix + "X") == "X";
    var c1 := Client.Receive(c0, Line(MarkPrefix + "X"));
    assert c1 == c0.(myMark := "X");
    assert !StartsWith(TurnLine, MarkPrefix);
    var c2 := Client.Receive(c1, Line(TurnLine));
    assert c2 == c1.(myTurn := true);
    assert [MarkPrefix + "X", TurnLine][1..] == [TurnLine];
    assert Deliver(c1, [TurnLine]) == Deliver(c2, []) == c2;
  }

  /** `MARK:O` alone gives a new client the mark "O" and no turn. */
  lemma SecondClientWaits(id: string)
    ensures var c := Deliver(Client.Connect(id).next, [MarkPrefix + "O"]);
            c.myMark == "O" && !c.myTurn && c.board == Empty && !c.gameOver && c.running
  {
    var c0 := Client.Connect(id).next;
    assert StartsWith(MarkPrefix + "O", MarkPrefix) && Payload(MarkPrefix + "O") == "O";
    var c1 := Client.Receive(c0, Line(MarkPrefix + "O"));
    assert c1 == c0.(myMark := "O");
    assert [MarkPrefix + "O"][1..] == [];
    assert Deliver(c0, [MarkPrefix + "O"]) == Deliver(c1, []) == c1;
  }

  /**
   * A click by the client playing `p`, relayed by `p`'s relay: the server writes
   * `p`'s mark into the same cell, and when that does not win, forwards the line
   * unchanged to the opponent, whose client reads the same cell and shows `p`'s
   * mark there, unless the move fills its board without a line: the server
   * detects no draw, so the opponent's client resets. When client and server
   * agreed on the board beforehand they agree afterwards on whether the move won.
   */
  lemma MoveTravels(a: Client.State, i: Index, s: Server.Session, p: Server.Player, b: Client.State)
    requires Client.CanClick(a, i) && a.myMark == Server.MarkOf(p)
    requires Server.Relaying(s, p)
    requires b.myMark == Server.MarkOf(Server.Opponent(p))
    ensures var line := Client.Click(a, i).sent[0];
            var srv := Server.SessionStep(s, p, Line(line));
            && Client.Click(a, i).sent == [line]
            && srv.session.board == s.board[i := Server.MarkOf(p)]
            && (!HasLine(srv.session.board) ==> srv.sent == [Server.Send(Server.Opponent(p), line)])
            && (HasLine(srv.session.board) ==> srv.sent == [] && !Server.Relaying(srv.session, p))
            && StartsWith(line, MovePrefix) && !StartsWith(line, MarkPrefix) && line != TurnLine
            && ParseIndex(Payload(line)) == Ok(i)
            && Client.OpponentMark(b.myMark) == Server.MarkOf(p)
            && (a.board == s.board ==> (Client.Click(a, i).next.gameOver <==> HasLine(srv.session.board)))
    ensures b.running && b.listening ==>
              var seen := Client.Receive(b, Line(Client.Click(a, i).sent[0]));
              var pb := b.board[i := Server.MarkOf(p)];
              && (!(Full(pb) && !HasLine(pb)) ==> seen.board == pb && seen.board[i] == Server.MarkOf(p))
              && (Full(pb) && !HasLine(pb) ==> seen.board == Empty)
  {
    ClickOutcome(a, i);
    MoveLineRoundTrip(i);
    MoveStep(s, p, i);
  }

  /** An allowed click sends its move line, and ends the game exactly when the placed mark completes a line. */
  lemma ClickOutcome(a: Client.State, i: Index)
    requires Client.CanClick(a, i)
    ensures Client.Click(a, i).sent == [MoveLine(i)]
    ensures Client.Click(a, i).next.gameOver <==> HasLine(a.board[i := a.myMark])
  {
  }

  /**
   * A sample match, X0, O4, X1, O3, X2, replayed step by step on the server:
   * both identity lines are forwarded, the moves alternate and are forwarded,
   * and X's third move completes the top row. That winning move is not
   * forwarded, so player 2 never receives it, and only player 1's relay stops:
   * the session stays open while player 2's relay keeps reading.
   */
  lemma TopRowScenario()
    ensures Server.SessionStep(Server.Open().session, Server.One, Line("PLAYER_ID:A")) ==
            Server.Emit(Before(1), [Server.Send(Server.Two, "PLAYER_ID:A")])
    ensures Server.SessionStep(Before(1), Server.Two, Line("PLAYER_ID:B")) ==
            Server.Emit(Before(2), [Server.Send(Server.One, "PLAYER_ID:B")])
    ensures Server.SessionStep(Before(2), Server.One, Line("MOVE:0")) ==
            Server.Emit(Before(3), [Server.Send(Server.Two, "MOVE:0")])
    ensures Server.SessionStep(Before(3), Server.Two, Line("MOVE:4")) ==
            Server.Emit(Before(4), [Server.Send(Server.One, "MOVE:4")])
    ensures Server.SessionStep(Before(4), Server.One, Line("MOVE:1")) ==
            Server.Emit(Before(5), [Server.Send(Server.Two, "MOVE:1")])
    ensures Server.SessionStep(Before(5), Server.Two, Line("MOVE:3")) ==
            Server.Emit(Before(6), [Server.Send(Server.One, "MOVE:3")])
    ensures var last := Server.SessionStep(Before(6), Server.One, Line("MOVE:2"));
            && last.sent == []
            && last.session.board == ["X", "X", "X", "O", "O", "", "", "", ""]
            && Winner(last.session.board) == Some("X")
            && !Server.Relaying(last.session, Server.One) && Server.Relaying(last.session, Server.Two)
            && !Server.Closed(last.session)
  {
    ScenarioStep1();
    ScenarioStep2();
    ScenarioStep3();
    ScenarioStep4();
    ScenarioStep5();
    ScenarioStep6();
    ScenarioStep7();
  }

  // One lemma per event of the scenario.
  lemma ScenarioStep1()
    ensures Server.SessionStep(Server.Open().session, Server.One, Line("PLAYER_ID:A")) ==
            Server.Emit(Before(1), [Server.Send(Server.Two, "PLAYER_ID:A")])
  {
    PlayerIdLineIsInert("A");
    assert PlayerIdLine("A") == "PLAYER_ID:A";
  }

  lemma ScenarioStep2()
    ensures Server.SessionStep(Before(1), Server.Two, Line("PLAYER_ID:B")) ==
            Server.Emit(Before(2), [Server.Send(Server.One, "PLAYER_ID:B")])
  {
    PlayerIdLineIsInert("B");
    assert PlayerIdLine("B") == "PLAYER_ID:B";
  }

  lemma ScenarioStep3()
    ensures Server.SessionStep(Before(2), Server.One, Line("MOVE:0")) ==
            Server.Emit(Before(3), [Server.Send(Server.Two, "MOVE:0")])
  {
    NoLineBeforeLastMove();
    assert "MOVE:0" == MovePrefix + [DigitChar(0)];
    assert Before(2).board[0 := "X"] == Board3();
    QuietMove(Before(2), Server.One, 0, Board3());
  }

  lemma ScenarioStep4()
    ensures Server.SessionStep(Before(3), Server.Two, Line("MOVE:4")) ==
            Server.Emit(Before(4), [Server.Send(Server.One, "MOVE:4")])
  {
    NoLineBeforeLastMove();
    assert "MOVE:4" == MovePrefix + [DigitChar(4)];
    assert Before(3).board[4 := "O"] == Board4();
    QuietMove(Before(3), Server.Two, 4, Board4());
  }

  lemma ScenarioStep5()
    ensures Server.SessionStep(Before(4), Server.One, Line("MOVE:1")) ==
            Server.Emit(Before(5), [Server.Send(Server.Two, "MOVE:1")])
  {
    NoLineBeforeLastMove();
    assert "MOVE:1" == MovePrefix + [DigitChar(1)];
    assert Before(4).board[1 := "X"] == Board5();
    QuietMove(Before(4), Server.One, 1, Board5());
  }

  lemma ScenarioStep6()
    ensures Server.SessionStep(Before(5), Server.Two, Line("MOVE:3")) ==
            Server.Emit(Before(6), [Server.Send(Server.One, "MOVE:3")])
  {
    NoLineBeforeLastMove();
    assert "MOVE:3" == MovePrefix + [DigitChar(3)];
    assert Before(5).board[3 := "O"] == Board6();
    QuietMove(Before(5), Server.Two, 3, Board6());
  }

  lemma ScenarioStep7()
    ensures Server.SessionStep(Before(6), Server.One, Line("MOVE:2")) ==
            Server.Emit(Server.Session(Board7(), false, true), [])
    ensures Winner(Board7()) == Some("X")
  {
    assert FirstComplete(Board7(), 0);
    WinnerIsFirstLine(Board7(), 0);
    assert Complete(Board7(), WinLines[0]);
    assert "MOVE:2" == MovePrefix + [DigitChar(2)];
    WinningMove(Before(6), Server.One, 2, Board7());
    assert Server.Halt(Before(6).(board := Board7()), Server.One) == Server.Session(Board7(), false, true);
  }

  /** The session before event `k` of the scenario (events numbered from 0). */
  function Before(k: nat): Server.Session
    requires k < 7
  {
    var live := Server.Session(Empty, true, true);
    if k <= 2 then live
    else if k == 3 then live.(board := Board3())
    else if k == 4 then live.(board := Board4())
    else if k == 5 then live.(board := Board5())
    else live.(board := Board6())
  }

  // The boards after X at 0, O at 4, X at 1, O at 3 and X at 2.
  function Board3(): Board { ["X", "", "", "", "", "", "", "", ""] }
  function Board4(): Board { ["X", "", "", "", "O", "", "", "", ""] }
  function Board5(): Board { ["X", "X", "", "", "O", "", "", "", ""] }
  function Board6(): Board { ["X", "X", "", "O", "O", "", "", "", ""] }
  function Board7(): Board { ["X", "X", "X", "O", "O", "", "", "", ""] }

  /** No line is complete before X's third move. */
  lemma NoLineBeforeLastMove()
    ensures !HasLine(Board3()) && !HasLine(Board4()) && !HasLine(Board5()) && !HasLine(Board6())
  {
    NoLineOnBoard6();
    NoLineUnderBoard6(Board3());
    NoLineUnderBoard6(Board4());
    NoLineUnderBoard6(Board5());
  }

  /** Board 6 completes no line: every line holds an empty cell or two different marks. */
  lemma NoLineOnBoard6()
    ensures !HasLine(Board6())
  {
    var b := Board6();
    forall k | 0 <= k < |WinLines|
      ensures !Complete(b, WinLines[k])
    {
      var l := WinLines[k];
      assert b[l.a] == "" || b[l.b] == "" || b[l.c] == "" || b[l.a] != b[l.b] || b[l.b] != b[l.c];
    }
  }

  /** A board whose marks all appear on board 6 completes no line, since board 6 completes none. */
  lemma NoLineUnderBoard6(b: Board)
    requires forall j :: 0 <= j < 9 ==> b[j] == "" || b[j] == Board6()[j]
    ensures !HasLine(b)
  {
    NoLineOnBoard6();
    forall k | 0 <= k < |WinLines|
      ensures !Complete(b, WinLines[k])
    {
      assert !Complete(Board6(), WinLines[k]);
    }
  }

  /** A move that completes no line is written and forwarded. */
  lemma QuietMove(s: Server.Session, p: Server.Player, i: Index, placed: Board)
    requires Server.Relaying(s, p) && placed == s.board[i := Server.MarkOf(p)] && !HasLine(placed)
    ensures Server.SessionStep(s, p, Line(MovePrefix + [DigitChar(i)])) ==
            Server.Emit(s.(board := placed), [Server.Send(Server.Opponent(p), MovePrefix + [DigitChar(i)])])
  {
    MoveStep(s, p, i);
  }

  /** A move that completes a line is written and ends the relay without forwarding. */
  lemma WinningMove(s: Server.Session, p: Server.Player, i: Index, placed: Board)
    requires Server.Relaying(s, p) && placed == s.board[i := Server.MarkOf(p)] && HasLine(placed)
    ensures Server.SessionStep(s, p, Line(MovePrefix + [DigitChar(i)])) == Server.Emit(Server.Halt(s.(board := placed), p), [])
  {
    MoveStep(s, p, i);
  }

  /** One step of `p`'s relay on the literal line `MOVE:<i>`. */
  lemma MoveStep(s: Server.Session, p: Server.Player, i: Index)
    requires Server.Relaying(s, p)
    ensures MoveLine(i) == MovePrefix + [DigitChar(i)]
    ensures var r := Server.SessionStep(s, p, Line(MoveLine(i)));
            var placed := s.board[i := Server.MarkOf(p)];
            && r.session.board == placed
            && (!HasLine(placed) ==> r == Server.Emit(s.(board := placed), [Server.Send(Server.Opponent(p), MoveLine(i))]))
            && (HasLine(placed) ==> r == Server.Emit(Server.Halt(s.(board := placed), p), []))
  {
    MoveLineRoundTrip(i);
  }
}
