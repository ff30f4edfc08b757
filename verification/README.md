# Networked tic-tac-toe: server session and client state machines

This project models the game rules and the line protocol of a two-player
tic-tac-toe played over sockets. It has three parts:

- **The server's match session** (`GameSession` in `tictactoe/TicTacToeServer.java`).
  The session empties the shared 9-cell board and sends `MARK:X` to player 1,
  `MARK:O` to player 2 and `TURN` to player 1. Then it runs one relay per player.
  A relay reads a line. If the line is a `MOVE:<i>`, the relay writes its own mark
  into cell `i` and checks for a winner. It forwards the line verbatim to the other
  player, unless the move just won, in which case the relay stops without forwarding.
- **The single-file client** (`GameClient` in `tictactoe/TicTacToeClient.java`).
  Its state is the button texts, `myMark`, `myTurn` and `gameOver`. Its events are
  a click on a button and a line read from the server. Its `checkWin` decides win
  (the process exits), draw (the board resets and "X" moves first) or neither.
- **The refactored client** (`GameClientUI` and its `GameClient` subclass in
  `tictactoe/tictactoeclient.java`). It is defined on its own terms: a base class
  whose click handler does nothing, and a subclass that overrides it. It is then
  proved equal, step by step and over any event sequence, to the single-file client.

Boards are `seq<string>` of length 9 holding `""`, `"X"`, `"O"` or, on a client,
whatever text a `MARK:` line assigned. Each module is a set of pure functions:

- `Rules` holds the win lines, `Winner` (the server's `checkWinner`) and `Judge` (the client's `checkWin` decision).
- `Protocol` holds the prefixes, Java's `Integer.parseInt` and the decimal text of `"MOVE:" + index`.
- `Server`, `Client` and `ClientUI` hold the three state machines.
- `Play` holds lemmas that connect the server to the clients.

Some members are plain definitions with no row of their own; their properties
are stated by the lemmas named here:

- `Protocol.StartsWith` is `String.startsWith`; it appears in every contract that dispatches on a verb.
- `Protocol.IntToString` and `Protocol.MoveLine` build `"MOVE:" + index` (`tictactoe/TicTacToeClient.java:29`); see `Protocol.ParseIntRoundTrip` and `Protocol.MoveLineRoundTrip`.
- `Server.Run` feeds a schedule of relay events to `Server.SessionStep`, standing for the two relay threads and their joins (`tictactoe/TicTacToeServer.java:73-79`); see `Server.RunKeepsMarks`, `Server.RunOnlyForwards` and `Server.RunHaltIsFinal`.
- `Client.Apply` and `Client.Run` dispatch clicks to `Client.Click` and lines to `Client.Receive`; see `Client.RunKeepsWellFormed`, `Client.ExitedIsFinal`, `Client.RunSendsOnlyMoves` and `ClientUI.RunMatches`.

I/O is modelled as follows:

- Outbound lines are returned as lists.
- Inbound lines are events: a line, end of stream (`readLine` returns null) or an IOException.
- The two relay threads become an interleaving of atomic steps, given as a schedule.
- `System.exit` becomes a client flag, `running`, that goes false.
- A listener thread killed by an unchecked exception becomes a flag, `listening`, that goes false.

Behaviour of the code worth noting:

- The server does not check turn order or occupied cells. A `MOVE` overwrites the cell.
- After the opening, the server never originates `TURN`. A client's own `TURN` line is forwarded like any
  other non-move line (`Server.ForwardsNonMoves`), and the receiving client then takes the turn.
- The server does not detect draws and announces no winner to the clients. A winning move is
  not forwarded, so the losing client never sees it (`Play.TopRowScenario`).
- A win stops only the winner's relay. The session closes the sockets only after both relays
  have returned. The other relay keeps reading.
- A malformed or out-of-range `MOVE:` index ends only that relay, with the board unchanged. It
  does not end the session.
- Lines with an unknown verb, such as `PLAYER_ID:`, are not errors. They are forwarded verbatim.

## Model

| member | source | states |
|---|---|---|
| Rules.Winner | tictactoe/TicTacToeServer.java:114-128 | the result is present iff some win line has three equal non-empty cells; it is never `""`; it is the mark of the first complete line in the order rows, columns, diagonals |
| Rules.WinnerFrom | tictactoe/TicTacToeServer.java:120-127 | the scan from position `from` finds nothing iff no later line is complete, and otherwise returns the first complete line's mark |
| Rules.WinnerIsFirstLine | tictactoe/TicTacToeServer.java:120-125 | converse direction: if line `k` is the first complete one, the winner is exactly its mark |
| Rules.WinnerIsAMark | tictactoe/TicTacToeServer.java:121-124 | on a board of `""`/`"X"`/`"O"` the winner is `"X"` or `"O"` |
| Rules.Judge | tictactoe/TicTacToeClient.java:83-103 | win iff some line is complete; draw iff no line is complete and no cell is empty; undecided iff no line is complete and some cell is empty |
| Rules.WinBeatsDraw | tictactoe/TicTacToeClient.java:83-103 | a full board that completes a line is a win, not a draw |
| Protocol.ParseInt | tictactoe/TicTacToeServer.java:96 | `Integer.parseInt`: success only on an optional sign followed by digits; on such a numeral it succeeds exactly when the signed decimal value fits a Java `int`, and then returns that value (so `"+4"`, `"04"` and `"-0"` give 4, 4 and 0) |
| Protocol.DecimalRoundTrip | tictactoe/TicTacToeClient.java:29 | the decimal text of `n` is non-empty, all digits, and reads back as `n` |
| Protocol.ParseIntRoundTrip | tictactoe/TicTacToeClient.java:54 | parsing Java's decimal text of any `int` gives that `int` back |
| Protocol.ParseIndex | tictactoe/TicTacToeServer.java:96-97 | a cell number exactly when `parseInt` gives a value in 0..8; NumberFormatException when it fails; out-of-bounds with the parsed value otherwise |
| Protocol.MoveLineRoundTrip | tictactoe/TicTacToeServer.java:95-96 | the line a client sends for cell `i` starts with `MOVE:`, is not a `MARK:` or `TURN` line, and its payload parses back to `i` |
| Protocol.PlayerIdLineIsInert | tictactoe/TicTacToeClient.java:42 | the identity line is neither a move, a mark assignment nor a turn grant |
| Server.Open | tictactoe/TicTacToeServer.java:64-68 | a new session has nine empty cells, both relays reading, and sends `MARK:X` to player 1, `MARK:O` to player 2, `TURN` to player 1, in that order |
| Server.RelayStep | tictactoe/TicTacToeServer.java:95-107 | a non-`MOVE` line leaves the board and is forwarded verbatim; a bad index crashes with the board unchanged; a good index sets that cell to the relay's mark and leaves the others; the relay stops iff the new board has a complete line, and otherwise always forwards the same line |
| Server.RelayWritesOwnMark | tictactoe/TicTacToeServer.java:73-74 | a relay changes cells only to its own mark and forwards only the line it read |
| Server.SessionStep | tictactoe/TicTacToeServer.java:90-111 | a stopped relay ignores input; a step sends at most one line, to the opponent, equal to the line read; cells change only to the reader's mark; end of stream, an IOException or a bad index stop the relay with the board unchanged; a winning move stops the relay and sends nothing; the other relay is untouched; otherwise the line read is sent to the opponent and the board becomes the relay's board |
| Server.ForwardsNonMoves | tictactoe/TicTacToeServer.java:95-107 | a live relay forwards any non-`MOVE` line, `TURN` and `MARK:` included, verbatim to the opponent and leaves the board unchanged |
| Server.RunKeepsMarks | tictactoe/TicTacToeServer.java:73-79 | under any interleaving of the two relays every cell stays `""`, `"X"` or `"O"` |
| Server.RunOnlyForwards | tictactoe/TicTacToeServer.java:93-107 | every line the session writes after opening is a line the other player sent to it |
| Server.RunHaltIsFinal | tictactoe/TicTacToeServer.java:78-85 | a relay that has returned never reads again; once both have returned the session does nothing more |
| Client.Connect | tictactoe/TicTacToeClient.java:11-42 | the initial state has nine empty cells, mark `"X"`, no turn, not over, and the only line sent is `PLAYER_ID:<id>` |
| Client.OpponentMark | tictactoe/TicTacToeClient.java:55 | the opponent's mark is `"X"` or `"O"`, it is `"O"` iff the own mark is `"X"`, and it differs from a proper own mark |
| Client.Reset | tictactoe/TicTacToeClient.java:110-115 | all cells are empty, the turn is held iff the mark is `"X"`, and nothing else changes |
| Client.ResetIdempotent | tictactoe/TicTacToeClient.java:110-115 | resetting twice equals resetting once |
| Client.CheckWin | tictactoe/TicTacToeClient.java:71-104 | a complete line ends the game and exits; otherwise a full board resets; otherwise nothing changes |
| Client.Click | tictactoe/TicTacToeClient.java:26-33 | when the guard (turn, empty cell, not over) fails, nothing changes and nothing is sent; otherwise exactly `MOVE:<i>` is sent and the whole next state is given for each outcome: win (placed board, game over, exited), draw (board reset, still running), or the placed board with the turn given up and everything else unchanged |
| Client.Receive | tictactoe/TicTacToeClient.java:44-66 | `MARK:` sets only the mark; `TURN` sets only the turn; a good `MOVE:` places the opponent's mark, grants the turn and then wins (exits), draws (resets, keeps running) or continues with nothing else changed; a bad `MOVE:` ends the listener; other lines change nothing; end of stream ends the listener; an IOException ends the listener and exits unless the game is over, changing nothing else |
| Client.ApplyKeepsWellFormed | tictactoe/TicTacToeClient.java:26-58 | one click or line, other than a `MARK:` with an unusual payload, keeps the board `""`/`"X"`/`"O"`, the mark `"X"` or `"O"`, and a finished game exited |
| Client.RunKeepsWellFormed | tictactoe/TicTacToeClient.java:44-58 | the same over any sequence of such events |
| Client.ExitedIsFinal | tictactoe/TicTacToeClient.java:134-138 | after the process exits no event changes anything or sends anything |
| Client.RunSendsOnlyMoves | tictactoe/TicTacToeClient.java:29 | after connecting the client only ever sends `MOVE:<i>` lines for cells 0..8 |
| ClientUI.NewFrame | tictactoe/tictactoeclient.java:5-8 | the base fields start as nine empty buttons, mark `"X"`, no turn, not over |
| ClientUI.NewGameClient | tictactoe/tictactoeclient.java:50-59 | the subclass starts from the base frame with its listener running and sends only `PLAYER_ID:<id>` |
| ClientUI.ResetFrame | tictactoe/tictactoeclient.java:36-41 | `reset` empties all nine buttons and sets the turn iff the mark is `"X"` |
| ClientUI.HandleButtonClick | tictactoe/tictactoeclient.java:28-30 | on a bare `GameClientUI` a click changes nothing and sends nothing |
| ClientUI.ClickOverride | tictactoe/tictactoeclient.java:63-70 | when the guard fails the overridden click changes nothing and sends nothing; otherwise it sends exactly `MOVE:<i>` and gives the whole next object for a win, a draw and a continuing game |
| ClientUI.CheckWin | tictactoe/tictactoeclient.java:96-129 | a complete line ends the game and exits with everything else kept; otherwise a full board resets the frame and nothing else; otherwise nothing changes |
| ClientUI.ListenToServer | tictactoe/tictactoeclient.java:72-94 | a stopped listener changes nothing; end of stream ends it; an IOException ends it and exits unless the game is over; `MARK:` sets only the mark; `TURN` sets only the turn; a bad `MOVE:` ends the listener; a good one places the opponent's mark and wins, draws or continues, each with the whole next object given; other lines change nothing |
| ClientUI.ConnectMatches | tictactoe/tictactoeclient.java:50-57 | the refactored constructor gives the single-file client's initial state and first line |
| ClientUI.ResetMatches | tictactoe/tictactoeclient.java:36-41 | the base class's `reset` is the single-file `reset` |
| ClientUI.ClickMatches | tictactoe/tictactoeclient.java:62-70 | the overridden click handler is the single-file click handler, in state and in lines sent |
| ClientUI.ListenMatches | tictactoe/tictactoeclient.java:76-86 | the subclass listener handles every input like the single-file listener |
| ClientUI.RunMatches | tictactoe/tictactoeclient.java:45-94 | over any sequence of clicks and lines the two clients end in the same state having sent the same lines |
| Play.OpeningHandshake | tictactoe/TicTacToeServer.java:66-68 | player 1 receives `MARK:X` then `TURN` and ends holding `"X"` with the turn; player 2 receives `MARK:O` and holds `"O"` without it; both boards are empty |
| Play.MoveTravels | tictactoe/TicTacToeServer.java:95-107 | a click by the player with mark `m` reaches the server as the same cell, is written as `m`, is forwarded unchanged unless it wins, and the opponent's live client then shows `m` in that cell; if the move fills the opponent's board without completing a line, that client resets instead, since the server detects no draw; if client and server boards agreed, the client's win matches the server's stop |
| Play.TopRowScenario | tictactoe/TicTacToeServer.java:93-108 | in the match X0, O4, X1, O3, X2 every line but the winning move is forwarded; the winning move is not forwarded; player 1's relay stops while player 2's keeps reading, so the session stays open |

## Left out

- Swing and AWT: frames, buttons, fonts, dialogs, window titles, the spectator `GameViewer` and the timestamped server log. Button texts are the board.
- Sockets: the `ServerSocket` accept loop that pairs the first and second connections, readers and writers, and closing sockets. Outbound lines are lists and inbound lines are events. A line written to a closed socket is not modelled.
- Threads and their races. The two relays write the same unsynchronised array, and a client's click handler and listener run on different threads. Each relay step and each client event is modelled as atomic, so a race inside a step (a lost update, or a winner check that sees another thread's half-done write) is not represented.
- The process restart in `closeConnection` (`ProcessBuilder`, the `.jar` check). It always ends in `System.exit`, which is modelled as `running` becoming false.
- The launcher and `main` player-selection screens and the hard-coded server address.
- Protocol.ParseInt: accepts ASCII digits only. Java's `Character.digit` also accepts other Unicode decimal digits, and those are treated here as NumberFormatException.
- Client.Click: clicks come only from the nine buttons, so the cell number has type 0..8.
